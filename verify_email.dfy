/** The email-verification callback page: read the provider's parameters from
    the URL fragment, establish and read back the session, decide whether the
    email is confirmed, and make sure an unconfirmed user has a profile row. */
module VerifyEmail {
  import opened Js
  import opened UrlFragment
  import opened ProfileStore
  import opened Supabase

  const CheckEmailMessage := "Please check your email and click the verification link."
  const ProcessingMessage := "Processing verification..."
  const VerifiedMessage := "Email verified successfully! Redirecting to login..."
  const PendingMessage := "Your email is pending verification. Please check your inbox."
  const UnconfirmedMessage := "Unable to confirm verification status. Please try logging in."
  const FailurePrefix := "Failed to verify email: "
  const LoginPath := "/login"
  const RedirectDelayMs := 2000

  /** `params.get(name)` for `new URLSearchParams(location.hash.substring(1))`:
      the value of the first pair with that name. */
  function CallbackParam(hash: string, name: string): (r: Option<string>)
    ensures var params := ParseQuery(FragmentQuery(hash));
      r.None? <==> forall i :: 0 <= i < |params| ==> params[i].0 != name
    ensures var params := ParseQuery(FragmentQuery(hash));
      r.Some? ==>
        exists i :: 0 <= i < |params| && params[i] == (name, r.value) &&
          forall j :: 0 <= j < i ==> params[j].0 != name
    ensures |hash| <= 1 || '=' in name ==> r.None?
  {
    Get(ParseQuery(FragmentQuery(hash)), name)
  }

  /** `user?.email_confirmed_at || user?.confirmed_at` is truthy: either
      timestamp, checked in that order, marks the email as confirmed. */
  function IsConfirmed(user: Option<User>): (r: bool)
    ensures r <==> user.Some? && FirstTruthy([user.value.emailConfirmedAt, user.value.confirmedAt]).Some?
  {
    user.Some? && (Truthy(user.value.emailConfirmedAt) || Truthy(user.value.confirmedAt))
  }

  /** `profileError || !profileData` after the `single()` select: an error
      reply or no row calls for an insert. A select that throws lands in the
      catch and inserts nothing. */
  function NeedsProfile(lookup: Reply): (r: bool)
    ensures r <==> lookup.Failed? || lookup == Data(None)
  {
    match lookup
    case Failed(_) => true
    case Data(row) => row.None?
    case Threw(_) => false
  }

  /** The row created for an unconfirmed user: id and email, name and phone
      from the metadata or empty, not deleted. */
  function ProfileSeed(user: User): (row: Profile)
    ensures SeededFrom(row, user) && row.isDeleted == Some(false)
  {
    Profile(user.id, user.email, Some(Or(user.metadata.fullName, "")), Some(Or(user.metadata.phoneNumber, "")), Some(false))
  }

  /** Against a healthy table, the select-then-insert step leaves a row for
      the user, whether or not one was there before. */
  lemma ProfileGuaranteed(rows: Rows, user: User)
    ensures var lookup := SelectById(rows, user.id, Single, Healthy);
      user.id in (if NeedsProfile(lookup) then InsertRow(rows, ProfileSeed(user), Healthy).rows else rows)
  {
  }

  /** The fragment the provider appends to the link in its email. */
  function CallbackHash(accessToken: string, refreshToken: string): string {
    "#" + Serialize([("access_token", accessToken), ("refresh_token", refreshToken), ("type", "signup")])
  }

  /** The handler reads back the tokens the provider put in the fragment. */
  lemma CallbackHashParams(accessToken: string, refreshToken: string)
    requires Plain(accessToken) && Plain(refreshToken)
    ensures CallbackParam(CallbackHash(accessToken, refreshToken), "access_token") == Some(accessToken)
    ensures CallbackParam(CallbackHash(accessToken, refreshToken), "refresh_token") == Some(refreshToken)
  {
    var fragment := [("access_token", accessToken), ("refresh_token", refreshToken), ("type", "signup")];
    ParseSerialize(fragment);
    assert FragmentQuery(CallbackHash(accessToken, refreshToken)) == Serialize(fragment);
    assert "access_token" != "refresh_token" by { assert "access_token"[0] != "refresh_token"[0]; }
    assert fragment[1..] == [("refresh_token", refreshToken), ("type", "signup")];
    assert Get(fragment, "refresh_token") == Get(fragment[1..], "refresh_token");
  }

  /** The callback component's state; `hash` is `location.hash`. */
  class VerifyEmailPage {
    const client: Client
    const hash: string
    /** The two tokens the handler reads from the fragment. */
    const accessToken: Option<string>
    const refreshToken: Option<string>
    var loading: bool
    var error: Option<string>
    var message: Option<string>
    var navigations: seq<Nav>

    ghost predicate Valid()
      reads this, client
    {
      client.Valid()
    }

    constructor(client: Client, hash: string)
      requires client.Valid()
      ensures Valid() && this.client == client && this.hash == hash
      ensures accessToken == CallbackParam(hash, "access_token") && refreshToken == CallbackParam(hash, "refresh_token")
      ensures loading && error == None && message == None && navigations == []
    {
      this.client, this.hash := client, hash;
      accessToken, refreshToken := CallbackParam(hash, "access_token"), CallbackParam(hash, "refresh_token");
      loading, error, message, navigations := true, None, None, [];
    }

    /** What the page and the table look like once the user has been asked
        for, given the rows, navigations, error and message from before and
        the trace up to and including `getUser`. */
    ghost predicate Provisioned(rows0: Rows, started: seq<Call>, navs0: seq<Nav>, error0: Option<string>,
                                message0: Option<string>, userReply: UserReply, selectFault: Fault, insertFault: Fault)
      reads this, client
    {
      if userReply.UserThrew? then
        // a rejected `getUser` ends in the catch: the error shows, the message stays
        error == Some(FailurePrefix + userReply.message) && message == message0 && navigations == navs0 &&
        client.rows == rows0 && client.trace == started
      else
        var user := UserOf(userReply);
        // an error reply is not looked at: it reads as no user
        error == error0 &&
        // confirmed: the success message and one redirect, no profile access
        (IsConfirmed(user) ==>
          message == Some(VerifiedMessage) && navigations == navs0 + [NavigateAfter(LoginPath, RedirectDelayMs)] &&
          client.rows == rows0 && client.trace == started) &&
        (!IsConfirmed(user) ==> message == Some(PendingMessage) && navigations == navs0) &&
        (!IsConfirmed(user) && user.None? ==> client.rows == rows0 && client.trace == started) &&
        // unconfirmed: a row is inserted only when the select errs or finds none
        (!IsConfirmed(user) && user.Some? ==>
          var lookup := SelectById(rows0, user.value.id, Single, selectFault);
          (NeedsProfile(lookup) ==>
            client.trace == started + [SelectProfile(user.value.id, Single), InsertProfile(ProfileSeed(user.value))] &&
            client.rows == InsertRow(rows0, ProfileSeed(user.value), insertFault).rows) &&
          (!NeedsProfile(lookup) ==>
            client.trace == started + [SelectProfile(user.value.id, Single)] && client.rows == rows0) &&
          (selectFault.Healthy? && insertFault.Healthy? ==> user.value.id in client.rows))
    }

    /** The effect's handler. What `setSession` reports or throws is caught
        and only logged, so it is not an input. */
    method HandleEmailVerification(session: SessionReply, userReply: UserReply, selectFault: Fault, insertFault: Fault)
      requires Valid()
      modifies this, client
      ensures Valid() && !loading
      // no access token in the fragment: nothing is asked of anyone
      ensures !Truthy(accessToken) ==>
        message == Some(CheckEmailMessage) && error == old(error) && navigations == old(navigations) &&
        client.rows == old(client.rows) && client.trace == old(client.trace)
      ensures Truthy(accessToken) ==>
        var started := old(client.trace) +
          [SetSession(accessToken.value, refreshToken), GetSession];
        // whatever setSession did, the session is read back; its error or
        // rejection is reported
        (!session.SessionData? ==>
          error == Some(FailurePrefix + session.message) && message == Some(ProcessingMessage) &&
          navigations == old(navigations) && client.rows == old(client.rows) && client.trace == started) &&
        // no session: no user read, no profile access
        (session == SessionData(None) ==>
          message == Some(UnconfirmedMessage) && error == old(error) &&
          navigations == old(navigations) && client.rows == old(client.rows) && client.trace == started)
      ensures Truthy(accessToken) && session.SessionData? && session.session.Some? ==>
        Provisioned(old(client.rows),
          old(client.trace) + [SetSession(accessToken.value, refreshToken), GetSession, GetUser],
          old(navigations), old(error), Some(ProcessingMessage), userReply, selectFault, insertFault)
    {
      if Truthy(accessToken) {
        message := Some(ProcessingMessage);
        // an error from setSession is logged and the handler carries on
        client.Request(SetSession(accessToken.value, refreshToken));
        client.Request(GetSession);
        match session {
          case SessionFailed(m) =>
            error := Some(FailurePrefix + m);
          case SessionThrew(m) =>
            error := Some(FailurePrefix + m);
          case SessionData(s) =>
            if s.Some? {
              ConfirmOrProvision(userReply, selectFault, insertFault);
            } else {
              message := Some(UnconfirmedMessage);
            }
        }
      } else {
        message := Some(CheckEmailMessage);
      }
      loading := false;
    }

    /** The part of the handler that runs once a session is present: read the
        user, then either schedule the redirect or guarantee a profile row; a
        rejected read ends in the handler's catch. */
    method ConfirmOrProvision(userReply: UserReply, selectFault: Fault, insertFault: Fault)
      requires Valid()
      modifies this, client
      ensures Valid() && loading == old(loading)
      ensures Provisioned(old(client.rows), old(client.trace) + [GetUser], old(navigations), old(error), old(message),
                          userReply, selectFault, insertFault)
    {
      client.Request(GetUser);
      var user := UserOf(userReply);
      if userReply.UserThrew? {
        error := Some(FailurePrefix + userReply.message);
      } else if IsConfirmed(user) {
        message := Some(VerifiedMessage);
        navigations := navigations + [NavigateAfter(LoginPath, RedirectDelayMs)];
      } else {
        message := Some(PendingMessage);
        if user.Some? {
          // failures here are logged and change nothing the page shows
          var lookup := client.Select(user.value.id, Single, selectFault);
          if NeedsProfile(lookup) {
            ProfileGuaranteed(old(client.rows), user.value);
            var _ := client.Insert(ProfileSeed(user.value), insertFault);
          }
        }
      }
    }
  }

  /** The requests of two visits where only the first inserts a row hold
      one insert. */
  lemma TwoVisitsCount(accessToken: string, refreshToken: Option<string>, id: string, row: Profile)
    ensures var started := [SetSession(accessToken, refreshToken), GetSession, GetUser];
      InsertCount([] + started + [SelectProfile(id, Single), InsertProfile(row)] + started + [SelectProfile(id, Single)]) == 1
  {
    var started := [SetSession(accessToken, refreshToken), GetSession, GetUser];
    CountsNone(started);
    CountsNone([] + started);
    CountsNone([SelectProfile(id, Single)]);
    assert [SelectProfile(id, Single), InsertProfile(row)] == [SelectProfile(id, Single)] + [InsertProfile(row)];
    CountsAppend([SelectProfile(id, Single)], [InsertProfile(row)]);
    assert [InsertProfile(row)][1..] == [];
    var t1 := [] + started + [SelectProfile(id, Single), InsertProfile(row)];
    CountsAppend([] + started, [SelectProfile(id, Single), InsertProfile(row)]);
    CountsAppend(t1, started);
    CountsAppend(t1 + started, [SelectProfile(id, Single)]);
  }

  /** Opening the provider's link twice for a user whose email is still
      pending creates the profile row once: the second run finds it. */
  method CallbackTwice(accessToken: string, refreshToken: string, user: User, rows0: Rows)
    returns (created: bool, inserts: nat)
    requires accessToken != "" && Plain(accessToken) && Plain(refreshToken)
    requires KeyedById(rows0) && user.id !in rows0 && !IsConfirmed(Some(user))
    ensures created && inserts == 1
  {
    var hash := CallbackHash(accessToken, refreshToken);
    CallbackHashParams(accessToken, refreshToken);
    var client := new Client(rows0);
    var page := new VerifyEmailPage(client, hash);
    var session := SessionData(Some(Session(page.accessToken, page.refreshToken)));
    var reply := UserData(Some(user));
    assert UserOf(reply) == Some(user);
    var started := [SetSession(page.accessToken.value, page.refreshToken), GetSession, GetUser];
    assert NeedsProfile(SelectById(rows0, user.id, Single, Healthy));
    page.HandleEmailVerification(session, reply, Healthy, Healthy);
    var t1 := client.trace;
    assert user.id in client.rows;
    assert !NeedsProfile(SelectById(client.rows, user.id, Single, Healthy));
    var again := new VerifyEmailPage(client, hash);
    again.HandleEmailVerification(session, reply, Healthy, Healthy);
    TwoVisitsCount(page.accessToken.value, page.refreshToken, user.id, ProfileSeed(user));
    created, inserts := user.id in client.rows, InsertCount(client.trace);
  }
}
