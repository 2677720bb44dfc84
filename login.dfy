/** The login page: password sign-in, the choice of the second-factor phone
    (profile first, then user metadata, with a backfill of the profile), and
    the two requests to the verification edge functions. */
module Login {
  import opened Js
  import opened ProfileStore
  import opened Supabase

  const NoAccessToken := "No access token available. Please login again."
  const SendFailedPrefix := "Failed to send code: "
  const VerifyFailedPrefix := "Code verification failed: "
  const DashboardPath := "/dashboard"

  /** Where the second-factor phone comes from, if anywhere. */
  datatype PhoneChoice = FromProfile(phone: string) | FromMetadata(phone: string) | NoPhone

  /** `profile?.phone_number` after the `maybeSingle()` lookup: only a found row
      has one; an error reply carries no data. */
  function ProfilePhone(lookup: Reply): (p: Option<string>)
    ensures !lookup.Data? || lookup.row.None? ==> p.None?
    ensures lookup.Data? && lookup.row.Some? ==> p == lookup.row.value.phoneNumber
  {
    if lookup.Data? && lookup.row.Some? then lookup.row.value.phoneNumber else None
  }

  /** The profile's phone when it is non-empty, else the metadata phone when
      that is non-empty, else none: the first truthy of the two sources. */
  function ResolvePhone(profilePhone: Option<string>, metadataPhone: Option<string>): (r: PhoneChoice)
    ensures r.FromProfile? <==> Truthy(profilePhone)
    ensures r.FromMetadata? <==> !Truthy(profilePhone) && Truthy(metadataPhone)
    ensures r.NoPhone? <==> FirstTruthy([profilePhone, metadataPhone]).None?
    ensures !r.NoPhone? ==> r.phone != "" && Some(r.phone) == FirstTruthy([profilePhone, metadataPhone])
  {
    if Truthy(profilePhone) then FromProfile(profilePhone.value)
    else if Truthy(metadataPhone) then FromMetadata(metadataPhone.value)
    else NoPhone
  }

  /** A failed lookup and a missing row leave the choice to the metadata. */
  lemma LookupFailureFallsThrough(lookup: Reply, metadataPhone: Option<string>)
    requires !lookup.Data? || lookup.row.None?
    ensures ResolvePhone(ProfilePhone(lookup), metadataPhone) ==
      (if Truthy(metadataPhone) then FromMetadata(metadataPhone.value) else NoPhone)
  {
  }

  /** The backfill row: id, the phone and the user's email; the other columns
      are not supplied. */
  function Backfill(user: User, phone: string): (row: Profile)
    ensures row.id == user.id && row.email == user.email && row.phoneNumber == Some(phone)
    ensures row.fullName.None? && row.isDeleted.None?
  {
    Profile(user.id, user.email, None, Some(phone), None)
  }

  /** After a healthy backfill the next login finds the phone in the profile,
      and the columns the backfill does not supply keep their values. */
  lemma BackfillHeals(rows: Rows, user: User, phone: string)
    requires phone != ""
    ensures var after := UpsertRow(rows, Backfill(user, phone), Healthy).rows;
      ResolvePhone(ProfilePhone(SelectById(after, user.id, MaybeSingle, Healthy)), user.metadata.phoneNumber) == FromProfile(phone) &&
      (user.id in rows ==>
        after[user.id].fullName == rows[user.id].fullName && after[user.id].isDeleted == rows[user.id].isDeleted)
  {
  }

  /** The page's `error` after a send request that got past the token check:
      none exactly for a 2xx response whose body decodes. A JSON body that
      fails to decode rejects before the status is looked at, and the
      decoder's message is reported whatever the status. */
  function SendFailure(response: FetchReply): (r: Option<string>)
    ensures r.None? <==> response.Responded? && IsOk(response.status) && !response.body.Undecodable?
    ensures response.NetworkError? ==> r == Some(SendFailedPrefix + response.message)
    ensures response.Responded? && response.body.Undecodable? ==>
      r == Some(SendFailedPrefix + response.body.message)
    ensures response.Responded? && !IsOk(response.status) && !response.body.Undecodable? ==>
      r == Some(SendFailedPrefix + "Failed to send verification code (" + DecimalString(response.status) + ")")
  {
    match response
    case NetworkError(message) => Some(SendFailedPrefix + message)
    case Responded(_, Undecodable(message)) => Some(SendFailedPrefix + message)
    case Responded(status, _) =>
      if IsOk(status) then None
      else Some(SendFailedPrefix + "Failed to send verification code (" + DecimalString(status) + ")")
  }

  /** Of a send response's body only whether it decodes, and the decoder's
      message when it does not, decide the outcome; the decoded content never
      does. */
  lemma SendFailureIgnoresBody(status: nat, body1: Body, body2: Body)
    ensures body1.Undecodable? == body2.Undecodable? && (body1.Undecodable? ==> body1.message == body2.message) ==>
      SendFailure(Responded(status, body1)) == SendFailure(Responded(status, body2))
  {
  }

  /** A failed send of a decodable body names the HTTP status, in digits that
      read back as it; an undecodable body names the decoder's message. */
  lemma SendFailureCarriesStatus(status: nat, body: Body)
    requires !IsOk(status)
    ensures !body.Undecodable? ==>
      exists digits :: IsDigits(digits) && DecimalValue(digits) == status &&
        SendFailure(Responded(status, body)) == Some(SendFailedPrefix + "Failed to send verification code (" + digits + ")")
    ensures body.Undecodable? ==> SendFailure(Responded(status, body)) == Some(SendFailedPrefix + body.message)
  {
    DecimalRoundTrip(status);
    var digits := DecimalString(status);
    assert IsDigits(digits) && DecimalValue(digits) == status;
  }

  /** The response data the page inspects: a JSON body's fields, or
      `{ rawResponse: text }` for any other body; an undecodable body yields
      no data at all. */
  function ResponseData(body: Body): (d: Option<map<string, string>>)
    ensures d.None? <==> body.Undecodable?
    ensures body.Json? ==> d == Some(body.fields)
    ensures body.Raw? ==> d.Some? && d.value.Keys == {"rawResponse"} && d.value["rawResponse"] == body.text
  {
    match body
    case Json(fields) => Some(fields)
    case Raw(text) => Some(map["rawResponse" := text])
    case Undecodable(_) => None
  }

  /** `data.error`: the JSON body's `error` field; a raw body has none, and an
      undecodable body has no data to read it from. */
  function ErrorField(body: Body): (e: Option<string>)
    ensures body.Json? ==> e == (if "error" in body.fields then Some(body.fields["error"]) else None)
    ensures !body.Json? ==> e.None?
  {
    match ResponseData(body)
    case None => None
    case Some(data) => if "error" in data then Some(data["error"]) else None
  }

  function StatusFallback(status: nat): (s: string)
    ensures s != ""
  {
    "Verification failed (" + DecimalString(status) + ")"
  }

  /** The page's `error` after a verify request that got past the token check:
      a non-2xx response whose body decodes reports the body's `error` field
      when it is non-empty and the status otherwise; a body that fails to
      decode reports the decoder's message whatever the status. */
  function VerifyFailure(response: FetchReply): (r: Option<string>)
    ensures r.None? <==> response.Responded? && IsOk(response.status) && !response.body.Undecodable?
    ensures response.NetworkError? ==> r == Some(VerifyFailedPrefix + response.message)
    ensures response.Responded? && response.body.Undecodable? ==>
      r == Some(VerifyFailedPrefix + response.body.message)
    ensures response.Responded? && !IsOk(response.status) && !response.body.Undecodable? ==>
      r == Some(VerifyFailedPrefix + FirstTruthy([ErrorField(response.body), Some(StatusFallback(response.status))]).value)
    ensures response.Responded? && !IsOk(response.status) && response.body.Raw? ==>
      r == Some(VerifyFailedPrefix + StatusFallback(response.status))
  {
    match response
    case NetworkError(message) => Some(VerifyFailedPrefix + message)
    case Responded(_, Undecodable(message)) => Some(VerifyFailedPrefix + message)
    case Responded(status, body) =>
      if IsOk(status) then None
      else
        OrIsFirstTruthy(ErrorField(body), StatusFallback(status));
        Some(VerifyFailedPrefix + Or(ErrorField(body), StatusFallback(status)))
  }

  /** A failed verify of a decodable body without an `error` field names the
      HTTP status, in digits that read back as it; an undecodable body names
      the decoder's message. */
  lemma VerifyFailureCarriesStatus(status: nat, body: Body)
    requires !IsOk(status) && !Truthy(ErrorField(body))
    ensures !body.Undecodable? ==>
      exists digits :: IsDigits(digits) && DecimalValue(digits) == status &&
        VerifyFailure(Responded(status, body)) == Some(VerifyFailedPrefix + "Verification failed (" + digits + ")")
    ensures body.Undecodable? ==> VerifyFailure(Responded(status, body)) == Some(VerifyFailedPrefix + body.message)
  {
    DecimalRoundTrip(status);
    var digits := DecimalString(status);
    assert IsDigits(digits) && DecimalValue(digits) == status;
    if !body.Undecodable? {
      assert VerifyFailure(Responded(status, body)) == Some(VerifyFailedPrefix + StatusFallback(status));
      assert VerifyFailedPrefix + StatusFallback(status) == VerifyFailedPrefix + "Verification failed (" + digits + ")";
    }
  }

  /** The login component's state. `email`, `password` and `verificationCode`
      are what the form inputs last set. */
  class LoginPage {
    const client: Client
    var loading: bool
    var email: string
    var password: string
    var error: Option<string>
    var showTwoFactor: bool
    var verificationCode: string
    var phone: string
    var navigations: seq<Nav>

    /** The code form is shown only with a phone number to send the code to. */
    ghost predicate Valid()
      reads this, client
    {
      client.Valid() && (showTwoFactor ==> phone != "")
    }

    constructor(client: Client)
      requires client.Valid()
      ensures Valid() && this.client == client
      ensures !loading && error == None && !showTwoFactor && phone == "" && navigations == []
      ensures email == "" && password == "" && verificationCode == ""
    {
      this.client := client;
      loading, error, showTwoFactor, phone, navigations := false, None, false, "", [];
      email, password, verificationCode := "", "", "";
    }

    /** Sign in, then pick the second-factor phone or go to the dashboard. */
    method HandleLogin(signIn: SignInReply, lookupFault: Fault, upsertFault: Fault)
      requires Valid()
      modifies this, client
      ensures Valid() && !loading
      ensures email == old(email) && password == old(password) && verificationCode == old(verificationCode)
      // a refused sign-in shows the provider's message and does nothing else
      ensures signIn.SignInFailed? ==>
        error == Some(signIn.message) && showTwoFactor == old(showTwoFactor) && phone == old(phone) &&
        navigations == old(navigations) && client.rows == old(client.rows) &&
        client.trace == old(client.trace) + [SignInWithPassword(email, password)]
      // a lookup that throws ends in the same catch
      ensures signIn.SignedIn? ==>
        var lookup := SelectById(old(client.rows), signIn.user.id, MaybeSingle, lookupFault);
        lookup.Threw? ==>
          error == Some(lookup.message) && showTwoFactor == old(showTwoFactor) && phone == old(phone) &&
          navigations == old(navigations) && client.rows == old(client.rows) &&
          client.trace == old(client.trace) + [SignInWithPassword(email, password), SelectProfile(signIn.user.id, MaybeSingle)]
      ensures signIn.SignedIn? ==>
        var lookup := SelectById(old(client.rows), signIn.user.id, MaybeSingle, lookupFault);
        !lookup.Threw? ==>
          error == None &&
          PhoneRouted(old(client.rows),
            old(client.trace) + [SignInWithPassword(email, password), SelectProfile(signIn.user.id, MaybeSingle)],
            old(navigations), old(showTwoFactor), old(phone), signIn.user, lookup, upsertFault)
    {
      loading := true;
      error := None;
      client.Request(SignInWithPassword(email, password));
      match signIn {
        case SignInFailed(message) =>
          error := Some(message);
        case SignedIn(user) =>
          var lookup := client.Select(user.id, MaybeSingle, lookupFault);
          if lookup.Threw? {
            error := Some(lookup.message);
          } else {
            RoutePhone(user, lookup, upsertFault);
          }
      }
      loading := false;
    }

    /** Where a successful sign-in leads, given the rows, trace, navigations,
        form flag and phone from before (the trace up to and including the
        profile lookup). */
    ghost predicate PhoneRouted(rows0: Rows, issued: seq<Call>, navs0: seq<Nav>, shown0: bool, phone0: string,
                                user: User, lookup: Reply, upsertFault: Fault)
      reads this, client
    {
      var choice := ResolvePhone(ProfilePhone(lookup), user.metadata.phoneNumber);
      // the profile's phone: the code form with it, no further request
      (choice.FromProfile? ==>
        showTwoFactor && phone == choice.phone && navigations == navs0 &&
        client.rows == rows0 && client.trace == issued) &&
      // the metadata phone: one upsert, whatever comes of it, then the code form
      (choice.FromMetadata? ==>
        showTwoFactor && phone == choice.phone && navigations == navs0 &&
        client.trace == issued + [UpsertProfile(Backfill(user, choice.phone))] &&
        client.rows == UpsertRow(rows0, Backfill(user, choice.phone), upsertFault).rows) &&
      // no phone: straight to the dashboard
      (choice.NoPhone? ==>
        showTwoFactor == shown0 && phone == phone0 &&
        navigations == navs0 + [Navigate(DashboardPath)] &&
        client.rows == rows0 && client.trace == issued)
    }

    /** The part of the sign-in handler that runs once the profile lookup
        has answered without throwing. */
    method RoutePhone(user: User, lookup: Reply, upsertFault: Fault)
      requires Valid()
      modifies this, client
      ensures Valid() && loading == old(loading) && error == old(error)
      ensures email == old(email) && password == old(password) && verificationCode == old(verificationCode)
      ensures PhoneRouted(old(client.rows), old(client.trace), old(navigations), old(showTwoFactor), old(phone),
                          user, lookup, upsertFault)
    {
      match ResolvePhone(ProfilePhone(lookup), user.metadata.phoneNumber) {
        case FromProfile(p) =>
          phone := p;
          showTwoFactor := true;
        case FromMetadata(p) =>
          // best effort: an error reply or an exception is only logged
          var _ := client.Upsert(Backfill(user, p), upsertFault);
          phone := p;
          showTwoFactor := true;
        case NoPhone =>
          navigations := navigations + [Navigate(DashboardPath)];
      }
    }

    /** Ask the `send-verification-code` edge function to text a code to `phone`. */
    method SendVerificationCode(session: SessionReply, response: FetchReply)
      requires Valid()
      modifies this, client
      ensures Valid() && !loading
      ensures showTwoFactor == old(showTwoFactor) && phone == old(phone) && navigations == old(navigations)
      ensures email == old(email) && password == old(password) && verificationCode == old(verificationCode)
      ensures client.rows == old(client.rows)
      // a rejected `getSession` reports its own message; no request leaves the page
      ensures session.SessionThrew? ==>
        error == Some(SendFailedPrefix + session.message) && client.trace == old(client.trace) + [GetSession]
      // no access token: no request leaves the page
      ensures !session.SessionThrew? && !Truthy(AccessToken(session)) ==>
        error == Some(SendFailedPrefix + NoAccessToken) && client.trace == old(client.trace) + [GetSession]
      ensures Truthy(AccessToken(session)) ==>
        error == SendFailure(response) &&
        client.trace == old(client.trace) + [GetSession, Post(SendVerificationCodeFn, AccessToken(session).value, phone, None)]
    {
      loading := true;
      error := None;
      client.Request(GetSession);
      var accessToken := AccessToken(session);
      if session.SessionThrew? {
        error := Some(SendFailedPrefix + session.message);
      } else if !Truthy(accessToken) {
        error := Some(SendFailedPrefix + NoAccessToken);
      } else {
        client.Request(Post(SendVerificationCodeFn, accessToken.value, phone, None));
        // the body is read (JSON or raw text) only for the log
        error := SendFailure(response);
      }
      loading := false;
    }

    /** Check `verificationCode` with the `verify-code` edge function; on
        success go to the dashboard. */
    method HandleVerifyCode(session: SessionReply, response: FetchReply)
      requires Valid()
      modifies this, client
      ensures Valid() && !loading
      ensures showTwoFactor == old(showTwoFactor) && phone == old(phone)
      ensures email == old(email) && password == old(password) && verificationCode == old(verificationCode)
      ensures client.rows == old(client.rows)
      ensures session.SessionThrew? ==>
        error == Some(VerifyFailedPrefix + session.message) && navigations == old(navigations) &&
        client.trace == old(client.trace) + [GetSession]
      ensures !session.SessionThrew? && !Truthy(AccessToken(session)) ==>
        error == Some(VerifyFailedPrefix + NoAccessToken) && navigations == old(navigations) &&
        client.trace == old(client.trace) + [GetSession]
      ensures Truthy(AccessToken(session)) ==>
        error == VerifyFailure(response) &&
        client.trace == old(client.trace) + [GetSession, Post(VerifyCodeFn, AccessToken(session).value, phone, Some(verificationCode))] &&
        navigations == (if error.None? then old(navigations) + [Navigate(DashboardPath)] else old(navigations))
    {
      loading := true;
      error := None;
      client.Request(GetSession);
      var accessToken := AccessToken(session);
      if session.SessionThrew? {
        error := Some(VerifyFailedPrefix + session.message);
      } else if !Truthy(accessToken) {
        error := Some(VerifyFailedPrefix + NoAccessToken);
      } else {
        client.Request(Post(VerifyCodeFn, accessToken.value, phone, Some(verificationCode)));
        error := VerifyFailure(response);
        if error.None? {
          navigations := navigations + [Navigate(DashboardPath)];
        }
      }
      loading := false;
    }
  }

  /** The metadata backfill heals the profile: a second login for the same
      user finds the phone in the profile, shows the same phone, and issues
      no second upsert. */
  method LoginTwiceWithMetadataPhone(user: User, rows0: Rows) returns (first: string, second: string, upserts: nat)
    requires KeyedById(rows0) && user.id !in rows0
    requires Truthy(user.metadata.phoneNumber)
    ensures first == user.metadata.phoneNumber.value && second == first
    ensures upserts == 1
  {
    var client := new Client(rows0);
    var page := new LoginPage(client);
    page.HandleLogin(SignedIn(user), Healthy, Healthy);
    first := page.phone;
    var t1 := client.trace;
    var again := new LoginPage(client);
    again.HandleLogin(SignedIn(user), Healthy, Healthy);
    second := again.phone;
    var t2 := client.trace[|t1|..];
    assert client.trace == t1 + t2;
    assert t1 == [SignInWithPassword("", ""), SelectProfile(user.id, MaybeSingle)] + [UpsertProfile(Backfill(user, first))];
    assert t2 == [SignInWithPassword("", ""), SelectProfile(user.id, MaybeSingle)];
    CountsAppend(t1, t2);
    CountsAppend([SignInWithPassword("", ""), SelectProfile(user.id, MaybeSingle)], [UpsertProfile(Backfill(user, first))]);
    upserts := UpsertCount(client.trace);
  }

  /** A rejected code keeps the code form and its phone; a second attempt that
      the service accepts reaches the dashboard without a new sign-in. */
  method WrongCodeThenRightCode(session: SessionReply, rejection: FetchReply, acceptance: FetchReply, user: User)
    returns (afterWrong: Option<string>, afterRight: Option<string>, stillShown: bool, visits: seq<Nav>)
    requires Truthy(AccessToken(session)) && Truthy(user.metadata.phoneNumber)
    requires rejection.Responded? && !IsOk(rejection.status)
    requires acceptance.Responded? && IsOk(acceptance.status) && !acceptance.body.Undecodable?
    ensures afterWrong.Some? && afterRight.None? && stillShown
    ensures visits == [Navigate(DashboardPath)]
  {
    var client := new Client(map[]);
    var page := new LoginPage(client);
    page.HandleLogin(SignedIn(user), Healthy, Healthy);
    page.verificationCode := "000000";
    page.HandleVerifyCode(session, rejection);
    afterWrong := page.error;
    page.verificationCode := "111111";
    page.HandleVerifyCode(session, acceptance);
    afterRight, stillShown, visits := page.error, page.showTwoFactor, page.navigations;
  }
}
