/** The dashboard page: load the signed-in user and their profile row,
    creating the row when there is none, and sign out. */
module Dashboard {
  import opened Js
  import opened ProfileStore
  import opened Supabase

  const LoadFailedPrefix := "Failed to load profile: "
  const SignedOutPath := "/login"

  /** The row created when the user has none: id and email, name and phone
      from the metadata or empty; `isDeleted` is left to the table. */
  function DashboardSeed(user: User): (row: Profile)
    ensures SeededFrom(row, user) && row.isDeleted.None?
  {
    Profile(user.id, user.email, Some(Or(user.metadata.fullName, "")), Some(Or(user.metadata.phoneNumber, "")), None)
  }

  /** `profileError && profileError.code !== 'PGRST116'` (or a rejected
      select): the load stops with an error. */
  function AbortsLoad(lookup: Reply): (r: bool)
    ensures r <==> !lookup.Data? && !(lookup.Failed? && lookup.err.code == NoRowCode)
  {
    lookup.Threw? || (lookup.Failed? && lookup.err.code != NoRowCode)
  }

  /** `!profileData` once the load goes on: no row came back. */
  function MissingRow(lookup: Reply): (r: bool)
    ensures r <==> !AbortsLoad(lookup) && !(lookup.Data? && lookup.row.Some?)
  {
    lookup == Data(None) || (lookup.Failed? && lookup.err.code == NoRowCode)
  }

  /** `error.message` of an error reply or of an exception. */
  function FailureMessage(reply: Reply): string
    requires !reply.Data?
  {
    if reply.Failed? then reply.err.message else reply.message
  }

  /** Every lookup either stops the load, shows a row, or calls for a new
      row, and only one of these. */
  lemma LoadCases(lookup: Reply)
    ensures AbortsLoad(lookup) || MissingRow(lookup) || (lookup.Data? && lookup.row.Some?)
    ensures !(AbortsLoad(lookup) && MissingRow(lookup))
    ensures lookup.Data? && lookup.row.Some? ==> !AbortsLoad(lookup) && !MissingRow(lookup)
  {
  }

  /** Against a healthy table the load never stops on the lookup, and a row
      is called for exactly when the user has none. */
  lemma HealthyLookup(rows: Rows, id: string)
    requires KeyedById(rows)
    ensures var lookup := SelectById(rows, id, MaybeSingle, Healthy);
      !AbortsLoad(lookup) && (MissingRow(lookup) <==> id !in rows) &&
      (id in rows ==> lookup == Data(Some(rows[id])) && rows[id].id == id)
  {
  }

  /** The dashboard component's state. */
  class DashboardPage {
    const client: Client
    var user: Option<User>
    var profile: Option<Profile>
    var loading: bool
    var error: Option<string>
    var navigations: seq<Nav>

    /** A profile on show is the signed-in user's own row. */
    ghost predicate Valid()
      reads this, client
    {
      client.Valid() && (profile.Some? ==> user.Some? && profile.value.id == user.value.id)
    }

    constructor(client: Client)
      requires client.Valid()
      ensures Valid() && this.client == client
      ensures user == None && profile == None && loading && error == None && navigations == []
    {
      this.client := client;
      user, profile, loading, error, navigations := None, None, true, None, [];
    }

    /** The mount effect (it runs once, before any profile is shown): get the
        user, then select their row or insert one. */
    method GetProfile(userReply: UserReply, selectFault: Fault, insertFault: Fault)
      requires Valid() && profile.None?
      modifies this, client
      ensures Valid() && !loading && navigations == old(navigations)
      // a getUser error or rejection: the message, and no profile access
      ensures !userReply.UserData? ==>
        error == Some(LoadFailedPrefix + userReply.message) && user == old(user) && profile.None? &&
        client.rows == old(client.rows) && client.trace == old(client.trace) + [GetUser]
      // no user: nothing to load
      ensures userReply == UserData(None) ==>
        error == None && user == old(user) && profile.None? &&
        client.rows == old(client.rows) && client.trace == old(client.trace) + [GetUser]
      ensures userReply.UserData? && userReply.user.Some? ==>
        var u := userReply.user.value;
        var lookup := SelectById(old(client.rows), u.id, MaybeSingle, selectFault);
        var looked := old(client.trace) + [GetUser, SelectProfile(u.id, MaybeSingle)];
        user == Some(u) &&
        // an error other than PGRST116: stop, no insert
        (AbortsLoad(lookup) ==>
          error == Some(LoadFailedPrefix + FailureMessage(lookup)) && profile.None? &&
          client.rows == old(client.rows) && client.trace == looked) &&
        // the row exists: shown as it is, no insert
        (lookup.Data? && lookup.row.Some? ==>
          error == None && profile == lookup.row &&
          client.rows == old(client.rows) && client.trace == looked) &&
        // no row: exactly one insert; its row is shown, or its error
        (MissingRow(lookup) ==>
          var w := InsertRow(old(client.rows), DashboardSeed(u), insertFault);
          client.trace == looked + [InsertProfile(DashboardSeed(u))] && client.rows == w.rows &&
          (w.reply.Data? ==> error == None && profile == Some(DashboardSeed(u))) &&
          (!w.reply.Data? ==> error == Some(LoadFailedPrefix + FailureMessage(w.reply)) && profile.None?))
    {
      loading := true;
      error := None;
      client.Request(GetUser);
      match userReply {
        case UserFailed(message) =>
          error := Some(LoadFailedPrefix + message);
        case UserThrew(message) =>
          error := Some(LoadFailedPrefix + message);
        case UserData(found) =>
          if found.Some? {
            var u := found.value;
            user := found;
            var lookup := client.Select(u.id, MaybeSingle, selectFault);
            if AbortsLoad(lookup) {
              error := Some(LoadFailedPrefix + FailureMessage(lookup));
            } else if MissingRow(lookup) {
              var created := client.Insert(DashboardSeed(u), insertFault);
              if created.Data? {
                profile := created.row;
              } else {
                error := Some(LoadFailedPrefix + FailureMessage(created));
              }
            } else {
              profile := lookup.row;
            }
          }
      }
      loading := false;
    }

    /** Sign out; only a successful sign-out leaves for the login page. */
    method HandleSignOut(signOutError: Option<string>)
      requires Valid()
      modifies this, client
      ensures Valid()
      ensures user == old(user) && profile == old(profile) && loading == old(loading) && error == old(error)
      ensures client.rows == old(client.rows) && client.trace == old(client.trace) + [SignOut]
      ensures navigations == if signOutError.None? then old(navigations) + [Navigate(SignedOutPath)] else old(navigations)
    {
      client.Request(SignOut);
      if signOutError.None? {
        navigations := navigations + [Navigate(SignedOutPath)];
      }
    }
  }

  /** The first visit creates the missing row and shows it; the next visit
      shows the same row without a second insert. */
  method LoadTwice(u: User, rows0: Rows) returns (first: Option<Profile>, second: Option<Profile>, inserts: nat)
    requires KeyedById(rows0) && u.id !in rows0
    ensures first == Some(DashboardSeed(u)) && second == first
    ensures inserts == 1
  {
    var client := new Client(rows0);
    var page := new DashboardPage(client);
    HealthyLookup(rows0, u.id);
    page.GetProfile(UserData(Some(u)), Healthy, Healthy);
    first := page.profile;
    var opening := [GetUser, SelectProfile(u.id, MaybeSingle)];
    var t1 := client.trace;
    assert t1 == opening + [InsertProfile(DashboardSeed(u))];
    HealthyLookup(client.rows, u.id);
    var again := new DashboardPage(client);
    again.GetProfile(UserData(Some(u)), Healthy, Healthy);
    second := again.profile;
    assert client.trace == t1 + opening;
    CountsNone(opening);
    CountsAppend(t1, opening);
    CountsAppend(opening, [InsertProfile(DashboardSeed(u))]);
    inserts := InsertCount(client.trace);
  }
}
