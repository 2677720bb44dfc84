/** The shared Supabase client handle, made explicit. The identity provider
    and the verification HTTP service are outside the model: what they answer
    is passed in by the caller. What the model keeps is the `profiles` table
    and the trace of every request the components issue, in order. */
module Supabase {
  import opened Js
  import opened ProfileStore

  /** `user_metadata` fields the components read. */
  datatype Metadata = Metadata(fullName: Option<string>, phoneNumber: Option<string>)

  /** The identity provider's user record. */
  datatype User = User(
    id: string,
    email: Option<string>,
    emailConfirmedAt: Option<string>,
    confirmedAt: Option<string>,
    metadata: Metadata)

  datatype Session = Session(accessToken: Option<string>, refreshToken: Option<string>)

  /** `signInWithPassword`: a user, or an AuthError with its message. */
  datatype SignInReply = SignedIn(user: User) | SignInFailed(message: string)

  /** `getSession`: `{ data: { session } }` (session may be null), an error
      reply, or a rejected promise. */
  datatype SessionReply = SessionData(session: Option<Session>) | SessionFailed(message: string) | SessionThrew(message: string)

  /** `getUser`: `{ data: { user } }` (user may be null), an error reply, or a
      rejected promise. */
  datatype UserReply = UserData(user: Option<User>) | UserFailed(message: string) | UserThrew(message: string)

  /** A response body: decoded JSON (its string fields), raw text when the
      content type is not JSON, or a body whose content type says JSON but
      whose `response.json()` rejects, with the decoder's message. */
  datatype Body = Json(fields: map<string, string>) | Raw(text: string) | Undecodable(message: string)

  /** `fetch`: a response with its HTTP status, or a rejected promise. */
  datatype FetchReply = Responded(status: nat, body: Body) | NetworkError(message: string)

  /** The two verification edge functions. */
  datatype Endpoint = SendVerificationCodeFn | VerifyCodeFn

  /** A request issued to a service, recorded in issue order. */
  datatype Call =
    | SignInWithPassword(email: string, password: string)
    | GetSession
    | SetSession(accessToken: string, refreshToken: Option<string>)
    | GetUser
    | SignOut
    | SelectProfile(id: string, mode: Cardinality)
    | InsertProfile(row: Profile)
    | UpsertProfile(row: Profile)
    | Post(endpoint: Endpoint, bearer: string, phone: string, code: Option<string>)

  /** `navigate(path)`, or `setTimeout(() => navigate(path), delayMs)`. */
  datatype Nav = Navigate(path: string) | NavigateAfter(path: string, delayMs: nat)

  /** `response.ok`: the status is in the 2xx range. */
  predicate IsOk(status: nat) {
    200 <= status <= 299
  }

  /** The `session?.access_token` of a `getSession` reply; an error reply has
      a null session, and a rejected call yields none. */
  function AccessToken(reply: SessionReply): (t: Option<string>)
    ensures reply.SessionData? && reply.session.Some? ==> t == reply.session.value.accessToken
    ensures !(reply.SessionData? && reply.session.Some?) ==> t.None?
  {
    if reply.SessionData? && reply.session.Some? then reply.session.value.accessToken else None
  }

  /** The `data.user` of a `getUser` reply whose error is not looked at; an
      error reply has a null user, and a rejected call yields none. */
  function UserOf(reply: UserReply): (u: Option<User>)
    ensures u.Some? <==> reply.UserData? && reply.user.Some?
    ensures u.Some? ==> u == reply.user
  {
    if reply.UserData? then reply.user else None
  }

  /** A row created for `user`: its id and email, and the metadata's name and
      phone when they are non-empty, else empty strings (`x || ''`). */
  predicate SeededFrom(row: Profile, user: User) {
    row.id == user.id && row.email == user.email &&
    (Truthy(user.metadata.fullName) ==> row.fullName == user.metadata.fullName) &&
    (!Truthy(user.metadata.fullName) ==> row.fullName == Some("")) &&
    (Truthy(user.metadata.phoneNumber) ==> row.phoneNumber == user.metadata.phoneNumber) &&
    (!Truthy(user.metadata.phoneNumber) ==> row.phoneNumber == Some(""))
  }

  /** Number of inserts into `profiles` in a trace. */
  function InsertCount(trace: seq<Call>): nat {
    if trace == [] then 0
    else (if trace[0].InsertProfile? then 1 else 0) + InsertCount(trace[1..])
  }

  /** Number of upserts into `profiles` in a trace. */
  function UpsertCount(trace: seq<Call>): nat {
    if trace == [] then 0
    else (if trace[0].UpsertProfile? then 1 else 0) + UpsertCount(trace[1..])
  }

  lemma {:induction false} CountsAppend(a: seq<Call>, b: seq<Call>)
    ensures InsertCount(a + b) == InsertCount(a) + InsertCount(b)
    ensures UpsertCount(a + b) == UpsertCount(a) + UpsertCount(b)
  {
    if a == [] {
      assert a + b == b;
    } else {
      assert (a + b)[1..] == a[1..] + b;
      CountsAppend(a[1..], b);
    }
  }

  /** A trace without inserts or upserts counts none of them. */
  lemma {:induction false} CountsNone(trace: seq<Call>)
    requires forall i :: 0 <= i < |trace| ==> !trace[i].InsertProfile? && !trace[i].UpsertProfile?
    ensures InsertCount(trace) == 0 && UpsertCount(trace) == 0
  {
    if trace != [] {
      CountsNone(trace[1..]);
    }
  }

  /** The client every component is given: the `profiles` table it reaches and
      the requests issued through it. */
  class Client {
    var rows: Rows
    var trace: seq<Call>

    ghost predicate Valid()
      reads this
    {
      KeyedById(rows)
    }

    constructor(rows0: Rows)
      requires KeyedById(rows0)
      ensures Valid() && rows == rows0 && trace == []
    {
      rows := rows0;
      trace := [];
    }

    /** A request to the identity provider or the verification service; its
        answer is the caller's input. */
    method Request(c: Call)
      requires Valid()
      modifies this
      ensures Valid() && rows == old(rows) && trace == old(trace) + [c]
    {
      trace := trace + [c];
    }

    method Select(id: string, mode: Cardinality, fault: Fault) returns (r: Reply)
      requires Valid()
      modifies this
      ensures Valid() && rows == old(rows) && trace == old(trace) + [SelectProfile(id, mode)]
      ensures r == SelectById(rows, id, mode, fault)
    {
      trace := trace + [SelectProfile(id, mode)];
      r := SelectById(rows, id, mode, fault);
    }

    method Insert(row: Profile, fault: Fault) returns (r: Reply)
      requires Valid()
      modifies this
      ensures Valid() && trace == old(trace) + [InsertProfile(row)]
      ensures Written(r, rows) == InsertRow(old(rows), row, fault)
    {
      trace := trace + [InsertProfile(row)];
      var w := InsertRow(rows, row, fault);
      r, rows := w.reply, w.rows;
    }

    method Upsert(row: Profile, fault: Fault) returns (r: Reply)
      requires Valid()
      modifies this
      ensures Valid() && trace == old(trace) + [UpsertProfile(row)]
      ensures Written(r, rows) == UpsertRow(old(rows), row, fault)
    {
      trace := trace + [UpsertProfile(row)];
      var w := UpsertRow(rows, row, fault);
      r, rows := w.reply, w.rows;
    }
  }
}
