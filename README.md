# Supabase authentication client: a verified model of its decision logic

The application is a small React client for Supabase authentication. Three
components carry its decisions:

- the **login page** signs in with a password, then picks the phone for the
  second factor (the profile's phone first, then the user's metadata phone,
  which it also writes back to the profile), or goes straight to the
  dashboard. It then asks the `send-verification-code` and `verify-code` edge
  functions to send and check a code;
- the **email-verification callback page** reads the tokens from the URL
  fragment and establishes the session. It reads the session and the user
  back, tells a confirmed email from a pending one, and makes sure a pending
  user has a `profiles` row;
- the **dashboard** loads the signed-in user and their `profiles` row,
  creates the row when there is none (treating error `PGRST116` as "no
  row"), and signs out.

The model keeps each component as a Dafny class with the component's state
fields. Each handler is a method. What the identity provider, the edge
functions and the network answer is a parameter of that method. The shared
client (`Supabase.Client`) holds the `profiles` table, a map from user id to
row, and the trace of every request the components issue, in order.
Statements such as "no profile access", "no HTTP request" and "exactly one
upsert" are therefore statements about that trace.

Files:

- `js.dfy` (module `Js`): missing values, string truthiness, `a || b`, and
  the decimal text of a status code.
- `url_fragment.dfy` (module `UrlFragment`): the `application/x-www-form-urlencoded`
  parser of section 5.1 of the WHATWG URL Standard behind the
  `URLSearchParams` constructor (which first drops one leading `?`),
  `URLSearchParams.get` of section 6.2, and a serializer with a proved round
  trip.
- `profile_store.dfy` (module `ProfileStore`): the `profiles` table, with
  select (`single()` / `maybeSingle()`), `insert` and `upsert` on `id`.
  Faults on the way to the table are injected.
- `supabase.dfy` (module `Supabase`): the provider's records and replies, the
  request trace, and the client class.
- `login.dfy`, `verify_email.dfy`, `dashboard.dfy`: the three components.

Each component also has a scenario method. It runs the handlers twice
against one client and proves the visible outcome, such as one upsert or
one insert across two visits.

## Model

| member | source | states |
|---|---|---|
| Js.FirstTruthy | src/components/VerifyEmail.js:53 | the value `a \|\| b \|\| ...` picks: None exactly when every candidate is null, undefined or empty; otherwise a truthy candidate preceded only by falsy ones |
| Js.OrIsFirstTruthy | src/components/Login.js:200 | `s \|\| fallback` with a non-empty fallback is the first truthy of the pair |
| Js.DecimalString | src/components/Login.js:140 | the text of `${response.status}` is non-empty, all digits, with no leading zero |
| Js.DecimalRoundTrip | src/components/Login.js:140 | the decimal text of a status reads back as that status, so the message determines the status |
| UrlFragment.Split | src/components/VerifyEmail.js:17 | the pieces between separators hold no separator and join back to the input |
| UrlFragment.SplitJoin | src/components/VerifyEmail.js:17 | splitting separator-free pieces joined by the separator gives back those pieces |
| UrlFragment.ParsePiece | src/components/VerifyEmail.js:17 | a parsed name never holds `=`; a piece without `=` is all name, with an empty value |
| UrlFragment.ParsePieceAtFirstEquals | src/components/VerifyEmail.js:17 | the first `=` ends the name and every later `=` belongs to the value; `+` reads as a space in both |
| UrlFragment.ParsePieces | src/components/VerifyEmail.js:17 | a single piece gives no pair when empty and its own pair otherwise; there are at most as many pairs as pieces, and no name holds `=` |
| UrlFragment.ParsePiecesAppend | src/components/VerifyEmail.js:17 | the pairs of a concatenation of pieces are the pairs of each part in turn, so an empty piece is skipped wherever it stands and every non-empty piece yields its pair in order |
| UrlFragment.ParseQuery | src/components/VerifyEmail.js:17 | `new URLSearchParams(s)` of an empty string or a lone `?` has no pairs, and no name it yields holds `=` |
| UrlFragment.LeadingQuestionDropped | src/components/VerifyEmail.js:17 | one leading `?` is dropped before parsing, so `?` followed by a query reads as the query |
| UrlFragment.Get | src/components/VerifyEmail.js:19 | `params.get(name)` is None exactly when no pair has that name, else the value of the first such pair |
| UrlFragment.FragmentQuery | src/components/VerifyEmail.js:17 | `location.hash.substring(1)` is the hash without its first character, and empty for an empty hash |
| UrlFragment.ParseSerialize | src/components/VerifyEmail.js:17-19 | parsing undoes serializing for names and values without `&`, `=`, `+`, `%` whose first name does not start with `?` |
| ProfileStore.SelectById | src/components/Dashboard.js:29-33 | a faulted request reports its fault; an existing id returns its row; a missing id is error `PGRST116` under `single()` and null data under `maybeSingle()` |
| ProfileStore.InsertRow | src/components/Dashboard.js:45-56 | an insert succeeds exactly for a healthy request on a new id and then adds only that row; a duplicate id is error 23505; a failed insert changes nothing; the table stays keyed by id |
| ProfileStore.Merge | src/components/Login.js:62-70 | the merged row carries every column the upsert supplies and keeps the stored value of every column it does not supply |
| ProfileStore.UpsertRow | src/components/Login.js:62-70 | a healthy upsert leaves a row with that id carrying every supplied column and merged into the old row; no other row changes; a faulted one changes nothing |
| ProfileStore.UpsertIdempotent | src/components/Login.js:62-70 | repeating an upsert leaves the table as the first one left it |
| ProfileStore.InsertThenSelect | src/components/Dashboard.js:29-56 | an inserted row is what a later select by its id returns |
| ProfileStore.InsertTwiceRefused | src/components/VerifyEmail.js:73-83 | a second insert for the same id is refused and leaves the table unchanged |
| Supabase.AccessToken | src/components/Login.js:106-107 | `session?.access_token` is the token of the session a successful `getSession` returned, and none for an error reply, a null session or a rejected call |
| Supabase.UserOf | src/components/VerifyEmail.js:50 | `data.user` is present exactly for a successful `getUser` reply with a user, and then it is that user |
| Supabase.Client.constructor | src/components/Login.js:4 | a client starts with the given table and an empty trace |
| Supabase.Client.Request | src/components/Login.js:26-29 | a provider or HTTP request is appended to the trace and leaves the table alone |
| Supabase.Client.Select | src/components/Dashboard.js:29-33 | a select is traced and answers as `SelectById`, changing no row |
| Supabase.Client.Insert | src/components/Dashboard.js:45-56 | an insert is traced and answers and changes the table as `InsertRow` |
| Supabase.Client.Upsert | src/components/Login.js:62-70 | an upsert is traced and answers and changes the table as `UpsertRow` |
| Login.ProfilePhone | src/components/Login.js:37-46 | `profile?.phone_number` is the found row's phone; an error reply or a missing row gives none |
| Login.ResolvePhone | src/components/Login.js:46-88 | the profile phone wins when non-empty, else a non-empty metadata phone, else no phone; the choice is the first truthy source and is never empty |
| Login.LookupFailureFallsThrough | src/components/Login.js:37-57 | a lookup error or a missing row leaves the choice to the metadata phone |
| Login.Backfill | src/components/Login.js:64-70 | the backfill row supplies the user's id, the user's email and the metadata phone, and no other column |
| Login.BackfillHeals | src/components/Login.js:57-83 | after a healthy backfill the next login finds the phone in the profile and takes it from there; the columns not supplied keep their stored values |
| Login.SendFailure | src/components/Login.js:113-146 | no error exactly for a 2xx response whose body decodes; a rejected fetch reports its message; a JSON body that fails to decode reports the decoder's message at any status; any other non-2xx status reports `Failed to send code: Failed to send verification code (<status>)` |
| Login.SendFailureIgnoresBody | src/components/Login.js:126-141 | only whether the body decodes, and the decoder's message when it does not, can change the outcome of a send; the decoded content never does |
| Login.SendFailureCarriesStatus | src/components/Login.js:126-146 | a failed send of a decodable body holds digits that read back as the HTTP status; an undecodable body gives the decoder's message instead |
| Login.ResponseData | src/components/Login.js:186-195 | a JSON body is its own fields; a non-JSON body becomes `{ rawResponse: text }` with the body text and nothing else; a JSON body that fails to decode yields no data |
| Login.ErrorField | src/components/Login.js:200 | `data.error` is the JSON body's `error` field when it has one, else none; a raw or undecodable body has none |
| Login.VerifyFailure | src/components/Login.js:170-208 | no error exactly for a 2xx response whose body decodes; a JSON body that fails to decode reports the decoder's message at any status; otherwise a non-2xx gets `Code verification failed: ` and the body's `error` field if non-empty, else `Verification failed (<status>)`; a raw body always gets the status text |
| Login.VerifyFailureCarriesStatus | src/components/Login.js:186-208 | without an `error` field a decodable body's failure message holds digits that read back as the status; an undecodable body gives the decoder's message instead |
| Login.LoginPage.constructor | src/components/Login.js:7-14 | the page starts not loading, with no error, the code form hidden, an empty phone and no navigation |
| Login.LoginPage.HandleLogin | src/components/Login.js:16-96 | a refused sign-in shows the provider's message with no lookup; a throwing lookup shows its message; otherwise the page ends as `PhoneRouted` says; `loading` ends false |
| Login.LoginPage.RoutePhone | src/components/Login.js:45-88 | a profile phone shows the form with no further request; a metadata phone issues exactly one upsert of `{id, phone_number, email}` and shows the form whatever the upsert does; no phone navigates to `/dashboard` with the form unchanged |
| Login.LoginPage.SendVerificationCode | src/components/Login.js:98-150 | a rejected `getSession` reports `Failed to send code: <its message>`, and a missing access token the no-token message, both with no POST; otherwise exactly one POST with the bearer token and phone, and the error is `SendFailure`; the form, the phone and the table are unchanged |
| Login.LoginPage.HandleVerifyCode | src/components/Login.js:152-212 | a rejected `getSession` reports `Code verification failed: <its message>`, and a missing access token the no-token message, both with no POST and no navigation; otherwise one POST with phone and code, the error is `VerifyFailure`, and only a 2xx response navigates to `/dashboard` |
| Login.LoginTwiceWithMetadataPhone | src/components/Login.js:45-83 | two logins of a user with only a metadata phone show that phone both times and issue exactly one upsert: the second login finds the backfilled phone |
| Login.WrongCodeThenRightCode | src/components/Login.js:152-212 | a rejected code leaves an error and the form shown; a later accepted code clears the error and navigates to `/dashboard` once |
| VerifyEmail.IsConfirmed | src/components/VerifyEmail.js:53 | a user is confirmed exactly when `email_confirmed_at` or else `confirmed_at` is truthy |
| VerifyEmail.CallbackParam | src/components/VerifyEmail.js:17-19 | `params.get(name)` over the fragment without its `#` is none exactly when no parsed pair has that name, else the value of the first parsed pair with that name; an empty fragment and a name holding `=` find nothing |
| VerifyEmail.NeedsProfile | src/components/VerifyEmail.js:69 | an insert is called for exactly when the select reports an error or no row; a throwing select calls for none |
| VerifyEmail.ProfileSeed | src/components/VerifyEmail.js:76-82 | the inserted row has the user's id and email, the metadata name and phone or `''`, and `isDeleted` false |
| VerifyEmail.ProfileGuaranteed | src/components/VerifyEmail.js:61-84 | against a healthy table the select-then-insert step leaves a row for the user, whether or not one existed |
| VerifyEmail.CallbackHashParams | src/components/VerifyEmail.js:17-29 | the handler reads back the access and refresh tokens the provider put in the fragment |
| VerifyEmail.VerifyEmailPage.constructor | src/components/VerifyEmail.js:7-19 | the page starts loading, with no error, no message and no navigation; the tokens are those `params.get` finds in the fragment |
| VerifyEmail.VerifyEmailPage.HandleEmailVerification | src/components/VerifyEmail.js:14-102 | no access token: the check-your-email message and no request; otherwise `setSession` and `getSession` are always issued; a `getSession` error or rejection sets `Failed to verify email: <message>`; no session gives the unable-to-confirm message with no user read or profile access; a session leads to `Provisioned`; `loading` ends false |
| VerifyEmail.VerifyEmailPage.ConfirmOrProvision | src/components/VerifyEmail.js:48-89 | a rejected `getUser` sets `Failed to verify email: <message>`, keeps the message and touches no profile; otherwise `error` never changes: a confirmed user gets the success message and exactly one redirect to `/login` after 2000 ms with no profile access; an unconfirmed user gets the pending message; for an existing user one `single()` select, then one insert of `{id, email, full_name, phone_number, isDeleted: false}` exactly when the select errs or finds no row |
| VerifyEmail.CallbackTwice | src/components/VerifyEmail.js:17-84 | opening the provider's link (any non-empty plain access token) twice for a pending user leaves the user's row in place and inserts it exactly once |
| Dashboard.LoadCases | src/components/Dashboard.js:35-66 | every lookup either aborts the load, calls for a new row (`PGRST116` or no data), or shows a found row, and only one of these |
| Dashboard.HealthyLookup | src/components/Dashboard.js:29-41 | against a healthy table the lookup never aborts, and a row is called for exactly when the user has none |
| Dashboard.AbortsLoad | src/components/Dashboard.js:35-38 | the load stops exactly when the lookup brought an error, reply or exception, other than `PGRST116` |
| Dashboard.MissingRow | src/components/Dashboard.js:41 | a row is created exactly when the load did not stop and no row came back |
| Dashboard.DashboardSeed | src/components/Dashboard.js:48-53 | the inserted row has the user's id and email and the metadata name and phone or `''`, and leaves `isDeleted` to the table |
| Dashboard.DashboardPage.constructor | src/components/Dashboard.js:7-11 | the page starts loading, with no user, no profile, no error and no navigation |
| Dashboard.DashboardPage.GetProfile | src/components/Dashboard.js:14-74 | a `getUser` error or rejection sets `Failed to load profile: <message>` with no lookup; no user means no lookup and no profile; an error other than `PGRST116` aborts with no insert; a found row is shown unchanged with no insert; no row issues exactly one insert and shows its row or its error; `loading` ends false |
| Dashboard.DashboardPage.HandleSignOut | src/components/Dashboard.js:79-87 | sign-out is issued once; only a successful one navigates to `/login`; no other state changes |
| Dashboard.LoadTwice | src/components/Dashboard.js:40-66 | two dashboard loads for a user without a row show the same created row and issue exactly one insert |

## Left out

- `src/App.js` (the route table) and `src/components/SignUp.js` (a single
  `signUp` call) are not part of this model.
- Rendering, form inputs, CSS, `alert` and console logging are not modelled.
  The form inputs that set `email`, `password` and `verificationCode` become
  direct field assignments.
- The Supabase client library, PostgREST and the edge functions are outside
  the model. Their answers are method parameters, and a store request that
  fails or throws is an injected `Fault`. A faulted write leaves the table
  unchanged.
- JSON decoding is not modelled. A JSON body that decodes is the map of the
  string fields of an object, so a non-string `error` value is not
  represented, and neither is a JSON body that decodes to something other
  than an object: `null` (where `data.error` itself throws at
  src/components/Login.js:200) or an array, number, string or boolean. A JSON
  body that fails to decode is `Undecodable` with the decoder's message. The
  `content-type` test is folded into the choice of `Body`. A rejected
  `response.text()` is not modelled.
- Percent-decoding in the fragment parser is not modelled: `%xx` sequences
  are kept as they are. `UrlFragment.ParseSerialize` therefore holds only for
  names and values without `%`.
- The `type` fragment parameter is read but never used, so it is not
  modelled. What `setSession` reports or throws is caught and only logged, so
  its answer is not an input of the model.
- A rejected `signInWithPassword` or `signOut` promise is not a separate
  input: it ends in the same catch, with the same outcome, as the error
  reply.
- Timers, asynchronous interleaving and concurrent handler runs are not
  modelled. Each handler is one sequential run, and the delayed redirect is
  recorded as `NavigateAfter("/login", 2000)`.
- Dashboard.DashboardPage.GetProfile: requires that no profile is shown yet,
  because the effect runs once per mount (empty dependency list).
- Dashboard.DashboardPage.GetProfile: the row shown after an insert is the
  row as sent; columns the table fills itself (`isDeleted`, timestamps) are
  not modelled. The dashboard's date formatting is left out as well.
