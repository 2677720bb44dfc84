/** The `profiles` table as the three components use it: rows keyed by the
    user's id, a point select with `single()` or `maybeSingle()`, `insert`,
    and `upsert` with conflict target `id`. What happens on the way to the
    table (network trouble, row-level security, a rejected promise) is an
    injected Fault; otherwise the rows decide the reply. */
module ProfileStore {
  import opened Js

  /** A row of `profiles`. In a row the client writes, None is a column the
      request does not supply; in a stored row it is a null or defaulted column. */
  datatype Profile = Profile(
    id: string,
    email: Option<string>,
    fullName: Option<string>,
    phoneNumber: Option<string>,
    isDeleted: Option<bool>)

  type Rows = map<string, Profile>

  /** `id` is the primary key: every row is stored under its own id, so there
      is at most one profile per user. */
  predicate KeyedById(rows: Rows) {
    forall k :: k in rows ==> rows[k].id == k
  }

  /** A PostgREST error: its code and its message. */
  datatype StoreError = StoreError(code: string, message: string)

  /** The code PostgREST gives `single()` when the query matched no row. */
  const NoRowCode := "PGRST116"
  const NoSingleRow := StoreError(NoRowCode, "JSON object requested, multiple (or no) rows returned")
  /** PostgreSQL's unique_violation, raised by an insert on an existing id. */
  const DuplicateKey := StoreError("23505", "duplicate key value violates unique constraint")

  /** How the request fares before the table decides: it reaches the table,
      comes back with an error, or the promise rejects. */
  datatype Fault = Healthy | Fails(err: StoreError) | Throws(message: string)

  /** What the client library hands back: `{data}`, `{error}`, or an exception. */
  datatype Reply = Data(row: Option<Profile>) | Failed(err: StoreError) | Threw(message: string)

  /** `single()` wants exactly one row; `maybeSingle()` accepts none. */
  datatype Cardinality = Single | MaybeSingle

  /** The outcome of a write: the reply and the table afterwards. */
  datatype Written = Written(reply: Reply, rows: Rows)

  function Faulted(fault: Fault): Reply
    requires !fault.Healthy?
  {
    if fault.Fails? then Failed(fault.err) else Threw(fault.message)
  }

  /** `select(...).eq('id', id)` followed by `single()` or `maybeSingle()`. */
  function SelectById(rows: Rows, id: string, mode: Cardinality, fault: Fault): (r: Reply)
    ensures !fault.Healthy? ==> r == Faulted(fault)
    ensures fault.Healthy? && id in rows ==> r == Data(Some(rows[id]))
    ensures fault.Healthy? && id !in rows ==> r == (if mode == Single then Failed(NoSingleRow) else Data(None))
    ensures KeyedById(rows) && r.Data? && r.row.Some? ==> r.row.value.id == id
  {
    if !fault.Healthy? then Faulted(fault)
    else if id in rows then Data(Some(rows[id]))
    else if mode == Single then Failed(NoSingleRow)
    else Data(None)
  }

  /** `insert([row])`: a new id gets the row, an existing id is a duplicate-key
      error; nothing changes unless the insert succeeds. */
  function InsertRow(rows: Rows, row: Profile, fault: Fault): (w: Written)
    ensures w.reply.Data? <==> fault.Healthy? && row.id !in rows
    ensures w.reply.Data? ==> w.reply.row == Some(row) && w.rows == rows[row.id := row]
    ensures !w.reply.Data? ==> w.rows == rows
    ensures fault.Healthy? && row.id in rows ==> w.reply == Failed(DuplicateKey)
    ensures KeyedById(rows) ==> KeyedById(w.rows)
  {
    if !fault.Healthy? then Written(Faulted(fault), rows)
    else if row.id in rows then Written(Failed(DuplicateKey), rows)
    else Written(Data(Some(row)), rows[row.id := row])
  }

  /** The columns `supplied` carries overwrite those of `existing`. */
  function Merge(existing: Profile, supplied: Profile): (m: Profile)
    ensures Carries(m, supplied)
    ensures supplied.email.None? ==> m.email == existing.email
    ensures supplied.fullName.None? ==> m.fullName == existing.fullName
    ensures supplied.phoneNumber.None? ==> m.phoneNumber == existing.phoneNumber
    ensures supplied.isDeleted.None? ==> m.isDeleted == existing.isDeleted
  {
    Profile(
      supplied.id,
      if supplied.email.Some? then supplied.email else existing.email,
      if supplied.fullName.Some? then supplied.fullName else existing.fullName,
      if supplied.phoneNumber.Some? then supplied.phoneNumber else existing.phoneNumber,
      if supplied.isDeleted.Some? then supplied.isDeleted else existing.isDeleted)
  }

  /** The stored row holds every column the write supplied. */
  predicate Carries(stored: Profile, supplied: Profile) {
    stored.id == supplied.id &&
    (supplied.email.Some? ==> stored.email == supplied.email) &&
    (supplied.fullName.Some? ==> stored.fullName == supplied.fullName) &&
    (supplied.phoneNumber.Some? ==> stored.phoneNumber == supplied.phoneNumber) &&
    (supplied.isDeleted.Some? ==> stored.isDeleted == supplied.isDeleted)
  }

  /** `upsert([row], { onConflict: 'id' })`: afterwards the row with that id
      carries the supplied columns and keeps the others; no other row changes. */
  function UpsertRow(rows: Rows, row: Profile, fault: Fault): (w: Written)
    ensures fault.Healthy? <==> w.reply.Data?
    ensures fault.Healthy? ==>
      w.rows.Keys == rows.Keys + {row.id} && Carries(w.rows[row.id], row) &&
      (row.id in rows ==> w.rows[row.id] == Merge(rows[row.id], row))
    ensures forall k :: k in rows && k != row.id ==> k in w.rows && w.rows[k] == rows[k]
    ensures !fault.Healthy? ==> w.rows == rows
    ensures KeyedById(rows) ==> KeyedById(w.rows)
  {
    if !fault.Healthy? then Written(Faulted(fault), rows)
    else if row.id in rows then Written(Data(None), rows[row.id := Merge(rows[row.id], row)])
    else Written(Data(None), rows[row.id := row])
  }

  /** Repeating an upsert leaves the table as the first one left it. */
  lemma UpsertIdempotent(rows: Rows, row: Profile)
    ensures UpsertRow(UpsertRow(rows, row, Healthy).rows, row, Healthy).rows == UpsertRow(rows, row, Healthy).rows
  {
  }

  /** A row that was inserted is what a later select by its id returns. */
  lemma InsertThenSelect(rows: Rows, row: Profile, mode: Cardinality)
    requires row.id !in rows
    ensures SelectById(InsertRow(rows, row, Healthy).rows, row.id, mode, Healthy) == Data(Some(row))
  {
  }

  /** A second insert for the same id is refused and changes nothing: a
      profile is created at most once. */
  lemma InsertTwiceRefused(rows: Rows, first: Profile, second: Profile, fault: Fault)
    requires first.id !in rows && second.id == first.id
    ensures var once := InsertRow(rows, first, Healthy).rows;
      !InsertRow(once, second, fault).reply.Data? && InsertRow(once, second, fault).rows == once
  {
  }
}
