/** The REST client. Each call is modelled as a function of what the
    transport delivered: a response with `ok` set and its parsed body, a
    response with some other status, or a rejected `fetch`. Every call
    catches its own errors, so each one is proved to settle as fulfilled. */
module Api {
  import opened Records

  /** How an awaited promise settles. */
  datatype Settled<T> = Fulfilled(value: T) | Rejected

  /** What `fetch` delivered: `response.ok` with the parsed body, a response
      that is not `ok` with its status, or a thrown transport error. */
  datatype HttpOutcome<B> = Ok(body: B) | NotOk(status: int) | Thrown

  /** `response.json()` on a list endpoint: an array; an object whose `data`
      field holds an array (`None` when it is absent or falsy); `null`, on
      which reading `.data` throws; or a body that does not parse. */
  datatype ListJson =
    | ArrayJson(items: seq<Expense>)
    | ObjectJson(data: Option<seq<Expense>>)
    | NullJson
    | UnparsableJson

  /** `response.json()` on a single-record endpoint: the record itself, the
      record under `data`, `null`, or a body that does not parse. */
  datatype RecordJson =
    | RecordBody(record: Expense)
    | WrappedRecord(record: Expense)
    | NullRecord
    | UnparsableRecord

  /** What `convertCurrency` resolves to: a list, or (for an object without
      a truthy `data` field) that object itself, which is not a list. */
  datatype Converted = ConvertedList(items: seq<Expense>) | NotAList

  /** The fields a new record is created from. */
  datatype Draft = Draft(amount: real, category: string, description: Option<string>, date: string, paymentMethod: string)

  /** The body of an update: the editable fields and a fresh `updated_at`. */
  datatype UpdatePayload = UpdatePayload(fields: Draft, updatedAt: string)

  const NotFound: int := 404

  /** `fetchExpenses`: a bare array as is, otherwise `data.data || []`; a
      404, any other failure status, `null`, a bad body and a thrown `fetch`
      all give `[]`. */
  function FetchExpenses(o: HttpOutcome<ListJson>): (r: Settled<seq<Expense>>)
    ensures r.Fulfilled?
    ensures !o.Ok? ==> r.value == []
    ensures o.Ok? && o.body.ArrayJson? ==> r.value == o.body.items
    ensures o.Ok? && o.body.ObjectJson? && o.body.data.Some? ==> r.value == o.body.data.value
    ensures o.Ok? && (o.body.NullJson? || o.body.UnparsableJson? || o.body == ObjectJson(None)) ==> r.value == []
    ensures r.value != [] ==> o.Ok? && (o.body == ArrayJson(r.value) || o.body == ObjectJson(Some(r.value)))
  {
    match o
    case Thrown => Fulfilled([])
    case NotOk(_) => Fulfilled([])
    case Ok(body) =>
      match body
      case ArrayJson(items) => Fulfilled(items)
      case ObjectJson(data) => Fulfilled(if data.Some? then data.value else [])
      case NullJson => Fulfilled([])
      case UnparsableJson => Fulfilled([])
  }

  /** `convertCurrency`: `data.data || data` on success (an array has no
      `data` field, so it comes back as is); `[]` on a 404 and on every
      failure. */
  function ConvertCurrency(o: HttpOutcome<ListJson>): (r: Settled<Converted>)
    ensures r.Fulfilled?
    ensures !o.Ok? ==> r.value == ConvertedList([])
    ensures o.Ok? && o.body.ArrayJson? ==> r.value == ConvertedList(o.body.items)
    ensures o.Ok? && o.body.ObjectJson? && o.body.data.Some? ==> r.value == ConvertedList(o.body.data.value)
    ensures o.Ok? && (o.body.NullJson? || o.body.UnparsableJson?) ==> r.value == ConvertedList([])
    ensures r.value == NotAList <==> o.Ok? && o.body == ObjectJson(None)
  {
    match o
    case Thrown => Fulfilled(ConvertedList([]))
    case NotOk(_) => Fulfilled(ConvertedList([]))
    case Ok(body) =>
      match body
      case ArrayJson(items) => Fulfilled(ConvertedList(items))
      case ObjectJson(data) => Fulfilled(if data.Some? then ConvertedList(data.value) else NotAList)
      case NullJson => Fulfilled(ConvertedList([]))
      case UnparsableJson => Fulfilled(ConvertedList([]))
  }

  /** The record a server response carries (`data.data || data`), if any. */
  function ServerRecord(o: HttpOutcome<RecordJson>): Option<Expense>
  {
    if o.Ok? && (o.body.RecordBody? || o.body.WrappedRecord?) then Some(o.body.record) else None
  }

  /** The record carries exactly the fields of `d`, and no conversion. */
  predicate HasFields(e: Expense, d: Draft)
  {
    && e.amount == d.amount && e.category == d.category && e.description == d.description
    && e.date == d.date && e.paymentMethod == d.paymentMethod
    && e.originalAmount.None? && e.originalCurrency.None?
    && e.convertedAmount.None? && e.targetCurrency.None?
  }

  /** `createExpense`: the server's record, or on any failure the draft with
      `id: Date.now()` and both timestamps set to now. */
  function CreateExpense(d: Draft, o: HttpOutcome<RecordJson>, nowMillis: int, nowIso: string): (r: Settled<Expense>)
    ensures r.Fulfilled?
    ensures ServerRecord(o).Some? ==> r.value == ServerRecord(o).value
    ensures ServerRecord(o).None? ==>
      && HasFields(r.value, d)
      && r.value.id == Some(nowMillis)
      && r.value.createdAt == Some(nowIso) && r.value.updatedAt == Some(nowIso)
  {
    var local := Expense(Some(nowMillis), d.amount, d.category, d.description, d.date, d.paymentMethod,
                         Some(nowIso), Some(nowIso), None, None, None, None);
    match o
    case Thrown => Fulfilled(local)
    case NotOk(_) => Fulfilled(local)
    case Ok(body) =>
      match body
      case RecordBody(e) => Fulfilled(e)
      case WrappedRecord(e) => Fulfilled(e)
      case NullRecord => Fulfilled(local)
      case UnparsableRecord => Fulfilled(local)
  }

  /** `updateExpense`: the server's record, or on any failure a record with
      the requested id, the submitted fields and `updated_at`, and
      `created_at` set to now. */
  function UpdateExpense(id: int, p: UpdatePayload, o: HttpOutcome<RecordJson>, nowIso: string): (r: Settled<Expense>)
    ensures r.Fulfilled?
    ensures ServerRecord(o).Some? ==> r.value == ServerRecord(o).value
    ensures ServerRecord(o).None? ==>
      && HasFields(r.value, p.fields)
      && r.value.id == Some(id)
      && r.value.createdAt == Some(nowIso) && r.value.updatedAt == Some(p.updatedAt)
  {
    var d := p.fields;
    var local := Expense(Some(id), d.amount, d.category, d.description, d.date, d.paymentMethod,
                         Some(nowIso), Some(p.updatedAt), None, None, None, None);
    match o
    case Thrown => Fulfilled(local)
    case NotOk(_) => Fulfilled(local)
    case Ok(body) =>
      match body
      case RecordBody(e) => Fulfilled(e)
      case WrappedRecord(e) => Fulfilled(e)
      case NullRecord => Fulfilled(local)
      case UnparsableRecord => Fulfilled(local)
  }

  /** `deleteExpense`: a failure status and a thrown `fetch` are both
      swallowed. */
  function DeleteExpense(id: int, o: HttpOutcome<()>): (r: Settled<()>)
    ensures r == Fulfilled(())
  {
    match o
    case Ok(_) => Fulfilled(())
    case NotOk(_) => Fulfilled(())
    case Thrown => Fulfilled(())
  }

  /** The list endpoint accepts both shapes: a list sent bare and the same
      list under `data` load the same; so does an empty wrapper and a 404. */
  lemma FetchShapesAgree(items: seq<Expense>)
    ensures FetchExpenses(Ok(ArrayJson(items))) == FetchExpenses(Ok(ObjectJson(Some(items))))
    ensures FetchExpenses(Ok(ObjectJson(None))) == FetchExpenses(NotOk(NotFound)) == Fulfilled([])
  {
  }

  /** Unlike the loader, the converter hands back a wrapper without `data`
      as the wrapper itself rather than as `[]`. */
  lemma ConvertDiffersOnEmptyWrapper()
    ensures FetchExpenses(Ok(ObjectJson(None))).value == []
    ensures ConvertCurrency(Ok(ObjectJson(None))).value == NotAList
  {
  }
}
