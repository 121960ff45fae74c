/** The application's expense collection and the handlers that load, add,
    update and delete records through the API client. Each handler is given
    the client call as a function from what it sends to how the request
    settles, so the model shows exactly what is forwarded. */
module Store {
  import opened Records
  import opened Api
  import opened NavContext

  function Mock(id: int, amount: real, category: string, description: string, date: string,
                payment: string, stamp: string): Expense
  {
    Expense(Some(id), amount, category, Some(description), date, payment, Some(stamp), Some(stamp), None, None, None, None)
  }

  /** The six records shown when the API yields nothing. */
  const MockExpenses: seq<Expense> := [
    Mock(1, 45.5, "Food", "Lunch at restaurant", "2026-02-01", "Credit Card", "2026-02-01T12:30:00Z"),
    Mock(2, 120.0, "Transport", "Gas", "2026-02-02", "Debit Card", "2026-02-02T08:00:00Z"),
    Mock(3, 65.99, "Shopping", "Groceries", "2026-02-03", "Debit Card", "2026-02-03T16:45:00Z"),
    Mock(4, 35.0, "Entertainment", "Movie tickets", "2026-02-04", "Credit Card", "2026-02-04T19:00:00Z"),
    Mock(5, 150.0, "Utilities", "Electricity bill", "2026-02-05", "Bank Transfer", "2026-02-05T10:00:00Z"),
    Mock(6, 89.0, "Health", "Doctor appointment", "2026-02-05", "Cash", "2026-02-05T14:30:00Z")
  ]

  /** The list the loader installs: the API's list when it is non-empty,
      the mock records when it is empty or the call failed. */
  function Loaded(res: Settled<seq<Expense>>): (r: seq<Expense>)
    ensures r != []
    ensures r == MockExpenses || (res.Fulfilled? && r == res.value)
    ensures res.Fulfilled? && res.value != [] ==> r == res.value
  {
    match res
    case Fulfilled(list) => if |list| > 0 then list else MockExpenses
    case Rejected => MockExpenses
  }

  /** The mock records have distinct ids 1 to 6. */
  lemma MockIds()
    ensures |MockExpenses| == 6
    ensures forall i :: 0 <= i < 6 ==> MockExpenses[i].id == Some(i + 1)
  {
  }

  /** With the real client, any failure of the list endpoint shows the mock
      records, and so does an empty list. */
  lemma LoadFallsBack(o: HttpOutcome<ListJson>)
    ensures !o.Ok? ==> Loaded(FetchExpenses(o)) == MockExpenses
    ensures FetchExpenses(o).value == [] ==> Loaded(FetchExpenses(o)) == MockExpenses
  {
  }

  /** The fields `handleAddExpense` forwards to `createExpense`. */
  function CreatePayload(e: Expense): (d: Draft)
    ensures d.amount == e.amount && d.category == e.category && d.description == e.description
    ensures d.date == e.date && d.paymentMethod == e.paymentMethod
  {
    Draft(e.amount, e.category, e.description, e.date, e.paymentMethod)
  }

  /** The payload depends on the five editable fields only: an id,
      timestamps or conversion fields on the input are dropped. */
  lemma CreatePayloadDropsExtras(e: Expense, f: Expense)
    requires e.amount == f.amount && e.category == f.category && e.description == f.description
    requires e.date == f.date && e.paymentMethod == f.paymentMethod
    ensures CreatePayload(e) == CreatePayload(f)
  {
  }

  /** The body `handleUpdateExpense` sends: the editable fields and the
      current time as `updated_at`. */
  function UpdatePayloadOf(e: Expense, nowIso: string): (p: UpdatePayload)
    ensures p.fields == CreatePayload(e) && p.updatedAt == nowIso
  {
    UpdatePayload(CreatePayload(e), nowIso)
  }

  /** `s.map(exp => exp.id === id ? updated : exp)`. */
  function ReplaceById(s: seq<Expense>, id: Option<int>, updated: Expense): (r: seq<Expense>)
    ensures |r| == |s|
    ensures forall i :: 0 <= i < |s| ==> r[i] == if s[i].id == id then updated else s[i]
  {
    if s == [] then []
    else
      var n := |s| - 1;
      ReplaceById(s[..n], id, updated) + [if s[n].id == id then updated else s[n]]
  }

  function IdIsNot(id: int): Expense -> bool {
    (e: Expense) => e.id != Some(id)
  }

  /** `s.filter(exp => exp.id !== id)`. */
  function RemoveById(s: seq<Expense>, id: int): (r: seq<Expense>)
    ensures |r| <= |s|
  {
    Filter(s, IdIsNot(id))
  }

  /** Delete keeps exactly the records with another id (including those
      without one), in their original order. */
  lemma RemoveByIdKeeps(s: seq<Expense>, id: int)
    ensures forall x :: x in RemoveById(s, id) <==> x in s && x.id != Some(id)
    ensures IsSubsequence(RemoveById(s, id), s)
    ensures forall x: Expense :: x.id != Some(id) ==> multiset(RemoveById(s, id))[x] == multiset(s)[x]
  {
    FilterMembers(s, IdIsNot(id));
    FilterCount(s, IdIsNot(id));
    FilterIsSubsequence(s, IdIsNot(id));
  }

  /** Deleting twice is deleting once. */
  lemma RemoveByIdIdempotent(s: seq<Expense>, id: int)
    ensures RemoveById(RemoveById(s, id), id) == RemoveById(s, id)
  {
    var p := IdIsNot(id);
    FilterFilter(s, p, p);
    FilterExtensional(s, And(p, p), p);
  }

  /** The amounts deleted and the amounts kept add up to the old total. */
  lemma RemoveByIdSum(s: seq<Expense>, id: int)
    ensures SumAmounts(RemoveById(s, id)) + SumAmounts(Filter(s, Not(IdIsNot(id)))) == SumAmounts(s)
  {
    SumPartition(s, IdIsNot(id));
  }

  /** Deleting an id after updating it (when the returned record keeps the
      id) is the same as deleting it outright. */
  lemma {:induction false} UpdateThenDelete(s: seq<Expense>, id: int, updated: Expense)
    requires updated.id == Some(id)
    ensures RemoveById(ReplaceById(s, Some(id), updated), id) == RemoveById(s, id)
  {
    if s != [] {
      var n := |s| - 1;
      var t := ReplaceById(s, Some(id), updated);
      assert t[..n] == ReplaceById(s[..n], Some(id), updated);
      assert t[n] == if s[n].id == Some(id) then updated else s[n];
      UpdateThenDelete(s[..n], id, updated);
      assert IdIsNot(id)(t[n]) == IdIsNot(id)(s[n]);
    }
  }

  /** What `renderPage` shows. */
  datatype View = LoadingView | PageView(page: Page)

  class ExpenseStore {
    var expenses: seq<Expense>
    var loading: bool
    var showExpenseForm: bool

    /** The state before the first load: no records, loading, form closed. */
    constructor()
      ensures expenses == [] && loading && !showExpenseForm
    {
      expenses := [];
      loading := true;
      showExpenseForm := false;
    }

    /** `loadExpenses`: install the loaded list and clear the loading flag. */
    method Load(fetch: Settled<seq<Expense>>)
      modifies this
      ensures expenses == Loaded(fetch)
      ensures !loading && showExpenseForm == old(showExpenseForm)
    {
      loading := true;
      match fetch {
        case Fulfilled(apiExpenses) =>
          expenses := if |apiExpenses| > 0 then apiExpenses else MockExpenses;
        case Rejected =>
          expenses := MockExpenses;
      }
      loading := false;
    }

    /** `handleAddExpense`: send the five editable fields; on success append
        the returned record and close the form; on failure change nothing. */
    method AddExpense(e: Expense, create: Draft -> Settled<Expense>)
      modifies this
      ensures create(CreatePayload(e)).Fulfilled? ==>
        expenses == old(expenses) + [create(CreatePayload(e)).value] && !showExpenseForm
      ensures create(CreatePayload(e)).Rejected? ==>
        expenses == old(expenses) && showExpenseForm == old(showExpenseForm)
      ensures loading == old(loading)
    {
      var res := create(CreatePayload(e));
      match res {
        case Fulfilled(newExpense) =>
          expenses := expenses + [newExpense];
          showExpenseForm := false;
        case Rejected =>
      }
    }

    /** `handleUpdateExpense`: a record without a truthy id is ignored;
        otherwise send its editable fields with `updated_at` and, on success,
        put the returned record in place of every record with that id. */
    method UpdateExpense(e: Expense, nowIso: string, update: (int, UpdatePayload) -> Settled<Expense>)
      modifies this
      ensures !HasTruthyId(e) ==> expenses == old(expenses)
      ensures HasTruthyId(e) && update(e.id.value, UpdatePayloadOf(e, nowIso)).Fulfilled? ==>
        expenses == ReplaceById(old(expenses), e.id, update(e.id.value, UpdatePayloadOf(e, nowIso)).value)
      ensures HasTruthyId(e) && update(e.id.value, UpdatePayloadOf(e, nowIso)).Rejected? ==>
        expenses == old(expenses)
      ensures loading == old(loading) && showExpenseForm == old(showExpenseForm)
    {
      if !HasTruthyId(e) {
        return;
      }
      var res := update(e.id.value, UpdatePayloadOf(e, nowIso));
      match res {
        case Fulfilled(updated) =>
          expenses := ReplaceById(expenses, e.id, updated);
        case Rejected =>
      }
    }

    /** `handleDeleteExpense`: on success keep only the records with another
        id; on failure change nothing. */
    method DeleteExpense(id: int, delete: int -> Settled<()>)
      modifies this
      ensures delete(id).Fulfilled? ==> expenses == RemoveById(old(expenses), id)
      ensures delete(id).Rejected? ==> expenses == old(expenses)
      ensures loading == old(loading) && showExpenseForm == old(showExpenseForm)
    {
      var res := delete(id);
      match res {
        case Fulfilled(_) =>
          expenses := RemoveById(expenses, id);
        case Rejected =>
      }
    }

    /** The sidebar's create button and the drawer's open-change handler. */
    method SetShowExpenseForm(open: bool)
      modifies this
      ensures showExpenseForm == open
      ensures expenses == old(expenses) && loading == old(loading)
    {
      showExpenseForm := open;
    }

    /** `renderPage`: the loading message while loading, otherwise the
        current page. */
    function RenderPage(currentPage: Page): (v: View)
      reads this
      ensures v.LoadingView? <==> loading
      ensures v.PageView? ==> v.page == currentPage
    {
      if loading then LoadingView else PageView(currentPage)
    }
  }

  /** With the real client, adding always succeeds: the list grows by
      exactly one record, the one the client returned. */
  lemma AddWithClient(e: Expense, o: HttpOutcome<RecordJson>, nowMillis: int, nowIso: string)
    ensures CreateExpense(CreatePayload(e), o, nowMillis, nowIso).Fulfilled?
    ensures ServerRecord(o).None? ==>
      CreateExpense(CreatePayload(e), o, nowMillis, nowIso).value.id == Some(nowMillis)
  {
  }
}
