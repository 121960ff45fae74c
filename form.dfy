/** The add/edit form: its text fields, the schema that requires four of
    them, the per-field error map, and the record a valid form submits. */
module ExpenseForm {
  import opened Records

  datatype Field = Amount | Category | Description | Date | PaymentMethod

  /** The form's text fields. */
  datatype FormValues = FormValues(amount: string, category: string, description: string, date: string, paymentMethod: string)

  function Get(v: FormValues, f: Field): string
  {
    match f
    case Amount => v.amount
    case Category => v.category
    case Description => v.description
    case Date => v.date
    case PaymentMethod => v.paymentMethod
  }

  /** `{...prev, [field]: value}`. */
  function With(v: FormValues, f: Field, value: string): (r: FormValues)
    ensures Get(r, f) == value
    ensures forall g :: g != f ==> Get(r, g) == Get(v, g)
  {
    match f
    case Amount => v.(amount := value)
    case Category => v.(category := value)
    case Description => v.(description := value)
    case Date => v.(date := value)
    case PaymentMethod => v.(paymentMethod := value)
  }

  /** One schema violation: the field and its message. */
  datatype Issue = Issue(field: Field, message: string)

  /** The schema's message for a required field left empty. */
  function Message(f: Field): string
  {
    match f
    case Amount => "Amount is required"
    case Category => "Category is required"
    case Description => ""
    case Date => "Date is required"
    case PaymentMethod => "Payment method is required"
  }

  /** A required field (all but the description) that is empty. */
  predicate Fails(v: FormValues, f: Field)
  {
    f != Description && Get(v, f) == ""
  }

  function IssueIf(v: FormValues, f: Field): seq<Issue>
  {
    if Fails(v, f) then [Issue(f, Message(f))] else []
  }

  /** The issues `safeParse` reports, in the schema's field order. */
  function Issues(v: FormValues): (r: seq<Issue>)
    ensures |r| <= 4
  {
    IssueIf(v, Amount) + IssueIf(v, Category) + IssueIf(v, Date) + IssueIf(v, PaymentMethod)
  }

  /** An issue is reported for a field exactly when that field fails, and
      it carries the field's message. */
  lemma IssuesReportFailures(v: FormValues)
    ensures forall f :: Issue(f, Message(f)) in Issues(v) <==> Fails(v, f)
    ensures forall x :: x in Issues(v) ==> x.message == Message(x.field) && Fails(v, x.field)
  {
    forall x
      ensures x in Issues(v) <==> exists f :: f != Description && Fails(v, f) && x == Issue(f, Message(f))
    {
      IssueIn(v, x);
    }
  }

  lemma IssueIn(v: FormValues, x: Issue)
    ensures x in Issues(v) <==> exists f :: f != Description && Fails(v, f) && x == Issue(f, Message(f))
  {
    var a, b, c, d := IssueIf(v, Amount), IssueIf(v, Category), IssueIf(v, Date), IssueIf(v, PaymentMethod);
    assert Issues(v) == a + b + c + d;
    assert x in Issues(v) <==> x in a || x in b || x in c || x in d;
    if x in Issues(v) {
      if x in a { assert x.field == Amount; }
      else if x in b { assert x.field == Category; }
      else if x in c { assert x.field == Date; }
      else { assert x.field == PaymentMethod; }
    }
  }

  /** The form is valid exactly when the four required fields are filled;
      the description may be empty. */
  lemma ValidIff(v: FormValues)
    ensures Issues(v) == [] <==> v.amount != "" && v.category != "" && v.date != "" && v.paymentMethod != ""
  {
  }

  /** The error map the issues produce. */
  function ErrorMap(issues: seq<Issue>): map<Field, string>
  {
    if issues == [] then map[]
    else
      var n := |issues| - 1;
      ErrorMap(issues[..n])[issues[n].field := issues[n].message]
  }

  /** `issues.forEach(issue => newErrors[issue.path[0]] = issue.message)`. */
  method CollectErrors(issues: seq<Issue>) returns (newErrors: map<Field, string>)
    ensures newErrors == ErrorMap(issues)
  {
    newErrors := map[];
    var i := 0;
    while i < |issues|
      invariant 0 <= i <= |issues|
      invariant newErrors == ErrorMap(issues[..i])
    {
      assert issues[..i + 1][..i] == issues[..i];
      newErrors := newErrors[issues[i].field := issues[i].message];
      i := i + 1;
    }
    assert issues[..|issues|] == issues;
  }

  /** Issue `i` is the last one naming `f`. */
  predicate LastIssueFor(issues: seq<Issue>, i: int, f: Field)
    requires 0 <= i < |issues|
  {
    issues[i].field == f && forall j :: i < j < |issues| ==> issues[j].field != f
  }

  /** The error map has a key for every field some issue names, holding the
      message of the last issue for it. */
  lemma {:induction false} ErrorMapKeys(issues: seq<Issue>)
    ensures forall f :: f in ErrorMap(issues) <==> exists i :: 0 <= i < |issues| && issues[i].field == f
    ensures forall f :: f in ErrorMap(issues) ==>
      exists i :: 0 <= i < |issues| && LastIssueFor(issues, i, f) && ErrorMap(issues)[f] == issues[i].message
  {
    if issues != [] {
      var n := |issues| - 1;
      ErrorMapKeys(issues[..n]);
      assert forall i :: 0 <= i < n ==> issues[..n][i] == issues[i];
      forall f | f in ErrorMap(issues)
        ensures exists i :: 0 <= i < |issues| && LastIssueFor(issues, i, f) && ErrorMap(issues)[f] == issues[i].message
      {
        if f == issues[n].field {
          assert LastIssueFor(issues, n, f);
        } else {
          var i :| 0 <= i < n && LastIssueFor(issues[..n], i, f) && ErrorMap(issues[..n])[f] == issues[..n][i].message;
          assert LastIssueFor(issues, i, f) by {
            forall j | i < j < |issues| ensures issues[j].field != f {
              if j < n { assert issues[..n][j] == issues[j]; }
            }
          }
        }
      }
    }
  }

  /** After a failed submit there is an error for exactly the failing
      fields, each with its schema message. */
  lemma ErrorsForFailingFields(v: FormValues)
    ensures forall f :: f in ErrorMap(Issues(v)) <==> Fails(v, f)
    ensures forall f :: f in ErrorMap(Issues(v)) ==> ErrorMap(Issues(v))[f] == Message(f)
  {
    var s := Issues(v);
    IssuesReportFailures(v);
    ErrorMapKeys(s);
    forall f | Fails(v, f)
      ensures exists i :: 0 <= i < |s| && s[i].field == f
    {
      var i :| 0 <= i < |s| && s[i] == Issue(f, Message(f));
    }
    forall f | f in ErrorMap(s)
      ensures Fails(v, f) && ErrorMap(s)[f] == Message(f)
    {
      var i :| 0 <= i < |s| && s[i].field == f && ErrorMap(s)[f] == s[i].message;
      assert s[i] in s;
    }
  }

  /** `date.includes("T") ? date.split("T")[0] : date`: the text before the
      first "T", or the whole date when it has none. */
  function DatePart(date: string): (r: string)
    ensures |r| <= |date| && r == date[..|r|]
    ensures 'T' !in r
    ensures |r| < |date| ==> date[|r|] == 'T'
  {
    if date == [] then []
    else if date[0] == 'T' then []
    else [date[0]] + DatePart(date[1..])
  }

  /** A date without "T" is left as it is, and truncating twice is
      truncating once. */
  lemma DatePartFixes(date: string)
    ensures 'T' !in date ==> DatePart(date) == date
    ensures DatePart(DatePart(date)) == DatePart(date)
  {
  }

  /** The form's values for a record (or for none): empty fields, or the
      record's, with today's date when the record has none. `showAmount` is
      the host's number-to-text conversion. */
  function ValuesFor(expense: Option<Expense>, date: string, showAmount: real -> string): FormValues
  {
    match expense
    case None => FormValues("", "", "", date, "")
    case Some(e) =>
      FormValues(showAmount(e.amount), e.category,
                 if e.description.Some? then e.description.value else "", date, e.paymentMethod)
  }

  /** The values `useState` starts from: the record's date as it is. */
  function InitialValues(expense: Option<Expense>, nowIso: string, showAmount: real -> string): (v: FormValues)
    ensures expense.None? ==> v.amount == "" && v.category == "" && v.description == "" && v.paymentMethod == ""
    ensures expense.None? ==> v.date == DatePart(nowIso)
  {
    var date := if expense.Some? && expense.value.date != "" then expense.value.date else DatePart(nowIso);
    ValuesFor(expense, date, showAmount)
  }

  /** The values the effect installs when the record changes: the record's
      date cut at its first "T". */
  function SyncedValues(expense: Option<Expense>, nowIso: string, showAmount: real -> string): (v: FormValues)
    ensures 'T' !in v.date
    ensures expense.None? ==> v == InitialValues(expense, nowIso, showAmount)
  {
    var date := if expense.Some? && expense.value.date != "" then DatePart(expense.value.date) else DatePart(nowIso);
    ValuesFor(expense, date, showAmount)
  }

  /** `expenseData`: the id only when the edited record has a truthy one,
      the amount as parsed, an empty description as null. `parseAmount` is
      the host's `parseFloat`. */
  function BuildExpense(v: FormValues, expense: Option<Expense>, parseAmount: string -> real): (r: Expense)
    ensures r.id.Some? <==> expense.Some? && HasTruthyId(expense.value)
    ensures r.id.Some? ==> r.id == expense.value.id
    ensures r.amount == parseAmount(v.amount)
    ensures r.description.None? <==> v.description == ""
    ensures r.description.Some? ==> r.description.value == v.description
    ensures r.category == v.category && r.date == v.date && r.paymentMethod == v.paymentMethod
  {
    var id := if expense.Some? && HasTruthyId(expense.value) then expense.value.id else None;
    Expense(id, parseAmount(v.amount), v.category, if v.description == "" then None else Some(v.description),
            v.date, v.paymentMethod, None, None, None, None, None, None)
  }

  /** Submitting a valid form and opening the record again shows the same
      values, when the amount text reads back as written and the date has
      no time part. */
  lemma SubmitThenEditRoundTrip(v: FormValues, expense: Option<Expense>, nowIso: string,
                                parseAmount: string -> real, showAmount: real -> string)
    requires Issues(v) == []
    requires 'T' !in v.date
    requires showAmount(parseAmount(v.amount)) == v.amount
    ensures SyncedValues(Some(BuildExpense(v, expense, parseAmount)), nowIso, showAmount) == v
  {
    DatePartFixes(v.date);
  }

  class FormState {
    var values: FormValues
    var errors: map<Field, string>

    constructor(expense: Option<Expense>, nowIso: string, showAmount: real -> string)
      ensures values == InitialValues(expense, nowIso, showAmount) && errors == map[]
      ensures MessagesSet()
    {
      values := InitialValues(expense, nowIso, showAmount);
      errors := map[];
    }

    /** The effect on a change of the edited record: reload the values and
        clear every error. */
    method OnExpenseChanged(expense: Option<Expense>, nowIso: string, showAmount: real -> string)
      modifies this
      ensures values == SyncedValues(expense, nowIso, showAmount) && errors == map[]
      ensures MessagesSet()
    {
      values := SyncedValues(expense, nowIso, showAmount);
      errors := map[];
    }

    /** Every recorded error has a message. */
    predicate MessagesSet()
      reads this
    {
      forall f :: f in errors ==> errors[f] != ""
    }

    /** `handleChange`: set the field, and drop its error if it has one
        (a recorded error always has a message, so it is dropped). */
    method HandleChange(field: Field, value: string)
      modifies this
      ensures values == With(old(values), field, value)
      ensures errors == if field in old(errors) && old(errors)[field] != "" then old(errors) - {field} else old(errors)
      ensures old(MessagesSet()) ==> errors == old(errors) - {field} && MessagesSet()
    {
      values := With(values, field, value);
      if field in errors && errors[field] != "" {
        errors := errors - {field};
      }
    }

    /** `handleSubmit`: for an invalid form record the errors and submit
        nothing; for a valid one submit the built record and ask the drawer
        to close. */
    method HandleSubmit(expense: Option<Expense>, parseAmount: string -> real)
      returns (submitted: Option<Expense>, closeRequested: bool)
      modifies this
      ensures values == old(values)
      ensures Issues(values) != [] ==> errors == ErrorMap(Issues(values)) && submitted.None? && !closeRequested
      ensures Issues(values) == [] ==>
        errors == old(errors) && submitted == Some(BuildExpense(values, expense, parseAmount)) && closeRequested
      ensures old(MessagesSet()) ==> MessagesSet()
    {
      var issues := Issues(values);
      if issues != [] {
        errors := CollectErrors(issues);
        ErrorsForFailingFields(values);
        return None, false;
      }
      submitted := Some(BuildExpense(values, expense, parseAmount));
      closeRequested := true;
    }
  }
}
