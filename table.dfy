/** The expense table: the category and free-text filters in front of the
    rows, the amount cell, and the guard on the delete action. */
module ExpenseTable {
  import opened Records
  import Store

  /** `expense.converted_amount ?? expense.amount`. */
  function DisplayAmount(e: Expense): (r: real)
    ensures e.convertedAmount.Some? ==> r == e.convertedAmount.value
    ensures e.convertedAmount.None? ==> r == e.amount
  {
    match e.convertedAmount
    case Some(v) => v
    case None => e.amount
  }

  /** `expense.target_currency ?? selectedCurrency`. */
  function DisplayCurrency(e: Expense, selectedCurrency: string): (r: string)
    ensures e.targetCurrency.Some? ==> r == e.targetCurrency.value
    ensures e.targetCurrency.None? ==> r == selectedCurrency
  {
    match e.targetCurrency
    case Some(c) => c
    case None => selectedCurrency
  }

  /** The amount cell and the summaries can differ: a converted record
      shows its converted amount, while every sum counts `amount`. A zero
      conversion is shown as zero, since `??` only skips a missing value. */
  lemma CellDiffersFromSums(e: Expense)
    requires e.convertedAmount.Some? && e.convertedAmount.value != e.amount
    ensures DisplayAmount(e) != SumAmounts([e])
  {
    assert [e][..0] == [];
  }

  /** `toLowerCase` on one character: the letters A to Z map to a to z. */
  function LowerChar(c: char): (r: char)
    ensures 'A' <= c <= 'Z' ==> r as int == c as int + 32
    ensures !('A' <= c <= 'Z') ==> r == c
    ensures !('A' <= r <= 'Z')
  {
    if 'A' <= c <= 'Z' then (c as int + 32) as char else c
  }

  /** `toLowerCase` on a string, character by character. */
  function Lower(s: string): (r: string)
    ensures |r| == |s|
    ensures forall i :: 0 <= i < |s| ==> r[i] == LowerChar(s[i])
  {
    if s == [] then [] else [LowerChar(s[0])] + Lower(s[1..])
  }

  /** Lower-casing twice is lower-casing once. */
  lemma LowerIdempotent(s: string)
    ensures Lower(Lower(s)) == Lower(s)
  {
    assert forall i :: 0 <= i < |s| ==> LowerChar(Lower(s)[i]) == Lower(s)[i];
  }

  /** `t` occurs in `s` at position `i`. */
  predicate OccursAt(s: string, t: string, i: int)
  {
    0 <= i && i + |t| <= |s| && s[i..i + |t|] == t
  }

  /** `s.includes(t)`, searching from the left. */
  function Includes(s: string, t: string): bool
    decreases |s|
  {
    if |t| > |s| then false
    else if s[..|t|] == t then true
    else Includes(s[1..], t)
  }

  /** `includes` finds `t` exactly when it occurs somewhere in `s`. */
  lemma {:induction false} IncludesIff(s: string, t: string)
    ensures Includes(s, t) <==> exists i :: OccursAt(s, t, i)
    decreases |s|
  {
    if |t| > |s| {
    } else if s[..|t|] == t {
      assert OccursAt(s, t, 0);
    } else {
      IncludesIff(s[1..], t);
      if Includes(s[1..], t) {
        var i :| OccursAt(s[1..], t, i);
        assert s[i + 1..i + 1 + |t|] == s[1..][i..i + |t|];
        assert OccursAt(s, t, i + 1);
      } else {
        forall i | OccursAt(s, t, i)
          ensures false
        {
          if i != 0 {
            assert s[1..][i - 1..i - 1 + |t|] == s[i..i + |t|];
            assert OccursAt(s[1..], t, i - 1);
          }
        }
      }
    }
  }

  /** The text search: the lower-cased term occurs in the lower-cased
      description, category or payment method. A missing description never
      matches. */
  predicate Matches(e: Expense, filterValue: string)
  {
    var q := Lower(filterValue);
    || (e.description.Some? && Includes(Lower(e.description.value), q))
    || Includes(Lower(e.category), q)
    || Includes(Lower(e.paymentMethod), q)
  }

  /** The search ignores the case of the term. */
  lemma MatchesIgnoresCase(e: Expense, filterValue: string)
    ensures Matches(e, Lower(filterValue)) == Matches(e, filterValue)
  {
    LowerIdempotent(filterValue);
  }

  const AllCategories: string := "all"

  function CategoryIs(c: string): Expense -> bool
  {
    (e: Expense) => e.category == c
  }

  function SearchHit(filterValue: string): Expense -> bool
  {
    (e: Expense) => Matches(e, filterValue)
  }

  /** Whether a record passes both filters. */
  predicate Passes(categoryFilter: string, filterValue: string, e: Expense)
  {
    && (categoryFilter == AllCategories || e.category == categoryFilter)
    && (filterValue == "" || Matches(e, filterValue))
  }

  function PassesBoth(categoryFilter: string, filterValue: string): Expense -> bool
  {
    (e: Expense) => Passes(categoryFilter, filterValue, e)
  }

  /** `filteredExpenses`: the category filter unless it is "all", then the
      text filter unless the search is empty. */
  function FilteredExpenses(es: seq<Expense>, categoryFilter: string, filterValue: string): (r: seq<Expense>)
    ensures |r| <= |es|
  {
    var result := if categoryFilter != AllCategories then Filter(es, CategoryIs(categoryFilter)) else es;
    if filterValue != "" then Filter(result, SearchHit(filterValue)) else result
  }

  /** The two steps are one filter on the conjunction: the rows are the
      records that pass both, in their original order. */
  lemma FilteredIsConjunction(es: seq<Expense>, categoryFilter: string, filterValue: string)
    ensures FilteredExpenses(es, categoryFilter, filterValue) == Filter(es, PassesBoth(categoryFilter, filterValue))
    ensures forall x :: x in FilteredExpenses(es, categoryFilter, filterValue) <==>
      x in es && Passes(categoryFilter, filterValue, x)
    ensures IsSubsequence(FilteredExpenses(es, categoryFilter, filterValue), es)
  {
    var pc := if categoryFilter != AllCategories then CategoryIs(categoryFilter) else All();
    var ps := if filterValue != "" then SearchHit(filterValue) else All();
    var r1 := if categoryFilter != AllCategories then Filter(es, CategoryIs(categoryFilter)) else es;
    FilterAll(es);
    assert r1 == Filter(es, pc);
    FilterAll(r1);
    assert FilteredExpenses(es, categoryFilter, filterValue) == Filter(r1, ps);
    FilterFilter(es, pc, ps);
    FilterExtensional(es, And(pc, ps), PassesBoth(categoryFilter, filterValue));
    FilterMembers(es, PassesBoth(categoryFilter, filterValue));
    FilterIsSubsequence(es, PassesBoth(categoryFilter, filterValue));
  }

  /** With no category chosen and an empty search, every record is shown. */
  lemma NoFilterShowsAll(es: seq<Expense>)
    ensures FilteredExpenses(es, AllCategories, "") == es
  {
  }

  /** Applying the same filters to the rows again changes nothing. */
  lemma FilteredIdempotent(es: seq<Expense>, categoryFilter: string, filterValue: string)
    ensures FilteredExpenses(FilteredExpenses(es, categoryFilter, filterValue), categoryFilter, filterValue) ==
      FilteredExpenses(es, categoryFilter, filterValue)
  {
    var p := PassesBoth(categoryFilter, filterValue);
    FilteredIsConjunction(es, categoryFilter, filterValue);
    FilteredIsConjunction(Filter(es, p), categoryFilter, filterValue);
    FilterFilter(es, p, p);
    FilterExtensional(es, And(p, p), p);
  }

  /** The delete action's guard: only a record with a truthy id is sent to
      `onDeleteExpense`, with that id. */
  function DeleteTarget(e: Expense): (r: Option<int>)
    ensures r.Some? <==> HasTruthyId(e)
    ensures r.Some? ==> e.id == Some(r.value) && r.value != 0
  {
    if e.id.Some? && e.id.value != 0 then Some(e.id.value) else None
  }

  /** Once the store carries out a delete the table sent, the row is gone. */
  lemma DeletedRowDisappears(es: seq<Expense>, e: Expense)
    requires DeleteTarget(e).Some?
    ensures e !in Store.RemoveById(es, DeleteTarget(e).value)
  {
    Store.RemoveByIdKeeps(es, DeleteTarget(e).value);
  }
}
