/** The expense record every part of the dashboard works on, and the two
    sequence folds the views and the store are built from: `filter` and the
    `reduce` that sums `amount`. Both recurse on the last element, as
    JavaScript's left-to-right `reduce` accumulates. */
module Records {

  datatype Option<T> = None | Some(value: T)

  /** A calendar date as the host's date parser yields it (month 1..12). */
  datatype CalendarDate = CalendarDate(year: int, month: int, day: int)

  /** One expense. `date` is the text the record carries; a view that needs
      its calendar fields is given a parser for it. `description` is `None`
      both for `null` and for a missing field. */
  datatype Expense = Expense(
    id: Option<int>,
    amount: real,
    category: string,
    description: Option<string>,
    date: string,
    paymentMethod: string,
    createdAt: Option<string>,
    updatedAt: Option<string>,
    originalAmount: Option<real>,
    originalCurrency: Option<string>,
    convertedAmount: Option<real>,
    targetCurrency: Option<string>)

  /** JavaScript truthiness of the optional numeric id: absent and 0 are falsy. */
  predicate HasTruthyId(e: Expense) {
    e.id.Some? && e.id.value != 0
  }

  function Not(p: Expense -> bool): Expense -> bool {
    e => !p(e)
  }

  function And(p: Expense -> bool, q: Expense -> bool): Expense -> bool {
    e => p(e) && q(e)
  }

  function All(): Expense -> bool {
    e => true
  }

  /** `s.filter(p)`. */
  function Filter(s: seq<Expense>, p: Expense -> bool): (r: seq<Expense>)
    ensures |r| <= |s|
  {
    if s == [] then []
    else
      var n := |s| - 1;
      Filter(s[..n], p) + (if p(s[n]) then [s[n]] else [])
  }

  /** A filter keeps exactly the members that pass. */
  lemma {:induction false} FilterMembers(s: seq<Expense>, p: Expense -> bool)
    ensures forall x :: x in Filter(s, p) <==> x in s && p(x)
  {
    if s != [] {
      var n := |s| - 1;
      assert s == s[..n] + [s[n]];
      FilterMembers(s[..n], p);
    }
  }

  /** `s.reduce((sum, e) => sum + e.amount, 0)`. */
  function SumAmounts(s: seq<Expense>): real
  {
    if s == [] then 0.0 else SumAmounts(s[..|s| - 1]) + s[|s| - 1].amount
  }

  /** `idx` picks out `a` from `b` at strictly increasing positions. */
  ghost predicate Embeds(a: seq<Expense>, b: seq<Expense>, idx: seq<int>)
  {
    && |idx| == |a|
    && (forall i :: 0 <= i < |idx| ==> 0 <= idx[i] < |b| && a[i] == b[idx[i]])
    && (forall i, j :: 0 <= i < j < |idx| ==> idx[i] < idx[j])
  }

  /** `a` is an order-preserving subsequence of `b`. */
  ghost predicate IsSubsequence(a: seq<Expense>, b: seq<Expense>)
  {
    exists idx :: Embeds(a, b, idx)
  }

  lemma SumAppend(s: seq<Expense>, x: Expense)
    ensures SumAmounts(s + [x]) == SumAmounts(s) + x.amount
  {
    assert (s + [x])[..|s|] == s;
  }

  lemma {:induction false} SumConcat(a: seq<Expense>, b: seq<Expense>)
    ensures SumAmounts(a + b) == SumAmounts(a) + SumAmounts(b)
    decreases |b|
  {
    if b == [] {
      assert a + b == a;
    } else {
      var n := |b| - 1;
      assert a + b == (a + b[..n]) + [b[n]];
      assert b == b[..n] + [b[n]];
      SumConcat(a, b[..n]);
      SumAppend(a + b[..n], b[n]);
      SumAppend(b[..n], b[n]);
    }
  }

  lemma {:induction false} FilterConcat(a: seq<Expense>, b: seq<Expense>, p: Expense -> bool)
    ensures Filter(a + b, p) == Filter(a, p) + Filter(b, p)
    decreases |b|
  {
    if b == [] {
      assert a + b == a;
    } else {
      var n := |b| - 1;
      assert (a + b)[..|a + b| - 1] == a + b[..n];
      FilterConcat(a, b[..n], p);
    }
  }

  lemma FilterSingleton(x: Expense, p: Expense -> bool)
    ensures Filter([x], p) == if p(x) then [x] else []
  {
    assert [x][..0] == [];
  }

  /** What a filter keeps and what its complement keeps add up to the whole. */
  lemma {:induction false} SumPartition(s: seq<Expense>, p: Expense -> bool)
    ensures SumAmounts(Filter(s, p)) + SumAmounts(Filter(s, Not(p))) == SumAmounts(s)
  {
    if s != [] {
      var n := |s| - 1;
      SumPartition(s[..n], p);
      assert Not(p)(s[n]) == !p(s[n]);
      if p(s[n]) {
        assert Filter(s, p) == Filter(s[..n], p) + [s[n]];
        assert Filter(s, Not(p)) == Filter(s[..n], Not(p));
        SumAppend(Filter(s[..n], p), s[n]);
      } else {
        assert Filter(s, p) == Filter(s[..n], p);
        assert Filter(s, Not(p)) == Filter(s[..n], Not(p)) + [s[n]];
        SumAppend(Filter(s[..n], Not(p)), s[n]);
      }
    }
  }

  lemma {:induction false} FilterExtensional(s: seq<Expense>, p: Expense -> bool, q: Expense -> bool)
    requires forall e :: e in s ==> p(e) == q(e)
    ensures Filter(s, p) == Filter(s, q)
  {
    if s != [] {
      var n := |s| - 1;
      assert s == s[..n] + [s[n]];
      FilterExtensional(s[..n], p, q);
    }
  }

  lemma {:induction false} FilterAll(s: seq<Expense>)
    ensures Filter(s, All()) == s
  {
    if s != [] {
      var n := |s| - 1;
      FilterAll(s[..n]);
      assert s == s[..n] + [s[n]];
    }
  }

  /** Two filters in a row keep what their conjunction keeps. */
  lemma {:induction false} FilterFilter(s: seq<Expense>, p: Expense -> bool, q: Expense -> bool)
    ensures Filter(Filter(s, p), q) == Filter(s, And(p, q))
  {
    if s != [] {
      var n := |s| - 1;
      FilterFilter(s[..n], p, q);
      FilterConcat(Filter(s[..n], p), if p(s[n]) then [s[n]] else [], q);
      if p(s[n]) {
        FilterSingleton(s[n], q);
      }
    }
  }

  lemma {:induction false} FilterIsSubsequence(s: seq<Expense>, p: Expense -> bool)
    ensures IsSubsequence(Filter(s, p), s)
  {
    if s == [] {
      assert Embeds([], [], []);
    } else {
      var n := |s| - 1;
      FilterIsSubsequence(s[..n], p);
      var idx :| Embeds(Filter(s[..n], p), s[..n], idx);
      if p(s[n]) {
        assert Filter(s, p) == Filter(s[..n], p) + [s[n]];
        assert Embeds(Filter(s, p), s, idx + [n]);
      } else {
        assert Filter(s, p) == Filter(s[..n], p);
        assert Embeds(Filter(s, p), s, idx);
      }
    }
  }

  /** A filter keeps every copy of a member that passes and none of one
      that fails. */
  lemma {:induction false} FilterCount(s: seq<Expense>, p: Expense -> bool)
    ensures forall x :: multiset(Filter(s, p))[x] == if p(x) then multiset(s)[x] else 0
  {
    if s != [] {
      var n := |s| - 1;
      FilterCount(s[..n], p);
      assert s == s[..n] + [s[n]];
    }
  }
}
