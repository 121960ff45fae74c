/** The four summary cards of the dashboard: the total, this month against
    last month, the top category, and the average record. All sums are over
    `amount`. The current date and the date parser are parameters. */
module SectionCards {
  import opened Records
  import opened Grouping

  /** `expenses.reduce((sum, e) => sum + e.amount, 0)`. */
  function Total(es: seq<Expense>): (r: real)
    ensures es == [] ==> r == 0.0
  {
    SumAmounts(es)
  }

  /** A record whose parsed date falls in month `m` of year `y`. */
  function InMonth(dateOf: string -> CalendarDate, y: int, m: int): Expense -> bool
  {
    (e: Expense) => dateOf(e.date).month == m && dateOf(e.date).year == y
  }

  /** Months counted from year 0. */
  function MonthIndex(y: int, m: int): int
  {
    y * 12 + (m - 1)
  }

  /** `new Date(y, m - 1 - 1, 1)`, read back as (year, month): the month
      before, rolling back over the start of the year. */
  function PrevMonth(y: int, m: int): (r: (int, int))
    ensures 1 <= r.1 <= 12
    ensures MonthIndex(r.0, r.1) == MonthIndex(y, m) - 1
  {
    var t := MonthIndex(y, m) - 1;
    (t / 12, t % 12 + 1)
  }

  /** January goes back to December of the year before; any other month to
      the month before it in the same year. */
  lemma PrevMonthRollover(y: int, m: int)
    requires 1 <= m <= 12
    ensures m == 1 ==> PrevMonth(y, m) == (y - 1, 12)
    ensures m > 1 ==> PrevMonth(y, m) == (y, m - 1)
  {
    var r := PrevMonth(y, m);
    assert r.0 * 12 + r.1 == y * 12 + m - 1;
    if m == 1 {
      assert r.1 == 12 || r.0 * 12 - y * 12 == 1 - r.1;
    }
  }

  /** The sum over the records in the current month. */
  function ThisMonth(es: seq<Expense>, dateOf: string -> CalendarDate, now: CalendarDate): (r: real)
  {
    SumAmounts(Filter(es, InMonth(dateOf, now.year, now.month)))
  }

  /** The sum over the records in the month before the current one. */
  function LastMonth(es: seq<Expense>, dateOf: string -> CalendarDate, now: CalendarDate): (r: real)
  {
    var prev := PrevMonth(now.year, now.month);
    SumAmounts(Filter(es, InMonth(dateOf, prev.0, prev.1)))
  }

  /** This month's sum counts exactly the records dated in now's year and
      month; last month's exactly those dated in the month `PrevMonth` gives. */
  lemma MonthSumsSelect(es: seq<Expense>, dateOf: string -> CalendarDate, now: CalendarDate)
    ensures forall x :: x in Filter(es, InMonth(dateOf, now.year, now.month)) <==>
      x in es && dateOf(x.date).year == now.year && dateOf(x.date).month == now.month
    ensures forall x :: x in Filter(es, InMonth(dateOf, PrevMonth(now.year, now.month).0, PrevMonth(now.year, now.month).1)) <==>
      x in es && (dateOf(x.date).year, dateOf(x.date).month) == PrevMonth(now.year, now.month)
  {
    FilterMembers(es, InMonth(dateOf, now.year, now.month));
    var prev := PrevMonth(now.year, now.month);
    FilterMembers(es, InMonth(dateOf, prev.0, prev.1));
  }

  /** The two months differ, so no record is counted in both sums. */
  lemma MonthsDisjoint(es: seq<Expense>, dateOf: string -> CalendarDate, now: CalendarDate)
    ensures forall x :: x in Filter(es, InMonth(dateOf, now.year, now.month)) ==>
      x !in Filter(es, InMonth(dateOf, PrevMonth(now.year, now.month).0, PrevMonth(now.year, now.month).1))
  {
    MonthSumsSelect(es, dateOf, now);
    var prev := PrevMonth(now.year, now.month);
    assert MonthIndex(prev.0, prev.1) != MonthIndex(now.year, now.month);
  }

  /** Percent change from last month, 0 when last month is 0. */
  function PercentChange(thisMonth: real, lastMonth: real): (r: real)
    ensures lastMonth == 0.0 ==> r == 0.0
    ensures lastMonth != 0.0 ==> r * lastMonth == (thisMonth - lastMonth) * 100.0
  {
    if lastMonth == 0.0 then 0.0 else (thisMonth - lastMonth) / lastMonth * 100.0
  }

  /** The badge shows the rising arrow and a plus sign. */
  predicate BadgeRising(thisMonth: real, lastMonth: real)
  {
    PercentChange(thisMonth, lastMonth) > 0.0
  }

  /** The footer reads "Increased" rather than "Decreased". */
  predicate Increased(thisMonth: real, lastMonth: real)
  {
    thisMonth > lastMonth
  }

  /** With a positive last month, the badge and the footer agree. */
  lemma BadgeMatchesLabel(thisMonth: real, lastMonth: real)
    requires lastMonth > 0.0
    ensures BadgeRising(thisMonth, lastMonth) <==> Increased(thisMonth, lastMonth)
  {
    var r := PercentChange(thisMonth, lastMonth);
    assert r * lastMonth == (thisMonth - lastMonth) * 100.0;
    if r > 0.0 {
      assert r * lastMonth > 0.0;
    }
  }

  /** With nothing last month, the footer says "Increased" for any spending
      this month while the badge shows 0.0% with the falling arrow. */
  lemma BadgeDisagreesFromZero(thisMonth: real)
    requires thisMonth > 0.0
    ensures Increased(thisMonth, 0.0) && !BadgeRising(thisMonth, 0.0)
  {
  }

  /** The category breakdown: one entry per category present, each holding
      that category's sum, the entries adding up to the total. */
  lemma CategoryBreakdownSpec(es: seq<Expense>)
    ensures SumValues(GroupSum(es, CategoryOf())) == Total(es)
    ensures forall c :: c in Keys(GroupSum(es, CategoryOf())) <==> exists e :: e in es && e.category == c
    ensures forall c :: Lookup(GroupSum(es, CategoryOf()), c) == SumAmounts(Filter(es, KeyIs(CategoryOf(), c)))
    ensures DistinctKeys(GroupSum(es, CategoryOf()))
  {
    GroupSumTotal(es, CategoryOf());
    GroupSumDistinctKeys(es, CategoryOf());
    forall c
      ensures c in Keys(GroupSum(es, CategoryOf())) <==> exists e :: e in es && e.category == c
      ensures Lookup(GroupSum(es, CategoryOf()), c) == SumAmounts(Filter(es, KeyIs(CategoryOf(), c)))
    {
      GroupSumHasKey(es, CategoryOf(), c);
      GroupSumLookup(es, CategoryOf(), c);
    }
  }

  const NoCategory: (string, real) := ("None", 0.0)

  /** The reducer step `(a, b) => a[1] > b[1] ? a : b`. */
  function Pick(a: (string, real), b: (string, real)): (r: (string, real))
    ensures r == a || r == b
    ensures r.1 >= a.1 && r.1 >= b.1
    ensures a.1 == b.1 ==> r == b
  {
    if a.1 > b.1 then a else b
  }

  /** `Object.entries(breakdown).reduce(Pick, ["None", 0])`: an entry with
      the largest value, or the placeholder; never below 0. */
  function TopCategory(b: Buckets<string>): (r: (string, real))
    ensures b == [] ==> r == NoCategory
    ensures r.1 >= 0.0
    ensures forall i :: 0 <= i < |b| ==> r.1 >= b[i].1
    ensures r == NoCategory || r in b
  {
    if b == [] then NoCategory
    else
      var n := |b| - 1;
      var r := Pick(TopCategory(b[..n]), b[n]);
      assert forall i :: 0 <= i < n ==> b[..n][i] == b[i];
      r
  }

  /** Which entry wins: the placeholder when every value is negative;
      otherwise an entry none of whose successors reaches its value, so on a
      tie the later entry wins. */
  lemma {:induction false} TopCategoryLastMax(b: Buckets<string>)
    ensures (forall i :: 0 <= i < |b| ==> b[i].1 < 0.0) ==> TopCategory(b) == NoCategory
    ensures (exists i :: 0 <= i < |b| && b[i].1 >= 0.0) ==>
      exists j :: 0 <= j < |b| && TopCategory(b) == b[j] && forall k :: j < k < |b| ==> b[k].1 < b[j].1
  {
    if b != [] {
      var n := |b| - 1;
      var pre := b[..n];
      TopCategoryLastMax(pre);
      assert forall i :: 0 <= i < n ==> pre[i] == b[i];
      var p := TopCategory(pre);
      if p.1 > b[n].1 {
        if exists i :: 0 <= i < n && b[i].1 >= 0.0 {
          var i :| 0 <= i < n && b[i].1 >= 0.0;
          assert pre[i].1 >= 0.0;
          var j :| 0 <= j < n && p == pre[j] && forall k :: j < k < n ==> pre[k].1 < pre[j].1;
          assert TopCategory(b) == b[j];
        } else {
          assert forall i :: 0 <= i < n ==> pre[i].1 < 0.0;
          assert p == NoCategory;
        }
      } else {
        assert TopCategory(b) == b[n];
      }
    }
  }

  /** `total / count` for a non-empty list, 0 otherwise. */
  function Average(es: seq<Expense>): (r: real)
    ensures |es| > 0 ==> r * (|es| as real) == Total(es)
    ensures |es| == 0 ==> r == 0.0
  {
    if |es| > 0 then Total(es) / (|es| as real) else 0.0
  }

  /** The figures the cards show. */
  datatype Cards = Cards(
    total: real, count: nat, thisMonth: real, lastMonth: real, percentChange: real,
    top: (string, real), categories: nat, average: real)

  /** The component body: each figure in the order the source computes it,
      the category breakdown accumulated in place. */
  method ComputeCards(es: seq<Expense>, dateOf: string -> CalendarDate, now: CalendarDate) returns (c: Cards)
    ensures c.total == Total(es) && c.count == |es|
    ensures c.thisMonth == ThisMonth(es, dateOf, now) && c.lastMonth == LastMonth(es, dateOf, now)
    ensures c.percentChange == PercentChange(c.thisMonth, c.lastMonth)
    ensures c.top == TopCategory(GroupSum(es, CategoryOf()))
    ensures c.categories == |Distinct(KeysOf(es, CategoryOf()))|
    ensures c.average == Average(es)
  {
    var total := SumAmounts(es);
    var thisMonth := ThisMonth(es, dateOf, now);
    var lastMonth := LastMonth(es, dateOf, now);
    var breakdown := Tally(es, CategoryOf());
    GroupSumKeys(es, CategoryOf());
    c := Cards(total, |es|, thisMonth, lastMonth, PercentChange(thisMonth, lastMonth),
               TopCategory(breakdown), |breakdown|, Average(es));
  }
}
