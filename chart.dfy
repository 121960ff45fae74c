/** The chart panel's three data sets: the spending trend by day, and the
    category and payment-method breakdowns ranked by amount. */
module ExpenseChart {
  import opened Records
  import opened Grouping

  /** The day label of a record. The source's label is the host's
      "Mon D" rendering of the parsed date; it is modelled by the
      (month, day) pair it is a one-to-one function of. It has no year. */
  function DayOf(dateOf: string -> CalendarDate): Expense -> (int, int)
  {
    (e: Expense) => (dateOf(e.date).month, dateOf(e.date).day)
  }

  /** Calendar order on parsed dates, the order of their timestamps. */
  predicate NotLater(a: CalendarDate, b: CalendarDate)
  {
    || a.year < b.year
    || (a.year == b.year && (a.month < b.month || (a.month == b.month && a.day <= b.day)))
  }

  ghost predicate SortedByDate(s: seq<Expense>, dateOf: string -> CalendarDate)
  {
    forall i, j :: 0 <= i < j < |s| ==> NotLater(dateOf(s[i].date), dateOf(s[j].date))
  }

  /** Puts `x` in front of the first record not dated before it, so records
      on the same date keep their relative order. */
  function InsertByDate(x: Expense, s: seq<Expense>, dateOf: string -> CalendarDate): (r: seq<Expense>)
    ensures multiset(r) == multiset(s) + multiset{x}
  {
    if s == [] || NotLater(dateOf(x.date), dateOf(s[0].date)) then [x] + s
    else
      assert s == [s[0]] + s[1..];
      [s[0]] + InsertByDate(x, s[1..], dateOf)
  }

  /** `[...expenses].sort((a, b) => time(a) - time(b))`: a stable sort of a
      copy, earliest first. */
  function SortByDate(s: seq<Expense>, dateOf: string -> CalendarDate): (r: seq<Expense>)
    ensures multiset(r) == multiset(s)
  {
    if s == [] then []
    else
      assert s == [s[0]] + s[1..];
      InsertByDate(s[0], SortByDate(s[1..], dateOf), dateOf)
  }

  lemma {:induction false} InsertByDateSorted(x: Expense, s: seq<Expense>, dateOf: string -> CalendarDate)
    requires SortedByDate(s, dateOf)
    ensures SortedByDate(InsertByDate(x, s, dateOf), dateOf)
  {
    if s != [] && !NotLater(dateOf(x.date), dateOf(s[0].date)) {
      var rest := InsertByDate(x, s[1..], dateOf);
      InsertByDateSorted(x, s[1..], dateOf);
      forall j | 0 <= j < |rest|
        ensures NotLater(dateOf(s[0].date), dateOf(rest[j].date))
      {
        assert rest[j] in multiset(s[1..]) + multiset{x};
        if rest[j] != x {
          assert rest[j] in s[1..];
        }
      }
    }
  }

  lemma {:induction false} SortByDateSorted(s: seq<Expense>, dateOf: string -> CalendarDate)
    ensures SortedByDate(SortByDate(s, dateOf), dateOf)
  {
    if s != [] {
      SortByDateSorted(s[1..], dateOf);
      InsertByDateSorted(s[0], SortByDate(s[1..], dateOf), dateOf);
    }
  }

  /** Where `InsertByDate` puts `x`. */
  function InsertPos(x: Expense, s: seq<Expense>, dateOf: string -> CalendarDate): (k: nat)
    ensures k <= |s|
  {
    if s == [] || NotLater(dateOf(x.date), dateOf(s[0].date)) then 0
    else 1 + InsertPos(x, s[1..], dateOf)
  }

  /** Inserting is splicing `x` in at that position. */
  lemma {:induction false} InsertByDateSplices(x: Expense, s: seq<Expense>, dateOf: string -> CalendarDate)
    ensures InsertByDate(x, s, dateOf) == s[..InsertPos(x, s, dateOf)] + [x] + s[InsertPos(x, s, dateOf)..]
  {
    if s != [] && !NotLater(dateOf(x.date), dateOf(s[0].date)) {
      var k := InsertPos(x, s[1..], dateOf);
      InsertByDateSplices(x, s[1..], dateOf);
      assert s[..k + 1] == [s[0]] + s[1..][..k];
      assert s[k + 1..] == s[1..][k..];
    }
  }

  /** The sum over the records passing a filter. */
  function SumWhere(s: seq<Expense>, p: Expense -> bool): real
  {
    SumAmounts(Filter(s, p))
  }

  lemma SumWhereConcat(a: seq<Expense>, b: seq<Expense>, p: Expense -> bool)
    ensures SumWhere(a + b, p) == SumWhere(a, p) + SumWhere(b, p)
  {
    FilterConcat(a, b, p);
    SumConcat(Filter(a, p), Filter(b, p));
  }

  /** Splicing a record in adds its share to a filtered sum. */
  lemma SumWhereSplice(u: seq<Expense>, x: Expense, v: seq<Expense>, p: Expense -> bool)
    ensures SumWhere(u + [x] + v, p) == SumWhere([x], p) + SumWhere(u + v, p)
  {
    SumWhereConcat(u + [x], v, p);
    SumWhereConcat(u, [x], p);
    SumWhereConcat(u, v, p);
  }

  /** Splicing the first record of `s` into a sequence with the same
      filtered sum as the rest of `s` gives the filtered sum of `s`. */
  lemma SpliceFirst(s: seq<Expense>, t: seq<Expense>, k: nat, p: Expense -> bool)
    requires s != [] && k <= |t|
    requires SumWhere(t, p) == SumWhere(s[1..], p)
    ensures SumWhere(t[..k] + [s[0]] + t[k..], p) == SumWhere(s, p)
  {
    SumWhereSplice(t[..k], s[0], t[k..], p);
    assert t[..k] + t[k..] == t;
    assert s == [s[0]] + s[1..];
    SumWhereConcat([s[0]], s[1..], p);
  }

  /** Sorting does not change any filtered sum. */
  lemma {:induction false} SortByDateSumWhere(s: seq<Expense>, p: Expense -> bool, dateOf: string -> CalendarDate)
    ensures SumWhere(SortByDate(s, dateOf), p) == SumWhere(s, p)
  {
    if s != [] {
      var t := SortByDate(s[1..], dateOf);
      SortByDateSumWhere(s[1..], p, dateOf);
      InsertByDateSplices(s[0], t, dateOf);
      SpliceFirst(s, t, InsertPos(s[0], t, dateOf), p);
    }
  }

  /** `trendData`: the records sorted by date, then summed per day label. */
  method TrendData(es: seq<Expense>, dateOf: string -> CalendarDate) returns (r: Buckets<(int, int)>)
    ensures r == GroupSum(SortByDate(es, dateOf), DayOf(dateOf))
  {
    var sortedExpenses := SortByDate(es, dateOf);
    r := Tally(sortedExpenses, DayOf(dateOf));
  }

  /** One trend point per day label present, each the sum over the records
      with that label, each label placed where it first occurs among the
      date-sorted records. */
  lemma TrendPoints(es: seq<Expense>, dateOf: string -> CalendarDate)
    ensures forall k :: Lookup(GroupSum(SortByDate(es, dateOf), DayOf(dateOf)), k) == SumWhere(es, KeyIs(DayOf(dateOf), k))
    ensures forall k :: k in Keys(GroupSum(SortByDate(es, dateOf), DayOf(dateOf))) <==> exists e :: e in es && DayOf(dateOf)(e) == k
    ensures SortedByDate(SortByDate(es, dateOf), dateOf)
    ensures Keys(GroupSum(SortByDate(es, dateOf), DayOf(dateOf))) == Distinct(KeysOf(SortByDate(es, dateOf), DayOf(dateOf)))
  {
    var sorted := SortByDate(es, dateOf);
    SortByDateSorted(es, dateOf);
    GroupSumKeys(sorted, DayOf(dateOf));
    forall k
      ensures Lookup(GroupSum(sorted, DayOf(dateOf)), k) == SumWhere(es, KeyIs(DayOf(dateOf), k))
      ensures k in Keys(GroupSum(sorted, DayOf(dateOf))) <==> exists e :: e in es && DayOf(dateOf)(e) == k
    {
      GroupSumLookup(sorted, DayOf(dateOf), k);
      SortByDateSumWhere(es, KeyIs(DayOf(dateOf), k), dateOf);
      GroupSumHasKey(sorted, DayOf(dateOf), k);
      assert forall e :: e in sorted <==> e in es by {
        assert forall e :: e in sorted <==> e in multiset(sorted);
      }
    }
  }

  /** The label carries no year: two records on the same month and day of
      different years make a single trend point holding both amounts. */
  lemma TrendMergesYears(a: Expense, b: Expense, dateOf: string -> CalendarDate)
    requires dateOf(a.date).month == dateOf(b.date).month && dateOf(a.date).day == dateOf(b.date).day
    requires dateOf(a.date).year != dateOf(b.date).year
    ensures GroupSum(SortByDate([a, b], dateOf), DayOf(dateOf)) ==
      [((dateOf(a.date).month, dateOf(a.date).day), a.amount + b.amount)]
  {
    var k := (dateOf(a.date).month, dateOf(a.date).day);
    assert DayOf(dateOf)(a) == k && DayOf(dateOf)(b) == k;
    assert [a, b][1..] == [b];
    assert SortByDate([b], dateOf) == InsertByDate(b, [], dateOf) == [b];
    var s := SortByDate([a, b], dateOf);
    assert s == InsertByDate(a, [b], dateOf);
    assert s == [a, b] || s == [b, a];
    assert s[..1] == [s[0]] && [s[0]][..0] == [];
    assert GroupSum([s[0]], DayOf(dateOf)) == [(k, s[0].amount)];
    assert GroupSum(s, DayOf(dateOf)) == Bump([(k, s[0].amount)], k, s[1].amount);
  }

  /** `categoryData`: the category sums, largest first, one per category. */
  method CategoryData(es: seq<Expense>) returns (r: Buckets<string>)
    ensures r == SortDesc(GroupSum(es, CategoryOf()))
    ensures SortedDesc(r) && DistinctKeys(r)
    ensures forall c :: c in Keys(r) <==> exists e :: e in es && e.category == c
  {
    var grouped := Tally(es, CategoryOf());
    r := SortDesc(grouped);
    RankedBreakdown(es, CategoryOf());
  }

  /** `methodData`: the payment-method sums, largest first, one per method. */
  method MethodData(es: seq<Expense>) returns (r: Buckets<string>)
    ensures r == SortDesc(GroupSum(es, MethodOf()))
    ensures SortedDesc(r) && DistinctKeys(r)
    ensures forall m :: m in Keys(r) <==> exists e :: e in es && e.paymentMethod == m
  {
    var grouped := Tally(es, MethodOf());
    r := SortDesc(grouped);
    RankedBreakdown(es, MethodOf());
  }

  /** A ranked breakdown is sorted, has distinct keys, and lists exactly
      the keys present. */
  lemma RankedBreakdown(es: seq<Expense>, key: Expense -> string)
    ensures SortedDesc(SortDesc(GroupSum(es, key))) && DistinctKeys(SortDesc(GroupSum(es, key)))
    ensures forall c :: c in Keys(SortDesc(GroupSum(es, key))) <==> exists e :: e in es && key(e) == c
  {
    var g := GroupSum(es, key);
    SortDescSorted(g);
    GroupSumDistinctKeys(es, key);
    SortDescDistinct(g);
    PermutationKeys(SortDesc(g), g);
    forall c
      ensures c in Keys(g) <==> exists e :: e in es && key(e) == c
    {
      GroupSumHasKey(es, key, c);
    }
  }

  /** Two records that agree on amount, category, date and payment method
      chart the same, whatever their conversion fields and timestamps. */
  predicate SameFigures(e: Expense, f: Expense)
  {
    e.amount == f.amount && e.category == f.category && e.date == f.date && e.paymentMethod == f.paymentMethod
  }

  ghost predicate Corresponds(es: seq<Expense>, fs: seq<Expense>)
  {
    |es| == |fs| && forall i :: 0 <= i < |es| ==> SameFigures(es[i], fs[i])
  }

  lemma {:induction false} InsertByDateCorresponds(x: Expense, y: Expense, s: seq<Expense>, t: seq<Expense>, dateOf: string -> CalendarDate)
    requires SameFigures(x, y) && Corresponds(s, t)
    ensures Corresponds(InsertByDate(x, s, dateOf), InsertByDate(y, t, dateOf))
  {
    if s != [] && !NotLater(dateOf(x.date), dateOf(s[0].date)) {
      InsertByDateCorresponds(x, y, s[1..], t[1..], dateOf);
    }
  }

  lemma {:induction false} SortByDateCorresponds(es: seq<Expense>, fs: seq<Expense>, dateOf: string -> CalendarDate)
    requires Corresponds(es, fs)
    ensures Corresponds(SortByDate(es, dateOf), SortByDate(fs, dateOf))
  {
    if es != [] {
      SortByDateCorresponds(es[1..], fs[1..], dateOf);
      InsertByDateCorresponds(es[0], fs[0], SortByDate(es[1..], dateOf), SortByDate(fs[1..], dateOf), dateOf);
    }
  }

  /** The charts add up `amount` only: records whose converted amount,
      target currency or any other field differ, but whose amount, category,
      date and method agree, give the same three data sets. */
  lemma ChartsIgnoreConversion(es: seq<Expense>, fs: seq<Expense>, dateOf: string -> CalendarDate)
    requires Corresponds(es, fs)
    ensures GroupSum(SortByDate(es, dateOf), DayOf(dateOf)) == GroupSum(SortByDate(fs, dateOf), DayOf(dateOf))
    ensures SortDesc(GroupSum(es, CategoryOf())) == SortDesc(GroupSum(fs, CategoryOf()))
    ensures SortDesc(GroupSum(es, MethodOf())) == SortDesc(GroupSum(fs, MethodOf()))
  {
    SortByDateCorresponds(es, fs, dateOf);
    GroupSumPointwise(SortByDate(es, dateOf), SortByDate(fs, dateOf), DayOf(dateOf));
    GroupSumPointwise(es, fs, CategoryOf());
    GroupSumPointwise(es, fs, MethodOf());
  }
}
