/** The analytics page: three breakdowns of the records (by category, by
    month, by payment method) and their listings. */
module AnalyticsPage {
  import opened Records
  import opened Grouping
  import SectionCards

  /** The month label of a record. The source's label is the host's
      "Month YYYY" rendering of the parsed date; it is modelled by the
      (year, month) pair it is a one-to-one function of. */
  function MonthOf(dateOf: string -> CalendarDate): Expense -> (int, int)
  {
    (e: Expense) => (dateOf(e.date).year, dateOf(e.date).month)
  }

  /** What the page lists. */
  datatype Listings = Listings(
    byCategory: Buckets<string>,
    byMethod: Buckets<string>,
    byMonth: Buckets<(int, int)>)

  /** The page body: the three reducers, then the category entries ranked
      by amount and the other two listed as accumulated. */
  method Breakdowns(es: seq<Expense>, dateOf: string -> CalendarDate) returns (l: Listings)
    ensures l.byCategory == SortDesc(GroupSum(es, CategoryOf()))
    ensures l.byMethod == GroupSum(es, MethodOf())
    ensures l.byMonth == GroupSum(es, MonthOf(dateOf))
  {
    var categoryBreakdown := Tally(es, CategoryOf());
    var monthlyBreakdown := Tally(es, MonthOf(dateOf));
    var methodBreakdown := Tally(es, MethodOf());
    l := Listings(SortDesc(categoryBreakdown), methodBreakdown, monthlyBreakdown);
  }

  /** Every listing accounts for every record exactly once. */
  lemma ListingsSumToTotal(es: seq<Expense>, dateOf: string -> CalendarDate)
    ensures SumValues(SortDesc(GroupSum(es, CategoryOf()))) == SumAmounts(es)
    ensures SumValues(GroupSum(es, MethodOf())) == SumAmounts(es)
    ensures SumValues(GroupSum(es, MonthOf(dateOf))) == SumAmounts(es)
  {
    GroupSumTotal(es, CategoryOf());
    SortDescSum(GroupSum(es, CategoryOf()));
    GroupSumTotal(es, MethodOf());
    GroupSumTotal(es, MonthOf(dateOf));
  }

  /** The category listing: in non-increasing order of amount, a
      rearrangement of the breakdown, one row per category, and each row's
      amount the sum over that category's records. */
  lemma CategoryListingRanked(es: seq<Expense>)
    ensures SortedDesc(SortDesc(GroupSum(es, CategoryOf())))
    ensures multiset(SortDesc(GroupSum(es, CategoryOf()))) == multiset(GroupSum(es, CategoryOf()))
    ensures DistinctKeys(SortDesc(GroupSum(es, CategoryOf())))
    ensures forall row :: row in SortDesc(GroupSum(es, CategoryOf())) ==>
      row.1 == SumAmounts(Filter(es, KeyIs(CategoryOf(), row.0)))
  {
    var g := GroupSum(es, CategoryOf());
    SortDescSorted(g);
    GroupSumDistinctKeys(es, CategoryOf());
    SortDescDistinct(g);
    GroupSumEntries(es, CategoryOf());
    forall row | row in SortDesc(g)
      ensures row.1 == SumAmounts(Filter(es, KeyIs(CategoryOf(), row.0)))
    {
      assert row in multiset(SortDesc(g));
      assert row in g;
    }
  }

  /** The method and monthly listings are in the order each key first
      occurs among the records. */
  lemma UnrankedListingsInFirstSeenOrder(es: seq<Expense>, dateOf: string -> CalendarDate)
    ensures Keys(GroupSum(es, MethodOf())) == Distinct(KeysOf(es, MethodOf()))
    ensures Keys(GroupSum(es, MonthOf(dateOf))) == Distinct(KeysOf(es, MonthOf(dateOf)))
  {
    GroupSumKeys(es, MethodOf());
    GroupSumKeys(es, MonthOf(dateOf));
  }

  /** Records of one calendar month share a bucket: the month row for now's
      month is exactly the dashboard's this-month figure. */
  lemma MonthRowIsThisMonth(es: seq<Expense>, dateOf: string -> CalendarDate, now: CalendarDate)
    ensures Lookup(GroupSum(es, MonthOf(dateOf)), (now.year, now.month)) == SectionCards.ThisMonth(es, dateOf, now)
  {
    GroupSumLookup(es, MonthOf(dateOf), (now.year, now.month));
    var p := KeyIs(MonthOf(dateOf), (now.year, now.month));
    var q := SectionCards.InMonth(dateOf, now.year, now.month);
    forall e | e in es
      ensures p(e) == q(e)
    {
      assert p(e) == (MonthOf(dateOf)(e) == (now.year, now.month));
    }
    FilterExtensional(es, p, q);
  }
}
