/** The accumulator every breakdown in the dashboard builds:
    `acc[key(e)] = (acc[key(e)] || 0) + e.amount` over the records in order,
    then read back with `Object.entries`. A JavaScript object with string keys
    lists its entries in first-insertion order, so the accumulator is an
    association list in that order. Also the stable descending sort used to
    rank those entries. */
module Grouping {
  import opened Records

  /** The entries of a `Record<K, number>` accumulator, in insertion order. */
  type Buckets<K> = seq<(K, real)>

  function Keys<K>(b: Buckets<K>): seq<K>
  {
    seq(|b|, i requires 0 <= i < |b| => b[i].0)
  }

  ghost predicate NoDuplicates<K>(ks: seq<K>)
  {
    forall i, j :: 0 <= i < j < |ks| ==> ks[i] != ks[j]
  }

  ghost predicate DistinctKeys<K>(b: Buckets<K>)
  {
    NoDuplicates(Keys(b))
  }

  /** `acc[k] || 0`: the value of the first entry for `k`, or 0. */
  function Lookup<K(==)>(b: Buckets<K>, k: K): (r: real)
    ensures k !in Keys(b) ==> r == 0.0
    ensures b != [] && b[0].0 == k ==> r == b[0].1
  {
    if b == [] then 0.0
    else
      assert Keys(b) == [b[0].0] + Keys(b[1..]);
      if b[0].0 == k then b[0].1 else Lookup(b[1..], k)
  }

  function SumValues<K>(b: Buckets<K>): real
  {
    if b == [] then 0.0 else b[0].1 + SumValues(b[1..])
  }

  /** `acc[k] = (acc[k] || 0) + v`: an existing key keeps its place, a new
      key goes to the end. */
  function Bump<K(==)>(b: Buckets<K>, k: K, v: real): (r: Buckets<K>)
    ensures Keys(r) == if k in Keys(b) then Keys(b) else Keys(b) + [k]
    ensures SumValues(r) == SumValues(b) + v
  {
    if b == [] then [(k, v)]
    else
      assert Keys(b) == [b[0].0] + Keys(b[1..]);
      if b[0].0 == k then
        var r := [(k, b[0].1 + v)] + b[1..];
        assert Keys(r) == [k] + Keys(b[1..]);
        r
      else
        var rest := Bump(b[1..], k, v);
        assert Keys([b[0]] + rest) == [b[0].0] + Keys(rest);
        [b[0]] + rest
  }

  lemma {:induction false} BumpLookup<K>(b: Buckets<K>, k: K, v: real, k': K)
    ensures Lookup(Bump(b, k, v), k') == Lookup(b, k') + (if k' == k then v else 0.0)
  {
    if b != [] && b[0].0 != k {
      BumpLookup(b[1..], k, v, k');
    }
  }

  /** The reducer: `es.reduce((acc, e) => { acc[key(e)] = (acc[key(e)] || 0) + e.amount; return acc }, {})`. */
  function GroupSum<K(==)>(es: seq<Expense>, key: Expense -> K): Buckets<K>
  {
    if es == [] then []
    else
      var n := |es| - 1;
      Bump(GroupSum(es[..n], key), key(es[n]), es[n].amount)
  }

  /** The reducer run the way the source runs it: one pass over the records,
      updating the accumulator in place. */
  method Tally<K(==)>(es: seq<Expense>, key: Expense -> K) returns (acc: Buckets<K>)
    ensures acc == GroupSum(es, key)
  {
    acc := [];
    var i := 0;
    while i < |es|
      invariant 0 <= i <= |es|
      invariant acc == GroupSum(es[..i], key)
    {
      assert es[..i + 1][..i] == es[..i];
      acc := Bump(acc, key(es[i]), es[i].amount);
      i := i + 1;
    }
    assert es[..|es|] == es;
  }

  /** The category of a record, the key of the category breakdowns. */
  function CategoryOf(): Expense -> string
  {
    (e: Expense) => e.category
  }

  /** The payment method of a record, the key of the method breakdowns. */
  function MethodOf(): Expense -> string
  {
    (e: Expense) => e.paymentMethod
  }

  function KeyIs<K(==)>(key: Expense -> K, k: K): Expense -> bool
  {
    e => key(e) == k
  }

  function KeysOf<K>(es: seq<Expense>, key: Expense -> K): seq<K>
  {
    seq(|es|, i requires 0 <= i < |es| => key(es[i]))
  }

  /** Each key once, at the position of its first occurrence. */
  function Distinct<K(==)>(ks: seq<K>): seq<K>
  {
    if ks == [] then []
    else
      var n := |ks| - 1;
      var d := Distinct(ks[..n]);
      if ks[n] in d then d else d + [ks[n]]
  }

  lemma {:induction false} DistinctMembers<K>(ks: seq<K>, k: K)
    ensures k in Distinct(ks) <==> k in ks
  {
    if ks != [] {
      var n := |ks| - 1;
      assert ks == ks[..n] + [ks[n]];
      DistinctMembers(ks[..n], k);
    }
  }

  lemma {:induction false} DistinctHasNoDuplicates<K>(ks: seq<K>)
    ensures NoDuplicates(Distinct(ks))
  {
    if ks != [] {
      var n := |ks| - 1;
      DistinctHasNoDuplicates(ks[..n]);
      DistinctMembers(ks[..n], ks[n]);
    }
  }

  /** The breakdown lists each key once, in order of first occurrence. */
  lemma {:induction false} GroupSumKeys<K>(es: seq<Expense>, key: Expense -> K)
    ensures Keys(GroupSum(es, key)) == Distinct(KeysOf(es, key))
  {
    if es != [] {
      var n := |es| - 1;
      GroupSumKeys(es[..n], key);
      assert KeysOf(es, key)[..n] == KeysOf(es[..n], key);
      assert KeysOf(es, key)[n] == key(es[n]);
    }
  }

  lemma GroupSumDistinctKeys<K>(es: seq<Expense>, key: Expense -> K)
    ensures DistinctKeys(GroupSum(es, key))
  {
    GroupSumKeys(es, key);
    DistinctHasNoDuplicates(KeysOf(es, key));
  }

  /** A key has an entry exactly when some record maps to it. */
  lemma GroupSumHasKey<K>(es: seq<Expense>, key: Expense -> K, k: K)
    ensures k in Keys(GroupSum(es, key)) <==> exists e :: e in es && key(e) == k
  {
    GroupSumKeys(es, key);
    DistinctMembers(KeysOf(es, key), k);
    if k in KeysOf(es, key) {
      var i :| 0 <= i < |es| && KeysOf(es, key)[i] == k;
      assert es[i] in es;
    }
    if exists e :: e in es && key(e) == k {
      var e :| e in es && key(e) == k;
      var i :| 0 <= i < |es| && es[i] == e;
      assert KeysOf(es, key)[i] == k;
    }
  }

  /** The accumulated value of a key is the sum of the amounts of the
      records with that key. */
  lemma {:induction false} GroupSumLookup<K>(es: seq<Expense>, key: Expense -> K, k: K)
    ensures Lookup(GroupSum(es, key), k) == SumAmounts(Filter(es, KeyIs(key, k)))
  {
    if es != [] {
      var n := |es| - 1;
      var f := KeyIs(key, k);
      GroupSumLookup(es[..n], key, k);
      BumpLookup(GroupSum(es[..n], key), key(es[n]), es[n].amount, k);
      assert f(es[n]) == (key(es[n]) == k);
      if key(es[n]) == k {
        assert Filter(es, f) == Filter(es[..n], f) + [es[n]];
        SumAppend(Filter(es[..n], f), es[n]);
      } else {
        assert Filter(es, f) == Filter(es[..n], f);
      }
    }
  }

  /** No record is dropped or counted twice: the values add up to the total. */
  lemma {:induction false} GroupSumTotal<K>(es: seq<Expense>, key: Expense -> K)
    ensures SumValues(GroupSum(es, key)) == SumAmounts(es)
  {
    if es != [] {
      GroupSumTotal(es[..|es| - 1], key);
    }
  }

  lemma {:induction false} LookupAt<K>(b: Buckets<K>, i: int)
    requires DistinctKeys(b)
    requires 0 <= i < |b|
    ensures Lookup(b, b[i].0) == b[i].1
  {
    assert Keys(b)[0] == b[0].0 && Keys(b)[i] == b[i].0;
    if i > 0 {
      assert Keys(b[1..]) == Keys(b)[1..];
      LookupAt(b[1..], i - 1);
    }
  }

  /** Every entry of a breakdown holds the sum over the records with its key. */
  lemma GroupSumEntries<K>(es: seq<Expense>, key: Expense -> K)
    ensures forall i :: 0 <= i < |GroupSum(es, key)| ==>
      GroupSum(es, key)[i].1 == SumAmounts(Filter(es, KeyIs(key, GroupSum(es, key)[i].0)))
  {
    var g := GroupSum(es, key);
    GroupSumDistinctKeys(es, key);
    forall i | 0 <= i < |g|
      ensures g[i].1 == SumAmounts(Filter(es, KeyIs(key, g[i].0)))
    {
      LookupAt(g, i);
      GroupSumLookup(es, key, g[i].0);
    }
  }

  // Ranking: `Object.entries(acc).sort((a, b) => b[1] - a[1])`, a stable sort.

  ghost predicate SortedDesc<K>(b: Buckets<K>)
  {
    forall i, j :: 0 <= i < j < |b| ==> b[i].1 >= b[j].1
  }

  /** Puts `x` in front of the first entry whose value does not exceed its
      own, so entries with equal values keep their relative order. */
  function InsertDesc<K(==)>(x: (K, real), s: Buckets<K>): (r: Buckets<K>)
    ensures multiset(r) == multiset(s) + multiset{x}
  {
    if s == [] || x.1 >= s[0].1 then [x] + s
    else
      assert s == [s[0]] + s[1..];
      [s[0]] + InsertDesc(x, s[1..])
  }

  function SortDesc<K(==)>(b: Buckets<K>): (r: Buckets<K>)
    ensures multiset(r) == multiset(b)
  {
    if b == [] then []
    else
      assert b == [b[0]] + b[1..];
      InsertDesc(b[0], SortDesc(b[1..]))
  }

  lemma {:induction false} InsertDescSorted<K>(x: (K, real), s: Buckets<K>)
    requires SortedDesc(s)
    ensures SortedDesc(InsertDesc(x, s))
  {
    if s != [] && x.1 < s[0].1 {
      var rest := InsertDesc(x, s[1..]);
      InsertDescSorted(x, s[1..]);
      forall j | 0 <= j < |rest|
        ensures s[0].1 >= rest[j].1
      {
        assert rest[j] in multiset(rest);
        assert rest[j] == x || rest[j] in multiset(s[1..]);
        if rest[j] != x {
          var m :| 0 <= m < |s[1..]| && s[1..][m] == rest[j];
          assert s[m + 1] == rest[j];
        }
      }
    }
  }

  /** The ranking is in non-increasing order of value. */
  lemma {:induction false} SortDescSorted<K>(b: Buckets<K>)
    ensures SortedDesc(SortDesc(b))
  {
    if b != [] {
      SortDescSorted(b[1..]);
      InsertDescSorted(b[0], SortDesc(b[1..]));
    }
  }

  /** A permutation lists the same keys. */
  lemma PermutationKeys<K>(a: Buckets<K>, b: Buckets<K>)
    requires multiset(a) == multiset(b)
    ensures forall k :: k in Keys(a) <==> k in Keys(b)
  {
    forall k | k in Keys(a)
      ensures k in Keys(b)
    {
      var i :| 0 <= i < |a| && Keys(a)[i] == k;
      assert a[i] in multiset(b);
      var j :| 0 <= j < |b| && b[j] == a[i];
      assert Keys(b)[j] == k;
    }
    forall k | k in Keys(b)
      ensures k in Keys(a)
    {
      var j :| 0 <= j < |b| && Keys(b)[j] == k;
      assert b[j] in multiset(a);
      var i :| 0 <= i < |a| && a[i] == b[j];
      assert Keys(a)[i] == k;
    }
  }

  lemma NoDuplicatesCons<K>(x: K, ks: seq<K>)
    ensures NoDuplicates([x] + ks) <==> x !in ks && NoDuplicates(ks)
  {
    var xs := [x] + ks;
    if x !in ks && NoDuplicates(ks) {
      forall i, j | 0 <= i < j < |xs|
        ensures xs[i] != xs[j]
      {
        if i == 0 {
          assert xs[j] == ks[j - 1];
        } else {
          assert xs[i] == ks[i - 1] && xs[j] == ks[j - 1];
        }
      }
    }
    if NoDuplicates(xs) {
      forall i, j | 0 <= i < j < |ks|
        ensures ks[i] != ks[j]
      {
        assert xs[i + 1] == ks[i] && xs[j + 1] == ks[j];
      }
      forall j | 0 <= j < |ks|
        ensures ks[j] != x
      {
        assert xs[0] == x && xs[j + 1] == ks[j];
      }
    }
  }

  lemma KeysCons<K>(x: (K, real), s: Buckets<K>)
    ensures Keys([x] + s) == [x.0] + Keys(s)
  {
  }

  lemma {:induction false} InsertDescDistinct<K>(x: (K, real), s: Buckets<K>)
    requires DistinctKeys(s)
    requires x.0 !in Keys(s)
    ensures DistinctKeys(InsertDesc(x, s))
  {
    var r := InsertDesc(x, s);
    if s == [] || x.1 >= s[0].1 {
      KeysCons(x, s);
      NoDuplicatesCons(x.0, Keys(s));
    } else {
      var rest := InsertDesc(x, s[1..]);
      assert s == [s[0]] + s[1..];
      KeysCons(s[0], s[1..]);
      KeysCons(s[0], rest);
      NoDuplicatesCons(s[0].0, Keys(s[1..]));
      InsertDescDistinct(x, s[1..]);
      assert multiset(s[1..] + [x]) == multiset(s[1..]) + multiset{x};
      PermutationKeys(rest, s[1..] + [x]);
      assert Keys(s[1..] + [x]) == Keys(s[1..]) + [x.0];
      assert s[0].0 !in Keys(rest);
      NoDuplicatesCons(s[0].0, Keys(rest));
    }
  }

  /** The ranking lists each key once if the breakdown does. */
  lemma {:induction false} SortDescDistinct<K>(b: Buckets<K>)
    requires DistinctKeys(b)
    ensures DistinctKeys(SortDesc(b))
  {
    if b != [] {
      assert b == [b[0]] + b[1..];
      KeysCons(b[0], b[1..]);
      NoDuplicatesCons(b[0].0, Keys(b[1..]));
      SortDescDistinct(b[1..]);
      PermutationKeys(SortDesc(b[1..]), b[1..]);
      InsertDescDistinct(b[0], SortDesc(b[1..]));
    }
  }

  lemma {:induction false} InsertDescSum<K>(x: (K, real), s: Buckets<K>)
    ensures SumValues(InsertDesc(x, s)) == x.1 + SumValues(s)
  {
    if s != [] && x.1 < s[0].1 {
      InsertDescSum(x, s[1..]);
      assert ([s[0]] + InsertDesc(x, s[1..]))[1..] == InsertDesc(x, s[1..]);
    } else {
      assert ([x] + s)[1..] == s;
    }
  }

  /** Ranking moves the entries around without changing their total. */
  lemma {:induction false} SortDescSum<K>(b: Buckets<K>)
    ensures SumValues(SortDesc(b)) == SumValues(b)
  {
    if b != [] {
      SortDescSum(b[1..]);
      InsertDescSum(b[0], SortDesc(b[1..]));
    }
  }

  /** The accumulator sees a record only through its key and its amount. */
  lemma {:induction false} GroupSumPointwise<K>(es: seq<Expense>, fs: seq<Expense>, key: Expense -> K)
    requires |es| == |fs|
    requires forall i :: 0 <= i < |es| ==> es[i].amount == fs[i].amount && key(es[i]) == key(fs[i])
    ensures GroupSum(es, key) == GroupSum(fs, key)
  {
    if es != [] {
      var n := |es| - 1;
      GroupSumPointwise(es[..n], fs[..n], key);
    }
  }

  /** The entries of `b` whose value is `v`, in their order in `b`. */
  function Tied<K>(b: Buckets<K>, v: real): Buckets<K>
  {
    if b == [] then [] else (if b[0].1 == v then [b[0]] else []) + Tied(b[1..], v)
  }

  /** Inserting `x` places it ahead of every entry with its own value. */
  lemma {:induction false} InsertDescTied<K>(x: (K, real), s: Buckets<K>, v: real)
    ensures Tied(InsertDesc(x, s), v) == (if x.1 == v then [x] else []) + Tied(s, v)
  {
    if s != [] && !(x.1 >= s[0].1) {
      InsertDescTied(x, s[1..], v);
      var r := InsertDesc(x, s);
      assert r[0] == s[0] && r[1..] == InsertDesc(x, s[1..]);
      if x.1 == v {
        assert s[0].1 != v;
      }
    }
  }

  /** The ranking is stable, as `Array.prototype.sort` is: entries with equal
      values keep their relative order from the input. */
  lemma {:induction false} SortDescStable<K>(b: Buckets<K>, v: real)
    ensures Tied(SortDesc(b), v) == Tied(b, v)
  {
    if b != [] {
      SortDescStable(b[1..], v);
      InsertDescTied(b[0], SortDesc(b[1..]), v);
    }
  }
}
