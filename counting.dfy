/**
 * `collections.Counter` as the modelled code uses it: counting keys in
 * first-occurrence order (the order `items()` reports) and `most_common(1)`.
 */
module Counting {

  /** The number of occurrences of `k` in `xs`. */
  function Occ<K(==)>(xs: seq<K>, k: K): nat {
    if |xs| == 0 then 0
    else Occ(xs[..|xs| - 1], k) + (if xs[|xs| - 1] == k then 1 else 0)
  }

  /** The sum of the counts of a tally. */
  function Total<K>(t: seq<(K, nat)>): nat {
    if |t| == 0 then 0 else Total(t[..|t| - 1]) + t[|t| - 1].1
  }

  /** Index of key `k` in `t`, or -1. */
  function IndexOf<K(==)>(t: seq<(K, nat)>, k: K): (r: int)
    ensures -1 <= r < |t|
    ensures r >= 0 ==> t[r].0 == k
    ensures r == -1 ==> forall i :: 0 <= i < |t| ==> t[i].0 != k
  {
    if |t| == 0 then -1
    else if t[|t| - 1].0 == k then |t| - 1
    else IndexOf(t[..|t| - 1], k)
  }

  /** `counter[k] += 1`. */
  function Bump<K(==)>(t: seq<(K, nat)>, k: K): seq<(K, nat)> {
    var i := IndexOf(t, k);
    if i < 0 then t + [(k, 1)] else t[i := (k, t[i].1 + 1)]
  }

  /** The counter after adding the keys of `xs` in order. */
  function Tally<K(==)>(xs: seq<K>): seq<(K, nat)> {
    if |xs| == 0 then [] else Bump(Tally(xs[..|xs| - 1]), xs[|xs| - 1])
  }

  /** Counting one more key bumps it in the tally. */
  lemma {:induction false} TallySnoc<K>(xs: seq<K>, x: K)
    ensures Tally(xs + [x]) == Bump(Tally(xs), x)
  {
    assert (xs + [x])[..|xs|] == xs;
  }

  /** Each key appears in the tally once. */
  predicate DistinctKeys<K(==)>(t: seq<(K, nat)>) {
    forall i, j :: 0 <= i < j < |t| ==> t[i].0 != t[j].0
  }

  lemma {:induction false} TotalUpdate<K>(t: seq<(K, nat)>, i: nat, k: K, c: nat)
    requires i < |t|
    ensures Total(t[i := (k, c)]) + t[i].1 == Total(t) + c
  {
    if i < |t| - 1 {
      assert t[i := (k, c)][..|t| - 1] == t[..|t| - 1][i := (k, c)];
      TotalUpdate(t[..|t| - 1], i, k, c);
    } else {
      assert t[i := (k, c)][..|t| - 1] == t[..|t| - 1];
    }
  }

  /**
   * `t` counts `xs`: each key once, each with its number of occurrences in
   * `xs` (so only keys of `xs`), every key of `xs`, and counts that sum to `|xs|`.
   */
  ghost predicate Counts<K>(xs: seq<K>, t: seq<(K, nat)>) {
    DistinctKeys(t)
    && (forall i :: 0 <= i < |t| ==> t[i].1 == Occ(xs, t[i].0) > 0)
    && (forall j :: 0 <= j < |xs| ==> IndexOf(t, xs[j]) >= 0)
    && Total(t) == |xs|
  }

  /**
   * The tally of `xs` lists every key of `xs` exactly once, in order of first
   * occurrence, with its number of occurrences; the counts sum to `|xs|`.
   */
  lemma {:induction false} TallyFacts<K>(xs: seq<K>)
    ensures DistinctKeys(Tally(xs))
    ensures forall i :: 0 <= i < |Tally(xs)| ==> Tally(xs)[i].1 == Occ(xs, Tally(xs)[i].0) > 0
    ensures forall k :: k in xs <==> IndexOf(Tally(xs), k) >= 0
    ensures Total(Tally(xs)) == |xs|
  {
    TallyCounts(xs);
    var t := Tally(xs);
    forall k
      ensures k in xs <==> IndexOf(t, k) >= 0
    {
      if IndexOf(t, k) >= 0 && k !in xs {
        OccAbsent(xs, k);
      }
    }
  }

  lemma {:induction false} TallyCounts<K>(xs: seq<K>)
    ensures Counts(xs, Tally(xs))
  {
    if |xs| > 0 {
      TallyCounts(xs[..|xs| - 1]);
      BumpCounts(xs, Tally(xs[..|xs| - 1]));
    }
  }

  /** Bumping the last key of `xs` in a count of the keys before it counts `xs`. */
  lemma {:induction false} BumpCounts<K>(xs: seq<K>, t: seq<(K, nat)>)
    requires |xs| > 0 && Counts(xs[..|xs| - 1], t)
    ensures Counts(xs, Bump(t, xs[|xs| - 1]))
  {
    BumpTotal(xs, t);
    BumpOccurrences(xs, t);
    BumpCovers(xs, t);
  }

  /** The bump keeps the keys distinct and adds one to the total. */
  lemma {:induction false} BumpTotal<K>(xs: seq<K>, t: seq<(K, nat)>)
    requires |xs| > 0 && Counts(xs[..|xs| - 1], t)
    ensures DistinctKeys(Bump(t, xs[|xs| - 1])) && Total(Bump(t, xs[|xs| - 1])) == |xs|
  {
    var x := xs[|xs| - 1];
    var i := IndexOf(t, x);
    if i >= 0 {
      TotalUpdate(t, i, x, t[i].1 + 1);
    } else {
      assert (t + [(x, 1)])[..|t|] == t;
    }
  }

  /** After the bump every key of `xs` has an entry. */
  lemma {:induction false} BumpCovers<K>(xs: seq<K>, t: seq<(K, nat)>)
    requires |xs| > 0 && Counts(xs[..|xs| - 1], t)
    ensures var u := Bump(t, xs[|xs| - 1]); forall j :: 0 <= j < |xs| ==> IndexOf(u, xs[j]) >= 0
  {
    var init, x := xs[..|xs| - 1], xs[|xs| - 1];
    var i := IndexOf(t, x);
    var u := Bump(t, x);
    forall j | 0 <= j < |xs|
      ensures IndexOf(u, xs[j]) >= 0
    {
      var k := xs[j];
      if j < |xs| - 1 && k != x {
        assert init[j] == k;
        assert u[IndexOf(t, k)].0 == k;
      }
      if k == x {
        if i < 0 {
          assert u[|t|].0 == k;
        } else {
          assert u[i].0 == k;
        }
      }
    }
  }

  /** After the bump every entry's count is its key's number of occurrences in `xs`. */
  lemma {:induction false} BumpOccurrences<K>(xs: seq<K>, t: seq<(K, nat)>)
    requires |xs| > 0 && Counts(xs[..|xs| - 1], t)
    ensures var u := Bump(t, xs[|xs| - 1]); forall j :: 0 <= j < |u| ==> u[j].1 == Occ(xs, u[j].0) > 0
  {
    var init, x := xs[..|xs| - 1], xs[|xs| - 1];
    var i := IndexOf(t, x);
    var u := Bump(t, x);
    forall j | 0 <= j < |u|
      ensures u[j].1 == Occ(xs, u[j].0) > 0
    {
      assert Occ(xs, u[j].0) == Occ(init, u[j].0) + (if x == u[j].0 then 1 else 0);
      if i < 0 {
        if j == |t| {
          OccAbsent(init, x);
        } else {
          assert u[j] == t[j];
        }
      } else if j != i {
        assert u[j] == t[j];
      }
    }
  }

  lemma {:induction false} OccAbsent<K>(xs: seq<K>, k: K)
    requires k !in xs
    ensures Occ(xs, k) == 0
  {
    if |xs| > 0 {
      assert xs == xs[..|xs| - 1] + [xs[|xs| - 1]];
      OccAbsent(xs[..|xs| - 1], k);
    }
  }

  /** Index of the first entry with the largest count (`most_common(1)[0]`). */
  function MostCommon<K>(t: seq<(K, nat)>): (r: nat)
    requires |t| > 0
    ensures r < |t|
    ensures forall i :: 0 <= i < |t| ==> t[i].1 <= t[r].1
    ensures forall i :: 0 <= i < r ==> t[i].1 < t[r].1
  {
    if |t| == 1 then 0
    else
      var m := MostCommon(t[..|t| - 1]);
      if t[|t| - 1].1 > t[m].1 then |t| - 1 else m
  }

  lemma {:induction false} TotalAtLeastTwo<K>(t: seq<(K, nat)>, i: nat, j: nat)
    requires i < j < |t|
    ensures Total(t) >= t[i].1 + t[j].1
  {
    if j < |t| - 1 {
      TotalAtLeastTwo(t[..|t| - 1], i, j);
    } else {
      TotalAtLeastOne(t[..|t| - 1], i);
    }
  }

  lemma {:induction false} TotalAtLeastOne<K>(t: seq<(K, nat)>, i: nat)
    requires i < |t|
    ensures Total(t) >= t[i].1
  {
    if i < |t| - 1 {
      TotalAtLeastOne(t[..|t| - 1], i);
    }
  }

  /** At most one key can hold more than half of the counted items. */
  lemma {:induction false} MajorityUnique<K>(t: seq<(K, nat)>, n: nat, i: nat, j: nat)
    requires Total(t) <= n
    requires i < |t| && j < |t|
    requires 2 * t[i].1 > n && 2 * t[j].1 > n
    ensures i == j
  {
    if i < j {
      TotalAtLeastTwo(t, i, j);
    } else if j < i {
      TotalAtLeastTwo(t, j, i);
    }
  }

  /** A key holding more than half of `n >= |xs|` items is the one `most_common(1)` reports. */
  lemma {:induction false} MajorityIsMostCommon<K>(xs: seq<K>, k: K, n: nat)
    requires |xs| <= n
    requires 2 * Occ(xs, k) > n
    ensures |Tally(xs)| > 0
    ensures Tally(xs)[MostCommon(Tally(xs))] == (k, Occ(xs, k))
  {
    TallyFacts(xs);
    if k !in xs {
      OccAbsent(xs, k);
    }
    var t := Tally(xs);
    var j := IndexOf(t, k);
    MajorityUnique(t, n, MostCommon(t), j);
  }

  /** When no key holds more than half of `n` items, neither does the most common one. */
  lemma {:induction false} NoMajority<K>(xs: seq<K>, n: nat)
    requires forall k :: 2 * Occ(xs, k) <= n
    ensures |Tally(xs)| == 0 || 2 * Tally(xs)[MostCommon(Tally(xs))].1 <= n
  {
    TallyFacts(xs);
    if |Tally(xs)| > 0 {
      var m := MostCommon(Tally(xs));
      assert Tally(xs)[m].1 == Occ(xs, Tally(xs)[m].0);
    }
  }

  /** Each entry's count is at least that of every later entry. */
  predicate CountsDescending<K>(t: seq<(K, nat)>) {
    forall i, j :: 0 <= i < j < |t| ==> t[i].1 >= t[j].1
  }

  /** Inserts `x` after every leading entry whose count is at least its own. */
  function InsertByCount<K>(x: (K, nat), t: seq<(K, nat)>): (r: seq<(K, nat)>)
    ensures multiset(r) == multiset(t) + multiset{x}
    ensures |r| == |t| + 1
  {
    if |t| == 0 || t[0].1 < x.1 then [x] + t
    else
      assert t == [t[0]] + t[1..];
      [t[0]] + InsertByCount(x, t[1..])
  }

  lemma {:induction false} InsertByCountDescending<K>(x: (K, nat), t: seq<(K, nat)>)
    requires CountsDescending(t)
    ensures CountsDescending(InsertByCount(x, t))
  {
    if |t| > 0 && t[0].1 >= x.1 {
      var u := InsertByCount(x, t[1..]);
      InsertByCountDescending(x, t[1..]);
      var r := InsertByCount(x, t);
      assert r == [t[0]] + u;
      forall j | 0 <= j < |u|
        ensures t[0].1 >= u[j].1
      {
        assert u[j] in multiset(u);
        if u[j] != x {
          assert u[j] in multiset(t[1..]);
          var k :| 0 <= k < |t[1..]| && t[1..][k] == u[j];
          assert t[k + 1] == u[j];
        }
      }
    }
  }

  /** The entries in descending order of count, ties in their original order (a stable sort). */
  function SortByCount<K>(t: seq<(K, nat)>): (r: seq<(K, nat)>)
    ensures multiset(r) == multiset(t)
    ensures |r| == |t|
  {
    if |t| == 0 then []
    else
      assert t == t[..|t| - 1] + [t[|t| - 1]];
      InsertByCount(t[|t| - 1], SortByCount(t[..|t| - 1]))
  }

  lemma {:induction false} SortByCountDescending<K>(t: seq<(K, nat)>)
    ensures CountsDescending(SortByCount(t))
  {
    if |t| > 0 {
      SortByCountDescending(t[..|t| - 1]);
      InsertByCountDescending(t[|t| - 1], SortByCount(t[..|t| - 1]));
    }
  }

  /** `counter.most_common(n)`: the first `n` entries of the stable descending sort. */
  function MostCommonN<K>(t: seq<(K, nat)>, n: nat): seq<(K, nat)> {
    var s := SortByCount(t);
    if n < |s| then s[..n] else s
  }

  /**
   * `most_common(n)` keeps `min(n, |t|)` entries of the tally, in descending
   * order of count, and every entry it leaves out counts no more than any it
   * keeps.
   */
  lemma {:induction false} MostCommonNFacts<K>(t: seq<(K, nat)>, n: nat)
    ensures |MostCommonN(t, n)| == if n < |t| then n else |t|
    ensures CountsDescending(MostCommonN(t, n))
    ensures forall e :: e in MostCommonN(t, n) ==> e in t
    ensures forall e, i :: e in t && e !in MostCommonN(t, n) && 0 <= i < |MostCommonN(t, n)| ==>
      e.1 <= MostCommonN(t, n)[i].1
  {
    var s := SortByCount(t);
    SortByCountDescending(t);
    var m := if n < |s| then n else |s|;
    assert MostCommonN(t, n) == s[..m];
    PrefixFacts(s, m);
    forall e | e in s[..m]
      ensures e in t
    {
      SortedMember(t, e);
    }
    forall e, i | e in t && e !in s[..m] && 0 <= i < m
      ensures e.1 <= s[..m][i].1
    {
      SortedMember(t, e);
      PrefixDominates(s, m, e, i);
    }
  }

  /** The sort holds exactly the entries of the tally. */
  lemma {:induction false} SortedMember<K>(t: seq<(K, nat)>, e: (K, nat))
    ensures e in SortByCount(t) <==> e in t
  {
    var s := SortByCount(t);
    assert e in s <==> e in multiset(s);
    assert e in t <==> e in multiset(t);
  }

  /**
   * A prefix of a sequence in descending order of count is itself
   * descending and holds only entries of the sequence.
   */
  lemma {:induction false} PrefixFacts<K>(s: seq<(K, nat)>, m: nat)
    requires CountsDescending(s) && m <= |s|
    ensures CountsDescending(s[..m])
    ensures forall e :: e in s[..m] ==> e in s
  {
    var r := s[..m];
    forall e | e in r
      ensures e in s
    {
      var j :| 0 <= j < m && r[j] == e;
      assert s[j] == e;
    }
  }

  /** An entry past the prefix counts no more than the prefix's `i`-th. */
  lemma {:induction false} PrefixDominates<K>(s: seq<(K, nat)>, m: nat, e: (K, nat), i: nat)
    requires CountsDescending(s) && m <= |s| && i < m
    requires e in s && e !in s[..m]
    ensures e.1 <= s[..m][i].1
  {
    var j :| 0 <= j < |s| && s[j] == e;
    assert j >= m;
    assert s[..m][i] == s[i];
  }
}
