/**
 * Grouping, counting and ranking of keys, as the statistics job does with
 * Laravel collections: `countBy`/`groupBy` keep the keys in the order they
 * are first seen, `sortDesc`/`sortByDesc` sort the groups by size with a
 * stable sort (PHP 8), and `take(5)` / `keys()->first()` read the front.
 */
module Ranking {
  import opened Wrappers

  /** Number of occurrences of `k` in `ks`. */
  function Count<K(==)>(ks: seq<K>, k: K): (n: nat)
    ensures n <= |ks|
    ensures n > 0 <==> k in ks
  {
    if ks == [] then 0
    else (if ks[0] == k then 1 else 0) + Count(ks[1..], k)
  }

  /** No element occurs twice. */
  predicate NoDup<K(==)>(s: seq<K>) {
    forall i, j :: 0 <= i < j < |s| ==> s[i] != s[j]
  }

  /** Position of the first occurrence of `k` in `ks`. */
  function FirstIndex<K(==)>(ks: seq<K>, k: K): (i: nat)
    requires k in ks
    ensures i < |ks| && ks[i] == k
    ensures forall j :: 0 <= j < i ==> ks[j] != k
  {
    if ks[0] == k then 0 else 1 + FirstIndex(ks[1..], k)
  }

  /** The distinct keys of `ks`, in the order of their first occurrence. */
  function Distinct<K(==)>(ks: seq<K>): (d: seq<K>)
    ensures forall i :: 0 <= i < |d| ==> d[i] in ks
    ensures forall i :: 0 <= i < |ks| ==> ks[i] in d
    ensures NoDup(d)
    decreases |ks|
  {
    if ks == [] then []
    else
      var init := ks[..|ks| - 1];
      var d := Distinct(init);
      assert forall i :: 0 <= i < |init| ==> init[i] == ks[i];
      if ks[|ks| - 1] in d then d else d + [ks[|ks| - 1]]
  }

  /** In a prefix that contains `k`, the first occurrence is the same. */
  lemma {:induction false} FirstIndexPrefix<K>(ks: seq<K>, n: nat, k: K)
    requires n <= |ks| && k in ks[..n]
    ensures FirstIndex(ks, k) == FirstIndex(ks[..n], k)
  {
    if ks[0] != k {
      assert ks[1..][..n - 1] == ks[..n][1..];
      FirstIndexPrefix(ks[1..], n - 1, k);
    }
  }

  /** `Distinct` lists keys in strictly increasing order of first occurrence. */
  lemma {:induction false} DistinctOrder<K>(ks: seq<K>)
    ensures forall p, q :: 0 <= p < q < |Distinct(ks)| ==>
      FirstIndex(ks, Distinct(ks)[p]) < FirstIndex(ks, Distinct(ks)[q])
    decreases |ks|
  {
    if ks != [] {
      var n := |ks| - 1;
      var init := ks[..n];
      assert ks[..n] == init;
      DistinctOrder(init);
      var d := Distinct(init);
      forall x | x in init
        ensures FirstIndex(ks, x) == FirstIndex(init, x) < n
      {
        FirstIndexPrefix(ks, n, x);
      }
      if ks[n] !in d {
        assert ks[n] !in init;
        assert FirstIndex(ks, ks[n]) == n;
      }
    }
  }

  /** A key together with the size of its group. */
  datatype Entry<K> = Entry(key: K, count: nat)

  /** `countBy`: one entry per distinct key, in first-seen order, with its count. */
  function Tally<K(==)>(ks: seq<K>): (t: seq<Entry<K>>)
    ensures |t| == |Distinct(ks)|
    ensures forall i :: 0 <= i < |t| ==> t[i] == Entry(Distinct(ks)[i], Count(ks, Distinct(ks)[i]))
  {
    var d := Distinct(ks);
    seq(|d|, i requires 0 <= i < |d| => Entry(d[i], Count(ks, d[i])))
  }

  /** Counts never increase from left to right. */
  predicate SortedDesc<K>(s: seq<Entry<K>>) {
    forall i, j :: 0 <= i < j < |s| ==> s[i].count >= s[j].count
  }

  /**
   * Stable insertion of `x` into a list sorted by count descending: `x` goes
   * in front of the first entry whose count does not exceed its own.
   */
  function Insert<K>(x: Entry<K>, t: seq<Entry<K>>): seq<Entry<K>> {
    if t == [] || x.count >= t[0].count then [x] + t
    else [t[0]] + Insert(x, t[1..])
  }

  /** Stable sort by count, largest first (`sortDesc` on a tally). */
  function SortByCountDesc<K>(s: seq<Entry<K>>): seq<Entry<K>> {
    if s == [] then [] else Insert(s[0], SortByCountDesc(s[1..]))
  }

  /**
   * Every pair of equal-count entries of `t` occurs in the same order in `s`:
   * the order a stable sort keeps.
   */
  ghost predicate OrderedLike<K>(t: seq<Entry<K>>, s: seq<Entry<K>>) {
    forall a, b :: 0 <= a < b < |t| && t[a].count == t[b].count ==>
      exists i, j :: 0 <= i < j < |s| && s[i] == t[a] && s[j] == t[b]
  }

  /**
   * `Insert` places `x` at position `p`, after exactly the entries with a
   * larger count; the entries before stay put and the ones after shift by one.
   */
  lemma {:induction false} InsertSplit<K>(x: Entry<K>, t: seq<Entry<K>>)
    returns (p: nat)
    ensures p <= |t| && |Insert(x, t)| == |t| + 1
    ensures Insert(x, t)[p] == x
    ensures forall i :: 0 <= i < p ==> Insert(x, t)[i] == t[i]
    ensures forall i :: p < i <= |t| ==> Insert(x, t)[i] == t[i - 1]
    ensures forall i :: 0 <= i < p ==> t[i].count > x.count
    ensures p < |t| ==> x.count >= t[p].count
  {
    if t == [] || x.count >= t[0].count {
      p := 0;
    } else {
      var p' := InsertSplit(x, t[1..]);
      p := p' + 1;
    }
  }

  /** Insertion adds `x` and keeps every other entry. */
  lemma {:induction false} InsertPerm<K>(x: Entry<K>, t: seq<Entry<K>>)
    ensures multiset(Insert(x, t)) == multiset(t) + multiset{x}
  {
    if t != [] && x.count < t[0].count {
      InsertPerm(x, t[1..]);
      assert t == [t[0]] + t[1..];
    }
  }

  /** Insertion keeps a descending list descending. */
  lemma {:induction false} InsertSorted<K>(x: Entry<K>, t: seq<Entry<K>>)
    requires SortedDesc(t)
    ensures SortedDesc(Insert(x, t))
  {
    var p := InsertSplit(x, t);
    var r := Insert(x, t);
    forall i, j | 0 <= i < j < |r| ensures r[i].count >= r[j].count {
      if i == p && j > p {
        assert x.count >= t[p].count >= t[j - 1].count;
      }
    }
  }

  /** The stable sort is a permutation of its input, sorted by count descending. */
  lemma {:induction false} SortByCountDescSpec<K>(s: seq<Entry<K>>)
    ensures multiset(SortByCountDesc(s)) == multiset(s)
    ensures |SortByCountDesc(s)| == |s|
    ensures SortedDesc(SortByCountDesc(s))
  {
    if s != [] {
      SortByCountDescSpec(s[1..]);
      var t := SortByCountDesc(s[1..]);
      var p := InsertSplit(s[0], t);
      InsertPerm(s[0], t);
      InsertSorted(s[0], t);
      assert s == [s[0]] + s[1..];
    }
  }

  /**
   * Stable insertion: with `x` inserted at `p` into `t` giving `r`, an
   * equal-count pair of `r` at ranks `a < b` occurs in the same order, at
   * `i < j`, in `[x] + s`, given that `t` is a permutation of `s` that keeps
   * the order of its own equal-count pairs.
   */
  lemma {:induction false} InsertPairOrdered<K>(x: Entry<K>, t: seq<Entry<K>>, s: seq<Entry<K>>,
                                                r: seq<Entry<K>>, p: nat, a: nat, b: nat)
    returns (i: nat, j: nat)
    requires OrderedLike(t, s) && multiset(t) == multiset(s)
    requires p <= |t| && |r| == |t| + 1 && r[p] == x
    requires forall i :: 0 <= i < p ==> r[i] == t[i] && t[i].count > x.count
    requires forall i :: p < i <= |t| ==> r[i] == t[i - 1]
    requires a < b < |r| && r[a].count == r[b].count
    ensures i < j < |s| + 1 && ([x] + s)[i] == r[a] && ([x] + s)[j] == r[b]
  {
    if b == p {
      assert false;
    } else if a == p {
      j := InsertedFirst(x, t, s, r, p, b);
      i := 0;
    } else {
      i, j := InsertedOthers(t, s, r, p, a, b);
      i, j := i + 1, j + 1;
    }
  }

  /** The inserted entry comes first in `[x] + s`, ahead of any entry of `t`. */
  lemma InsertedFirst<K>(x: Entry<K>, t: seq<Entry<K>>, s: seq<Entry<K>>, r: seq<Entry<K>>, p: nat, b: nat)
    returns (j: nat)
    requires multiset(t) == multiset(s)
    requires p < b < |r| == |t| + 1 && r[p] == x
    requires forall i :: p < i <= |t| ==> r[i] == t[i - 1]
    ensures 0 < j < |s| + 1 && ([x] + s)[0] == r[p] && ([x] + s)[j] == r[b]
  {
    assert r[b] == t[b - 1];
    assert t[b - 1] in multiset(s);
    var k :| 0 <= k < |s| && s[k] == t[b - 1];
    j := k + 1;
  }

  /** Two equal-count entries of `t` placed around `p` keep the order they have in `s`. */
  lemma InsertedOthers<K>(t: seq<Entry<K>>, s: seq<Entry<K>>, r: seq<Entry<K>>, p: nat, a: nat, b: nat)
    returns (i: nat, j: nat)
    requires OrderedLike(t, s)
    requires p <= |t| && |r| == |t| + 1
    requires forall i :: 0 <= i < p ==> r[i] == t[i]
    requires forall i :: p < i <= |t| ==> r[i] == t[i - 1]
    requires a < b < |r| && a != p && b != p && r[a].count == r[b].count
    ensures i < j < |s| && s[i] == r[a] && s[j] == r[b]
  {
    var a', b' := if a < p then a else a - 1, if b < p then b else b - 1;
    assert r[a] == t[a'] && r[b] == t[b'];
    assert 0 <= a' < b' < |t| && t[a'].count == t[b'].count;
    i, j :| 0 <= i < j < |s| && s[i] == t[a'] && s[j] == t[b'];
  }

  /** The sort is stable: entries with equal counts keep their input order. */
  lemma {:induction false} SortByCountDescStable<K>(s: seq<Entry<K>>)
    ensures OrderedLike(SortByCountDesc(s), s)
  {
    if s != [] {
      var s' := s[1..];
      var t := SortByCountDesc(s');
      SortByCountDescStable(s');
      SortByCountDescSpec(s');
      assert s == [s[0]] + s';
      var r := SortByCountDesc(s);
      var p := InsertSplit(s[0], t);
      forall a, b | 0 <= a < b < |r| && r[a].count == r[b].count
        ensures exists i, j :: 0 <= i < j < |s| && s[i] == r[a] && s[j] == r[b]
      {
        var i, j := InsertPairOrdered(s[0], t, s', r, p, a, b);
        assert s[i] == r[a] && s[j] == r[b];
      }
    }
  }

  /** Sorting a list without repeated entries yields none either. */
  lemma {:induction false} SortByCountDescNoDup<K>(s: seq<Entry<K>>)
    requires NoDup(s)
    ensures NoDup(SortByCountDesc(s))
  {
    if s != [] {
      var s' := s[1..];
      assert NoDup(s');
      SortByCountDescNoDup(s');
      SortByCountDescSpec(s');
      var t := SortByCountDesc(s');
      var p := InsertSplit(s[0], t);
      assert s[0] !in s' by {
        forall k | 0 <= k < |s'| ensures s'[k] != s[0] {
          assert s'[k] == s[k + 1];
        }
      }
      assert s[0] !in multiset(t);
      var r := SortByCountDesc(s);
      forall a, b | 0 <= a < b < |r| ensures r[a] != r[b] {
        if a == p {
          assert r[b] == t[b - 1] && r[b] in multiset(t);
        } else if b == p {
          assert r[a] == t[a] && r[a] in multiset(t);
        }
      }
    }
  }

  /** The first `n` elements, or all of them when there are fewer (`take(n)`). */
  function Take<T>(s: seq<T>, n: nat): (r: seq<T>)
    ensures |r| == if |s| < n then |s| else n
    ensures r == s[..|r|]
  {
    if |s| <= n then s else s[..n]
  }

  /** The `n` largest groups of `ks`: `countBy()->sortDesc()->take(n)`. */
  function TopGroups<K(==)>(ks: seq<K>, n: nat): seq<Entry<K>> {
    Take(SortByCountDesc(Tally(ks)), n)
  }

  /**
   * The key of the largest group, the first-seen key among equally large
   * groups: `groupBy()->sortByDesc(count)->keys()->first()`; absent when
   * there are no keys.
   */
  function MostPopular<K(==)>(ks: seq<K>): Option<K> {
    var ranked := SortByCountDesc(Tally(ks));
    if ranked == [] then None else Some(ranked[0].key)
  }

  /** A tally lists each key once, so equal keys mean equal entries. */
  lemma TallyNoDup<K>(ks: seq<K>)
    ensures NoDup(Tally(ks))
  {
    var t := Tally(ks);
    forall i, j | 0 <= i < j < |t| ensures t[i] != t[j] {
      assert t[i].key == Distinct(ks)[i] && t[j].key == Distinct(ks)[j];
    }
  }

  /** The ranked tally holds exactly the keys with their true counts, largest first. */
  lemma {:induction false} RankedMembers<K>(ks: seq<K>)
    ensures |SortByCountDesc(Tally(ks))| == |Distinct(ks)|
    ensures forall e :: e in SortByCountDesc(Tally(ks)) <==> e.key in ks && e.count == Count(ks, e.key)
    ensures SortedDesc(SortByCountDesc(Tally(ks)))
    ensures forall i :: 0 <= i < |SortByCountDesc(Tally(ks))| ==>
      SortByCountDesc(Tally(ks))[i].key in ks &&
      SortByCountDesc(Tally(ks))[i].count == Count(ks, SortByCountDesc(Tally(ks))[i].key)
  {
    var t := Tally(ks);
    var r := SortByCountDesc(t);
    SortByCountDescSpec(t);
    forall i | 0 <= i < |r| ensures r[i].key in ks && r[i].count == Count(ks, r[i].key) {
      assert r[i] in multiset(t);
      var j :| 0 <= j < |t| && t[j] == r[i];
    }
    forall e ensures e in r <==> e.key in ks && e.count == Count(ks, e.key) {
      assert e in r <==> e in multiset(t);
      if e.key in ks && e.count == Count(ks, e.key) {
        var i :| 0 <= i < |Distinct(ks)| && Distinct(ks)[i] == e.key;
        assert t[i] == e;
      }
    }
  }

  /** No key is ranked twice. */
  lemma {:induction false} RankedKeysDistinct<K>(ks: seq<K>)
    ensures forall a, b :: 0 <= a < b < |SortByCountDesc(Tally(ks))| ==>
      SortByCountDesc(Tally(ks))[a].key != SortByCountDesc(Tally(ks))[b].key
  {
    var t := Tally(ks);
    var r := SortByCountDesc(t);
    SortByCountDescSpec(t);
    TallyNoDup(ks);
    SortByCountDescNoDup(t);
    forall a, b | 0 <= a < b < |r| ensures r[a].key != r[b].key {
      assert r[a] in multiset(t) && r[b] in multiset(t);
    }
  }

  /** Every entry of the ranked tally is a distinct key with its true count. */
  lemma {:induction false} RankedEntries<K>(ks: seq<K>)
    ensures |SortByCountDesc(Tally(ks))| == |Distinct(ks)|
    ensures forall e :: e in SortByCountDesc(Tally(ks)) <==> e.key in ks && e.count == Count(ks, e.key)
    ensures forall i :: 0 <= i < |SortByCountDesc(Tally(ks))| ==>
      SortByCountDesc(Tally(ks))[i].key in ks &&
      SortByCountDesc(Tally(ks))[i].count == Count(ks, SortByCountDesc(Tally(ks))[i].key)
    ensures SortedDesc(SortByCountDesc(Tally(ks)))
    ensures forall a, b :: 0 <= a < b < |SortByCountDesc(Tally(ks))| ==>
      SortByCountDesc(Tally(ks))[a].key != SortByCountDesc(Tally(ks))[b].key
  {
    var r := SortByCountDesc(Tally(ks));
    RankedMembers(ks);
    RankedKeysDistinct(ks);
  }

  /**
   * Among equally large groups the ranking follows first occurrence: an
   * entry ranked before another of the same count was seen first.
   */
  lemma {:induction false} RankedTiesFirstSeen<K>(ks: seq<K>)
    ensures forall a, b ::
      (0 <= a < b < |SortByCountDesc(Tally(ks))| &&
       SortByCountDesc(Tally(ks))[a].count == SortByCountDesc(Tally(ks))[b].count) ==>
      SortByCountDesc(Tally(ks))[a].key in ks && SortByCountDesc(Tally(ks))[b].key in ks &&
      FirstIndex(ks, SortByCountDesc(Tally(ks))[a].key) < FirstIndex(ks, SortByCountDesc(Tally(ks))[b].key)
  {
    var t := Tally(ks);
    var r := SortByCountDesc(t);
    var d := Distinct(ks);
    SortByCountDescStable(t);
    DistinctOrder(ks);
    forall a, b | 0 <= a < b < |r| && r[a].count == r[b].count
      ensures r[a].key in ks && r[b].key in ks && FirstIndex(ks, r[a].key) < FirstIndex(ks, r[b].key)
    {
      var i, j :| 0 <= i < j < |t| && t[i] == r[a] && t[j] == r[b];
      assert t[i].key == d[i] && t[j].key == d[j];
      assert d[i] in ks && d[j] in ks;
    }
  }

  /** Every key that occurs is ranked, with its true count, at some position `m`. */
  lemma {:induction false} RankedHas<K>(ks: seq<K>, x: K) returns (m: nat)
    requires x in ks
    ensures m < |SortByCountDesc(Tally(ks))|
    ensures SortByCountDesc(Tally(ks))[m] == Entry(x, Count(ks, x))
  {
    var t := Tally(ks);
    var r := SortByCountDesc(t);
    SortByCountDescSpec(t);
    var i :| 0 <= i < |Distinct(ks)| && Distinct(ks)[i] == x;
    assert t[i] == Entry(x, Count(ks, x));
    assert t[i] in multiset(r);
    m :| 0 <= m < |r| && r[m] == t[i];
  }

  /** There is a most popular key exactly when there are keys, and it is one of them. */
  lemma {:induction false} MostPopularPresent<K>(ks: seq<K>)
    ensures MostPopular(ks).None? <==> ks == []
    ensures MostPopular(ks).Some? ==> MostPopular(ks).value in ks
  {
    var r := SortByCountDesc(Tally(ks));
    RankedEntries(ks);
    if ks != [] {
      assert ks[0] in Distinct(ks);
      assert r[0] in r;
    } else {
      assert Distinct(ks) == [];
    }
  }

  /** The most popular key has a group at least as large as any other key's. */
  lemma {:induction false} MostPopularIsLargest<K>(ks: seq<K>, x: K)
    requires x in ks
    ensures MostPopular(ks).Some? && Count(ks, x) <= Count(ks, MostPopular(ks).value)
  {
    var r := SortByCountDesc(Tally(ks));
    RankedEntries(ks);
    var e := Entry(x, Count(ks, x));
    assert e in r;
    var m :| 0 <= m < |r| && r[m] == e;
    assert r[0] in r;
    if m > 0 {
      assert r[0].count >= r[m].count;
    }
  }

  /**
   * Ties go to the first-seen key: every key whose first occurrence comes
   * before that of the most popular key has a strictly smaller group.
   */
  lemma {:induction false} MostPopularFirstSeen<K>(ks: seq<K>, i: nat)
    requires ks != []
    requires MostPopular(ks).Some? && MostPopular(ks).value in ks
    requires i < FirstIndex(ks, MostPopular(ks).value)
    ensures Count(ks, ks[i]) < Count(ks, MostPopular(ks).value)
  {
    var r := SortByCountDesc(Tally(ks));
    var k := r[0].key;
    RankedEntries(ks);
    RankedTiesFirstSeen(ks);
    MostPopularIsLargest(ks, ks[i]);
    var x := ks[i];
    var e := Entry(x, Count(ks, x));
    assert e in r;
    var m :| 0 <= m < |r| && r[m] == e;
    assert r[0] in r;
    assert FirstIndex(ks, x) <= i;
    if m == 0 {
      assert false;
    }
  }

  /** The occurrences of `k` in two sequences together. */
  lemma {:induction false} CountAppend<K>(a: seq<K>, b: seq<K>, k: K)
    ensures Count(a + b, k) == Count(a, k) + Count(b, k)
  {
    if a == [] {
      assert a + b == b;
    } else {
      assert (a + b)[0] == a[0] && (a + b)[1..] == a[1..] + b;
      CountAppend(a[1..], b, k);
    }
  }

  /** Two different keys together occur at most once per element. */
  lemma {:induction false} CountPair<K>(ks: seq<K>, x: K, y: K)
    requires x != y
    ensures Count(ks, x) + Count(ks, y) <= |ks|
  {
    if ks != [] {
      CountPair(ks[1..], x, y);
    }
  }

  /**
   * A key that opens the sequence and has no fewer occurrences than any
   * other is the most popular: no key has more, and one with as many is
   * seen later and loses the tie.
   */
  lemma MostPopularLeader<K>(ks: seq<K>, x: K)
    requires ks != [] && ks[0] == x
    requires forall i :: 0 <= i < |ks| ==> Count(ks, ks[i]) <= Count(ks, x)
    ensures MostPopular(ks) == Some(x)
  {
    MostPopularPresent(ks);
    var y := MostPopular(ks).value;
    if y != x {
      MostPopularIsLargest(ks, x);
      var j := FirstIndex(ks, y);
      assert Count(ks, ks[j]) <= Count(ks, x);
      MostPopularFirstSeen(ks, 0);
      assert false;
    }
  }

  /** In particular a key that opens the sequence and makes up at least half of it. */
  lemma MostPopularMajority<K>(ks: seq<K>, x: K)
    requires ks != [] && ks[0] == x && |ks| <= 2 * Count(ks, x)
    ensures MostPopular(ks) == Some(x)
  {
    forall i | 0 <= i < |ks| ensures Count(ks, ks[i]) <= Count(ks, x) {
      if ks[i] != x {
        CountPair(ks, x, ks[i]);
      }
    }
    MostPopularLeader(ks, x);
  }

  /** Without repeated keys, a key occurs at most once. */
  lemma {:induction false} CountNoDup<K>(ks: seq<K>, k: K)
    requires NoDup(ks)
    ensures Count(ks, k) <= 1
  {
    if ks != [] {
      var rest := ks[1..];
      assert NoDup(rest) by {
        assert forall i :: 0 <= i < |rest| ==> rest[i] == ks[i + 1];
      }
      CountNoDup(rest, k);
      if ks[0] == k {
        assert k !in rest by {
          assert forall i :: 0 <= i < |rest| ==> rest[i] == ks[i + 1];
        }
      }
    }
  }

  /** The keys of a sequence are at most as many as its elements, and as many when none repeats. */
  lemma {:induction false} KeySetSize<K>(ks: seq<K>)
    ensures |set k | k in ks| <= |ks|
    ensures NoDup(ks) ==> |set k | k in ks| == |ks|
  {
    if ks != [] {
      var rest := ks[1..];
      KeySetSize(rest);
      assert (set k | k in ks) == {ks[0]} + (set k | k in rest) by {
        assert forall k :: k in ks <==> k == ks[0] || k in rest;
      }
      if NoDup(ks) {
        assert NoDup(rest) by {
          assert forall i :: 0 <= i < |rest| ==> rest[i] == ks[i + 1];
        }
        assert ks[0] !in rest by {
          assert forall i :: 0 <= i < |rest| ==> rest[i] == ks[i + 1];
        }
      }
    }
  }

  /** Keys without repeats, all occurring in `ks`, are at most as many as the distinct keys of `ks`. */
  lemma DistinctAtLeast<K>(ks: seq<K>, some: seq<K>)
    requires NoDup(some)
    requires forall i :: 0 <= i < |some| ==> some[i] in ks
    ensures |some| <= |Distinct(ks)|
  {
    var d := Distinct(ks);
    KeySetSize(some);
    KeySetSize(d);
    var a, b := set k | k in some, set k | k in d;
    assert a <= b;
    assert b == a + (b - a) && a * (b - a) == {};
  }

  /** The first of the top groups is the most popular key with its count. */
  lemma TopGroupsFirst<K>(ks: seq<K>, n: nat)
    requires ks != [] && n > 0
    ensures MostPopular(ks).Some? && |TopGroups(ks, n)| > 0
    ensures TopGroups(ks, n)[0] == Entry(MostPopular(ks).value, Count(ks, MostPopular(ks).value))
  {
    MostPopularPresent(ks);
    TopGroupsEntries(ks, n);
    assert ks[0] in Distinct(ks);
  }

  /** The top `n` groups: at most `n` of them, each a key of `ks` with its true count. */
  lemma {:induction false} TopGroupsEntries<K>(ks: seq<K>, n: nat)
    ensures |TopGroups(ks, n)| == if |Distinct(ks)| < n then |Distinct(ks)| else n
    ensures forall i :: 0 <= i < |TopGroups(ks, n)| ==>
      TopGroups(ks, n)[i].key in ks && TopGroups(ks, n)[i].count == Count(ks, TopGroups(ks, n)[i].key)
  {
    var r := SortByCountDesc(Tally(ks));
    var top := TopGroups(ks, n);
    RankedEntries(ks);
    forall i | 0 <= i < |top| ensures top[i].key in ks && top[i].count == Count(ks, top[i].key) {
      assert i < |r| && top[i] == r[i];
    }
  }

  /** The top `n` groups have distinct keys, largest first, ties in first-seen order. */
  lemma {:induction false} TopGroupsOrder<K>(ks: seq<K>, n: nat)
    ensures forall i, j :: 0 <= i < j < |TopGroups(ks, n)| ==> TopGroups(ks, n)[i].key != TopGroups(ks, n)[j].key
    ensures SortedDesc(TopGroups(ks, n))
    ensures forall i, j ::
      (0 <= i < j < |TopGroups(ks, n)| && TopGroups(ks, n)[i].count == TopGroups(ks, n)[j].count) ==>
      (TopGroups(ks, n)[i].key in ks && TopGroups(ks, n)[j].key in ks &&
       FirstIndex(ks, TopGroups(ks, n)[i].key) < FirstIndex(ks, TopGroups(ks, n)[j].key))
  {
    var r := SortByCountDesc(Tally(ks));
    var top := TopGroups(ks, n);
    RankedEntries(ks);
    RankedTiesFirstSeen(ks);
    assert forall i :: 0 <= i < |top| ==> top[i] == r[i];
  }

  /**
   * A key left out of the top `n` has a smaller group than every key taken,
   * or an equally large one first seen after it: the cut keeps the
   * first-seen key among equal groups.
   */
  lemma {:induction false} TopGroupsMaximal<K>(ks: seq<K>, n: nat, x: K)
    requires x in ks
    requires forall j :: 0 <= j < |TopGroups(ks, n)| ==> TopGroups(ks, n)[j].key != x
    ensures forall i :: 0 <= i < |TopGroups(ks, n)| ==> Count(ks, x) <= TopGroups(ks, n)[i].count
    ensures forall i :: 0 <= i < |TopGroups(ks, n)| ==>
      Count(ks, x) < TopGroups(ks, n)[i].count ||
      (Count(ks, x) == TopGroups(ks, n)[i].count && TopGroups(ks, n)[i].key in ks &&
       FirstIndex(ks, TopGroups(ks, n)[i].key) < FirstIndex(ks, x))
  {
    var r := SortByCountDesc(Tally(ks));
    var top := TopGroups(ks, n);
    SortByCountDescSpec(Tally(ks));
    RankedTiesFirstSeen(ks);
    var m := RankedHas(ks, x);
    assert forall j :: 0 <= j < |top| ==> top[j] == r[j];
    assert |top| <= m;
    forall i | 0 <= i < |top|
      ensures Count(ks, x) <= top[i].count
      ensures Count(ks, x) < top[i].count ||
        (Count(ks, x) == top[i].count && top[i].key in ks && FirstIndex(ks, top[i].key) < FirstIndex(ks, x))
    {
      assert top[i] == r[i] && r[i].count >= r[m].count;
      assert r[m].key == x;
    }
  }
}
