/**
 * Python's `sort(key=..., reverse=True)` for the rankings the memory store
 * uses: an insertion sort on a lexicographic key, descending, that keeps
 * equal keys in their original order, followed by a `[:k]` cut.
 */
module Ranking {
  import opened PySeq

  /** A sort key: Python compares `(primary, secondary)` tuples lexicographically. */
  datatype RankKey = RankKey(primary: real, secondary: real)

  /** `a > b` on key tuples. */
  predicate Outranks(a: RankKey, b: RankKey) {
    a.primary > b.primary || (a.primary == b.primary && a.secondary > b.secondary)
  }

  /** `a >= b` on key tuples. */
  predicate RanksAtLeast(a: RankKey, b: RankKey) {
    !Outranks(b, a)
  }

  /** Non-increasing by key. */
  ghost predicate SortedDesc<T>(s: seq<T>, key: T -> RankKey) {
    forall i, j :: 0 <= i < j < |s| ==> RanksAtLeast(key(s[i]), key(s[j]))
  }

  /** Inserts `x`, which came before every element of `s`, after the elements
      that strictly outrank it: this is what keeps the sort stable. */
  function Insert<T>(x: T, s: seq<T>, key: T -> RankKey): (r: seq<T>)
    ensures |r| == |s| + 1
    ensures multiset(r) == multiset(s) + multiset{x}
  {
    if |s| == 0 then [x]
    else if Outranks(key(s[0]), key(x)) then
      assert s == [s[0]] + s[1..];
      [s[0]] + Insert(x, s[1..], key)
    else [x] + s
  }

  /** `sorted(s, key=key, reverse=True)`. */
  function SortDesc<T>(s: seq<T>, key: T -> RankKey): (r: seq<T>)
    ensures |r| == |s|
    ensures multiset(r) == multiset(s)
  {
    if |s| == 0 then []
    else
      assert s == [s[0]] + s[1..];
      Insert(s[0], SortDesc(s[1..], key), key)
  }

  lemma {:induction false} InsertSorted<T>(x: T, s: seq<T>, key: T -> RankKey)
    requires SortedDesc(s, key)
    ensures SortedDesc(Insert(x, s, key), key)
  {
    if |s| > 0 {
      if Outranks(key(s[0]), key(x)) {
        TailSorted(s, key);
        InsertSorted(x, s[1..], key);
        HeadAboveInsert(x, s, key);
        ConsSorted(s[0], Insert(x, s[1..], key), key);
        assert Insert(x, s, key) == [s[0]] + Insert(x, s[1..], key);
      } else {
        forall j | 0 <= j < |s| ensures RanksAtLeast(key(x), key(s[j])) {
          assert RanksAtLeast(key(s[0]), key(s[j])) || j == 0;
        }
        ConsSorted(x, s, key);
        assert Insert(x, s, key) == [x] + s;
      }
    }
  }

  lemma TailSorted<T>(s: seq<T>, key: T -> RankKey)
    requires |s| > 0 && SortedDesc(s, key)
    ensures SortedDesc(s[1..], key)
  {
    forall i, j | 0 <= i < j < |s[1..]|
      ensures RanksAtLeast(key(s[1..][i]), key(s[1..][j]))
    {
      assert s[1..][i] == s[i + 1] && s[1..][j] == s[j + 1];
    }
  }

  /** The head of a sorted list that outranks `x` ranks at least as high as
      everything in the insertion of `x` into the tail. */
  lemma HeadAboveInsert<T>(x: T, s: seq<T>, key: T -> RankKey)
    requires |s| > 0 && SortedDesc(s, key) && Outranks(key(s[0]), key(x))
    ensures forall j :: 0 <= j < |Insert(x, s[1..], key)| ==> RanksAtLeast(key(s[0]), key(Insert(x, s[1..], key)[j]))
  {
    var t := Insert(x, s[1..], key);
    forall j | 0 <= j < |t| ensures RanksAtLeast(key(s[0]), key(t[j])) {
      assert t[j] in multiset(t);
      assert t[j] == x || t[j] in multiset(s[1..]);
      if t[j] != x {
        assert t[j] in s[1..];
        var m :| 0 <= m < |s[1..]| && s[1..][m] == t[j];
        assert s[1..][m] == s[m + 1];
      }
    }
  }

  /** A head that ranks at least as high as every element of a sorted list
      keeps it sorted. */
  lemma ConsSorted<T>(h: T, t: seq<T>, key: T -> RankKey)
    requires SortedDesc(t, key)
    requires forall j :: 0 <= j < |t| ==> RanksAtLeast(key(h), key(t[j]))
    ensures SortedDesc([h] + t, key)
  {
    var r := [h] + t;
    forall i, j | 0 <= i < j < |r| ensures RanksAtLeast(key(r[i]), key(r[j])) {
      if i == 0 {
        assert r[j] == t[j - 1];
      } else {
        assert r[i] == t[i - 1] && r[j] == t[j - 1];
      }
    }
  }

  lemma {:induction false} SortDescSorted<T>(s: seq<T>, key: T -> RankKey)
    ensures SortedDesc(SortDesc(s, key), key)
  {
    if |s| > 0 {
      SortDescSorted(s[1..], key);
      InsertSorted(s[0], SortDesc(s[1..], key), key);
    }
  }

  /** `p` selects elements of at most one key. */
  ghost predicate OneKey<T(!new)>(p: T -> bool, key: T -> RankKey) {
    forall a, b :: p(a) && p(b) ==> key(a) == key(b)
  }

  /** Inserting `x` leaves the elements of any one key in the order of `[x] + s`. */
  lemma {:induction false} InsertStable<T(!new)>(x: T, s: seq<T>, key: T -> RankKey, p: T -> bool)
    requires OneKey(p, key)
    ensures Filter(Insert(x, s, key), p) == Filter([x] + s, p)
  {
    if |s| > 0 && Outranks(key(s[0]), key(x)) {
      var h, s' := s[0], s[1..];
      assert s == [h] + s';
      assert Insert(x, s, key) == [h] + Insert(x, s', key);
      InsertStable(x, s', key, p);
      PassOutranking(x, h, Insert(x, s', key), s', key, p);
    } else if |s| > 0 {
      assert Insert(x, s, key) == [x] + s;
    }
  }

  /** Moving `x` past an element `h` that outranks it keeps the elements of
      any one key in order. */
  lemma PassOutranking<T(!new)>(x: T, h: T, i: seq<T>, s: seq<T>, key: T -> RankKey, p: T -> bool)
    requires OneKey(p, key) && Outranks(key(h), key(x))
    requires Filter(i, p) == Filter([x] + s, p)
    ensures Filter([h] + i, p) == Filter([x] + ([h] + s), p)
  {
    var fh, fx, ft := Filter([h], p), Filter([x], p), Filter(s, p);
    calc {
      Filter([h] + i, p);
      { FilterConcat([h], i, p); }
      fh + Filter(i, p);
      { FilterConcat([x], s, p); }
      fh + (fx + ft);
      { FiltersCommute(x, h, p, key); SwapPast(fh, fx, ft); }
      fx + (fh + ft);
      { FilterConcat([h], s, p); }
      fx + Filter([h] + s, p);
      { FilterConcat([x], [h] + s, p); }
      Filter([x] + ([h] + s), p);
    }
  }

  /** Two sequences of which one is empty can trade places in front of a third. */
  lemma SwapPast<T>(a: seq<T>, b: seq<T>, c: seq<T>)
    requires a == [] || b == []
    ensures a + (b + c) == b + (a + c)
  {
    if a == [] {
      assert a + (b + c) == b + c == b + (a + c);
    } else {
      assert a + (b + c) == a + c == b + (a + c);
    }
  }

  /** Of two singletons of different keys, at most one passes a filter of one key. */
  lemma FiltersCommute<T(!new)>(x: T, h: T, p: T -> bool, key: T -> RankKey)
    requires OneKey(p, key) && Outranks(key(h), key(x))
    ensures Filter([h], p) == [] || Filter([x], p) == []
  {
    assert !(p(x) && p(h));
    assert Filter([h], p) == if p(h) then [h] else [];
    assert Filter([x], p) == if p(x) then [x] else [];
  }

  /** The sort is stable: the elements of any one key (for instance all those
      whose key equals a given tuple) come out in their input order. */
  lemma {:induction false} SortDescStable<T(!new)>(s: seq<T>, key: T -> RankKey, p: T -> bool)
    requires OneKey(p, key)
    ensures Filter(SortDesc(s, key), p) == Filter(s, p)
  {
    if |s| > 0 {
      var h, s' := s[0], s[1..];
      assert s == [h] + s';
      var t := SortDesc(s', key);
      assert SortDesc(s, key) == Insert(h, t, key);
      SortDescStable(s', key, p);
      InsertStable(h, t, key, p);
      FilterConcat([h], t, p);
      FilterConcat([h], s', p);
    }
  }

  /** The first `k` of a sorted version of `xs`: in order, drawn from `xs`, and
      nothing left out outranks anything kept. */
  lemma TopOfRanking<T>(xs: seq<T>, key: T -> RankKey, k: int)
    ensures var r := SliceTo(SortDesc(xs, key), k);
      && SortedDesc(r, key)
      && multiset(r) <= multiset(xs)
      && (k >= 0 ==> |r| == if k < |xs| then k else |xs|)
      && (forall x, y :: x in xs && x !in r && y in r ==> RanksAtLeast(key(y), key(x)))
  {
    var s := SortDesc(xs, key);
    var r := SliceTo(s, k);
    SortDescSorted(xs, key);
    assert s == r + s[|r|..];
    assert multiset(s) == multiset(r) + multiset(s[|r|..]);
    SortedPrefixBest(s, |r|, key);
    forall x | x in xs ensures x in s {
      assert x in multiset(s);
    }
  }

  /** In a sorted list, the first `n` rank at least as high as anything after. */
  lemma SortedPrefixBest<T>(s: seq<T>, n: nat, key: T -> RankKey)
    requires n <= |s| && SortedDesc(s, key)
    ensures forall x, y :: x in s && x !in s[..n] && y in s[..n] ==> RanksAtLeast(key(y), key(x))
  {
    var r := s[..n];
    forall x, y | x in s && x !in r && y in r ensures RanksAtLeast(key(y), key(x)) {
      var a :| 0 <= a < |s| && s[a] == x;
      var b :| 0 <= b < |r| && r[b] == y;
      assert forall i :: 0 <= i < n ==> r[i] in r;
      assert a >= n;
      assert s[b] == y;
    }
  }
}
