/** Python's slice semantics on lists and strings, including negative bounds. */
module PySeq {
  /** The position a slice bound `i` denotes in a sequence of length `n`. */
  function SliceBound(i: int, n: nat): (b: nat)
    ensures b <= n
    ensures 0 <= i <= n ==> b == i
    ensures -(n as int) <= i < 0 ==> b == n + i
    ensures i < -(n as int) ==> b == 0
    ensures i > n ==> b == n
  {
    if i < 0 then (if i + n < 0 then 0 else i + n) else if i > n then n else i
  }

  /** `s[:k]`. */
  function SliceTo<T>(s: seq<T>, k: int): (r: seq<T>)
    ensures |r| <= |s| && r == s[..|r|]
    ensures k >= 0 ==> |r| == if k < |s| then k else |s|
    ensures k < 0 ==> |r| == if |s| + k < 0 then 0 else |s| + k
  {
    s[..SliceBound(k, |s|)]
  }

  /** `s[-n:]`, Python's idiom for "the last n": with n == 0 it is the whole
      sequence (`-0 == 0`), and a negative n drops the first -n elements. */
  function LastN<T>(s: seq<T>, n: int): (r: seq<T>)
    ensures |r| <= |s| && r == s[|s| - |r|..]
    ensures n > 0 ==> |r| == if n < |s| then n else |s|
    ensures n == 0 ==> r == s
    ensures n < 0 ==> |r| == if -n < |s| then |s| + n else 0
  {
    s[SliceBound(-n, |s|)..]
  }

  /** `[x for x in s if p(x)]`. */
  function Filter<T(!new)>(s: seq<T>, p: T -> bool): (r: seq<T>)
    ensures |r| <= |s|
    ensures forall x :: x in r <==> x in s && p(x)
    ensures multiset(r) <= multiset(s)
  {
    if |s| == 0 then []
    else
      var rest := Filter(s[..|s| - 1], p);
      assert s == s[..|s| - 1] + [s[|s| - 1]];
      if p(s[|s| - 1]) then rest + [s[|s| - 1]] else rest
  }

  /** Filtering a concatenation filters each part. */
  lemma {:induction false} FilterConcat<T(!new)>(a: seq<T>, b: seq<T>, p: T -> bool)
    ensures Filter(a + b, p) == Filter(a, p) + Filter(b, p)
  {
    if |b| == 0 {
      assert a + b == a;
    } else {
      var b' := b[..|b| - 1];
      assert (a + b)[..|a + b| - 1] == a + b';
      assert (a + b)[|a + b| - 1] == b[|b| - 1];
      FilterConcat(a, b', p);
    }
  }

  /** `Filter` keeps every passing element as often as it occurs, and no
      other. */
  lemma {:induction false} FilterCounts<T(!new)>(s: seq<T>, p: T -> bool)
    ensures forall x :: multiset(Filter(s, p))[x] == if p(x) then multiset(s)[x] else 0
  {
    if |s| > 0 {
      var pre := s[..|s| - 1];
      var last := s[|s| - 1];
      FilterCounts(pre, p);
      assert s == pre + [last];
      assert multiset(s) == multiset(pre) + multiset{last};
      if p(last) {
        assert Filter(s, p) == Filter(pre, p) + [last];
      } else {
        assert Filter(s, p) == Filter(pre, p);
      }
    }
  }

  /** The positions `Filter` keeps, in increasing order: exactly those
      whose element passes. */
  function Kept<T>(s: seq<T>, p: T -> bool): (idx: seq<nat>)
    ensures forall i :: 0 <= i < |idx| ==> idx[i] < |s|
    ensures forall i, j :: 0 <= i < j < |idx| ==> idx[i] < idx[j]
    ensures forall j :: 0 <= j < |s| ==> (p(s[j]) <==> j in idx)
  {
    if |s| == 0 then []
    else
      var n := |s| - 1;
      var rest := Kept(s[..n], p);
      assert forall j :: 0 <= j < n ==> s[..n][j] == s[j];
      if p(s[n]) then rest + [n] else rest
  }

  /** `Filter` reads the elements at the kept positions, in order. */
  lemma {:induction false} FilterKeepsOrder<T(!new)>(s: seq<T>, p: T -> bool)
    ensures var idx := Kept(s, p);
      && |idx| == |Filter(s, p)|
      && forall i :: 0 <= i < |idx| ==> Filter(s, p)[i] == s[idx[i]]
  {
    if |s| > 0 {
      var n := |s| - 1;
      FilterKeepsOrder(s[..n], p);
      var pre := s[..n];
      var rest := Kept(pre, p);
      var fs := Filter(pre, p);
      if p(s[n]) {
        assert Filter(s, p) == fs + [s[n]];
        assert Kept(s, p) == rest + [n];
        forall i | 0 <= i < |rest| ensures Filter(s, p)[i] == s[Kept(s, p)[i]] {
          assert fs[i] == pre[rest[i]];
        }
      } else {
        assert Filter(s, p) == fs;
        assert Kept(s, p) == rest;
        forall i | 0 <= i < |rest| ensures Filter(s, p)[i] == s[Kept(s, p)[i]] {
          assert fs[i] == pre[rest[i]];
        }
      }
    }
  }
}
