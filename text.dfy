/**
 * The string operations the core relies on: `lower()`, `isupper()`, `strip()`,
 * `split()` and the `in` substring test. Case is modelled for the two scripts
 * the program talks in, ASCII Latin and basic Cyrillic (U+0400 to U+045F);
 * every other character is caseless here.
 */
module Text {
  predicate IsUpperChar(c: char) {
    ('A' <= c <= 'Z') || ('\U{0400}' <= c <= '\U{042F}')
  }

  predicate IsLowerChar(c: char) {
    ('a' <= c <= 'z') || ('\U{0430}' <= c <= '\U{045F}')
  }

  predicate IsAsciiLetter(c: char) {
    ('A' <= c <= 'Z') || ('a' <= c <= 'z')
  }

  /** `str.isspace()` on one character. */
  predicate IsSpace(c: char) {
    c == ' ' || ('\t' <= c <= '\r') || ('\U{001C}' <= c <= '\U{001F}')
    || c == '\U{0085}' || c == '\U{00A0}' || c == '\U{1680}'
    || ('\U{2000}' <= c <= '\U{200A}') || c == '\U{2028}' || c == '\U{2029}'
    || c == '\U{202F}' || c == '\U{205F}' || c == '\U{3000}'
  }

  /** `lower()` on one character. */
  function Lower(c: char): (d: char)
    ensures !IsUpperChar(d)
    ensures IsUpperChar(c) ==> IsLowerChar(d)
    ensures !IsUpperChar(c) ==> d == c
  {
    if 'A' <= c <= 'Z' then (c as int + 32) as char
    else if '\U{0410}' <= c <= '\U{042F}' then (c as int + 32) as char
    else if '\U{0400}' <= c <= '\U{040F}' then (c as int + 80) as char
    else c
  }

  /** `s.lower()`. */
  function LowerStr(s: string): (r: string)
    ensures |r| == |s|
    ensures forall i :: 0 <= i < |s| ==> r[i] == Lower(s[i])
  {
    seq(|s|, i requires 0 <= i < |s| => Lower(s[i]))
  }

  /** `s.isupper()`: at least one cased character and none of them lower case. */
  predicate IsUpperStr(s: string) {
    (exists i :: 0 <= i < |s| && IsUpperChar(s[i]))
    && (forall i :: 0 <= i < |s| ==> !IsLowerChar(s[i]))
  }

  /** A lower-cased string is never upper case. */
  lemma LoweredIsNeverUpper(s: string)
    ensures !IsUpperStr(LowerStr(s))
  {
  }

  /** `p` occurs in `s` at position `i`. */
  predicate OccursAt(s: string, p: string, i: int) {
    0 <= i && i + |p| <= |s| && s[i..i + |p|] == p
  }

  /** `p in s`; the empty string occurs in every string. */
  predicate Contains(s: string, p: string)
    ensures Contains(s, p) <==> exists i :: OccursAt(s, p, i)
    decreases |s|
  {
    if |p| > |s| then false
    else if s[..|p|] == p then assert OccursAt(s, p, 0); true
    else
      assert !OccursAt(s, p, 0);
      assert forall i :: OccursAt(s[1..], p, i) ==> OccursAt(s, p, i + 1);
      assert forall i :: OccursAt(s, p, i) ==> OccursAt(s[1..], p, i - 1);
      Contains(s[1..], p)
  }

  /** Number of leading whitespace characters. */
  function LeadingSpaces(s: string): (n: nat)
    ensures n <= |s|
    ensures forall i :: 0 <= i < n ==> IsSpace(s[i])
    ensures n < |s| ==> !IsSpace(s[n])
  {
    if s == [] || !IsSpace(s[0]) then 0 else 1 + LeadingSpaces(s[1..])
  }

  /** Number of trailing whitespace characters. */
  function TrailingSpaces(s: string): (n: nat)
    ensures n <= |s|
    ensures forall i :: |s| - n <= i < |s| ==> IsSpace(s[i])
    ensures n < |s| ==> !IsSpace(s[|s| - 1 - n])
  {
    if s == [] || !IsSpace(s[|s| - 1]) then 0 else 1 + TrailingSpaces(s[..|s| - 1])
  }

  /** `s.strip()`. */
  function Strip(s: string): (r: string)
    ensures r == "" <==> forall i :: 0 <= i < |s| ==> IsSpace(s[i])
    ensures r != "" ==> !IsSpace(r[0]) && !IsSpace(r[|r| - 1])
    ensures LeadingSpaces(s) + |r| <= |s| && r == s[LeadingSpaces(s)..LeadingSpaces(s) + |r|]
    ensures forall k :: 0 <= k < |s| && !IsSpace(s[k]) ==> LeadingSpaces(s) <= k < LeadingSpaces(s) + |r|
  {
    var a := LeadingSpaces(s);
    var t := s[a..];
    var e := |t| - TrailingSpaces(t);
    StripOutside(s, a, t, e);
    t[..e]
  }

  /** Every non-blank character lies between the leading and the trailing
      blanks. */
  lemma StripOutside(s: string, a: nat, t: string, e: nat)
    requires a == LeadingSpaces(s) && t == s[a..] && e == |t| - TrailingSpaces(t)
    ensures forall k :: 0 <= k < |s| && !IsSpace(s[k]) ==> a <= k < a + e
  {
    forall k | 0 <= k < |s| && !IsSpace(s[k]) ensures a <= k < a + e {
      if k >= a {
        assert s[k] == t[k - a];
      }
    }
  }

  /** Length of the leading run of non-whitespace characters. */
  function WordLength(s: string): (n: nat)
    ensures n <= |s|
    ensures forall i :: 0 <= i < n ==> !IsSpace(s[i])
    ensures n < |s| ==> IsSpace(s[n])
  {
    if s == [] || IsSpace(s[0]) then 0 else 1 + WordLength(s[1..])
  }

  /** `s.split()`: the maximal runs of non-whitespace characters, in order. */
  function Words(s: string): (ws: seq<string>)
    ensures forall w :: w in ws ==> w != "" && forall i :: 0 <= i < |w| ==> !IsSpace(w[i])
    decreases |s|
  {
    var a := LeadingSpaces(s);
    if a == |s| then []
    else
      var t := s[a..];
      var n := WordLength(t);
      [t[..n]] + Words(t[n..])
  }

  /** `s[i..j]` is a maximal run of non-whitespace characters of `s`. */
  predicate RunAt(s: string, i: int, j: int) {
    && 0 <= i < j <= |s|
    && (i == 0 || IsSpace(s[i - 1]))
    && (j == |s| || IsSpace(s[j]))
    && forall k :: i <= k < j ==> !IsSpace(s[k])
  }

  /** A run that does not start a suffix is a run of the whole string,
      shifted. */
  lemma RunAtSuffix(s: string, b: nat, i: int, j: int)
    requires b <= |s| && 0 < i
    ensures RunAt(s[b..], i, j) <==> RunAt(s, b + i, b + j)
    ensures RunAt(s[b..], i, j) ==> s[b..][i..j] == s[b + i..b + j]
  {
    var r := s[b..];
    if RunAt(r, i, j) {
      assert forall k :: b + i <= k < b + j ==> s[k] == r[k - b];
      assert s[b + i - 1] == r[i - 1];
      if j < |r| {
        assert s[b + j] == r[j];
      }
    }
    if RunAt(s, b + i, b + j) {
      assert forall k :: i <= k < j ==> r[k] == s[k + b];
      assert r[i - 1] == s[b + i - 1];
      if j < |r| {
        assert r[j] == s[b + j];
      }
    }
  }

  /** The same, read from the whole string's positions. */
  lemma RunInSuffix(s: string, b: nat, i: int, j: int)
    requires b < i && RunAt(s, i, j)
    ensures RunAt(s[b..], i - b, j - b) && s[b..][i - b..j - b] == s[i..j]
  {
    RunAtSuffix(s, b, i - b, j - b);
  }

  /** After the leading blanks comes the first run. */
  lemma FirstRun(s: string, a: nat, n: nat)
    requires a == LeadingSpaces(s) < |s| && n == WordLength(s[a..])
    ensures 0 < n && RunAt(s, a, a + n)
    ensures forall k :: a <= k < a + n ==> !IsSpace(s[k])
  {
    var t := s[a..];
    assert t[0] == s[a];
    forall k | a <= k < a + n ensures !IsSpace(s[k]) {
      assert s[k] == t[k - a];
    }
    if a + n < |s| {
      assert s[a + n] == t[n];
    }
  }

  /** Every other run starts after the first one ends. */
  lemma RunAfterFirst(s: string, a: nat, n: nat, i: int, j: int)
    requires a == LeadingSpaces(s) < |s| && n == WordLength(s[a..])
    requires RunAt(s, i, j)
    ensures (i == a && j == a + n) || i > a + n
  {
    FirstRun(s, a, n);
    assert !IsSpace(s[i]);
    if i > 0 {
      assert IsSpace(s[i - 1]);
    }
    if j < |s| {
      assert IsSpace(s[j]);
    }
    if a + n < |s| {
      assert IsSpace(s[a + n]);
    }
  }

  /** Every word is a maximal run of non-whitespace characters. */
  lemma {:induction false} WordsAreRuns(s: string)
    ensures forall w :: w in Words(s) ==> exists i, j :: RunAt(s, i, j) && s[i..j] == w
    decreases |s|
  {
    var a := LeadingSpaces(s);
    if a < |s| {
      var n := WordLength(s[a..]);
      FirstRun(s, a, n);
      var b := a + n;
      assert Words(s) == [s[a..b]] + Words(s[b..]) by {
        assert s[a..b] == s[a..][..n] && s[b..] == s[a..][n..];
      }
      WordsAreRuns(s[b..]);
      RunsOfSuffix(s, b);
      forall w | w in Words(s) ensures exists i, j :: RunAt(s, i, j) && s[i..j] == w {
        if w != s[a..b] {
          assert w in Words(s[b..]);
        }
      }
    }
  }

  /** The runs of a suffix that starts on a blank are runs of the whole. */
  lemma RunsOfSuffix(s: string, b: nat)
    requires b <= |s| && (b < |s| ==> IsSpace(s[b]))
    requires forall w :: w in Words(s[b..]) ==> exists i, j :: RunAt(s[b..], i, j) && s[b..][i..j] == w
    ensures forall w :: w in Words(s[b..]) ==> exists i, j :: RunAt(s, i, j) && s[i..j] == w
  {
    var rest := s[b..];
    if b < |s| {
      assert rest[0] == s[b];
    }
    forall w | w in Words(rest) ensures exists i, j :: RunAt(s, i, j) && s[i..j] == w {
      var i', j' :| RunAt(rest, i', j') && rest[i'..j'] == w;
      RunAtSuffix(s, b, i', j');
    }
  }

  /** Every maximal run of non-whitespace characters is a word. */
  lemma {:induction false} RunsAreWords(s: string)
    ensures forall i, j :: RunAt(s, i, j) ==> s[i..j] in Words(s)
    decreases |s|
  {
    var a := LeadingSpaces(s);
    if a == |s| {
      forall i, j | 0 <= i < j <= |s| ensures !RunAt(s, i, j) {
        assert IsSpace(s[i]);
      }
    } else {
      var n := WordLength(s[a..]);
      FirstRun(s, a, n);
      var b := a + n;
      var rest := s[b..];
      assert s[a..b] == s[a..][..n] && rest == s[a..][n..];
      RunsAreWords(rest);
      assert Words(s) == [s[a..b]] + Words(rest);
      forall i, j | RunAt(s, i, j) && i != a ensures s[i..j] in Words(rest) {
        RunAfterFirst(s, a, n, i, j);
        RunInSuffix(s, b, i, j);
      }
      forall j | RunAt(s, a, j) ensures j == b {
        RunAfterFirst(s, a, n, a, j);
      }
    }
  }

  /** `set(s.split())`. */
  function WordSet(s: string): set<string> {
    set w | w in Words(s)
  }
}
