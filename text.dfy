/**
 * String primitives the source gets from Python's `str` type: substring
 * search (`in`, `str.split(sep, 1)`), `str.isspace`, `str.strip`, and the
 * code-point ordering that `sorted` applies to strings.
 */
module Text {
  import opened Wrappers

  /** `t` occurs in `s` starting at index `i`. */
  predicate OccursAt(s: string, t: string, i: nat) {
    i + |t| <= |s| && s[i..i + |t|] == t
  }

  /** Leftmost occurrence of `t` in `s` at an index no smaller than `from`. */
  function FindFrom(s: string, t: string, from: nat): (r: Option<nat>)
    ensures r.Some? ==> from <= r.value && OccursAt(s, t, r.value)
    ensures r.Some? ==> forall j: nat :: from <= j < r.value ==> !OccursAt(s, t, j)
    ensures r.None? ==> forall j: nat :: from <= j ==> !OccursAt(s, t, j)
    decreases |s| - from
  {
    if from + |t| > |s| then None
    else if s[from..from + |t|] == t then Some(from)
    else FindFrom(s, t, from + 1)
  }

  /** Leftmost occurrence of `t` in `s` (Python's `s.find(t)`, with `None` for -1). */
  function Find(s: string, t: string): (r: Option<nat>)
    ensures r.Some? ==> OccursAt(s, t, r.value)
    ensures r.Some? ==> forall j: nat :: j < r.value ==> !OccursAt(s, t, j)
    ensures r.None? <==> forall j: nat :: !OccursAt(s, t, j)
  {
    FindFrom(s, t, 0)
  }

  /** `t` occurs at `k` and nowhere to the left of `k`: where `s.split(t, 1)` cuts. */
  ghost predicate FirstOccurrence(s: string, t: string, k: nat) {
    OccursAt(s, t, k) && forall j: nat :: j < k ==> !OccursAt(s, t, j)
  }

  /** `Find` returns the first occurrence, whichever way it is described. */
  lemma FindIsFirst(s: string, t: string)
    ensures forall k: nat :: FirstOccurrence(s, t, k) ==> Find(s, t) == Some(k)
  {
    forall k: nat | FirstOccurrence(s, t, k) ensures Find(s, t) == Some(k) {
      var r := Find(s, t);
      assert r.Some?;
    }
  }

  /** Python's `t in s`. */
  predicate Contains(s: string, t: string)
    ensures Contains(s, t) <==> exists j: nat :: OccursAt(s, t, j)
  {
    Find(s, t).Some?
  }

  /** Python's `str.isspace` on one character: the Unicode whitespace set. */
  predicate IsSpace(c: char) {
    || c == ' ' || c == '\t' || c == '\n' || c == '\r'
    || c == '\U{000B}' || c == '\U{000C}'
    || ('\U{001C}' <= c <= '\U{001F}')
    || c == '\U{0085}' || c == '\U{00A0}' || c == '\U{1680}'
    || ('\U{2000}' <= c <= '\U{200A}')
    || c == '\U{2028}' || c == '\U{2029}' || c == '\U{202F}' || c == '\U{205F}' || c == '\U{3000}'
  }

  /** `r` is the slice of `s` that starts at index `i`. */
  predicate SliceAt(r: string, s: string, i: nat) {
    i + |r| <= |s| && r == s[i..i + |r|]
  }

  /**
   * Python's `str.strip()`: leading and trailing whitespace removed. The
   * result is a contiguous slice of `s` that neither starts nor ends with
   * whitespace.
   */
  function Strip(s: string): (r: string)
    ensures exists i: nat :: SliceAt(r, s, i)
    ensures r != [] ==> !IsSpace(r[0]) && !IsSpace(r[|r| - 1])
    decreases |s|
  {
    if s != [] && IsSpace(s[0]) then
      var r := Strip(s[1..]);
      var i: nat :| SliceAt(r, s[1..], i);
      SliceOfTail(r, s, i);
      r
    else if s != [] && IsSpace(s[|s| - 1]) then
      var r := Strip(s[..|s| - 1]);
      var i: nat :| SliceAt(r, s[..|s| - 1], i);
      SliceOfFront(r, s, i);
      r
    else
      assert SliceAt(s, s, 0);
      s
  }

  lemma SliceOfTail(r: string, s: string, i: nat)
    requires s != [] && SliceAt(r, s[1..], i)
    ensures SliceAt(r, s, i + 1)
  {
    assert s[1..][i..i + |r|] == s[i + 1..i + 1 + |r|];
  }

  lemma SliceOfFront(r: string, s: string, i: nat)
    requires s != [] && SliceAt(r, s[..|s| - 1], i)
    ensures SliceAt(r, s, i)
  {
    assert s[..|s| - 1][i..i + |r|] == s[i..i + |r|];
  }

  /** Code-point lexicographic order on strings, the order of Python's `sorted`. */
  predicate LessEq(a: string, b: string) {
    a == [] || (b != [] && (a[0] < b[0] || (a[0] == b[0] && LessEq(a[1..], b[1..]))))
  }

  lemma {:induction false} LessEqTotal(a: string, b: string)
    ensures LessEq(a, b) || LessEq(b, a)
  {
    if a != [] && b != [] && a[0] == b[0] {
      LessEqTotal(a[1..], b[1..]);
    }
  }

  lemma {:induction false} LessEqTransitive(a: string, b: string, c: string)
    requires LessEq(a, b) && LessEq(b, c)
    ensures LessEq(a, c)
  {
    if a != [] && a[0] == b[0] && b[0] == c[0] {
      LessEqTransitive(a[1..], b[1..], c[1..]);
    }
  }

  lemma {:induction false} LessEqAntisymmetric(a: string, b: string)
    requires LessEq(a, b) && LessEq(b, a)
    ensures a == b
  {
    if a != [] {
      LessEqAntisymmetric(a[1..], b[1..]);
    }
  }

  predicate Sorted(s: seq<string>) {
    forall i, j {:trigger LessEq(s[i], s[j])} :: 0 <= i < j < |s| ==> LessEq(s[i], s[j])
  }

  /** Inserts `x` into the sorted `s` after the elements that precede it. */
  function Insert(x: string, s: seq<string>): (r: seq<string>)
    requires Sorted(s)
    ensures Sorted(r)
    ensures multiset(r) == multiset(s) + multiset{x}
  {
    if s == [] then [x]
    else if LessEq(x, s[0]) then
      assert forall j :: 0 <= j < |s| ==> LessEq(x, s[j]) by {
        forall j | 0 <= j < |s| ensures LessEq(x, s[j]) {
          if j > 0 { LessEqTransitive(x, s[0], s[j]); }
        }
      }
      [x] + s
    else
      var rest := Insert(x, s[1..]);
      LessEqTotal(x, s[0]);
      assert s == [s[0]] + s[1..];
      assert forall k :: 0 <= k < |rest| ==> LessEq(s[0], rest[k]) by {
        forall k | 0 <= k < |rest| ensures LessEq(s[0], rest[k]) {
          assert rest[k] in multiset(rest);
          if rest[k] != x {
            assert rest[k] in multiset(s[1..]);
            var j :| 0 <= j < |s[1..]| && s[1..][j] == rest[k];
            assert s[j + 1] == rest[k];
          }
        }
      }
      [s[0]] + rest
  }

  /** Python's `sorted` on a list of strings: a sorted permutation of `s`. */
  function Sort(s: seq<string>): (r: seq<string>)
    ensures Sorted(r)
    ensures multiset(r) == multiset(s)
  {
    if s == [] then []
    else
      assert s == [s[0]] + s[1..];
      Insert(s[0], Sort(s[1..]))
  }
}
