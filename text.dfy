/**
 * The JavaScript string operations the front end relies on, over `seq<char>`:
 * `indexOf`/`includes`, `startsWith`, `split(m)[1]`, `replace` with a string
 * pattern (first occurrence only), `trim`, `Array.prototype.join` and
 * `toLowerCase` (ASCII letters only).
 */
module Text {
  import opened Wrappers

  /** `t` occurs in `s` starting at index `i`. */
  predicate IsAt(s: string, t: string, i: nat) {
    i + |t| <= |s| && s[i..i + |t|] == t
  }

  /** The first occurrence of `t` in `s` at or after `from` (`s.indexOf(t, from)`). */
  function IndexFrom(s: string, t: string, from: nat): (r: Option<nat>)
    decreases |s| - from
    ensures r.Some? ==> from <= r.value && IsAt(s, t, r.value)
    ensures r.Some? ==> forall i: nat :: from <= i < r.value ==> !IsAt(s, t, i)
    ensures r.None? ==> forall i: nat :: from <= i ==> !IsAt(s, t, i)
  {
    if from + |t| > |s| then None
    else if s[from..from + |t|] == t then Some(from)
    else IndexFrom(s, t, from + 1)
  }

  /** `s.indexOf(t)`, with `None` for -1. */
  function IndexOf(s: string, t: string): (r: Option<nat>)
    ensures r.Some? ==> IsAt(s, t, r.value) && forall i: nat :: i < r.value ==> !IsAt(s, t, i)
    ensures r.None? ==> forall i: nat :: !IsAt(s, t, i)
  {
    IndexFrom(s, t, 0)
  }

  /** `s.includes(t)`. */
  predicate Contains(s: string, t: string)
    ensures Contains(s, t) <==> exists i: nat :: IsAt(s, t, i)
  {
    IndexOf(s, t).Some?
  }

  /** `s.startsWith(p)`. */
  predicate StartsWith(s: string, p: string) {
    |p| <= |s| && s[..|p|] == p
  }

  /** `s.startsWith(p)` holds exactly when `s.indexOf(p)` is 0. */
  lemma StartsWithIsIndexZero(s: string, p: string)
    ensures StartsWith(s, p) <==> IndexOf(s, p) == Some(0)
  {
  }

  /** `s.endsWith(x)`. */
  predicate EndsWith(s: string, x: string) {
    |x| <= |s| && s[|s| - |x|..] == x
  }

  lemma AtMeansContains(s: string, t: string, i: nat)
    requires IsAt(s, t, i)
    ensures Contains(s, t)
  {
  }

  lemma {:induction false} AtInSuffix(a: string, b: string, t: string, i: nat)
    requires IsAt(b, t, i)
    ensures IsAt(a + b, t, |a| + i)
  {
    assert (a + b)[|a| + i..|a| + i + |t|] == b[i..i + |t|];
  }

  lemma {:induction false} AtInPrefix(a: string, b: string, t: string, i: nat)
    requires IsAt(a, t, i)
    ensures IsAt(a + b, t, i)
  {
    assert (a + b)[i..i + |t|] == a[i..i + |t|];
  }

  lemma ContainsInSuffix(a: string, b: string, t: string)
    requires Contains(b, t)
    ensures Contains(a + b, t)
  {
    AtInSuffix(a, b, t, IndexOf(b, t).value);
  }

  lemma ContainsInPrefix(a: string, b: string, t: string)
    requires Contains(a, t)
    ensures Contains(a + b, t)
  {
    AtInPrefix(a, b, t, IndexOf(a, t).value);
  }

  /** Containment is transitive. */
  lemma {:induction false} ContainsTrans(s: string, t: string, u: string)
    requires Contains(s, t) && Contains(t, u)
    ensures Contains(s, u)
  {
    var i := IndexOf(s, t).value;
    var j := IndexOf(t, u).value;
    assert s[i..i + |t|] == t;
    assert t[j..j + |u|] == u;
    assert s[i + j..i + j + |u|] == u by {
      forall k | 0 <= k < |u| ensures s[i + j..i + j + |u|][k] == u[k] {
        assert s[i..i + |t|][j + k] == s[i + j + k];
        assert t[j..j + |u|][k] == t[j + k];
      }
    }
    AtMeansContains(s, u, i + j);
  }

  lemma StartsWithConcat(a: string, b: string)
    ensures StartsWith(a + b, a)
  {
    assert (a + b)[..|a|] == a;
  }

  lemma EndsWithConcat(a: string, b: string)
    ensures EndsWith(a + b, b)
  {
    assert (a + b)[|a|..] == b;
  }

  lemma StartsWithExtend(a: string, b: string, p: string)
    requires StartsWith(a, p)
    ensures StartsWith(a + b, p)
  {
    assert (a + b)[..|p|] == a[..|p|];
  }

  lemma EndsWithExtend(a: string, b: string, x: string)
    requires EndsWith(b, x)
    ensures EndsWith(a + b, x)
  {
    assert (a + b)[|a + b| - |x|..] == b[|b| - |x|..];
  }

  /** A text that starts with `s` contains whatever `s` ends with. */
  lemma {:induction false} PrefixKeepsEnding(x: string, s: string, m: string, e: string)
    requires StartsWith(x, s) && EndsWith(s, m + e)
    ensures Contains(x, m)
  {
    var i := |s| - |m + e|;
    assert s[i..] == m + e;
    assert s[i..i + |m|] == (m + e)[..|m|] == m;
    assert x[i..i + |m|] == x[..|s|][i..i + |m|];
    AtMeansContains(x, m, i);
  }

  /** A string glued between two others is found in the result. */
  lemma {:induction false} ContainsInfix(a: string, t: string, b: string)
    ensures IsAt(a + t + b, t, |a|)
    ensures Contains(a + t + b, t)
  {
    assert (a + t + b)[|a|..|a| + |t|] == t;
    AtMeansContains(a + t + b, t, |a|);
  }

  /**
   * When the first character of `m` occurs nowhere else in `m`, no occurrence
   * of `m` can overlap the start of a copy of `m`: so in `a + m + b`, with no
   * `m` inside `a`, the first occurrence is the one right after `a`.
   */
  lemma {:induction false} FirstOccurrenceAfter(a: string, m: string, b: string)
    requires |m| > 0 && forall k :: 1 <= k < |m| ==> m[k] != m[0]
    requires !Contains(a, m)
    ensures IndexOf(a + m + b, m) == Some(|a|)
  {
    var s := a + m + b;
    ContainsInfix(a, m, b);
    forall i: nat | i < |a|
      ensures !IsAt(s, m, i)
    {
      if i + |m| <= |a| {
        assert s[i..i + |m|] == a[i..i + |m|];
        assert !IsAt(a, m, i);
      } else if i + |m| <= |s| {
        var k := |a| - i;
        assert s[i..i + |m|][k] == s[|a|] == m[0] != m[k];
      }
    }
  }

  /**
   * `m` does not occur in `a + b` when it does not occur in `a`, `b` is
   * shorter than `m`, and the first character of `b` is not in `m`.
   */
  lemma {:induction false} NoOccurrenceAcross(a: string, b: string, m: string)
    requires |m| > 0 && |b| < |m| && |b| > 0
    requires forall k :: 0 <= k < |m| ==> m[k] != b[0]
    requires !Contains(a, m)
    ensures !Contains(a + b, m)
  {
    var s := a + b;
    forall i: nat
      ensures !IsAt(s, m, i)
    {
      if i + |m| <= |a| {
        assert s[i..i + |m|] == a[i..i + |m|];
        assert !IsAt(a, m, i);
      } else if i < |a| && i + |m| <= |s| {
        var k := |a| - i;
        assert s[i..i + |m|][k] == s[|a|] == b[0] != m[k];
      }
    }
  }

  /** `m` does not occur in `a + b` when it does not occur in `b` and no character of `a` starts it. */
  lemma {:induction false} NoOccurrenceBefore(a: string, b: string, m: string)
    requires |m| > 0 && forall k :: 0 <= k < |a| ==> a[k] != m[0]
    requires !Contains(b, m)
    ensures !Contains(a + b, m)
  {
    var s := a + b;
    forall i: nat
      ensures !IsAt(s, m, i)
    {
      if i < |a| && i + |m| <= |s| {
        assert s[i..i + |m|][0] == a[i];
      } else if |a| <= i && i + |m| <= |s| {
        assert s[i..i + |m|] == b[i - |a|..i - |a| + |m|];
        assert !IsAt(b, m, i - |a|);
      }
    }
  }

  /** A text cut before the first occurrence of `m` does not contain `m`. */
  lemma {:induction false} CutBeforeFirst(s: string, m: string, j: nat)
    requires |m| > 0 && j <= |s| && forall i: nat :: i < j ==> !IsAt(s, m, i)
    ensures !Contains(s[..j], m)
  {
    forall i: nat | IsAt(s[..j], m, i)
      ensures false
    {
      assert i + |m| <= j;
      assert s[..j][i..i + |m|] == s[i..i + |m|];
      assert IsAt(s, m, i);
    }
  }

  /**
   * `s.split(m)[1]`: the text that follows the first `m`, up to the next `m`
   * or the end, and holding no `m` itself.
   */
  function SecondPiece(s: string, m: string): (r: string)
    requires |m| > 0 && Contains(s, m)
    ensures var i := IndexOf(s, m).value;
      i + |m| + |r| <= |s| && r == s[i + |m|..i + |m| + |r|]
      && (i + |m| + |r| == |s| || IsAt(s, m, i + |m| + |r|))
      && forall k: nat :: i + |m| <= k < i + |m| + |r| ==> !IsAt(s, m, k)
    ensures !Contains(r, m)
  {
    var i := IndexOf(s, m).value;
    var rest := s[i + |m|..];
    forall k: nat | i + |m| <= k && IsAt(s, m, k)
      ensures IsAt(rest, m, k - i - |m|)
    {
      assert rest[k - i - |m|..k - i - |m| + |m|] == s[k..k + |m|];
    }
    match IndexOf(rest, m)
    case Some(j) =>
      CutBeforeFirst(rest, m, j);
      assert s[i + |m| + j..i + |m| + j + |m|] == rest[j..j + |m|];
      rest[..j]
    case None =>
      assert rest[..|rest|] == rest;
      CutBeforeFirst(rest, m, |rest|);
      rest
  }

  /** `s.replace(t, u)` with a string pattern: only the first occurrence is replaced. */
  function ReplaceFirst(s: string, t: string, u: string): (r: string)
    ensures !Contains(s, t) ==> r == s
    ensures Contains(s, t) ==> var i := IndexOf(s, t).value;
      IsAt(s, t, i) && (forall k: nat :: k < i ==> !IsAt(s, t, k)) && r == s[..i] + u + s[i + |t|..]
    ensures Contains(s, t) ==> |r| == |s| - |t| + |u|
  {
    match IndexOf(s, t)
    case None => s
    case Some(i) => s[..i] + u + s[i + |t|..]
  }

  /** The characters JavaScript's `String.prototype.trim` removes: WhiteSpace and LineTerminator. */
  predicate IsSpace(c: char) {
    c == '\t' || c == '\n' || c == '\U{B}' || c == '\U{C}' || c == '\r' || c == ' '
    || c == '\U{A0}' || c == '\U{1680}' || ('\U{2000}' <= c <= '\U{200A}')
    || c == '\U{2028}' || c == '\U{2029}' || c == '\U{202F}' || c == '\U{205F}'
    || c == '\U{3000}' || c == '\U{FEFF}'
  }

  predicate AllSpace(s: string) {
    forall i :: 0 <= i < |s| ==> IsSpace(s[i])
  }

  /** `s.trimStart()`: the longest suffix of `s` that does not start with a space. */
  function TrimStart(s: string): (r: string)
    ensures |r| <= |s| && r == s[|s| - |r|..]
    ensures AllSpace(s[..|s| - |r|])
    ensures r != [] ==> !IsSpace(r[0])
  {
    if s != [] && IsSpace(s[0]) then
      var r := TrimStart(s[1..]);
      assert s[..|s| - |r|] == [s[0]] + s[1..][..|s| - 1 - |r|];
      r
    else s
  }

  /** `s.trimEnd()`: the longest prefix of `s` that does not end with a space. */
  function TrimEnd(s: string): (r: string)
    ensures |r| <= |s| && r == s[..|r|]
    ensures AllSpace(s[|r|..])
    ensures r != [] ==> !IsSpace(r[|r| - 1])
  {
    if s != [] && IsSpace(s[|s| - 1]) then
      var r := TrimEnd(s[..|s| - 1]);
      assert s[|r|..] == s[..|s| - 1][|r|..] + [s[|s| - 1]];
      r
    else s
  }

  /** A prefix of a suffix of `s` is a slice of `s`, and what follows it is a suffix of `s`. */
  lemma {:induction false} SliceOfSuffix(s: string, front: string, r: string)
    requires |front| <= |s| && front == s[|s| - |front|..]
    requires |r| <= |front| && r == front[..|r|]
    ensures r == s[|s| - |front|..|s| - |front| + |r|]
    ensures front[|r|..] == s[|s| - |front| + |r|..]
  {
    var i := |s| - |front|;
    forall k | 0 <= k < |r| ensures r[k] == s[i + k] {
      assert r[k] == front[k] == s[i..][k];
    }
    forall k | 0 <= k < |front| - |r| ensures front[|r|..][k] == s[i + |r|..][k] {
      assert front[|r|..][k] == front[|r| + k] == s[i..][|r| + k];
    }
  }

  /** What is left between a run of leading and a run of trailing white space is a slice of the input. */
  lemma TrimmedIsSlice(s: string, front: string, r: string)
    requires |front| <= |s| && front == s[|s| - |front|..] && AllSpace(s[..|s| - |front|])
    requires |r| <= |front| && r == front[..|r|] && AllSpace(front[|r|..])
    ensures exists i, j :: 0 <= i <= j <= |s| && r == s[i..j] && AllSpace(s[..i]) && AllSpace(s[j..])
  {
    SliceOfSuffix(s, front, r);
    var i := |s| - |front|;
    assert r == s[i..i + |r|] && AllSpace(s[..i]) && AllSpace(s[i + |r|..]);
  }

  /** Nothing is left exactly when the input is all white space. */
  lemma {:induction false} TrimmedEmpty(s: string, front: string, r: string)
    requires |front| <= |s| && front == s[|s| - |front|..] && AllSpace(s[..|s| - |front|])
    requires front != [] ==> !IsSpace(front[0])
    requires |r| <= |front| && r == front[..|r|] && AllSpace(front[|r|..])
    ensures AllSpace(s) <==> r == []
  {
    var i := |s| - |front|;
    if r == [] {
      assert front == front[|r|..];
      forall k | 0 <= k < |s| ensures IsSpace(s[k]) {
        assert s[k] == s[..i][k];
      }
    }
  }

  /** `s.trim()`: the input with its leading and trailing white space removed, and nothing else. */
  function Trim(s: string): (r: string)
    ensures |r| <= |s|
    ensures exists i, j :: 0 <= i <= j <= |s| && r == s[i..j] && AllSpace(s[..i]) && AllSpace(s[j..])
    ensures r != [] ==> !IsSpace(r[0]) && !IsSpace(r[|r| - 1])
    ensures AllSpace(s) <==> r == []
  {
    var front := TrimStart(s);
    var r := TrimEnd(front);
    TrimmedIsSlice(s, front, r);
    TrimmedEmpty(s, front, r);
    r
  }

  /** `!s.trim()`: the string is empty or only white space. */
  predicate IsBlank(s: string) {
    Trim(s) == []
  }

  /** `xs.join(sep)`. */
  function Join(xs: seq<string>, sep: string): string {
    if xs == [] then ""
    else if |xs| == 1 then xs[0]
    else xs[0] + sep + Join(xs[1..], sep)
  }

  /** A join starts with the first element and ends with the last. */
  lemma {:induction false} JoinEnds(xs: seq<string>, sep: string)
    requires xs != []
    ensures StartsWith(Join(xs, sep), xs[0]) && EndsWith(Join(xs, sep), xs[|xs| - 1])
  {
    if |xs| == 1 {
      assert Join(xs, sep) == xs[0];
      StartsWithConcat(xs[0], "");
      EndsWithConcat("", xs[0]);
      assert xs[0] + "" == xs[0] && "" + xs[0] == xs[0];
    } else {
      var rest := Join(xs[1..], sep);
      JoinEnds(xs[1..], sep);
      assert xs[1..][|xs[1..]| - 1] == xs[|xs| - 1];
      assert Join(xs, sep) == (xs[0] + sep) + rest;
      EndsWithExtend(xs[0] + sep, rest, xs[|xs| - 1]);
      assert Join(xs, sep) == xs[0] + (sep + rest);
      StartsWithConcat(xs[0], sep + rest);
    }
  }

  /** With a non-empty separator a join is empty only for `[]` and `[""]`. */
  lemma JoinEmpty(xs: seq<string>, sep: string)
    requires |sep| > 0
    ensures Join(xs, sep) == "" <==> xs == [] || xs == [""]
  {
    if |xs| > 1 {
      assert |Join(xs, sep)| >= |sep|;
    }
  }

  /** Every element of a joined list is found in the joined string. */
  lemma {:induction false} JoinContains(xs: seq<string>, sep: string, k: nat)
    requires k < |xs|
    ensures Contains(Join(xs, sep), xs[k])
  {
    if |xs| == 1 {
      ContainsInfix("", xs[0], "");
      assert "" + xs[0] + "" == xs[0];
    } else if k == 0 {
      ContainsInfix("", xs[0], sep + Join(xs[1..], sep));
      assert "" + xs[0] + (sep + Join(xs[1..], sep)) == Join(xs, sep);
    } else {
      JoinContains(xs[1..], sep, k - 1);
      var j := IndexOf(Join(xs[1..], sep), xs[k]).value;
      AtInSuffix(xs[0] + sep, Join(xs[1..], sep), xs[k], j);
      AtMeansContains(Join(xs, sep), xs[k], |xs[0] + sep| + j);
    }
  }

  function LowerChar(c: char): char {
    if 'A' <= c <= 'Z' then (c as int - 'A' as int + 'a' as int) as char else c
  }

  /** `s.toLowerCase()` on ASCII letters; every other character is kept. */
  function Lower(s: string): (r: string)
    ensures |r| == |s| && forall i :: 0 <= i < |s| ==> r[i] == LowerChar(s[i])
  {
    seq(|s|, i requires 0 <= i < |s| => LowerChar(s[i]))
  }
}
