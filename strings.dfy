/** String searching, splitting and joining as JavaScript's String methods do them. */
module Strings {
  import opened Wrappers

  /** `p` occurs in `s` starting at index `i`. */
  predicate At(s: string, p: string, i: nat)
  {
    i + |p| <= |s| && s[i..i + |p|] == p
  }

  lemma AtTail(s: string, p: string, i: nat)
    requires |s| > 0
    ensures At(s[1..], p, i) <==> At(s, p, i + 1)
  {
    if i + 1 + |p| <= |s| {
      assert s[1..][i..i + |p|] == s[i + 1..i + 1 + |p|];
    }
  }

  lemma AtChar(s: string, c: char, j: nat)
    ensures At(s, [c], j) <==> j < |s| && s[j] == c
  {
    if j < |s| {
      assert s[j..j + 1] == [s[j]];
    }
  }

  /** `s.indexOf(p)`: the first index at which `p` occurs, or None for -1. */
  function IndexOf(s: string, p: string): (r: Option<nat>)
    ensures r.Some? ==> At(s, p, r.value) && forall j: nat :: j < r.value ==> !At(s, p, j)
    ensures r.None? ==> forall j: nat :: !At(s, p, j)
    decreases |s|
  {
    if At(s, p, 0) then Some(0)
    else if |s| == 0 then None
    else
      var t := IndexOf(s[1..], p);
      forall j: nat | j > 0 ensures At(s, p, j) <==> At(s[1..], p, j - 1) { AtTail(s, p, j - 1); }
      if t.Some? then Some(t.value + 1) else None
  }

  /** Number of (possibly overlapping) occurrences of `p` in `s`. */
  function Count(s: string, p: string): nat
    requires |p| > 0
    decreases |s|
  {
    if |s| < |p| then 0
    else (if At(s, p, 0) then 1 else 0) + Count(s[1..], p)
  }

  lemma {:induction false} CountZero(s: string, p: string)
    requires |p| > 0
    ensures Count(s, p) == 0 <==> forall j: nat :: !At(s, p, j)
    decreases |s|
  {
    if |s| < |p| {
    } else {
      CountZero(s[1..], p);
      forall j: nat ensures At(s[1..], p, j) <==> At(s, p, j + 1) { AtTail(s, p, j); }
      if Count(s, p) == 0 {
        forall j: nat ensures !At(s, p, j) {
          if j > 0 { assert !At(s[1..], p, j - 1); }
        }
      }
    }
  }

  /** No occurrence of `p` in `a + b` starts inside `a` and ends inside `b`. */
  ghost predicate NoStraddle(a: string, b: string, p: string)
  {
    forall i: nat :: i < |a| < i + |p| <= |a| + |b| ==> !At(a + b, p, i)
  }

  lemma {:induction false} CountAppend(a: string, b: string, p: string)
    requires |p| > 0 && NoStraddle(a, b, p)
    ensures Count(a + b, p) == Count(a, p) + Count(b, p)
    decreases |a|
  {
    if |a| == 0 {
      assert a + b == b;
    } else {
      var s := a + b;
      assert s[1..] == a[1..] + b;
      forall i: nat | i < |a[1..]| < i + |p| <= |a[1..]| + |b|
        ensures !At(a[1..] + b, p, i)
      {
        AtTail(s, p, i);
      }
      CountAppend(a[1..], b, p);
      if |a| >= |p| {
        assert s[..|p|] == a[..|p|];
      } else if |s| >= |p| {
        assert !At(s, p, 0);
        assert Count(a[1..], p) == 0;
      }
    }
  }

  predicate EndsWith(s: string, suffix: string)
  {
    |suffix| <= |s| && s[|s| - |suffix|..] == suffix
  }

  lemma EndsWithAppend(a: string, b: string)
    ensures EndsWith(a + b, b)
  {
    assert (a + b)[|a|..] == b;
  }

  /** `s.replace(p, x)` with a string pattern: only the first occurrence is replaced. */
  function ReplaceFirst(s: string, p: string, x: string): (r: string)
    ensures IndexOf(s, p).None? ==> r == s
    ensures IndexOf(s, p).Some? ==>
      var i := IndexOf(s, p).value;
      r == s[..i] + x + s[i + |p|..] && forall j: nat :: j < i ==> !At(s, p, j)
  {
    match IndexOf(s, p)
    case None => s
    case Some(i) => s[..i] + x + s[i + |p|..]
  }

  /** `r` is `s` with its first occurrence of `p` cut out, or `s` itself when `p` does not occur. */
  predicate RemovedFirst(s: string, p: string, r: string)
  {
    match IndexOf(s, p)
    case None => r == s
    case Some(i) => i + |p| <= |s| && r == s[..i] + s[i + |p|..] && |r| == |s| - |p|
  }

  lemma ReplaceFirstRemoves(s: string, p: string)
    ensures RemovedFirst(s, p, ReplaceFirst(s, p, ""))
  {
    if IndexOf(s, p).Some? {
      var i := IndexOf(s, p).value;
      assert s[..i] + "" + s[i + |p|..] == s[..i] + s[i + |p|..];
    }
  }

  /** `s.replace(/p/g, x)`: every occurrence, scanning left to right without overlap. */
  function ReplaceAll(s: string, p: string, x: string): string
    requires |p| > 0
    decreases |s|
  {
    if |s| < |p| then s
    else if At(s, p, 0) then x + ReplaceAll(s[|p|..], p, x)
    else [s[0]] + ReplaceAll(s[1..], p, x)
  }

  /** No occurrence of `tok` in `s` starts before index `n`. */
  predicate TokenFree(s: string, tok: string, n: nat)
  {
    forall j: nat :: j < n ==> !At(s, tok, j)
  }

  /** The first `n` characters pass through a replace-all unchanged when no token starts among them. */
  lemma {:induction false} ReplaceAllSkipsAt(s: string, tok: string, x: string, n: nat)
    requires |tok| > 0 && n <= |s| && TokenFree(s, tok, n)
    ensures ReplaceAll(s, tok, x) == s[..n] + ReplaceAll(s[n..], tok, x)
    decreases n
  {
    if n > 0 && |s| >= |tok| {
      assert !At(s, tok, 0);
      forall j: nat | j < n - 1
        ensures !At(s[1..], tok, j)
      {
        AtTail(s, tok, j);
      }
      ReplaceAllSkipsAt(s[1..], tok, x, n - 1);
      assert s[1..][n - 1..] == s[n..];
      assert [s[0]] + s[1..][..n - 1] == s[..n];
    } else if n > 0 {
      assert s[..n] + s[n..] == s;
    }
  }

  /** A prefix in which no token starts passes through a replace-all unchanged. */
  lemma ReplaceAllSkips(p: string, tok: string, x: string, rest: string)
    requires |tok| > 0 && TokenFree(p + rest, tok, |p|)
    ensures ReplaceAll(p + rest, tok, x) == p + ReplaceAll(rest, tok, x)
  {
    ReplaceAllSkipsAt(p + rest, tok, x, |p|);
    assert (p + rest)[..|p|] == p && (p + rest)[|p|..] == rest;
  }

  /** An occurrence starting inside `p` is the same whether `p` is followed by `tok` or by `tok + rest`. */
  lemma AtBeforeTail(p: string, tok: string, rest: string, j: nat)
    requires j < |p|
    ensures At(p + (tok + rest), tok, j) <==> At(p + tok, tok, j)
  {
    if j + |tok| <= |p| + |tok| {
      assert (p + (tok + rest))[j..j + |tok|] == (p + tok)[j..j + |tok|];
    }
  }

  /**
   * Replacing every token in pieces joined by the token joins them by the replacement instead,
   * when no token starts inside a piece, not even one running on into the token that follows it.
   */
  lemma {:induction false} ReplaceAllJoin(pieces: seq<string>, tok: string, x: string)
    requires |tok| > 0
    requires forall i :: 0 <= i < |pieces| ==> TokenFree(pieces[i] + tok, tok, |pieces[i]|)
    ensures ReplaceAll(Join(pieces, tok), tok, x) == Join(pieces, x)
    decreases |pieces|
  {
    if |pieces| == 1 {
      var p := pieces[0];
      assert p + "" == p;
      forall j: nat | j < |p|
        ensures !At(p + "", tok, j)
      {
        assert TokenFree(p + tok, tok, |p|);
        assert !At(p + tok, tok, j);
        if j + |tok| <= |p| {
          assert (p + tok)[j..j + |tok|] == p[j..j + |tok|];
        }
      }
      ReplaceAllSkips(p, tok, x, "");
    } else if |pieces| > 1 {
      var p := pieces[0];
      var rest := Join(pieces[1..], tok);
      ReplaceAllJoin(pieces[1..], tok, x);
      assert Join(pieces, tok) == p + (tok + rest);
      forall j: nat | j < |p|
        ensures !At(p + (tok + rest), tok, j)
      {
        assert TokenFree(p + tok, tok, |p|);
        AtBeforeTail(p, tok, rest, j);
      }
      ReplaceAllSkips(p, tok, x, tok + rest);
      assert (tok + rest)[..|tok|] == tok && (tok + rest)[|tok|..] == rest;
      assert ReplaceAll(tok + rest, tok, x) == x + ReplaceAll(rest, tok, x);
    }
  }

  /** `parts.join(sep)`. */
  function Join(parts: seq<string>, sep: string): string
  {
    if |parts| == 0 then ""
    else if |parts| == 1 then parts[0]
    else parts[0] + sep + Join(parts[1..], sep)
  }

  /** `s.split(sep)` for a non-empty separator: left to right, matches do not overlap. */
  function Split(s: string, sep: string): (r: seq<string>)
    requires |sep| > 0
    ensures |r| > 0
    decreases |s|
  {
    if |s| < |sep| then [s]
    else if At(s, sep, 0) then [""] + Split(s[|sep|..], sep)
    else
      var t := Split(s[1..], sep);
      [[s[0]] + t[0]] + t[1..]
  }

  /** Appending `sep` to `p` puts the first occurrence of `sep` exactly at the end of `p`. */
  ghost predicate Clean(p: string, sep: string)
  {
    forall j: nat :: j < |p| ==> !At(p + sep, sep, j)
  }

  lemma CleanTail(p: string, sep: string)
    requires |p| > 0 && Clean(p, sep)
    ensures Clean(p[1..], sep)
  {
    assert p[1..] + sep == (p + sep)[1..];
    forall j: nat | j < |p[1..]| ensures !At(p[1..] + sep, sep, j) {
      AtTail(p + sep, sep, j);
    }
  }

  lemma {:induction false} SplitClean(p: string, sep: string)
    requires |sep| > 0 && Clean(p, sep)
    ensures Split(p, sep) == [p]
    decreases |p|
  {
    if |p| >= |sep| {
      assert !At(p + sep, sep, 0);
      assert (p + sep)[0..|sep|] == p[0..|sep|];
      assert !At(p, sep, 0);
      CleanTail(p, sep);
      SplitClean(p[1..], sep);
      assert [p[0]] + p[1..] == p;
    }
  }

  lemma {:induction false} SplitPrefix(p: string, sep: string, rest: string)
    requires |sep| > 0 && Clean(p, sep)
    ensures Split(p + sep + rest, sep) == [p] + Split(rest, sep)
    decreases |p|
  {
    var s := p + sep + rest;
    if |p| == 0 {
      assert s == sep + rest;
      assert At(s, sep, 0);
      assert s[|sep|..] == rest;
    } else {
      assert !At(p + sep, sep, 0);
      assert (p + sep)[0..|sep|] == s[0..|sep|];
      assert !At(s, sep, 0);
      CleanTail(p, sep);
      SplitPrefix(p[1..], sep, rest);
      assert s[1..] == p[1..] + sep + rest;
      assert [p[0]] + p[1..] == p;
    }
  }

  /** Splitting what Join built gives the parts back when no part runs into a separator. */
  lemma {:induction false} SplitJoin(parts: seq<string>, sep: string)
    requires |parts| > 0 && |sep| > 0
    requires forall i :: 0 <= i < |parts| ==> Clean(parts[i], sep)
    ensures Split(Join(parts, sep), sep) == parts
    decreases |parts|
  {
    if |parts| == 1 {
      SplitClean(parts[0], sep);
    } else {
      SplitJoin(parts[1..], sep);
      SplitPrefix(parts[0], sep, Join(parts[1..], sep));
      assert parts == [parts[0]] + parts[1..];
    }
  }

  /** A single-character separator: a part is clean exactly when it does not contain it. */
  lemma CleanChar(p: string, c: char)
    requires c !in p
    ensures Clean(p, [c])
  {
    forall j: nat | j < |p| ensures !At(p + [c], [c], j) {
      assert (p + [c])[j] == p[j];
    }
  }

  /** `n` copies of `c`. */
  function Repeat(c: char, n: nat): (r: string)
    ensures |r| == n && forall i :: 0 <= i < n ==> r[i] == c
  {
    seq(n, _ => c)
  }
}
