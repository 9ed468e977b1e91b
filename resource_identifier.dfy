/**
 * The resource identifier (RID) codec: a map of typed segments becomes
 * `<prefix>-type-value--type-value`, and such a string is parsed back into a map.
 * The prefix (the system's CLUSTERNATOR_PREFIX constant) is a parameter.
 */
module ResourceIdentifier {
  import opened Wrappers
  import opened Strings

  /** One own property of the object given to generateRID, in insertion order. */
  datatype Segment = Segment(key: string, value: string)

  const ValidIdTypes: seq<string> := ["pr", "sha", "time", "ttl", "pid", "deployment"]
  const Separator: string := "--"

  predicate IsValidType(key: string)
  {
    key in ValidIdTypes
  }

  /** The `key-value` text generateRID makes of one segment. */
  function SegmentText(s: Segment): string
  {
    s.key + "-" + s.value
  }

  /** The `key-value` text of every segment, in order. */
  function Texts(segs: seq<Segment>): seq<string>
  {
    seq(|segs|, i requires 0 <= i < |segs| => SegmentText(segs[i]))
  }

  /** The segments whose key is a whitelisted type, in their original order. */
  function Whitelisted(params: seq<Segment>): (r: seq<Segment>)
  {
    if params == [] then []
    else (if IsValidType(params[0].key) then [params[0]] else []) + Whitelisted(params[1..])
  }

  /** The filter keeps exactly the segments with a whitelisted key. */
  lemma {:induction false} WhitelistedMembers(params: seq<Segment>)
    ensures forall s :: s in Whitelisted(params) <==> s in params && IsValidType(s.key)
  {
    if params != [] {
      WhitelistedMembers(params[1..]);
      assert params == [params[0]] + params[1..];
    }
  }

  lemma {:induction false} WhitelistedAppend(a: seq<Segment>, b: seq<Segment>)
    ensures Whitelisted(a + b) == Whitelisted(a) + Whitelisted(b)
  {
    if a == [] {
      assert a + b == b;
    } else {
      var head := if IsValidType(a[0].key) then [a[0]] else [];
      assert (a + b)[0] == a[0] && (a + b)[1..] == a[1..] + b;
      WhitelistedAppend(a[1..], b);
      calc {
        Whitelisted(a + b);
        head + Whitelisted(a[1..] + b);
        head + (Whitelisted(a[1..]) + Whitelisted(b));
        (head + Whitelisted(a[1..])) + Whitelisted(b);
      }
    }
  }

  /** The reduce of generateRID: each segment's text followed by a separator, left to right. */
  function Accumulate(segs: seq<Segment>): (r: string)
    ensures segs == [] <==> r == ""
  {
    if segs == [] then ""
    else Accumulate(segs[..|segs| - 1]) + SegmentText(segs[|segs| - 1]) + Separator
  }

  lemma {:induction false} JoinSnoc(xs: seq<string>, x: string, sep: string)
    requires |xs| > 0
    ensures Join(xs + [x], sep) == Join(xs, sep) + sep + x
    decreases |xs|
  {
    if |xs| == 1 {
      assert (xs + [x])[1..] == [x];
    } else {
      assert (xs + [x])[1..] == xs[1..] + [x];
      JoinSnoc(xs[1..], x, sep);
    }
  }

  /** The accumulated text is the separator-joined texts with one separator too many. */
  lemma {:induction false} AccumulateJoin(segs: seq<Segment>)
    requires segs != []
    ensures Accumulate(segs) == Join(Texts(segs), Separator) + Separator
    decreases |segs|
  {
    var n := |segs|;
    var init, t := segs[..n - 1], SegmentText(segs[n - 1]);
    if n == 1 {
      assert init == [];
      assert Texts(segs) == [t];
    } else {
      AccumulateJoin(init);
      TextsSnoc(segs);
      JoinSnoc(Texts(init), t, Separator);
      calc {
        Accumulate(segs);
        Accumulate(init) + t + Separator;
        (Join(Texts(init), Separator) + Separator) + t + Separator;
        { SepGlue(Join(Texts(init), Separator), t); }
        (Join(Texts(init), Separator) + Separator + t) + Separator;
        Join(Texts(segs), Separator) + Separator;
      }
    }
  }

  lemma TextsSnoc(segs: seq<Segment>)
    requires segs != []
    ensures Texts(segs) == Texts(segs[..|segs| - 1]) + [SegmentText(segs[|segs| - 1])]
  {
    var n := |segs|;
    var t, r := Texts(segs), Texts(segs[..n - 1]) + [SegmentText(segs[n - 1])];
    forall i | 0 <= i < n ensures t[i] == r[i] {
      if i < n - 1 {
        assert segs[..n - 1][i] == segs[i];
      }
    }
  }

  lemma SepGlue(a: string, t: string)
    ensures (a + Separator) + t + Separator == (a + Separator + t) + Separator
  {
  }

  /** `rid.replace(/--$/g, '')`: drops one separator at the very end, if there is one. */
  function TrimTrailingSeparator(rid: string): (r: string)
  {
    if |rid| >= 2 && rid[|rid| - 2..] == Separator then rid[..|rid| - 2] else rid
  }

  /**
   * generateRID: unknown keys are dropped; without any whitelisted key the result is empty;
   * otherwise it is the prefix, a dash, and the `key-value` texts joined by `--`.
   */
  function GenerateRID(prefix: string, params: seq<Segment>): (r: string)
    ensures r == "" <==> Whitelisted(params) == []
  {
    var rid := Accumulate(Whitelisted(params));
    if rid == "" then "" else prefix + "-" + TrimTrailingSeparator(rid)
  }

  /** With a whitelisted key, the RID is the prefix, a dash, and the `key-value` texts joined by `--`. */
  lemma GenerateJoin(prefix: string, params: seq<Segment>)
    requires Whitelisted(params) != []
    ensures GenerateRID(prefix, params) == prefix + "-" + Join(Texts(Whitelisted(params)), Separator)
  {
    AccumulateJoin(Whitelisted(params));
  }

  /** Adding a segment whose key is not a valid type, anywhere, never changes the RID. */
  lemma GenerateIgnoresUnknownKey(prefix: string, before: seq<Segment>, s: Segment, after: seq<Segment>)
    requires !IsValidType(s.key)
    ensures GenerateRID(prefix, before + [s] + after) == GenerateRID(prefix, before + after)
  {
    WhitelistedAppend(before + [s], after);
    WhitelistedAppend(before, [s]);
    WhitelistedAppend(before, after);
    assert Whitelisted([s]) == [];
    assert Whitelisted(before + [s]) == Whitelisted(before);
    assert Whitelisted(before + [s] + after) == Whitelisted(before + after);
  }

  /** `idSegment.indexOf('-')` split: the text before the first dash and the text after it. */
  function ParseSegment(piece: string): (r: Segment)
    ensures '-' !in r.key
    ensures '-' in piece ==> piece == r.key + "-" + r.value
    ensures '-' !in piece ==> r == Segment("", piece)
  {
    forall j: nat ensures At(piece, "-", j) <==> j < |piece| && piece[j] == '-' {
      AtChar(piece, '-', j);
    }
    match IndexOf(piece, "-")
    case None => Segment("", piece)
    case Some(i) =>
      assert piece == piece[..i] + "-" + piece[i + 1..];
      Segment(piece[..i], piece[i + 1..])
  }

  /** Every piece parsed, in order. */
  function ParseSegments(pieces: seq<string>): seq<Segment>
  {
    seq(|pieces|, i requires 0 <= i < |pieces| => ParseSegment(pieces[i]))
  }

  /** The reduce of parseRID: each segment assigned into the object, a later type overwriting an earlier one. */
  function Collect(segs: seq<Segment>): (r: map<string, string>)
    ensures r.Keys == set s | s in segs :: s.key
  {
    if segs == [] then map[]
    else Collect(segs[..|segs| - 1])[segs[|segs| - 1].key := segs[|segs| - 1].value]
  }

  /** `rid.slice(n)` with n not below zero: past the end it gives the empty string. */
  function Slice(s: string, n: nat): (r: string)
  {
    if n <= |s| then s[n..] else ""
  }

  /** parseRID: null exactly when the string does not start with the prefix. */
  function ParseRID(prefix: string, rid: string): (r: Option<map<string, string>>)
    ensures r.None? <==> !At(rid, prefix, 0)
  {
    if IndexOf(rid, prefix) != Some(0) then None
    else Some(Collect(ParseSegments(Split(Slice(rid, |prefix| + 1), Separator))))
  }

  /** A value generateRID can carry through parseRID unchanged. */
  predicate GoodValue(v: string)
  {
    && |v| > 0 && v[0] != '-' && v[|v| - 1] != '-'
    && forall i :: 0 <= i < |v| - 1 ==> !(v[i] == '-' && v[i + 1] == '-')
  }

  lemma ValidTypeHasNoDash(k: string)
    requires IsValidType(k)
    ensures '-' !in k && |k| > 0
  {
  }

  lemma SegmentTextClean(s: Segment)
    requires IsValidType(s.key) && GoodValue(s.value)
    ensures Clean(SegmentText(s), Separator)
  {
    ValidTypeHasNoDash(s.key);
    var t := SegmentText(s);
    var k, v := s.key, s.value;
    var w := t + Separator;
    forall j: nat | j < |t| ensures !At(w, Separator, j) {
      assert At(w, Separator, j) ==> w[j] == '-' && w[j + 1] == '-' by {
        if At(w, Separator, j) { assert w[j..j + 2] == Separator; }
      }
      if j < |k| {
        assert w[j] == k[j];
      } else if j == |k| {
        assert w[j + 1] == v[0];
      } else if j + 1 < |t| {
        assert w[j] == v[j - |k| - 1] && w[j + 1] == v[j - |k|];
      } else {
        assert w[j] == v[|v| - 1];
      }
    }
  }

  /** Text split at a dash absent from both left-hand parts splits in one way only. */
  lemma DashSplitUnique(a: string, b: string, c: string, d: string)
    requires '-' !in a && '-' !in c && a + "-" + b == c + "-" + d
    ensures a == c && b == d
  {
    var t := a + "-" + b;
    assert t[|a|] == '-' && t[|c|] == '-';
    assert forall j :: 0 <= j < |a| ==> t[j] == a[j] != '-';
    assert forall j :: 0 <= j < |c| ==> t[j] == c[j] != '-';
    assert a == t[..|a|] == c;
    assert b == t[|a| + 1..] == d;
  }

  lemma ParseSegmentText(s: Segment)
    requires IsValidType(s.key)
    ensures ParseSegment(SegmentText(s)) == s
  {
    ValidTypeHasNoDash(s.key);
    var t := SegmentText(s);
    assert t[|s.key|] == '-';
    var r := ParseSegment(t);
    DashSplitUnique(r.key, r.value, s.key, s.value);
  }

  /** The prefix, a dash and a body: the prefix is found at the start and slicing past the dash leaves the body. */
  lemma PrefixedSlice(prefix: string, body: string)
    ensures var rid := prefix + "-" + body;
      IndexOf(rid, prefix) == Some(0) && Slice(rid, |prefix| + 1) == body
  {
    var rid := prefix + "-" + body;
    assert rid[..|prefix|] == prefix;
    assert At(rid, prefix, 0);
    assert rid[|prefix| + 1..] == body;
  }

  lemma TextsClean(w: seq<Segment>)
    requires forall i :: 0 <= i < |w| ==> IsValidType(w[i].key) && GoodValue(w[i].value)
    ensures forall i :: 0 <= i < |w| ==> Clean(Texts(w)[i], Separator)
  {
    forall i | 0 <= i < |w| ensures Clean(Texts(w)[i], Separator) {
      SegmentTextClean(w[i]);
    }
  }

  lemma ParseEachText(w: seq<Segment>)
    requires forall i :: 0 <= i < |w| ==> IsValidType(w[i].key)
    ensures ParseSegments(Texts(w)) == w
  {
    var p := ParseSegments(Texts(w));
    forall i | 0 <= i < |w| ensures p[i] == w[i] {
      ParseSegmentText(w[i]);
    }
  }

  /** Whitelisted segments with good values read back from their joined texts. */
  lemma ParseTexts(w: seq<Segment>)
    requires w != []
    requires forall i :: 0 <= i < |w| ==> IsValidType(w[i].key) && GoodValue(w[i].value)
    ensures ParseSegments(Split(Join(Texts(w), Separator), Separator)) == w
  {
    TextsClean(w);
    SplitJoin(Texts(w), Separator);
    ParseEachText(w);
  }

  /** parseRID(generateRID(m)) gives back the whitelisted part of m, as the object the parse builds. */
  lemma {:induction false} RoundTrip(prefix: string, params: seq<Segment>)
    requires Whitelisted(params) != []
    requires forall s :: s in params && IsValidType(s.key) ==> GoodValue(s.value)
    ensures ParseRID(prefix, GenerateRID(prefix, params)) == Some(Collect(Whitelisted(params)))
  {
    var w := Whitelisted(params);
    GenerateJoin(prefix, params);
    PrefixedSlice(prefix, Join(Texts(w), Separator));
    WhitelistedMembers(params);
    assert forall i :: 0 <= i < |w| ==> w[i] in w;
    ParseTexts(w);
  }

  /** With distinct keys the parsed object holds exactly the given pairs. */
  lemma {:induction false} CollectDistinct(segs: seq<Segment>)
    requires forall i, j :: 0 <= i < j < |segs| ==> segs[i].key != segs[j].key
    ensures forall i :: 0 <= i < |segs| ==> Collect(segs)[segs[i].key] == segs[i].value
    decreases |segs|
  {
    if segs != [] {
      var n := |segs|;
      CollectDistinct(segs[..n - 1]);
    }
  }

  /** A later segment of the same type overwrites an earlier one: each type maps to the value of its last segment. */
  lemma {:induction false} CollectLastWins(segs: seq<Segment>, i: nat)
    requires i < |segs|
    requires forall j :: i < j < |segs| ==> segs[j].key != segs[i].key
    ensures segs[i].key in Collect(segs) && Collect(segs)[segs[i].key] == segs[i].value
    decreases |segs|
  {
    var n := |segs|;
    if i < n - 1 {
      CollectLastWins(segs[..n - 1], i);
    }
  }

  /** generatePRSubdomain: a TypeError unless both arguments are non-empty. */
  function GeneratePRSubdomain(projectId: string, pr: string): (r: Result<string, string>)
    ensures r.Ok? <==> projectId != "" && pr != ""
  {
    if projectId == "" || pr == "" then Err("generateSubdomain requires a projectId, and pr")
    else Ok(projectId + "-pr-" + pr)
  }

  /** generateSubdomain: a TypeError unless both arguments are non-empty. */
  function GenerateSubdomain(projectId: string, name: string): (r: Result<string, string>)
    ensures r.Ok? <==> projectId != "" && name != ""
  {
    if projectId == "" || name == "" then Err("generateSubdomain requires a projectId, and label")
    else Ok(projectId + "-" + name)
  }

  /** A pull request's subdomain is the generic subdomain labelled `pr-<number>`. */
  lemma PRSubdomainIsLabelled(projectId: string, pr: string)
    requires pr != ""
    ensures GeneratePRSubdomain(projectId, pr).Ok? == GenerateSubdomain(projectId, "pr-" + pr).Ok?
    ensures GeneratePRSubdomain(projectId, pr).Ok? ==>
      GeneratePRSubdomain(projectId, pr).value == GenerateSubdomain(projectId, "pr-" + pr).value
  {
    assert projectId + "-pr-" + pr == projectId + "-" + ("pr-" + pr);
  }

  /** Within one project, different pull requests get different subdomains. */
  lemma PRSubdomainInjective(projectId: string, pr1: string, pr2: string)
    requires GeneratePRSubdomain(projectId, pr1).Ok? && GeneratePRSubdomain(projectId, pr2).Ok?
    requires GeneratePRSubdomain(projectId, pr1).value == GeneratePRSubdomain(projectId, pr2).value
    ensures pr1 == pr2
  {
    var n := |projectId| + 4;
    assert (projectId + "-pr-" + pr1)[n..] == pr1;
    assert (projectId + "-pr-" + pr2)[n..] == pr2;
  }
}
