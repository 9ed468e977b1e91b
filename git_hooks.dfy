/**
 * Git hook installation for a project: a banner block that calls the system's own hook script is
 * added to each master hook file under `.git/hooks`, and the system's script is written beside
 * it from a skeleton with the project's passphrase filled in. Removal prunes the banner and
 * unlinks the script. The system's prefix (`cn`) is a parameter.
 */
module GitHooks {
  import opened Wrappers
  import opened Strings

  const NewLine: string := "\n"

  // The longer literals below are written in pieces of at most twenty characters, so that each
  // piece's characters can be checked on their own.

  /** The placeholder the skeleton carries for the project's shared key. */
  const PassToken: string := "$CLUSTERNATOR_PASS"

  const HookFiles: seq<string> := ["post-commit", "pre-commit", "post-merge"]

  const ShellDir: string := "DIR=\"$( cd \"$( dirn" + "ame \"${BASH_SOURCE[0" + "]}\" )\" && pwd )" + "\""
  const NoticeLine: string := "# Clustnernator Hook" + ".  Please do not del" + "ete this."
  const RemoveLead: string := "# If you wish to rem" + "ove this hook, pleas" + "e use "
  const RemoveCommand: string := "\"clusternator git-h" + "ook-remove\""
  const RemoveLine: string := RemoveLead + RemoveCommand

  /** The permissions both files get: the user may read, write and execute, nobody else anything. */
  const UserOnly: string := "700"

  // ---------------------------------------------------------------- names and paths

  /** The name of the system's own script for `hook`. */
  function ClusternateHook(cn: string, hook: string): (r: string)
    ensures |r| == |cn| + 1 + |hook| && r[..|cn| + 1] == cn + "-" && r[|cn| + 1..] == hook
  {
    cn + "-" + hook
  }

  lemma ClusternateHookInjective(cn: string, a: string, b: string)
    requires ClusternateHook(cn, a) == ClusternateHook(cn, b)
    ensures a == b
  {
  }

  /** The system's script never takes the name of a master hook file, whatever the prefix. */
  lemma ScriptIsNotAHookFile(cn: string, hook: string, other: string)
    requires hook in HookFiles && other in HookFiles
    ensures ClusternateHook(cn, hook) != other
  {
    var r := ClusternateHook(cn, hook);
    if cn == "" {
      assert r[0] == '-';
      assert other[0] != '-';
    } else {
      assert |r| >= 12;
    }
  }

  function NonEmpty(parts: seq<string>): (r: seq<string>)
    ensures forall i :: 0 <= i < |r| ==> r[i] != ""
    ensures |r| <= |parts|
  {
    if parts == [] then []
    else if parts[0] == "" then NonEmpty(parts[1..])
    else [parts[0]] + NonEmpty(parts[1..])
  }

  /** `path.join` on plain names: the non-empty parts joined by `/` (no `.`/`..` resolution). */
  function PathJoin(parts: seq<string>): string
  {
    Join(NonEmpty(parts), "/")
  }

  /** The repository's hooks directory. */
  function HooksDir(root: string): (r: string)
    ensures r == (if root == "" then "" else root + "/") + ".git/hooks"
  {
    var parts := [root, ".git", "hooks"];
    assert NonEmpty(parts[1..][1..]) == ["hooks"] by { assert parts[1..][1..][1..] == []; }
    assert NonEmpty(parts[1..]) == [".git", "hooks"];
    assert Join(["hooks"], "/") == "hooks";
    assert Join([".git", "hooks"], "/") == ".git/hooks";
    PathJoin(parts)
  }

  /** The path of `hook` in the repository's hooks directory. */
  function Hpath(root: string, hook: string): (r: string)
    ensures r == HooksDir(root) + (if hook == "" then "" else "/" + hook)
  {
    HookPathParts(root, hook);
    PathJoin([root, ".git", "hooks", hook])
  }

  lemma HookPathParts(root: string, hook: string)
    ensures PathJoin([root, ".git", "hooks", hook]) == HooksDir(root) + (if hook == "" then "" else "/" + hook)
  {
    var parts := [root, ".git", "hooks", hook];
    var last := if hook == "" then [] else [hook];
    assert NonEmpty(parts[1..][1..][1..]) == last by { assert parts[1..][1..][1..][1..] == []; }
    assert NonEmpty(parts[1..][1..]) == ["hooks"] + last;
    assert NonEmpty(parts[1..]) == [".git", "hooks"] + last;
    assert Join(["hooks"], "/") == "hooks";
    assert Join([".git", "hooks"], "/") == ".git/hooks" by { assert [".git", "hooks"][1..] == ["hooks"]; }
    if hook != "" {
      assert Join(["hooks", hook], "/") == "hooks/" + hook by { assert ["hooks", hook][1..] == [hook]; }
      assert Join([".git", "hooks", hook], "/") == ".git/hooks/" + hook by {
        assert [".git", "hooks", hook][1..] == ["hooks", hook];
      }
      if root != "" {
        assert NonEmpty(parts) == [root, ".git", "hooks", hook];
        assert Join(parts, "/") == root + "/" + (".git/hooks/" + hook);
        assert HooksDir(root) == root + "/" + ".git/hooks";
        assert ".git/hooks/" + hook == ".git/hooks" + ("/" + hook);
        assert root + "/" + (".git/hooks" + ("/" + hook)) == root + "/" + ".git/hooks" + ("/" + hook);
      } else {
        assert NonEmpty(parts) == [".git", "hooks", hook];
        assert ".git/hooks/" + hook == ".git/hooks" + ("/" + hook);
      }
    } else if root != "" {
      assert NonEmpty(parts) == [root, ".git", "hooks"];
      assert [root, ".git", "hooks"][1..] == [".git", "hooks"];
    } else {
      assert NonEmpty(parts) == [".git", "hooks"];
    }
  }

  /** Different hook names live at different paths. */
  lemma HpathInjective(root: string, a: string, b: string)
    requires Hpath(root, a) == Hpath(root, b)
    ensures a == b
  {
    var d := HooksDir(root);
    assert Hpath(root, a)[|d|..] == (if a == "" then "" else "/" + a);
    assert Hpath(root, b)[|d|..] == (if b == "" then "" else "/" + b);
    if a != "" && b != "" {
      assert a == ("/" + a)[1..];
      assert b == ("/" + b)[1..];
    }
  }

  /** The two files a hook installation writes are different files. */
  lemma ScriptAndHookApart(root: string, cn: string, hook: string)
    ensures Hpath(root, hook) != Hpath(root, ClusternateHook(cn, hook))
  {
    assert |Hpath(root, ClusternateHook(cn, hook))| > |Hpath(root, hook)|;
  }

  // ---------------------------------------------------------------- the banner

  /** `count - 1` copies of `c`; a count of 0 stands for a missing count and means 80. */
  function LogChar(c: char, count: nat): (r: string)
    ensures |r| == (if count == 0 then 79 else count - 1)
    ensures forall i :: 0 <= i < |r| ==> r[i] == c
  {
    Repeat(c, (if count == 0 then 80 else count) - 1)
  }

  function Rule(): (r: string)
    ensures |r| == 79 && forall i :: 0 <= i < |r| ==> r[i] == '#'
  {
    LogChar('#', 0)
  }

  function InvokeLine(cn: string, hook: string): string
  {
    "$DIR/" + ClusternateHook(cn, hook)
  }

  /** The block placed in a master hook file: six lines, no trailing newline. */
  function Banner(cn: string, hook: string): string
  {
    Rule() + NewLine + NoticeLine + NewLine + RemoveLine + NewLine + ShellDir + NewLine + InvokeLine(cn, hook) + NewLine
    + Rule()
  }

  /** No two newlines in a row: every line of the text is non-empty. */
  predicate NoBlankLine(s: string)
  {
    forall k :: 0 <= k < |s| - 1 ==> !(s[k] == '\n' && s[k + 1] == '\n')
  }

  lemma NoBlankGlue(a: string, b: string)
    requires NoBlankLine(a) && |a| > 0 && a[|a| - 1] != '\n'
    requires |b| > 0 && NewlineFree(b)
    ensures NoBlankLine(a + NewLine + b) && (a + NewLine + b)[|a + NewLine + b| - 1] != '\n'
  {
    var s := a + NewLine + b;
    forall k | 0 <= k < |s| - 1 ensures !(s[k] == '\n' && s[k + 1] == '\n') {
      if k < |a| - 1 {
        assert s[k] == a[k] && s[k + 1] == a[k + 1];
      } else if k == |a| - 1 {
        assert s[k] == a[k];
      } else {
        assert s[k + 1] == b[k + 1 - |a| - 1];
      }
    }
  }

  predicate NewlineFree(s: string)
  {
    forall i :: 0 <= i < |s| ==> s[i] != '\n'
  }

  lemma NewlineFreeAppend(a: string, b: string)
    requires NewlineFree(a) && NewlineFree(b)
    ensures NewlineFree(a + b)
  {
    forall i | 0 <= i < |a + b| ensures (a + b)[i] != '\n' {
      if i >= |a| {
        assert (a + b)[i] == b[i - |a|];
      }
    }
  }

  /** The fixed lines of the banner are single lines (checked a few characters at a time). */
  lemma NoticeLineNewlineFree()
    ensures NewlineFree(NoticeLine)
  {
    var n1, n2, n3 := "# Clustnernator Hook", ".  Please do not del", "ete this.";
    assert NewlineFree(n1) && NewlineFree(n2) && NewlineFree(n3);
    NewlineFreeAppend(n1, n2);
    NewlineFreeAppend(n1 + n2, n3);
  }

  lemma RemoveLeadNewlineFree()
    ensures NewlineFree(RemoveLead)
  {
    var r1, r2, r3 := "# If you wish to rem", "ove this hook, pleas", "e use ";
    assert NewlineFree(r1) && NewlineFree(r2) && NewlineFree(r3);
    NewlineFreeAppend(r1, r2);
    NewlineFreeAppend(r1 + r2, r3);
  }

  lemma RemoveCommandNewlineFree()
    ensures NewlineFree(RemoveCommand)
  {
    var r4, r5 := "\"clusternator git-h", "ook-remove\"";
    assert NewlineFree(r4) && NewlineFree(r5);
    NewlineFreeAppend(r4, r5);
  }

  lemma RemoveLineNewlineFree()
    ensures NewlineFree(RemoveLine)
  {
    RemoveLeadNewlineFree();
    RemoveCommandNewlineFree();
    NewlineFreeAppend(RemoveLead, RemoveCommand);
  }

  lemma ShellDirNewlineFree()
    ensures NewlineFree(ShellDir)
  {
    var d1, d2, d3, d4 := "DIR=\"$( cd \"$( dirn", "ame \"${BASH_SOURCE[0", "]}\" )\" && pwd )", "\"";
    assert NewlineFree(d1) && NewlineFree(d2) && NewlineFree(d3) && NewlineFree(d4);
    NewlineFreeAppend(d1, d2);
    NewlineFreeAppend(d1 + d2, d3);
    NewlineFreeAppend(d1 + d2 + d3, d4);
  }

  lemma InvokeLineNewlineFree(cn: string, hook: string)
    requires '\n' !in cn && '\n' !in hook
    ensures NewlineFree(InvokeLine(cn, hook))
  {
    var invoke := InvokeLine(cn, hook);
    forall i | 0 <= i < |invoke| ensures invoke[i] != '\n' {
      if i >= 6 + |cn| {
        assert invoke[i] == hook[i - 6 - |cn|];
      } else if 5 <= i < 5 + |cn| {
        assert invoke[i] == cn[i - 5];
      }
    }
  }

  /** A block that starts and ends with `#` and holds no empty line: it cannot overlap a blank line. */
  predicate BannerLike(b: string)
  {
    |b| > 2 && b[0] == '#' && b[|b| - 1] == '#' && NoBlankLine(b)
  }

  lemma BannerShape(cn: string, hook: string)
    requires '\n' !in cn && '\n' !in hook
    ensures BannerLike(Banner(cn, hook))
  {
    var rule := Rule();
    var invoke := InvokeLine(cn, hook);
    NoticeLineNewlineFree();
    RemoveLineNewlineFree();
    ShellDirNewlineFree();
    InvokeLineNewlineFree(cn, hook);
    var s1 := rule + NewLine + NoticeLine;
    NoBlankGlue(rule, NoticeLine);
    var s2 := s1 + NewLine + RemoveLine;
    NoBlankGlue(s1, RemoveLine);
    var s3 := s2 + NewLine + ShellDir;
    NoBlankGlue(s2, ShellDir);
    var s4 := s3 + NewLine + invoke;
    NoBlankGlue(s3, invoke);
    NoBlankGlue(s4, rule);
    assert Banner(cn, hook) == s4 + NewLine + rule;
  }

  /** Regrouping two joins on the newline. */
  lemma GlueRight(a: string, b: string, c: string)
    ensures a + NewLine + b + NewLine + c == a + NewLine + (b + NewLine + c)
  {
  }

  /** Six lines each free of the separator split back into themselves. */
  lemma SixLines(l0: string, l1: string, l2: string, l3: string, l4: string, l5: string)
    requires Clean(l0, NewLine) && Clean(l1, NewLine) && Clean(l2, NewLine)
    requires Clean(l3, NewLine) && Clean(l4, NewLine) && Clean(l5, NewLine)
    ensures Split(l0 + NewLine + l1 + NewLine + l2 + NewLine + l3 + NewLine + l4 + NewLine + l5, NewLine)
      == [l0, l1, l2, l3, l4, l5]
  {
    var t4 := l4 + NewLine + l5;
    var t3 := l3 + NewLine + t4;
    var t2 := l2 + NewLine + t3;
    var t1 := l1 + NewLine + t2;
    var p1 := l0 + NewLine + l1;
    var p2 := p1 + NewLine + l2;
    var p3 := p2 + NewLine + l3;
    GlueRight(p3, l4, l5);
    GlueRight(p2, l3, t4);
    GlueRight(p1, l2, t3);
    GlueRight(l0, l1, t2);
    SplitClean(l5, NewLine);
    SplitPrefix(l4, NewLine, l5);
    SplitPrefix(l3, NewLine, t4);
    SplitPrefix(l2, NewLine, t3);
    SplitPrefix(l1, NewLine, t2);
    SplitPrefix(l0, NewLine, t1);
  }

  /** The banner reads back as its six lines. */
  lemma BannerLines(cn: string, hook: string)
    requires '\n' !in cn && '\n' !in hook
    ensures Split(Banner(cn, hook), NewLine) == [Rule(), NoticeLine, RemoveLine, ShellDir, InvokeLine(cn, hook), Rule()]
  {
    var rule, invoke := Rule(), InvokeLine(cn, hook);
    NoticeLineNewlineFree();
    RemoveLineNewlineFree();
    ShellDirNewlineFree();
    InvokeLineNewlineFree(cn, hook);
    CleanChar(rule, '\n');
    CleanChar(NoticeLine, '\n');
    CleanChar(RemoveLine, '\n');
    CleanChar(ShellDir, '\n');
    CleanChar(invoke, '\n');
    SixLines(rule, NoticeLine, RemoveLine, ShellDir, invoke, rule);
  }

  // ---------------------------------------------------------------- editing hook text

  /** pruneHookText: the first occurrence of the banner is cut out; text without one is unchanged. */
  function PruneHookText(text: string, cn: string, hook: string): (r: string)
    ensures RemovedFirst(text, Banner(cn, hook), r)
  {
    ReplaceFirstRemoves(text, Banner(cn, hook));
    ReplaceFirst(text, Banner(cn, hook), "")
  }

  /** A falsy text (missing or empty) gets the banner alone. */
  predicate HasText(text: Option<string>)
  {
    text.Some? && text.value != ""
  }

  /**
   * installHookText: any earlier banner is pruned and the banner is appended after a blank line,
   * so the result always ends with the banner and a newline.
   */
  function InstallHookText(text: Option<string>, cn: string, hook: string): (r: string)
    ensures EndsWith(r, Banner(cn, hook) + NewLine)
    ensures HasText(text) ==> r == (PruneHookText(text.value, cn, hook) + "\n\n") + (Banner(cn, hook) + NewLine)
    ensures !HasText(text) ==> r == Banner(cn, hook) + NewLine
  {
    var front := if HasText(text) then PruneHookText(text.value, cn, hook) + NewLine + NewLine else "";
    assert HasText(text) ==> front == PruneHookText(text.value, cn, hook) + "\n\n";
    assert !HasText(text) ==> front + (Banner(cn, hook) + NewLine) == Banner(cn, hook) + NewLine;
    EndsWithAppend(front, Banner(cn, hook) + NewLine);
    front + (Banner(cn, hook) + NewLine)
  }

  /** A banner followed by a newline holds that banner once. */
  lemma BannerLineCount(b: string)
    requires BannerLike(b)
    ensures Count(b + NewLine, b) == 1
  {
    var s := b + NewLine;
    assert At(s, b, 0) by { assert s[..|b|] == b; }
    var t := s[1..];
    assert !At(t, b, 0) by { assert t[|b| - 1] == '\n'; }
    assert Count(t[1..], b) == 0;
  }

  /** No occurrence of a banner straddles text, a blank line, and the banner line after it. */
  lemma NoStraddleBlank(q: string, b: string)
    requires BannerLike(b)
    ensures NoStraddle(q, "\n\n", b)
    ensures NoStraddle(q + "\n\n", b + NewLine, b)
    ensures NoStraddle(q, NewLine, b)
  {
    forall i: nat | i < |q| < i + |b| <= |q| + 2 ensures !At(q + "\n\n", b, i) {
      assert (q + "\n\n")[i + |b| - 1] == '\n';
    }
    var p := q + "\n\n";
    forall i: nat | i < |p| < i + |b| <= |p| + |b| + 1 ensures !At(p + (b + NewLine), b, i) {
      var s := p + (b + NewLine);
      if i == |p| - 1 {
        assert s[i] == '\n';
      } else {
        assert s[|q|] == '\n' && s[|q| + 1] == '\n';
        assert 0 <= |q| - i < |b| - 1;
        assert !(b[|q| - i] == '\n' && b[|q| - i + 1] == '\n');
      }
    }
    forall i: nat | i < |q| < i + |b| <= |q| + 1 ensures !At(q + NewLine, b, i) {
      assert (q + NewLine)[i + |b| - 1] == '\n';
    }
  }

  /** Appending a blank line and a banner line adds exactly one banner. */
  lemma AppendedBannerCount(q: string, b: string)
    requires BannerLike(b)
    ensures Count((q + "\n\n") + (b + NewLine), b) == Count(q, b) + 1
  {
    NoStraddleBlank(q, b);
    BannerLineCount(b);
    CountAppend(q + "\n\n", b + NewLine, b);
    CountAppend(q, "\n\n", b);
    assert Count("\n\n", b) == 0;
  }

  /** A banner appended to text holding none is the first occurrence of the banner. */
  lemma TrailingBannerFirst(x: string, b: string)
    requires BannerLike(b) && Count(x, b) == 0 && NoStraddle(x, b + NewLine, b)
    ensures IndexOf(x + (b + NewLine), b) == Some(|x|)
  {
    var s := x + (b + NewLine);
    CountZero(x, b);
    assert At(s, b, |x|) by { assert s[|x|..|x| + |b|] == b; }
    forall j: nat | j < |x| ensures !At(s, b, j) {
      if j + |b| <= |x| {
        assert s[j..j + |b|] == x[j..j + |b|];
        assert !At(x, b, j);
      } else {
        assert j < |x| < j + |b| <= |x| + |b + NewLine|;
      }
    }
  }

  /** Cutting the one banner out of text that ends with it leaves the text and its final newline. */
  lemma PruneTrailingBanner(x: string, b: string)
    requires BannerLike(b) && Count(x, b) == 0 && NoStraddle(x, b + NewLine, b)
    ensures ReplaceFirst(x + (b + NewLine), b, "") == x + NewLine
    ensures Count(x + NewLine, b) == 0
  {
    var s := x + (b + NewLine);
    TrailingBannerFirst(x, b);
    assert s[..|x|] == x && s[|x| + |b|..] == NewLine;
    NoStraddleBlank(x, b);
    CountAppend(x, NewLine, b);
    assert Count(NewLine, b) == 0;
  }

  /** Installing adds exactly one banner to what pruning left. */
  lemma InstallAddsOneBanner(text: Option<string>, cn: string, hook: string)
    requires '\n' !in cn && '\n' !in hook
    ensures var b := Banner(cn, hook);
      Count(InstallHookText(text, cn, hook), b)
        == (if HasText(text) then Count(PruneHookText(text.value, cn, hook), b) else 0) + 1
  {
    var b := Banner(cn, hook);
    BannerShape(cn, hook);
    if HasText(text) {
      AppendedBannerCount(PruneHookText(text.value, cn, hook), b);
    } else {
      BannerLineCount(b);
    }
  }

  /** Hence text whose pruned form holds no banner ends up holding exactly one. */
  lemma InstallKeepsOneBanner(text: Option<string>, cn: string, hook: string)
    requires '\n' !in cn && '\n' !in hook
    requires HasText(text) ==> Count(PruneHookText(text.value, cn, hook), Banner(cn, hook)) == 0
    ensures Count(InstallHookText(text, cn, hook), Banner(cn, hook)) == 1
  {
    InstallAddsOneBanner(text, cn, hook);
  }

  /** What an install leaves, in terms of the block alone: cutting its one banner out leaves the text before and a newline. */
  lemma InstalledBannerCut(p: string, hasText: bool, b: string)
    requires BannerLike(b)
    requires var x := if hasText then p + "\n\n" else ""; Count(x + (b + NewLine), b) == 1
    ensures var x := if hasText then p + "\n\n" else "";
      ReplaceFirst(x + (b + NewLine), b, "") == x + NewLine && Count(x + NewLine, b) == 0
  {
    var x := if hasText then p + "\n\n" else "";
    if hasText {
      NoStraddleBlank(p, b);
    }
    BannerLineCount(b);
    CountAppend(x, b + NewLine, b);
    PruneTrailingBanner(x, b);
  }

  /**
   * Installing again over an installed hook keeps the one banner: pruning cuts out that banner and
   * leaves its newline, and the banner goes back after a further blank line.
   */
  lemma ReinstallKeepsOneBanner(text: Option<string>, cn: string, hook: string)
    requires '\n' !in cn && '\n' !in hook
    requires Count(InstallHookText(text, cn, hook), Banner(cn, hook)) == 1
    ensures var s := InstallHookText(text, cn, hook);
      && PruneHookText(s, cn, hook) == s[..|s| - |Banner(cn, hook)| - 1] + NewLine
      && Count(InstallHookText(Some(s), cn, hook), Banner(cn, hook)) == 1
  {
    var b := Banner(cn, hook);
    var s := InstallHookText(text, cn, hook);
    var p := if HasText(text) then PruneHookText(text.value, cn, hook) else "";
    var x := if HasText(text) then p + "\n\n" else "";
    assert s == x + (b + NewLine);
    BannerShape(cn, hook);
    InstalledBannerCut(p, HasText(text), b);
    assert s[..|s| - |b| - 1] == x;
    InstallAddsOneBanner(Some(s), cn, hook);
  }

  // ---------------------------------------------------------------- files

  datatype FsError = FsError(code: string, path: string)

  const NotFound: string := "ENOENT"
  const AccessDenied: string := "EACCES"

  /** ignoreFileNotFound on a failed read: a missing file reads as no text, any other error stands. */
  function IgnoreFileNotFound(read: Result<string, FsError>): (r: Result<Option<string>, FsError>)
    ensures read.Ok? ==> r == Ok(Some(read.value))
    ensures read.Err? && read.error.code == NotFound ==> r == Ok(None)
    ensures r.Err? <==> read.Err? && read.error.code != NotFound
    ensures r.Err? ==> r.error == read.error
  {
    match read
    case Ok(text) => Ok(Some(text))
    case Err(e) => if e.code == NotFound then Ok(None) else Err(e)
  }

  /** getHookSkeleton's substitution: every placeholder becomes the passphrase. */
  function HookSkeletonText(skeleton: string, passphrase: string): string
  {
    ReplaceAll(skeleton, PassToken, passphrase)
  }

  /**
   * A skeleton made of placeholder-separated pieces gets the passphrase at every placeholder,
   * when no placeholder starts inside a piece (whole, or running on into the next placeholder).
   */
  lemma SkeletonSubstitution(pieces: seq<string>, passphrase: string)
    requires forall i :: 0 <= i < |pieces| ==> TokenFree(pieces[i] + PassToken, PassToken, |pieces[i]|)
    ensures HookSkeletonText(Join(pieces, PassToken), passphrase) == Join(pieces, passphrase)
  {
    ReplaceAllJoin(pieces, PassToken, passphrase);
  }

  /**
   * The files of a repository's hooks directory: contents and the permissions set on them. Every
   * operation on a path in `denied` fails with EACCES.
   */
  /** `m` and `m'` agree at `k`: both lack it, or both hold the same value there. */
  predicate SameEntry(m: map<string, string>, m': map<string, string>, k: string)
  {
    (k in m <==> k in m') && (k in m ==> m[k] == m'[k])
  }

  class HookFs {
    var files: map<string, string>
    var modes: map<string, string>
    const denied: set<string>

    constructor (files: map<string, string>, denied: set<string>)
      ensures this.files == files && modes == map[] && this.denied == denied
    {
      this.files := files;
      modes := map[];
      this.denied := denied;
    }

    /** What reading `path` gives. */
    function Read(path: string): (r: Result<string, FsError>)
      reads this
      ensures r.Ok? <==> path !in denied && path in files
      ensures r.Ok? ==> r.value == files[path]
      ensures r.Err? ==> r.error == FsError(if path in denied then AccessDenied else NotFound, path)
    {
      if path in denied then Err(FsError(AccessDenied, path))
      else if path in files then Ok(files[path])
      else Err(FsError(NotFound, path))
    }

    method Write(path: string, data: string) returns (r: Result<(), FsError>)
      modifies this
      ensures path in denied ==> r == Err(FsError(AccessDenied, path)) && files == old(files)
      ensures path !in denied ==> r == Ok(()) && files == old(files)[path := data]
      ensures modes == old(modes)
    {
      if path in denied {
        return Err(FsError(AccessDenied, path));
      }
      files := files[path := data];
      r := Ok(());
    }

    method Chmod(path: string, perms: string) returns (r: Result<(), FsError>)
      modifies this
      ensures path in denied ==> r == Err(FsError(AccessDenied, path)) && modes == old(modes)
      ensures path !in denied && path !in files ==> r == Err(FsError(NotFound, path)) && modes == old(modes)
      ensures path !in denied && path in files ==> r == Ok(()) && modes == old(modes)[path := perms]
      ensures files == old(files)
    {
      if path in denied {
        return Err(FsError(AccessDenied, path));
      }
      if path !in files {
        return Err(FsError(NotFound, path));
      }
      modes := modes[path := perms];
      r := Ok(());
    }

    method Unlink(path: string) returns (r: Result<(), FsError>)
      modifies this
      ensures path in denied ==> r == Err(FsError(AccessDenied, path)) && files == old(files) && modes == old(modes)
      ensures path !in denied && path !in old(files) ==>
        r == Err(FsError(NotFound, path)) && files == old(files) && modes == old(modes)
      ensures path !in denied && path in old(files) ==>
        r == Ok(()) && files == old(files) - {path} && modes == old(modes) - {path}
    {
      if path in denied {
        return Err(FsError(AccessDenied, path));
      }
      if path !in files {
        return Err(FsError(NotFound, path));
      }
      files := files - {path};
      modes := modes - {path};
      r := Ok(());
    }

    /** The master hook's text before an install: none when the file is missing. */
    function Existing(path: string): Option<string>
      reads this
    {
      if path in files then Some(files[path]) else None
    }

    /**
     * updateMasterExecutable: read the master hook (a missing one is empty), install the banner
     * into it, write it back and make it user-only.
     */
    method UpdateMasterExecutable(root: string, cn: string, hook: string) returns (r: Result<(), FsError>)
      modifies this
      ensures var p := Hpath(root, hook);
        && (p in denied ==> r == Err(FsError(AccessDenied, p)) && files == old(files) && modes == old(modes))
        && (p !in denied ==>
              && r == Ok(())
              && files == old(files)[p := InstallHookText(old(Existing(p)), cn, hook)]
              && modes == old(modes)[p := UserOnly])
    {
      var p := Hpath(root, hook);
      var text := IgnoreFileNotFound(Read(p));
      if text.Err? {
        return Err(text.error);
      }
      var w := Write(p, InstallHookText(text.value, cn, hook));
      r := Chmod(p, UserOnly);
    }

    /** pruneMasterExecutable: read the master hook, cut out the banner, write it back. */
    method PruneMasterExecutable(root: string, cn: string, hook: string) returns (r: Result<(), FsError>)
      modifies this
      ensures modes == old(modes)
      ensures var p := Hpath(root, hook);
        && (old(Read(p)).Err? ==> r == Err(old(Read(p)).error) && files == old(files))
        && (old(Read(p)).Ok? ==> r == Ok(()) && files == old(files)[p := PruneHookText(old(files)[p], cn, hook)])
    {
      var p := Hpath(root, hook);
      var text := Read(p);
      if text.Err? {
        return Err(text.error);
      }
      r := Write(p, PruneHookText(text.value, cn, hook));
    }

    /** installExecutable: write the system's script from the skeleton and make it user-only. */
    method InstallExecutable(root: string, cn: string, hook: string, skeleton: Result<string, FsError>,
                             passphrase: string)
      returns (r: Result<(), FsError>)
      modifies this
      ensures var q := Hpath(root, ClusternateHook(cn, hook));
        && (skeleton.Err? ==> r == Err(skeleton.error) && files == old(files) && modes == old(modes))
        && (skeleton.Ok? && q in denied ==> r == Err(FsError(AccessDenied, q)) && files == old(files) && modes == old(modes))
        && (skeleton.Ok? && q !in denied ==>
              && r == Ok(())
              && files == old(files)[q := HookSkeletonText(skeleton.value, passphrase)]
              && modes == old(modes)[q := UserOnly])
    {
      if skeleton.Err? {
        return Err(skeleton.error);
      }
      var q := Hpath(root, ClusternateHook(cn, hook));
      r := Write(q, HookSkeletonText(skeleton.value, passphrase));
      if r.Ok? {
        r := Chmod(q, UserOnly);
      }
    }

    /** pruneExecutable: unlink the system's script; any failure is ignored. */
    method PruneExecutable(root: string, cn: string, hook: string) returns (r: Result<(), FsError>)
      modifies this
      ensures r == Ok(())
      ensures var q := Hpath(root, ClusternateHook(cn, hook));
        && (q !in denied && q in old(files) ==> files == old(files) - {q} && modes == old(modes) - {q})
        && (q in denied || q !in old(files) ==> files == old(files) && modes == old(modes))
    {
      var q := Hpath(root, ClusternateHook(cn, hook));
      var u := Unlink(q);
      r := Ok(());
    }

    /**
     * installHook: update the master hook and install the script (two different files); it fails
     * when either half fails, the master hook's error reported first.
     */
    method InstallHook(root: string, cn: string, hook: string, skeleton: Result<string, FsError>, passphrase: string)
      returns (r: Result<(), FsError>)
      modifies this
      ensures var p, q := Hpath(root, hook), Hpath(root, ClusternateHook(cn, hook));
        && (r.Ok? <==> p !in denied && q !in denied && skeleton.Ok?)
        && (p !in denied ==>
              p in files && files[p] == InstallHookText(old(Existing(p)), cn, hook) && p in modes && modes[p] == UserOnly)
        && (q !in denied && skeleton.Ok? ==>
              q in files && files[q] == HookSkeletonText(skeleton.value, passphrase) && q in modes && modes[q] == UserOnly)
        && (p in denied ==> SameEntry(old(files), files, p) && SameEntry(old(modes), modes, p))
        && (q in denied || skeleton.Err? ==> SameEntry(old(files), files, q) && SameEntry(old(modes), modes, q))
        && (forall x :: x != p && x != q ==>
              (x in files <==> x in old(files)) && (x in files ==> files[x] == old(files)[x])
              && (x in modes <==> x in old(modes)) && (x in modes ==> modes[x] == old(modes)[x]))
    {
      ScriptAndHookApart(root, cn, hook);
      var master := UpdateMasterExecutable(root, cn, hook);
      var script := InstallExecutable(root, cn, hook, skeleton, passphrase);
      r := if master.Err? then master else script;
    }

    /**
     * pruneHook: prune the master hook and unlink the script. A missing master hook fails the
     * removal (its error is not ignored here); the script's removal never does.
     */
    method PruneHook(root: string, cn: string, hook: string) returns (r: Result<(), FsError>)
      modifies this
      ensures var p, q := Hpath(root, hook), Hpath(root, ClusternateHook(cn, hook));
        && r == (if old(Read(p)).Err? then Err(old(Read(p)).error) else Ok(()))
        && (old(Read(p)).Ok? ==> p in files && files[p] == PruneHookText(old(files)[p], cn, hook))
        && (old(Read(p)).Err? ==> SameEntry(old(files), files, p))
        && (q in denied ==> SameEntry(old(files), files, q))
        && (q !in denied ==> q !in files)
        && (q !in denied && q in old(files) ==> modes == old(modes) - {q})
        && (q in denied || q !in old(files) ==> modes == old(modes))
        && (forall x :: x != p && x != q ==>
              (x in files <==> x in old(files)) && (x in files ==> files[x] == old(files)[x]))
    {
      ScriptAndHookApart(root, cn, hook);
      var master := PruneMasterExecutable(root, cn, hook);
      var script := PruneExecutable(root, cn, hook);
      r := master;
    }
  }
}
