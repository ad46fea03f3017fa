/** The comment directives at the top of a source file (build-dir,
    iife-params, iife-args, no-iife and the banner comment) and the splice
    of the IIFE parameters and arguments into a bundle. */
module Directives {
  import opened Wrappers
  import opened LineRegex
  import opened Text

  // The build directory

  /** The build directory written in a build-dir comment, as the compiler
      normalises it: trimmed, '/' turned into '\', and a trailing '\'
      appended when it is not empty.  For JavaScript the compiler also
      replaces every '+' by '\'. */
  function NormalizeBuildDir(raw: string, plusToBackslash: bool): string
  {
    var d0 := ReplaceChar(Trim(raw), '/', '\\');
    var d := if plusToBackslash then ReplaceChar(d0, '+', '\\') else d0;
    if d != "" && !EndsWith(d, "\\") then d + "\\" else d
  }

  /** The replacements keep the length and put no '/' (and, for JavaScript,
      no '+') into the directory. */
  lemma ReplacedBuildDir(t: string, plusToBackslash: bool)
    ensures var d0 := ReplaceChar(t, '/', '\\');
      var d := if plusToBackslash then ReplaceChar(d0, '+', '\\') else d0;
      |d| == |t| && '/' !in d && (plusToBackslash ==> '+' !in d) &&
      forall i :: 0 <= i < |t| && !IsWhiteSpace(t[i]) ==> !IsWhiteSpace(d[i])
  {
    var d0 := ReplaceChar(t, '/', '\\');
    var d := if plusToBackslash then ReplaceChar(d0, '+', '\\') else d0;
    ReplaceCharAt(t, '/', '\\');
    ReplaceCharAt(d0, '+', '\\');
    assert forall i :: 0 <= i < |d| ==> d[i] != '/' && (plusToBackslash ==> d[i] != '+');
  }

  /** A build directory is empty exactly when the written value is blank;
      otherwise it neither starts nor ends with white space, contains no '/'
      (and, for JavaScript, no '+') and ends with '\'. */
  lemma NormalizeBuildDirShape(raw: string, plusToBackslash: bool)
    ensures var d := NormalizeBuildDir(raw, plusToBackslash);
      (d == "" <==> Trim(raw) == "") &&
      '/' !in d &&
      (plusToBackslash ==> '+' !in d) &&
      (d != "" ==> EndsWith(d, "\\") && !IsWhiteSpace(d[0]) && !IsWhiteSpace(d[|d| - 1]))
  {
    var t := Trim(raw);
    var d0 := ReplaceChar(t, '/', '\\');
    var d1 := if plusToBackslash then ReplaceChar(d0, '+', '\\') else d0;
    ReplacedBuildDir(t, plusToBackslash);
    TrimEnds(raw);
    if t != [] {
      assert !IsWhiteSpace(d1[0]) && !IsWhiteSpace(d1[|d1| - 1]);
    }
  }

  /** Normalising a normalised build directory changes nothing. */
  lemma NormalizeBuildDirIdempotent(raw: string, plusToBackslash: bool)
    ensures var d := NormalizeBuildDir(raw, plusToBackslash);
      NormalizeBuildDir(d, plusToBackslash) == d
  {
    var d := NormalizeBuildDir(raw, plusToBackslash);
    NormalizeBuildDirShape(raw, plusToBackslash);
    if d != "" {
      TrimUnchanged(d);
      ReplaceCharAbsent(d, '/', '\\');
      if plusToBackslash {
        ReplaceCharAbsent(d, '+', '\\');
      }
    }
  }

  /** The build directory a single line gives, "" when the line is not a
      build-dir comment or its value is blank. */
  function LineBuildDir(line: string, pattern: Capture, plusToBackslash: bool): string
  {
    match Captured(pattern, line)
    case Some(v) => NormalizeBuildDir(v, plusToBackslash)
    case None => ""
  }

  /** The directives are looked for in the first ten lines only. */
  function HeaderCount(lines: seq<string>): (n: nat)
    ensures n <= |lines| && n <= 10 && (n < 10 ==> n == |lines|)
  {
    if |lines| < 10 then |lines| else 10
  }

  /** The build directory of the first n lines: that of the first line that
      gives a non-empty one, or "". */
  function FirstBuildDir(lines: seq<string>, n: nat, pattern: Capture, plusToBackslash: bool): string
    requires n <= |lines|
  {
    if n == 0 then ""
    else
      var d := FirstBuildDir(lines, n - 1, pattern, plusToBackslash);
      if d != "" then d else LineBuildDir(lines[n - 1], pattern, plusToBackslash)
  }

  /** Without a line that gives a build directory it stays empty. */
  lemma {:induction false} FirstBuildDirNone(lines: seq<string>, n: nat, pattern: Capture, plus: bool)
    requires n <= |lines|
    requires forall k :: 0 <= k < n ==> LineBuildDir(lines[k], pattern, plus) == ""
    ensures FirstBuildDir(lines, n, pattern, plus) == ""
  {
    if n > 0 {
      FirstBuildDirNone(lines, n - 1, pattern, plus);
    }
  }

  /** The first line with a non-empty build directory decides. */
  lemma {:induction false} FirstBuildDirAt(lines: seq<string>, n: nat, pattern: Capture, plus: bool, k: nat)
    requires k < n <= |lines| && LineBuildDir(lines[k], pattern, plus) != ""
    requires forall j :: 0 <= j < k ==> LineBuildDir(lines[j], pattern, plus) == ""
    ensures FirstBuildDir(lines, n, pattern, plus) == LineBuildDir(lines[k], pattern, plus)
  {
    if n == k + 1 {
      FirstBuildDirNone(lines, k, pattern, plus);
      FirstBuildDirFound(lines, n, pattern, plus);
    } else {
      FirstBuildDirAt(lines, n - 1, pattern, plus, k);
      FirstBuildDirKept(lines, n, pattern, plus);
    }
  }

  /** Until a build directory is found, the next line gives it. */
  lemma FirstBuildDirFound(lines: seq<string>, n: nat, pattern: Capture, plus: bool)
    requires 0 < n <= |lines| && FirstBuildDir(lines, n - 1, pattern, plus) == ""
    ensures FirstBuildDir(lines, n, pattern, plus) == LineBuildDir(lines[n - 1], pattern, plus)
  {
  }

  /** Once a build directory is found, later lines do not change it. */
  lemma FirstBuildDirKept(lines: seq<string>, n: nat, pattern: Capture, plus: bool)
    requires 0 < n <= |lines| && FirstBuildDir(lines, n - 1, pattern, plus) != ""
    ensures FirstBuildDir(lines, n, pattern, plus) == FirstBuildDir(lines, n - 1, pattern, plus)
  {
  }

  /** The build-dir scan of the CSS and SCSS compilers: reads the first ten
      lines and keeps the first non-empty build directory. */
  method ScanBuildDir(lines: seq<string>, pattern: Capture) returns (buildDir: string)
    ensures buildDir == FirstBuildDir(lines, HeaderCount(lines), pattern, false)
  {
    buildDir := "";
    var lineNumber := 0;
    while lineNumber < |lines| && lineNumber < 10
      invariant lineNumber <= HeaderCount(lines)
      invariant buildDir == FirstBuildDir(lines, lineNumber, pattern, false)
    {
      var line := lines[lineNumber];
      lineNumber := lineNumber + 1;
      var m := Captured(pattern, line);
      if m.Some? && buildDir == "" {
        buildDir := NormalizeBuildDir(m.value, false);
      }
    }
  }

  // The JavaScript header

  /** What the JavaScript compiler takes from the header of a source file:
      the banner option, the IIFE parameters and arguments, whether the
      bundle is not wrapped in an IIFE, and the build directory. */
  datatype JsHeader = JsHeader(banner: string, iifeParams: string, iifeArgs: string, noIife: bool, buildDir: string)

  /** The value of the last of the first n lines that matches, or "" when
      none does. */
  function LastMatch(lines: seq<string>, n: nat, pattern: Capture): string
    requires n <= |lines|
  {
    if n == 0 then ""
    else match Captured(pattern, lines[n - 1])
      case Some(v) => v
      case None => LastMatch(lines, n - 1, pattern)
  }

  /** The last matching line decides. */
  lemma {:induction false} LastMatchAt(lines: seq<string>, n: nat, pattern: Capture, k: nat)
    requires k < n <= |lines| && Captured(pattern, lines[k]).Some?
    requires forall j :: k < j < n ==> Captured(pattern, lines[j]).None?
    ensures LastMatch(lines, n, pattern) == Captured(pattern, lines[k]).value
  {
    if n > k + 1 {
      assert Captured(pattern, lines[n - 1]).None?;
      LastMatchAt(lines, n - 1, pattern, k);
    }
  }

  /** Without a matching line the value stays empty. */
  lemma {:induction false} LastMatchNone(lines: seq<string>, n: nat, pattern: Capture)
    requires n <= |lines|
    requires forall k :: 0 <= k < n ==> Captured(pattern, lines[k]).None?
    ensures LastMatch(lines, n, pattern) == ""
  {
    if n > 0 {
      assert Captured(pattern, lines[n - 1]).None?;
      LastMatchNone(lines, n - 1, pattern);
    }
  }

  /** Whether one of the first n lines matches. */
  predicate AnyMatch(lines: seq<string>, n: nat, pattern: LineSet)
    requires n <= |lines|
  {
    n > 0 && (lines[n - 1] in pattern || AnyMatch(lines, n - 1, pattern))
  }

  /** AnyMatch holds exactly when some line among the first n matches. */
  lemma {:induction false} AnyMatchExists(lines: seq<string>, n: nat, pattern: LineSet)
    requires n <= |lines|
    ensures AnyMatch(lines, n, pattern) <==> exists k :: 0 <= k < n && lines[k] in pattern
  {
    if n > 0 {
      AnyMatchExists(lines, n - 1, pattern);
      if AnyMatch(lines, n - 1, pattern) {
        var k :| 0 <= k < n - 1 && lines[k] in pattern;
        assert 0 <= k < n && lines[k] in pattern;
      }
    }
  }

  /** The banner option: taken from a banner comment on the first line
      only, once that line has been read. */
  function BannerOption(lines: seq<string>, n: nat, pattern: Capture): string
    requires n <= |lines|
  {
    if n > 0 && Captured(pattern, lines[0]).Some? then " --banner \"" + Captured(pattern, lines[0]).value + "\"" else ""
  }

  /** The directives of a JavaScript header. */
  function JsHeaderOf(
    lines: seq<string>,
    banner: Capture, iifeParams: Capture,
    iifeArgs: Capture, noIife: LineSet, buildDir: Capture): JsHeader
  {
    var n := HeaderCount(lines);
    JsHeader(BannerOption(lines, n, banner), LastMatch(lines, n, iifeParams), LastMatch(lines, n, iifeArgs),
      AnyMatch(lines, n, noIife), FirstBuildDir(lines, n, buildDir, true))
  }

  /** The header scan of the JavaScript compiler over the first ten lines. */
  method ScanJsHeader(
    lines: seq<string>,
    banner: Capture, iifeParams: Capture,
    iifeArgs: Capture, noIife: LineSet, buildDir: Capture)
    returns (h: JsHeader)
    ensures h == JsHeaderOf(lines, banner, iifeParams, iifeArgs, noIife, buildDir)
  {
    var bannerOpt, params, args, none, dir := "", "", "", false, "";
    var lineNumber := 0;
    while lineNumber < |lines| && lineNumber < 10
      invariant lineNumber <= HeaderCount(lines)
      invariant bannerOpt == BannerOption(lines, lineNumber, banner)
      invariant params == LastMatch(lines, lineNumber, iifeParams)
      invariant args == LastMatch(lines, lineNumber, iifeArgs)
      invariant none == AnyMatch(lines, lineNumber, noIife)
      invariant dir == FirstBuildDir(lines, lineNumber, buildDir, true)
    {
      var line := lines[lineNumber];
      lineNumber := lineNumber + 1;
      var m := Captured(banner, line);
      if lineNumber == 1 && m.Some? {
        bannerOpt := " --banner \"" + m.value + "\"";
      }
      m := Captured(iifeParams, line);
      if m.Some? {
        params := m.value;
      }
      m := Captured(iifeArgs, line);
      if m.Some? {
        args := m.value;
      }
      if line in noIife {
        none := true;
      }
      m := Captured(buildDir, line);
      if m.Some? && dir == "" {
        dir := NormalizeBuildDir(m.value, true);
      }
    }
    h := JsHeader(bannerOpt, params, args, none, dir);
  }

  // The IIFE splice

  /** The outcome of one search loop of the splice: the index of the matching
      line, no match within the three lines, or an index out of the array. */
  datatype Search = Found(index: nat) | NoMatch | OutOfRange

  /** The forward search over the first three lines, from line i on. */
  function SearchFirst(s: seq<string>, open: LineSet, i: nat): (r: Search)
    requires i <= 3
    ensures r.Found? ==> i <= r.index < 3 && r.index < |s| && s[r.index] in open
    decreases 3 - i
  {
    if i >= 3 then NoMatch
    else if i >= |s| then OutOfRange
    else if s[i] in open then Found(i)
    else SearchFirst(s, open, i + 1)
  }

  /** The backward search over the last three lines, from line i down. */
  function SearchLast(s: seq<string>, close: LineSet, i: int): (r: Search)
    requires |s| - 4 <= i < |s|
    ensures r.Found? ==> |s| - 3 <= r.index <= i && s[r.index] in close
    decreases i - |s| + 4
  {
    if i <= |s| - 4 then NoMatch
    else if i < 0 then OutOfRange
    else if s[i] in close then Found(i)
    else SearchLast(s, close, i - 1)
  }

  /** string.Replace("()", "(" + inner + ")") on one line. */
  function FillParens(line: string, inner: string): string
  {
    ReplaceAll(line, "()", "(" + inner + ")")
  }

  /** The first loop of the splice: the first of the first three lines that
      opens the IIFE gets the parameters. */
  function FillFirst(s: seq<string>, open: LineSet, params: string): Option<seq<string>>
  {
    match SearchFirst(s, open, 0)
    case Found(k) => Some(s[k := FillParens(s[k], params)])
    case NoMatch => Some(s)
    case OutOfRange => None
  }

  /** The second loop: the last of the last three lines that closes the IIFE
      gets the arguments. */
  function FillLast(s: seq<string>, close: LineSet, args: string): Option<seq<string>>
  {
    match SearchLast(s, close, |s| - 1)
    case Found(k) => Some(s[k := FillParens(s[k], args)])
    case NoMatch => Some(s)
    case OutOfRange => None
  }

  /** The bundle after the splice, or None for the IndexOutOfRangeException
      of a bundle with fewer than three lines. */
  function Spliced(s: seq<string>, open: LineSet, close: LineSet, params: string, args: string): Option<seq<string>>
  {
    match FillFirst(s, open, params)
    case Some(t) => FillLast(t, close, args)
    case None => None
  }

  lemma {:induction false} SearchFirstAt(s: seq<string>, open: LineSet, i: nat, k: nat)
    requires i <= k < 3 && k < |s| && s[k] in open
    requires forall j :: i <= j < k ==> s[j] !in open
    ensures SearchFirst(s, open, i) == Found(k)
    decreases k - i
  {
    if i < k {
      SearchFirstAt(s, open, i + 1, k);
    }
  }

  lemma {:induction false} SearchFirstNone(s: seq<string>, open: LineSet, i: nat)
    requires i <= 3 && 3 <= |s|
    requires forall k :: i <= k < 3 ==> s[k] !in open
    ensures SearchFirst(s, open, i) == NoMatch
    decreases 3 - i
  {
    if i < 3 {
      SearchFirstNone(s, open, i + 1);
    }
  }

  lemma {:induction false} SearchLastAt(s: seq<string>, close: LineSet, i: int, k: nat)
    requires |s| - 3 <= k <= i < |s| && s[k] in close
    requires forall j :: k < j <= i ==> s[j] !in close
    ensures SearchLast(s, close, i) == Found(k)
    decreases i - k
  {
    if k < i {
      SearchLastAt(s, close, i - 1, k);
    }
  }

  lemma {:induction false} SearchLastNone(s: seq<string>, close: LineSet, i: int)
    requires |s| - 4 <= i < |s| && 3 <= |s|
    requires forall k :: |s| - 3 <= k <= i ==> s[k] !in close
    ensures SearchLast(s, close, i) == NoMatch
    decreases i - |s| + 4
  {
    if i > |s| - 4 {
      SearchLastNone(s, close, i - 1);
    }
  }

  /** The first loop changes only the first opening line among the first
      three, by filling its "()". */
  lemma FillFirstLines(s: seq<string>, open: LineSet, params: string)
    requires 3 <= |s|
    ensures var r := FillFirst(s, open, params);
      r.Some? && |r.value| == |s| &&
      (forall i :: 3 <= i < |s| ==> r.value[i] == s[i]) &&
      (forall i :: 0 <= i < 3 ==>
        r.value[i] == if s[i] in open && (forall j :: 0 <= j < i ==> s[j] !in open) then FillParens(s[i], params) else s[i])
  {
    if s[0] in open {
      SearchFirstAt(s, open, 0, 0);
    } else if s[1] in open {
      SearchFirstAt(s, open, 0, 1);
    } else if s[2] in open {
      SearchFirstAt(s, open, 0, 2);
    } else {
      SearchFirstNone(s, open, 0);
    }
  }

  /** The second loop changes only the last closing line among the last
      three, by filling its "()". */
  lemma FillLastLines(s: seq<string>, close: LineSet, args: string)
    requires 3 <= |s|
    ensures var r := FillLast(s, close, args);
      var n := |s|;
      r.Some? && |r.value| == n &&
      (forall i :: 0 <= i < n - 3 ==> r.value[i] == s[i]) &&
      (forall i :: n - 3 <= i < n ==>
        r.value[i] == if s[i] in close && (forall j :: i < j < n ==> s[j] !in close) then FillParens(s[i], args) else s[i])
  {
    var n := |s|;
    if s[n - 1] in close {
      SearchLastAt(s, close, n - 1, n - 1);
    } else if s[n - 2] in close {
      SearchLastAt(s, close, n - 1, n - 2);
    } else if s[n - 3] in close {
      SearchLastAt(s, close, n - 1, n - 3);
    } else {
      SearchLastNone(s, close, n - 1);
    }
  }

  /** A bundle of at least three lines is always spliced; a shorter one
      without an opening line makes the splice throw. */
  lemma SplicedDefined(s: seq<string>, open: LineSet, close: LineSet, params: string, args: string)
    ensures 3 <= |s| ==> Spliced(s, open, close, params, args).Some?
    ensures |s| < 3 && (forall k :: 0 <= k < |s| ==> s[k] !in open) ==> Spliced(s, open, close, params, args).None?
  {
    if 3 <= |s| {
      FillFirstLines(s, open, params);
      FillLastLines(FillFirst(s, open, params).value, close, args);
    } else if forall k :: 0 <= k < |s| ==> s[k] !in open {
      assert |s| > 0 ==> s[0] !in open;
      assert |s| > 1 ==> s[1] !in open;
      assert SearchFirst(s, open, 0) == OutOfRange;
    }
  }

  /** In a bundle of at least six lines the splice changes exactly the first
      opening line among the first three and the last closing line among the
      last three, each by filling its "()", and keeps every other line and
      the number of lines. */
  lemma SplicedLines(s: seq<string>, open: LineSet, close: LineSet, params: string, args: string)
    requires 6 <= |s|
    ensures var r := Spliced(s, open, close, params, args);
      r.Some? && |r.value| == |s| &&
      (forall i :: 3 <= i < |s| - 3 ==> r.value[i] == s[i]) &&
      (forall i :: 0 <= i < 3 ==>
        r.value[i] == if s[i] in open && (forall j :: 0 <= j < i ==> s[j] !in open) then FillParens(s[i], params) else s[i]) &&
      (forall i :: |s| - 3 <= i < |s| ==>
        r.value[i] == if s[i] in close && (forall j :: i < j < |s| ==> s[j] !in close) then FillParens(s[i], args) else s[i])
  {
    FillFirstLines(s, open, params);
    var t := FillFirst(s, open, params).value;
    FillLastLines(t, close, args);
    assert forall i :: |s| - 3 <= i < |s| ==> t[i] == s[i];
  }

  /** The splice as the JavaScript compiler performs it on the lines read
      from the bundle; false when it throws. */
  method SpliceIife(lines: array<string>, open: LineSet, close: LineSet, params: string, args: string)
    returns (ok: bool)
    modifies lines
    ensures ok <==> Spliced(old(lines[..]), open, close, params, args).Some?
    ensures ok ==> lines[..] == Spliced(old(lines[..]), open, close, params, args).value
  {
    ghost var s := lines[..];
    var i := 0;
    while i < 3
      invariant 0 <= i <= 3
      invariant lines[..] == s
      invariant SearchFirst(s, open, 0) == SearchFirst(s, open, i)
    {
      if i >= lines.Length {
        return false;
      }
      if lines[i] in open {
        lines[i] := FillParens(lines[i], params);
        break;
      }
      i := i + 1;
    }
    ghost var s1 := lines[..];
    assert FillFirst(s, open, params) == Some(s1);
    var j := lines.Length - 1;
    while j > lines.Length - 4
      invariant lines.Length - 4 <= j < lines.Length
      invariant lines[..] == s1
      invariant SearchLast(s1, close, lines.Length - 1) == SearchLast(s1, close, j)
    {
      if j < 0 {
        return false;
      }
      if lines[j] in close {
        lines[j] := FillParens(lines[j], args);
        break;
      }
      j := j - 1;
    }
    return true;
  }
}
