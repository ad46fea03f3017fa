/** The import rules of the dependency discovery: which files an import
    line of a CSS, JavaScript or SCSS source adds to the additional source
    files. */
module Dependencies {
  import opened Wrappers
  import opened Text
  import opened Paths
  import opened Environment
  import opened LineRegex

  /** The source languages the compiler supports. */
  datatype Language = Css | JavaScript | Scss

  /** The language of a source file by its extension, None for any other
      file type. */
  function LanguageOf(path: string): (r: Option<Language>)
    ensures r == Some(Css) <==> GetExtension(path) == ".css"
    ensures r == Some(JavaScript) <==> GetExtension(path) == ".js"
    ensures r == Some(Scss) <==> GetExtension(path) == ".scss"
  {
    match GetExtension(path)
    case ".css" => Some(Css)
    case ".js" => Some(JavaScript)
    case ".scss" => Some(Scss)
    case _ => None
  }

  /** An import path as written, made relative to the importing file's
      directory: trimmed, '/' turned into '\'. */
  function Resolve(dir: string, written: string): string
  {
    Combine(dir, ReplaceChar(written, '/', '\\'))
  }

  /** A CSS import adds its file unless it is an http:// or https:// URL. */
  function CssTarget(dir: string, raw: string): Option<string>
  {
    var file := Trim(raw);
    if StartsWith(file, "http://") || StartsWith(file, "https://") then None
    else Some(Resolve(dir, file))
  }

  /** A JavaScript import adds its file, with ".js" appended when that is
      not already its extension. */
  function JsTarget(dir: string, raw: string): string
  {
    var file := Trim(raw);
    var file' := if GetExtension(file) != ".js" then file + ".js" else file;
    Resolve(dir, file')
  }

  /** The extensions an SCSS import may name. */
  predicate IsStyleExtension(ext: string)
  {
    ext == ".css" || ext == ".scss" || ext == ".sass"
  }

  /** An SCSS import with a style extension adds its file; any other adds
      the six files it may stand for: the name and the partial "_name", each
      with the three style extensions. */
  function ScssTargets(dir: string, raw: string): seq<string>
  {
    var file := Resolve(dir, Trim(raw));
    if IsStyleExtension(GetExtension(file)) then [file]
    else StyleVariants(file) + StyleVariants(Combine(GetDirectoryName(file), "_" + GetFileName(file)))
  }

  /** A path with each of the three style extensions appended. */
  function StyleVariants(base: string): seq<string>
  {
    [base + ".css", base + ".scss", base + ".sass"]
  }

  /** The targets of all captures of an SCSS import line, in order. */
  function ScssCaptureTargets(dir: string, captures: seq<string>): seq<string>
  {
    if captures == [] then [] else ScssTargets(dir, captures[0]) + ScssCaptureTargets(dir, captures[1..])
  }

  /** The files one line of a source adds, in the order they are added. */
  function LineTargets(lang: Language, dir: string, line: string, p: Patterns): seq<string>
  {
    match lang
    case Css => (match Captured(p.cssImport, line) case Some(raw) => (match CssTarget(dir, raw) case Some(f) => [f] case None => []) case None => [])
    case JavaScript => (match Captured(p.jsImport, line) case Some(raw) => [JsTarget(dir, raw)] case None => [])
    case Scss => ScssCaptureTargets(dir, ScssCaptures(p, line))
  }

  /** The targets of a sequence of lines, in order, given the targets of
      each line. */
  function LinesTargets(lines: seq<string>, targets: string -> seq<string>): seq<string>
  {
    if lines == [] then [] else LinesTargets(lines[..|lines| - 1], targets) + targets(lines[|lines| - 1])
  }

  /** The files a source file adds: those of its lines, none when it does
      not exist. */
  function FileTargets(fs: FileSystem, lang: Language, file: string, p: Patterns): seq<string>
  {
    if file in fs then LinesTargets(fs[file].lines, line => LineTargets(lang, GetDirectoryName(file), line, p)) else []
  }

  /** A CSS import is dropped exactly when it is an http:// or https:// URL. */
  lemma CssTargetSkipsUrls(dir: string, raw: string)
    ensures CssTarget(dir, raw).None? <==> StartsWith(Trim(raw), "http://") || StartsWith(Trim(raw), "https://")
  {
  }

  /** Combine keeps its second argument at the end. */
  lemma CombineEndsWith(a: string, b: string)
    requires b != ""
    ensures EndsWith(Combine(a, b), b)
  {
    var c := Combine(a, b);
    assert c[|c| - |b|..] == b;
  }

  /** An extension is the end of the path it belongs to. */
  lemma ExtensionIsSuffix(p: string)
    ensures EndsWith(p, GetExtension(p))
  {
    var name := GetFileName(p);
    var k := LastDot(name);
    ExtensionFromLastDot(p);
    FileNameAfterSeparator(p);
    if !(k < 0 || k == |name| - 1) {
      assert p[|p| - |name[k..]|..] == name[k..];
    }
  }

  /** A path that ends with an extension has that extension. */
  lemma EndsWithExtension(p: string, ext: string)
    requires EndsWith(p, ext) && IsExtension(ext)
    ensures GetExtension(p) == ext
  {
    assert p == p[..|p| - |ext|] + ext;
    ExtensionOfAppended(p[..|p| - |ext|], ext);
  }

  /** Replacing a character that a suffix does not contain keeps the suffix. */
  lemma ReplaceCharKeepsSuffix(s: string, from: char, to: char, suffix: string)
    requires EndsWith(s, suffix) && from !in suffix
    ensures EndsWith(ReplaceChar(s, from, to), suffix)
  {
    ReplaceCharAt(s, from, to);
    var r := ReplaceChar(s, from, to);
    forall i | 0 <= i < |suffix| ensures r[|r| - |suffix| + i] == suffix[i] {
      assert s[|s| - |suffix| + i] == suffix[i];
    }
  }

  /** A suffix of a suffix is a suffix. */
  lemma EndsWithTransitive(s: string, t: string, suffix: string)
    requires EndsWith(s, t) && EndsWith(t, suffix)
    ensures EndsWith(s, suffix)
  {
    assert s[|s| - |suffix|..] == s[|s| - |t|..][|t| - |suffix|..];
  }

  /** Every JavaScript target is a ".js" file. */
  lemma JsTargetExtension(dir: string, raw: string)
    ensures GetExtension(JsTarget(dir, raw)) == ".js"
  {
    var file := Trim(raw);
    var file' := if GetExtension(file) != ".js" then file + ".js" else file;
    assert EndsWith(file', ".js") by {
      if GetExtension(file) == ".js" {
        ExtensionIsSuffix(file);
      } else {
        assert file'[|file|..] == ".js";
      }
    }
    ReplaceCharKeepsSuffix(file', '/', '\\', ".js");
    var r := ReplaceChar(file', '/', '\\');
    CombineEndsWith(dir, r);
    EndsWithTransitive(Combine(dir, r), r, ".js");
    KnownExtensions();
    EndsWithExtension(Combine(dir, r), ".js");
  }

  /** An SCSS import adds its own file when that has a style extension, and
      otherwise exactly six candidates; every target has a style extension. */
  lemma ScssTargetsShape(dir: string, raw: string)
    ensures var file := Resolve(dir, Trim(raw));
      var ts := ScssTargets(dir, raw);
      (IsStyleExtension(GetExtension(file)) ==> ts == [file]) &&
      (!IsStyleExtension(GetExtension(file)) ==> |ts| == 6) &&
      (forall i :: 0 <= i < |ts| ==> IsStyleExtension(GetExtension(ts[i])))
  {
    var file := Resolve(dir, Trim(raw));
    if !IsStyleExtension(GetExtension(file)) {
      var partial := Combine(GetDirectoryName(file), "_" + GetFileName(file));
      StyleVariantsExtensions(file);
      StyleVariantsExtensions(partial);
      var a, b := StyleVariants(file), StyleVariants(partial);
      assert forall i :: 0 <= i < 6 ==> (a + b)[i] == if i < 3 then a[i] else b[i - 3];
    }
  }

  /** Each style variant has its style extension. */
  lemma StyleVariantsExtensions(base: string)
    ensures forall i :: 0 <= i < 3 ==> IsStyleExtension(GetExtension(StyleVariants(base)[i]))
  {
    KnownExtensions();
    ExtensionOfAppended(base, ".css");
    ExtensionOfAppended(base, ".scss");
    ExtensionOfAppended(base, ".sass");
  }

  lemma {:induction false} LinesTargetsAppend(a: seq<string>, b: seq<string>, targets: string -> seq<string>)
    ensures LinesTargets(a + b, targets) == LinesTargets(a, targets) + LinesTargets(b, targets)
    decreases |b|
  {
    if b == [] {
      assert a + b == a;
    } else {
      assert (a + b)[..|a + b| - 1] == a + b[..|b| - 1];
      LinesTargetsAppend(a, b[..|b| - 1], targets);
    }
  }

  /** Every file a source adds comes from one of its lines. */
  lemma {:induction false} LinesTargetsFromLine(lines: seq<string>, targets: string -> seq<string>, t: string)
    requires t in LinesTargets(lines, targets)
    ensures exists k :: 0 <= k < |lines| && t in targets(lines[k])
  {
    if lines != [] {
      var init := lines[..|lines| - 1];
      if t in LinesTargets(init, targets) {
        LinesTargetsFromLine(init, targets, t);
        var k :| 0 <= k < |init| && t in targets(init[k]);
        assert lines[k] == init[k];
      } else {
        assert t in targets(lines[|lines| - 1]);
      }
    }
  }

  /** Conversely, every file a line adds is among the source's files. */
  lemma {:induction false} LinesTargetsOfLine(lines: seq<string>, targets: string -> seq<string>, k: nat, t: string)
    requires k < |lines| && t in targets(lines[k])
    ensures t in LinesTargets(lines, targets)
    decreases |lines|
  {
    var init := lines[..|lines| - 1];
    if k < |init| {
      assert init[k] == lines[k];
      LinesTargetsOfLine(init, targets, k, t);
    }
  }

  /** The files a source file adds, as a function of the file's path; a
      missing file adds nothing. */
  function Adds(fs: FileSystem, lang: Language, p: Patterns): (r: string -> seq<string>)
    ensures forall f :: f !in fs ==> r(f) == []
  {
    file => FileTargets(fs, lang, file, p)
  }

  /** g is reached from the source a through n steps of "adds". */
  ghost predicate ReachesIn(adds: string -> seq<string>, a: string, g: string, n: nat)
    decreases n
  {
    n > 0 && (g in adds(a) || exists h :: h in adds(a) && ReachesIn(adds, h, g, n - 1))
  }

  /** g is reached from the source a through one or more steps of "adds". */
  ghost predicate Reachable(adds: string -> seq<string>, a: string, g: string)
  {
    exists n: nat :: ReachesIn(adds, a, g, n)
  }

  /** A file added by a is reachable from a. */
  lemma ReachableTarget(adds: string -> seq<string>, a: string, g: string)
    requires g in adds(a)
    ensures Reachable(adds, a, g)
  {
    assert ReachesIn(adds, a, g, 1);
  }

  /** What is reachable from a file that a adds is reachable from a. */
  lemma ReachableStep(adds: string -> seq<string>, a: string, h: string, g: string)
    requires h in adds(a) && Reachable(adds, h, g)
    ensures Reachable(adds, a, g)
  {
    var n: nat :| ReachesIn(adds, h, g, n);
    assert ReachesIn(adds, a, g, n + 1);
  }

  /** The files a adds are all in s. */
  ghost predicate AddsIn(adds: string -> seq<string>, a: string, s: set<string>)
  {
    forall t :: t in adds(a) ==> t in s
  }

  /** Every file s holds beyond s0 has the files it adds in s. */
  ghost predicate ClosedOver(adds: string -> seq<string>, s0: set<string>, s: set<string>)
  {
    forall g :: g in s && g !in s0 ==> AddsIn(adds, g, s)
  }

  /** Every file s holds beyond s0 is reachable from the root. */
  ghost predicate ReachedOver(adds: string -> seq<string>, root: string, s0: set<string>, s: set<string>)
  {
    forall g :: g in s && g !in s0 ==> Reachable(adds, root, g)
  }

  /** A set that holds the files the root adds and is closed under "adds"
      holds everything reachable from the root. */
  lemma {:induction false} ReachableInClosed(adds: string -> seq<string>, root: string, s: set<string>, a: string, g: string, n: nat)
    requires AddsIn(adds, root, s) && ClosedOver(adds, {}, s)
    requires a == root || a in s
    requires ReachesIn(adds, a, g, n)
    ensures g in s
    decreases n
  {
    assert AddsIn(adds, a, s);
    if g !in adds(a) {
      var h :| h in adds(a) && ReachesIn(adds, h, g, n - 1);
      ReachableInClosed(adds, root, s, h, g, n - 1);
    }
  }

  /** Adding a file the root adds and then everything collected from that
      file keeps the collection closed and reachable from the root. */
  lemma CollectStep(adds: string -> seq<string>, root: string,
                    s0: set<string>, before: set<string>, file: string, after: set<string>)
    requires s0 <= before && file !in before && file in adds(root)
    requires ClosedOver(adds, s0, before) && ReachedOver(adds, root, s0, before)
    requires before + {file} <= after && AddsIn(adds, file, after)
    requires ClosedOver(adds, before + {file}, after)
    requires ReachedOver(adds, file, before + {file}, after)
    ensures ClosedOver(adds, s0, after) && ReachedOver(adds, root, s0, after)
  {
    forall g | g in after && g !in s0
      ensures AddsIn(adds, g, after) && Reachable(adds, root, g)
    {
      if g in before {
        assert AddsIn(adds, g, before);
      } else if g == file {
        ReachableTarget(adds, root, file);
      } else {
        ReachableStep(adds, root, file, g);
      }
    }
  }

  /** A collection that holds what the root adds, is closed and holds only
      reachable files is exactly the set of files reachable from the root. */
  lemma CollectExact(adds: string -> seq<string>, root: string, s: set<string>)
    requires AddsIn(adds, root, s)
    requires ClosedOver(adds, {}, s) && ReachedOver(adds, root, {}, s)
    ensures forall g :: g in s <==> Reachable(adds, root, g)
  {
    forall g | Reachable(adds, root, g)
      ensures g in s
    {
      var n: nat :| ReachesIn(adds, root, g, n);
      ReachableInClosed(adds, root, s, root, g, n);
    }
  }
}
