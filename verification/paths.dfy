/** The parts of System.IO.Path the application relies on, for Windows paths:
    Combine, GetDirectoryName, GetFileName, GetFileNameWithoutExtension and
    GetExtension, plus the path comparison used to match changed files.
    Volume names, "." and ".." segments, invalid characters and
    normalisation are not modelled. */
module Paths {
  import opened Wrappers
  import opened Text

  /** Path.DirectorySeparatorChar on Windows. */
  const Separator: char := '\\'

  /** Both '\' and '/' separate directories on Windows. */
  predicate IsSeparator(c: char)
  {
    c == '\\' || c == '/'
  }

  /** Index of the last separator, or -1 when there is none. */
  function LastSeparator(p: string): (r: int)
    ensures -1 <= r < |p|
    ensures r >= 0 ==> IsSeparator(p[r])
  {
    if p == [] then -1
    else if IsSeparator(p[|p| - 1]) then |p| - 1
    else LastSeparator(p[..|p| - 1])
  }

  /** Index of the last '.', or -1 when there is none. */
  function LastDot(p: string): (r: int)
    ensures -1 <= r < |p|
    ensures r >= 0 ==> p[r] == '.'
  {
    if p == [] then -1
    else if p[|p| - 1] == '.' then |p| - 1
    else LastDot(p[..|p| - 1])
  }

  /** Path.GetFileName: the part after the last separator. */
  function GetFileName(p: string): string
  {
    if p == [] || IsSeparator(p[|p| - 1]) then [] else GetFileName(p[..|p| - 1]) + [p[|p| - 1]]
  }

  /** Path.GetDirectoryName: the part before the last separator. */
  function GetDirectoryName(p: string): string
  {
    if LastSeparator(p) < 0 then "" else p[..LastSeparator(p)]
  }

  /** The part of the file name from its last '.' on, None when the name
      has no '.'. */
  function DotSuffix(p: string): Option<string>
  {
    if p == [] || IsSeparator(p[|p| - 1]) then None
    else if p[|p| - 1] == '.' then Some(".")
    else match DotSuffix(p[..|p| - 1])
      case Some(s) => Some(s + [p[|p| - 1]])
      case None => None
  }

  /** Path.GetExtension: from the last '.' of the file name on, or "" when
      the name has no '.' or ends with it (ExtensionFromLastDot). */
  function GetExtension(p: string): string
  {
    match DotSuffix(p)
    case Some(s) => if s == "." then "" else s
    case None => ""
  }

  /** The dot suffix is the file name from its last '.' on. */
  lemma {:induction false} DotSuffixOfFileName(p: string)
    ensures var name := GetFileName(p);
      DotSuffix(p) == if LastDot(name) < 0 then None else Some(name[LastDot(name)..])
  {
    if p != [] && !IsSeparator(p[|p| - 1]) {
      var c := p[|p| - 1];
      var init := p[..|p| - 1];
      var name0 := GetFileName(init);
      var name := name0 + [c];
      assert GetFileName(p) == name;
      assert name[..|name| - 1] == name0;
      if c != '.' {
        DotSuffixOfFileName(init);
        if LastDot(name0) >= 0 {
          assert name[LastDot(name0)..] == name0[LastDot(name0)..] + [c];
        }
      }
    }
  }

  /** The extension is the file name from its last '.' on, unless that '.'
      is missing or ends the name. */
  lemma ExtensionFromLastDot(p: string)
    ensures var name := GetFileName(p);
      var k := LastDot(name);
      GetExtension(p) == if k < 0 || k == |name| - 1 then "" else name[k..]
  {
    DotSuffixOfFileName(p);
    var name := GetFileName(p);
    var k := LastDot(name);
    if k >= 0 && name[k..] == "." {
      assert |name[k..]| == 1;
    }
  }

  /** Path.GetFileNameWithoutExtension: the file name up to its last '.'. */
  function GetFileNameWithoutExtension(p: string): string
  {
    var name := GetFileName(p);
    var k := LastDot(name);
    if k < 0 then name else name[..k]
  }

  /** Path.IsPathRooted: starts with a separator or a drive letter. */
  predicate IsRooted(p: string)
  {
    (|p| >= 1 && IsSeparator(p[0])) || (|p| >= 2 && p[1] == ':')
  }

  /** Path.Combine(a, b): b alone when it is rooted, otherwise a and b
      joined by one separator. */
  function Combine(a: string, b: string): string
  {
    if b == "" then a
    else if a == "" || IsRooted(b) then b
    else if IsSeparator(a[|a| - 1]) then a + b
    else a + [Separator] + b
  }

  /** Paths are compared without regard to ASCII case or the kind of separator. */
  function NormalizePath(p: string): string
  {
    ToLower(ReplaceChar(p, '/', '\\'))
  }

  predicate PathEquals(a: string, b: string)
  {
    NormalizePath(a) == NormalizePath(b)
  }

  lemma {:induction false} LastSeparatorAppend(x: string, y: string)
    ensures LastSeparator(x + y) == if LastSeparator(y) >= 0 then |x| + LastSeparator(y) else LastSeparator(x)
    decreases |y|
  {
    if y == [] {
      assert x + y == x;
    } else {
      assert (x + y)[..|x + y| - 1] == x + y[..|y| - 1];
      LastSeparatorAppend(x, y[..|y| - 1]);
    }
  }

  /** The file name is what follows the last separator. */
  lemma {:induction false} FileNameAfterSeparator(p: string)
    ensures GetFileName(p) == p[LastSeparator(p) + 1..]
    decreases |p|
  {
    if p != [] && !IsSeparator(p[|p| - 1]) {
      FileNameAfterSeparator(p[..|p| - 1]);
    }
  }

  /** The file name of a joined path is that of the second part when it
      holds a separator, and otherwise the first part's file name
      followed by the second part. */
  lemma {:induction false} FileNameAppend(x: string, y: string)
    ensures GetFileName(x + y) == if LastSeparator(y) >= 0 then GetFileName(y) else GetFileName(x) + y
    decreases |y|
  {
    if y == [] {
      assert x + y == x;
    } else {
      var y0, c := y[..|y| - 1], y[|y| - 1];
      assert (x + y)[..|x + y| - 1] == x + y0 && (x + y)[|x + y| - 1] == c;
      FileNameAppend(x, y0);
      if IsSeparator(c) {
        assert GetFileName(x + y) == [] == GetFileName(y);
      } else {
        assert GetFileName(x + y) == GetFileName(x + y0) + [c];
        assert LastSeparator(y) == LastSeparator(y0);
        if LastSeparator(y0) >= 0 {
          assert GetFileName(y) == GetFileName(y0) + [c];
        } else {
          assert y == y0 + [c];
        }
      }
    }
  }

  /** Combining a directory with a non-empty path keeps the file name of
      the latter. */
  lemma CombineFileName(a: string, b: string)
    requires b != ""
    ensures GetFileName(Combine(a, b)) == GetFileName(b)
  {
    if a != "" && !IsRooted(b) {
      if IsSeparator(a[|a| - 1]) {
        JoinedFileName(a, b);
      } else {
        JoinedFileName(a + [Separator], b);
      }
    }
  }

  /** Joining a path that ends with a separator and a non-empty path keeps
      the file name of the latter. */
  lemma JoinedFileName(a: string, b: string)
    requires a != [] && IsSeparator(a[|a| - 1]) && b != ""
    ensures GetFileName(a + b) == GetFileName(b)
  {
    FileNameAppend(a, b);
    if LastSeparator(b) < 0 {
      assert GetFileName(a) == [];
      FileNameAfterSeparator(b);
    }
  }

  lemma {:induction false} LastDotAppend(x: string, y: string)
    ensures LastDot(x + y) == if LastDot(y) >= 0 then |x| + LastDot(y) else LastDot(x)
    decreases |y|
  {
    if y == [] {
      assert x + y == x;
    } else {
      assert (x + y)[..|x + y| - 1] == x + y[..|y| - 1];
      LastDotAppend(x, y[..|y| - 1]);
    }
  }

  /** An extension: a '.' followed by at least one character, with no
      further '.' and no separator. */
  predicate IsExtension(ext: string)
  {
    |ext| >= 2 && ext[0] == '.' &&
    forall i :: 0 < i < |ext| ==> ext[i] != '.' && !IsSeparator(ext[i])
  }

  /** The extensions the compiler works with. */
  lemma KnownExtensions()
    ensures IsExtension(".css") && IsExtension(".scss") && IsExtension(".sass") && IsExtension(".js")
  {
  }

  /** Appending an extension makes it the extension of the path. */
  lemma ExtensionOfAppended(p: string, ext: string)
    requires IsExtension(ext)
    ensures GetExtension(p + ext) == ext
  {
    DotSuffixOfAppended(p, ext, |ext|);
    assert ext[..|ext|] == ext;
  }

  /** Each prefix of an appended extension is the dot suffix of the path
      it ends. */
  lemma {:induction false} DotSuffixOfAppended(p: string, ext: string, j: nat)
    requires IsExtension(ext) && 1 <= j <= |ext|
    ensures DotSuffix(p + ext[..j]) == Some(ext[..j])
    decreases j
  {
    var q := p + ext[..j];
    assert q[|q| - 1] == ext[j - 1];
    if j == 1 {
      assert ext[..1] == "." && DotSuffix(q) == Some(".");
    } else {
      assert ext[j - 1] != '.' && !IsSeparator(ext[j - 1]);
      assert q[..|q| - 1] == p + ext[..j - 1];
      DotSuffixOfAppended(p, ext, j - 1);
      assert ext[..j] == ext[..j - 1] + [ext[j - 1]];
    }
  }
}
