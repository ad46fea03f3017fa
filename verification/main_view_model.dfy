/** The main window's model: the list of projects with the roll-up of their
    statuses and the project list ordered by name, plus the version report
    of the about box and the command rewrite used to query the tools. */
module MainViewModels {
  import opened Wrappers
  import opened Text
  import opened Statuses
  import opened Sorting
  import opened Environment
  import opened ProjectFiles
  import opened Projects

  /** The statuses of a list of projects, in order. */
  function ProjectStatuses(ps: seq<Project>): (r: seq<Status>)
    reads ps
    ensures |r| == |ps|
  {
    if ps == [] then [] else [ps[0].status] + ProjectStatuses(ps[1..])
  }

  lemma {:induction false} ProjectStatusesAt(ps: seq<Project>)
    ensures forall i :: 0 <= i < |ps| ==> ProjectStatuses(ps)[i] == ps[i].status
  {
    if ps != [] {
      ProjectStatusesAt(ps[1..]);
    }
  }

  /** The objects whose statuses the main window's roll-up depends on. */
  function Footprint(ps: seq<Project>): set<object>
    reads ps
  {
    (set p | p in ps) + (set p, f | p in ps && f in p.files :: f)
  }

  /** The statuses of all files of all projects, project after project. */
  function FileStatusGroups(ps: seq<Project>): (r: seq<seq<Status>>)
    reads Footprint(ps)
    ensures |r| == |ps|
  {
    if ps == [] then []
    else
      assert Footprint(ps[1..]) <= Footprint(ps);
      assert forall f :: f in ps[0].files ==> f in Footprint(ps);
      [FileStatuses(ps[0].files)] + FileStatusGroups(ps[1..])
  }

  /** When every project's status is the roll-up of its files, as
      Project.UpdateStatus leaves it, the roll-up over the projects is the
      roll-up over all files. */
  lemma {:induction false} RollupOverAllFiles(ps: seq<Project>)
    requires forall i :: 0 <= i < |ps| ==> ps[i].status == Rollup(FileStatuses(ps[i].files))
    ensures Rollup(ProjectStatuses(ps)) == Rollup(Flatten(FileStatusGroups(ps)))
  {
    ProjectStatusesSameAsRollups(ps);
    RollupOfRollups(FileStatusGroups(ps));
  }

  lemma {:induction false} ProjectStatusesSameAsRollups(ps: seq<Project>)
    requires forall i :: 0 <= i < |ps| ==> ps[i].status == Rollup(FileStatuses(ps[i].files))
    ensures ProjectStatuses(ps) == Rollups(FileStatusGroups(ps))
  {
    if ps != [] {
      ProjectStatusesSameAsRollups(ps[1..]);
    }
  }

  /** Each project paired with its sort key, the lower-cased name. */
  function KeyedByName(ps: seq<Project>): (r: seq<(string, Project)>)
    reads ps
    ensures |r| == |ps|
  {
    if ps == [] then [] else [(ToLower(ps[0].name), ps[0])] + KeyedByName(ps[1..])
  }

  lemma {:induction false} KeyedByNameAt(ps: seq<Project>)
    ensures forall i :: 0 <= i < |ps| ==> KeyedByName(ps)[i] == (ToLower(ps[i].name), ps[i])
  {
    if ps != [] {
      KeyedByNameAt(ps[1..]);
    }
  }

  /** Projects ordered by lower-cased name: each project's key is at most
      the next one's. */
  predicate OrderedByName(ps: seq<Project>)
    reads ps
  {
    |ps| <= 1 || (LexLe(ToLower(ps[0].name), ToLower(ps[1].name)) && OrderedByName(ps[1..]))
  }

  /** Ordered neighbours are the same as ordered pairs. */
  lemma {:induction false} OrderedByNamePairs(ps: seq<Project>)
    ensures OrderedByName(ps) <==>
      forall i, j :: 0 <= i < j < |ps| ==> LexLe(ToLower(ps[i].name), ToLower(ps[j].name))
  {
    if |ps| > 1 {
      OrderedByNamePairs(ps[1..]);
      if OrderedByName(ps) {
        forall i, j | 0 <= i < j < |ps| ensures LexLe(ToLower(ps[i].name), ToLower(ps[j].name)) {
          if i == 0 && j > 1 {
            assert ps[1..][0] == ps[1] && ps[1..][j - 1] == ps[j];
            LexLeTransitive(ToLower(ps[0].name), ToLower(ps[1].name), ToLower(ps[j].name));
          } else if i > 0 {
            assert ps[1..][i - 1] == ps[i] && ps[1..][j - 1] == ps[j];
          }
        }
      }
    }
  }

  /** After sorting, each key is still the lower-cased name of its project. */
  lemma SortedKeysAreNames(ps: seq<Project>)
    ensures var sorted := SortByKey(KeyedByName(ps));
      forall i :: 0 <= i < |sorted| ==> sorted[i].0 == ToLower(sorted[i].1.name)
  {
    var keyed := KeyedByName(ps);
    var sorted := SortByKey(keyed);
    KeyedByNameAt(ps);
    SortByKeyPermutes(keyed);
    forall i | 0 <= i < |sorted| ensures sorted[i].0 == ToLower(sorted[i].1.name) {
      assert sorted[i] in multiset(keyed);
      var a :| 0 <= a < |keyed| && keyed[a] == sorted[i];
    }
  }

  /** The projects sorted by lower-cased name are the same projects, each as
      often as before, in name order; projects with the same key keep their
      order. */
  lemma SortedByName(ps: seq<Project>)
    ensures var r := Values(SortByKey(KeyedByName(ps)));
      multiset(r) == multiset(ps) && OrderedByName(r)
    ensures forall k :: WithKey(SortByKey(KeyedByName(ps)), k) == WithKey(KeyedByName(ps), k)
  {
    var keyed := KeyedByName(ps);
    var sorted := SortByKey(keyed);
    var r := Values(sorted);
    KeyedByNameAt(ps);
    assert Values(keyed) == ps by {
      ValuesAt(keyed);
    }
    SortByKeyPermutesValues(keyed);
    SortByKeySorted(keyed);
    SortedKeysAreNames(ps);
    assert sorted == SortByKey(KeyedByName(ps));
    ValuesAt(sorted);
    forall i, j | 0 <= i < j < |r| ensures LexLe(ToLower(r[i].name), ToLower(r[j].name)) {
      assert r[i] == sorted[i].1 && r[j] == sorted[j].1;
      assert LexLe(sorted[i].0, sorted[j].0);
    }
    OrderedByNamePairs(r);
    forall k ensures WithKey(sorted, k) == WithKey(keyed, k) {
      SortByKeyStable(keyed, k);
    }
  }

  class MainViewModel {
    var projects: seq<Project>
    var selectedProject: Option<Project>
    /** The roll-up of the projects' statuses. */
    var status: Status

    constructor ()
      ensures projects == [] && selectedProject.None? && status == Succeeded
    {
      projects := [];
      selectedProject := None;
      status := Succeeded;
    }

    /** The window's status: pending while any project is, otherwise failed
        when any project failed, with the first failed project selected,
        otherwise succeeded. */
    method UpdateStatus()
      modifies this`status, this`selectedProject
      ensures status == Rollup(ProjectStatuses(projects))
      ensures status == Failed ==>
        selectedProject == Some(projects[FirstFailed(ProjectStatuses(projects)).value])
      ensures status != Failed ==> selectedProject == old(selectedProject)
    {
      var statuses := ProjectStatuses(projects);
      if Pending in statuses {
        status := Pending;
      } else if Failed in statuses {
        status := Failed;
        FailedRollupSelects(statuses);
        selectedProject := Some(projects[FirstFailed(statuses).value]);
      } else {
        status := Succeeded;
      }
    }

    /** Orders the projects by lower-cased name, keeping the selection. */
    method SortProjects()
      modifies this`projects, this`selectedProject
      ensures projects == Values(SortByKey(old(KeyedByName(projects))))
      ensures multiset(projects) == multiset(old(projects)) && OrderedByName(projects)
      ensures selectedProject == old(selectedProject)
    {
      var selected := selectedProject;
      var ordered := Values(SortByKey(KeyedByName(projects)));
      SortedByName(projects);
      assert OrderedByName(ordered);
      Refill(ordered);
      assert OrderedByName(ordered);
      selectedProject := selected;
    }

    /** Clears the project list and adds the given projects one by one. */
    method Refill(ordered: seq<Project>)
      modifies this`projects
      ensures projects == ordered
    {
      projects := [];
      var i := 0;
      while i < |ordered|
        invariant 0 <= i <= |ordered|
        invariant projects == ordered[..i]
      {
        projects := projects + [ordered[i]];
        i := i + 1;
      }
      assert ordered[..i] == ordered;
    }
  }

  /** The about box's indentation of a tool's version output: four spaces,
      the output without trailing white space and with four spaces after
      every line feed, then a line break. */
  function Indent(txt: string): (r: string)
    ensures |r| >= 6 && r[..4] == "    " && EndsWith(r, NewLine)
    ensures Unindent(r) == TrimEnd(txt)
  {
    var body := ReplaceAll(TrimEnd(txt), "\n", "\n    ");
    var r := "    " + body + NewLine;
    assert r[4..|r| - 2] == body;
    IndentRoundTrip(TrimEnd(txt));
    r
  }

  /** Takes the indentation off again: the leading four spaces, the line
      break and the four spaces after each line feed. */
  function Unindent(r: string): string
    requires |r| >= 6
  {
    ReplaceAll(r[4..|r| - 2], "\n    ", "\n")
  }

  const RollupPrefix := "rollup version "

  /** rollup prints its version after a prefix, which the about box drops:
      the first 15 characters, exactly when the output starts with it. */
  function StripRollupPrefix(v: string): (r: string)
    ensures |RollupPrefix| == 15
    ensures StartsWith(v, RollupPrefix) ==> RollupPrefix + r == v && |r| == |v| - 15
    ensures !StartsWith(v, RollupPrefix) ==> r == v
  {
    if StartsWith(v, RollupPrefix) then v[15..] else v
  }

  /** The command the about box starts for a tool: rewritten to the tool's
      full path when the application directory holds the tool itself or
      its .cmd file, with None for the exception of a found tool without
      arguments. */
  function ExecCommand(fs: FileSystem, appDir: string, cmd: string): Option<string>
  {
    RewriteCommand(fs, appDir, cmd, ["", ".cmd"])
  }

  /** The tools whose versions the about box reports. */
  const VersionTools: seq<string> := ["babel", "csso", "node", "rollup", "sass", "uglifyjs"]

  /** The command that asks a tool for its version. */
  function VersionCommand(tool: string): string
  {
    tool + " --version"
  }

  /** A version query has an argument, so its rewrite never fails: it is
      left as it is, or names the tool's full path followed by
      "--version" when the application directory holds the tool. */
  lemma VersionQueryRewrite(fs: FileSystem, appDir: string, tool: string)
    requires ' ' !in tool
    ensures ExecCommand(fs, appDir, VersionCommand(tool)) ==
      if ToolFound(fs, appDir, tool, ["", ".cmd"]) then Some(QuotedToolCommand(appDir, tool, "--version"))
      else Some(VersionCommand(tool))
  {
    assert VersionCommand(tool) == tool + " " + "--version";
    SplitAtFirstSpace(tool, "--version");
  }

  /** None of the about box's version queries fails in the rewrite. */
  lemma VersionQueriesSucceed(fs: FileSystem, appDir: string)
    ensures forall k :: 0 <= k < |VersionTools| ==> ExecCommand(fs, appDir, VersionCommand(VersionTools[k])).Some?
  {
    forall k | 0 <= k < |VersionTools|
      ensures ExecCommand(fs, appDir, VersionCommand(VersionTools[k])).Some?
    {
      VersionQueryRewrite(fs, appDir, VersionTools[k]);
    }
  }

  lemma {:induction false} SplitAtFirstSpace(w: string, rest: string)
    requires ' ' !in w
    ensures SplitFirst(w + " " + rest) == (w, Some(rest))
  {
    if w != [] {
      assert w[0] in w && ' ' !in w[1..];
      SplitAtFirstSpace(w[1..], rest);
      assert (w + " " + rest)[1..] == w[1..] + " " + rest;
      assert [w[0]] + w[1..] == w;
    } else {
      assert w + " " + rest == [' '] + rest;
      assert (w + " " + rest)[1..] == rest;
    }
  }
}
