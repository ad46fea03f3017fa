/** The three-valued build status (`bool?` in the application: null while a
    compile is pending or running, false after an error, true after success)
    and the roll-up a project applies over its files and the main window over
    its projects. */
module Statuses {
  import opened Wrappers

  datatype Status = Pending | Failed | Succeeded

  /** The more urgent of two statuses: pending over failed over succeeded. */
  function Worse(a: Status, b: Status): Status
  {
    if a == Pending || b == Pending then Pending
    else if a == Failed || b == Failed then Failed
    else Succeeded
  }

  /** The roll-up as the application writes it: null if any item is null,
      otherwise false if any item is false, otherwise true. */
  function Rollup(s: seq<Status>): (r: Status)
    ensures r == Pending <==> exists i :: 0 <= i < |s| && s[i] == Pending
    ensures r == Failed <==> (forall i :: 0 <= i < |s| ==> s[i] != Pending) && exists i :: 0 <= i < |s| && s[i] == Failed
    ensures r == Succeeded <==> forall i :: 0 <= i < |s| ==> s[i] == Succeeded
  {
    if Pending in s then Pending
    else if Failed in s then Failed
    else
      assert forall i :: 0 <= i < |s| ==> s[i] == Succeeded by {
        forall i | 0 <= i < |s| ensures s[i] == Succeeded { assert s[i] in s; }
      }
      Succeeded
  }

  /** The same priority stated item by item, as a fold of Worse. */
  function WorstOf(s: seq<Status>): Status
  {
    if s == [] then Succeeded else Worse(s[0], WorstOf(s[1..]))
  }

  /** The roll-up is the most urgent status among the items. */
  lemma {:induction false} RollupIsWorst(s: seq<Status>)
    ensures Rollup(s) == WorstOf(s)
  {
    if s != [] {
      RollupIsWorst(s[1..]);
      assert s == [s[0]] + s[1..];
    }
  }

  /** Rolling up a list in two parts and combining the parts gives the same
      result as rolling up the whole list. */
  lemma RollupConcat(s: seq<Status>, t: seq<Status>)
    ensures Rollup(s + t) == Worse(Rollup(s), Rollup(t))
  {
    if Pending in s + t {
      var i :| 0 <= i < |s + t| && (s + t)[i] == Pending;
      if i < |s| { assert s[i] == Pending; } else { assert t[i - |s|] == Pending; }
    } else if Failed in s + t {
      var i :| 0 <= i < |s + t| && (s + t)[i] == Failed;
      if i < |s| { assert s[i] == Failed; } else { assert t[i - |s|] == Failed; }
    }
  }

  /** The items of all groups, group after group. */
  function Flatten(groups: seq<seq<Status>>): seq<Status>
  {
    if groups == [] then [] else groups[0] + Flatten(groups[1..])
  }

  /** The roll-up of each group. */
  function Rollups(groups: seq<seq<Status>>): (r: seq<Status>)
    ensures |r| == |groups|
  {
    if groups == [] then [] else [Rollup(groups[0])] + Rollups(groups[1..])
  }

  /** Rolling up the groups' roll-ups gives the roll-up of all their items:
      the main window's status over the projects is the status over all
      files. */
  lemma {:induction false} RollupOfRollups(groups: seq<seq<Status>>)
    ensures Rollup(Rollups(groups)) == Rollup(Flatten(groups))
  {
    if groups != [] {
      RollupOfRollups(groups[1..]);
      RollupConcat([Rollup(groups[0])], Rollups(groups[1..]));
      RollupConcat(groups[0], Flatten(groups[1..]));
      assert Rollups(groups) == [Rollup(groups[0])] + Rollups(groups[1..]);
    }
  }

  /** FirstOrDefault(x => x.Status == false), as an index. */
  function FirstFailed(s: seq<Status>): (r: Option<nat>)
    ensures r.None? <==> forall i :: 0 <= i < |s| ==> s[i] != Failed
    ensures r.Some? ==> r.value < |s| && s[r.value] == Failed && forall j :: 0 <= j < r.value ==> s[j] != Failed
  {
    if s == [] then None
    else if s[0] == Failed then Some(0)
    else match FirstFailed(s[1..])
      case None => None
      case Some(k) => Some(k + 1)
  }

  /** When the roll-up is false, there is a first failed item to select. */
  lemma FailedRollupSelects(s: seq<Status>)
    requires Rollup(s) == Failed
    ensures FirstFailed(s).Some?
  {
  }
}
