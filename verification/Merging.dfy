/** Merging: each object's jobs are collapsed to one. */
module Merging {
  import opened Types
  import opened Jobs
  import opened Ordering
  import opened Plans

  function Ordinal(t: JobType): nat {
    match t
    case Start => 0
    case Verify => 1
    case Stop => 2
    case Reload => 3
    case Restart => 4
    case TryStart => 5
    case TryRestart => 6
    case TryReload => 7
    case ReloadOrStart => 8
    case RestartOrStart => 9
  }

  /** The rows of the merge matrix as far as they are filled in; None is an invalid merge. */
  const MERGE_MATRIX: seq<seq<Option<JobType>>> := [
    [],
    [Some(Start)],
    [None, None],
    [Some(Start), Some(Start), None],
    [Some(Restart), Some(Restart), None, Some(Restart)],
    [Some(Start), Some(Start), None, Some(ReloadOrStart), Some(Restart)],
    [Some(RestartOrStart), Some(RestartOrStart), None, Some(TryRestart), Some(Restart), Some(RestartOrStart)],
    [Some(ReloadOrStart), Some(ReloadOrStart), None, Some(Reload), Some(Restart), Some(ReloadOrStart),
     Some(RestartOrStart)],
    [Some(ReloadOrStart), Some(ReloadOrStart), None, Some(ReloadOrStart), Some(RestartOrStart),
     Some(ReloadOrStart), Some(ReloadOrStart), Some(ReloadOrStart)],
    [Some(RestartOrStart), Some(RestartOrStart), None, Some(RestartOrStart), Some(RestartOrStart),
     Some(RestartOrStart), Some(RestartOrStart), Some(RestartOrStart), Some(RestartOrStart)]
  ]

  /** An entry of the matrix; those left out of the initialiser are zero, that is, Start. */
  function Entry(row: nat, column: nat): Option<JobType>
    requires row < |MERGE_MATRIX|
  {
    if column < |MERGE_MATRIX[row]| then MERGE_MATRIX[row][column] else Some(Start)
  }

  function MergedJobType(a: JobType, b: JobType): Option<JobType> {
    if a == b then
      Some(a)
    else if Ordinal(a) > Ordinal(b) then
      Entry(Ordinal(a), Ordinal(b))
    else
      Entry(Ordinal(b), Ordinal(a))
  }

  /** Two jobs cannot be merged exactly when one of them is a stop; and only stops merge to a stop. */
  lemma InvalidIffOneStops(a: JobType, b: JobType)
    ensures MergedJobType(a, b).None? <==> (a == Stop) != (b == Stop)
    ensures MergedJobType(a, b) == Some(Stop) <==> a == Stop && b == Stop
    ensures MergedJobType(a, b) == MergedJobType(b, a)
  {
    var m := MERGE_MATRIX;
    assert |m[0]| == 0 && |m[1]| == 1 && |m[2]| == 2 && |m[3]| == 3 && |m[4]| == 4;
    assert |m[5]| == 5 && |m[6]| == 6 && |m[7]| == 7 && |m[8]| == 8 && |m[9]| == 9;
  }

  /**
    * The matrix in words, neither type being a stop.  Restart-or-start absorbs all; reload-or-start all but a restart,
    * with which it gives restart-or-start; restart absorbs the rest; a try-restart gives restart-or-start but for a
    * reload; a try-reload gives reload-or-start but for a reload; what is left is start, but for a reload with a
    * try-start.
    */
  lemma MatrixInWords(a: JobType, b: JobType)
    requires a != b && a != Stop && b != Stop
    ensures MergedJobType(a, b).Some?
    ensures var pair := {a, b};
            MergedJobType(a, b).value ==
            if RestartOrStart in pair || pair == {ReloadOrStart, Restart} then RestartOrStart
            else if ReloadOrStart in pair then ReloadOrStart
            else if Restart in pair then Restart
            else if TryRestart in pair then (if Reload in pair then TryRestart else RestartOrStart)
            else if TryReload in pair then (if Reload in pair then Reload else ReloadOrStart)
            else if pair == {Reload, TryStart} then ReloadOrStart
            else Start
  {
    var m := MERGE_MATRIX;
    assert |m[0]| == 0 && |m[1]| == 1 && |m[2]| == 2 && |m[3]| == 3 && |m[4]| == 4;
    assert |m[5]| == 5 && |m[6]| == 6 && |m[7]| == 7 && |m[8]| == 8 && |m[9]| == 9;
    SamePair(a, b, ReloadOrStart, Restart);
    SamePair(a, b, Reload, TryStart);
  }

  lemma SamePair<T>(a: T, b: T, c: T, d: T)
    requires a != b && c != d
    ensures {a, b} == {c, d} <==> (a == c && b == d) || (a == d && b == c)
  {
    if {a, b} == {c, d} {
      assert a in {c, d} && b in {c, d};
    }
  }

  /** One job of a list goes, the others stay in order. */
  function Without(list: seq<JobType>, t: JobType): seq<JobType> {
    if list == [] then
      []
    else if list[0] == t then
      list[1..]
    else
      [list[0]] + Without(list[1..], t)
  }

  function DeleteJob(p: Plan, k: Key): Plan
    requires k.obj in p.jobs
  {
    Restricted(p, p.jobs[k.obj := Without(p.jobs[k.obj], k.op)])
  }

  /** The first job of the list of `o` is merged into the second. */
  function MergeFront(p: Plan, o: Obj): Plan
    requires o in p.jobs && |p.jobs[o]| >= 2
  {
    var f := Keeping(Keys(p.jobs))[Key(o, p.jobs[o][0]) := Key(o, p.jobs[o][1])];
    Plan(p.objective, p.jobs[o := p.jobs[o][1..]], ImageOfFlags(p.flagged, f), ImageOfReqs(p.req, f))
  }

  /** Which of the first two jobs, when they cannot be merged, is deleted; neither when both are goal-required. */
  function Victim(flagged: set<Key>, j1: Key, j2: Key): Option<Key> {
    if j1 in flagged && j2 in flagged then
      None
    else if j1 !in flagged && j2 !in flagged then
      Some(if j2.op == Stop then j2 else j1)
    else
      Some(if j2 !in flagged then j2 else j1)
  }

  /** The jobs of `o` are merged or deleted pairwise from the front until one is left. */
  function MergeGroup(p: Plan, o: Obj): Option<Plan>
    requires o in p.jobs
    decreases if o in p.jobs then |p.jobs[o]| else 0
  {
    var list := p.jobs[o];
    if |list| <= 1 then
      Some(p)
    else if MergedJobType(list[0], list[1]).None? then
      var victim := Victim(p.flagged, Key(o, list[0]), Key(o, list[1]));
      if victim.None? then None
      else
        WithoutOneOfTwo(list, victim.value.op);
        MergeGroup(DeleteJob(p, victim.value), o)
    else
      MergeGroup(MergeFront(p, o), o)
  }

  lemma {:induction false} WithoutOneOfTwo(list: seq<JobType>, t: JobType)
    requires |list| >= 2 && t in list[..2]
    ensures t == list[0] ==> Without(list, t) == list[1..]
    ensures t == list[1] && t != list[0] ==> Without(list, t) == [list[0]] + list[2..]
    ensures |Without(list, t)| == |list| - 1
  {
    assert list[1..][1..] == list[2..];
  }

  /** All objects with more than one job, in order. */
  function MergeAll(p: Plan, order: seq<Obj>): Option<Plan>
    requires forall o :: o in order ==> o in p.jobs
    decreases |order|
  {
    if order == [] then
      Some(p)
    else if |p.jobs[order[0]]| > 1 then
      var next := MergeGroup(p, order[0]);
      if next.None? then None
      else
        MergeGroupKeepsObjects(p, order[0]);
        MergeAll(next.value, order[1..])
    else
      MergeAll(p, order[1..])
  }

  lemma {:induction false} MergeGroupKeepsObjects(p: Plan, o: Obj)
    requires o in p.jobs && MergeGroup(p, o).Some?
    ensures MergeGroup(p, o).value.jobs.Keys == p.jobs.Keys
    decreases |p.jobs[o]|
  {
    var list := p.jobs[o];
    if |list| > 1 {
      if MergedJobType(list[0], list[1]).None? {
        var victim := Victim(p.flagged, Key(o, list[0]), Key(o, list[1])).value;
        WithoutOneOfTwo(list, victim.op);
        MergeGroupKeepsObjects(DeleteJob(p, victim), o);
      } else {
        MergeGroupKeepsObjects(MergeFront(p, o), o);
      }
    }
  }

  // ---------------------------------------------------------------------------------------------------
  // What the loop comes to, said without a loop.

  /** A goal-required stop and another goal-required job on the same object. */
  ghost predicate Conflicting(p: Plan, o: Obj) {
    Key(o, Stop) in p.flagged && exists t :: t != Stop && Key(o, t) in p.flagged
  }

  /** Whether the stop job of the object, if any, is what is left. */
  predicate StopWins(p: Plan, o: Obj)
    requires o in p.jobs
  {
    Stop in p.jobs[o] && (Key(o, Stop) in p.flagged || p.jobs[o] == [Stop])
  }

  /** The jobs that are not deleted but end up in the survivor. */
  predicate Kept(p: Plan, k: Key)
    requires k.obj in p.jobs
  {
    k.op in p.jobs[k.obj] && (k.op == Stop <==> StopWins(p, k.obj))
  }

  /** The survivor: a winning stop, else the last job that is not a stop. */
  function Survivor(p: Plan, o: Obj): JobType
    requires o in p.jobs && p.jobs[o] != []
  {
    var list := p.jobs[o];
    if StopWins(p, o) then Stop
    else if list[|list| - 1] != Stop || |list| == 1 then list[|list| - 1]
    else list[|list| - 2]
  }

  /** Where the jobs go once the objects in `os` are merged. */
  function MergeImage(p: Plan, os: set<Obj>): Image {
    map k | k in Keys(p.jobs) && (k.obj in os ==> Kept(p, k)) ::
      if k.obj in os then Key(k.obj, Survivor(p, k.obj)) else k
  }

  function MergedLists(p: Plan, os: set<Obj>): Lists {
    map o | o in p.jobs :: if o in os && p.jobs[o] != [] then [Survivor(p, o)] else p.jobs[o]
  }

  /** The transaction once the objects in `os` are merged. */
  function Merged(p: Plan, os: set<Obj>): Plan {
    var f := MergeImage(p, os);
    Plan(p.objective, MergedLists(p, os), ImageOfFlags(p.flagged, f), ImageOfReqs(p.req, f))
  }
}
