/** Which merges keep their type although the code drops it: what lists `job_submit` leaves, type by type. */
module MergedTypes {
  import opened Types
  import opened Jobs
  import opened Walks
  import opened Closure
  import opened Submission
  import opened Ordering
  import opened Plans
  import opened Merging
  import opened MergeTheorems
  import opened GoalFlags
  import opened JobSubmit
  import opened EarlyFlag

  /** The types of the jobs that a job of this type asks for, directly or through others. */
  function Descendants(op: JobType): set<JobType> {
    match op
    case Start => {Start, Verify, Stop}
    case Restart => {Start, Verify, Stop, TryRestart}
    case TryRestart => {Start, Verify, Stop, TryRestart}
    case Stop => {Stop}
    case Reload => {TryReload}
    case TryReload => {TryReload}
    case Verify => {}
    case TryStart => {}
    case ReloadOrStart => {}
    case RestartOrStart => {}
  }

  lemma VisitDescends(g: Graph, k: Key, v: Visit)
    requires k.obj in g && v in Visits(g, k)
    ensures v.to.op in Descendants(k.op)
  {
    VisitsAreMatchingEdges(g, k, v);
    var r, l :| Asks(g, k, r, l, v);
  }

  lemma DescendantsNest(op: JobType, a: JobType, b: JobType)
    requires (a == op || a in Descendants(op)) && b in Descendants(a)
    ensures b in Descendants(op)
  {
  }

  lemma SubmittedTypes(g: Graph, goal: Key, s: Snap, k: Key)
    requires Closed(g) && Generated(g, s, goal) && k in Keys(s.jobs)
    ensures k == goal || k.op in Descendants(goal.op)
  {
    hide Descendants;
    var asked := AsksFor(g);
    var fit := set j | j in Universe(g) && (j == goal || j.op in Descendants(goal.op));
    forall a, b | a in fit && Step(asked, a, b)
      ensures b in fit
    {
      var v :| v in Visits(g, a) && v.to == b;
      VisitDescends(g, a, v);
      DescendantsNest(goal.op, a.op, b.op);
      VisitStays(g, a, v);
      EveryTypeListed(b.op);
    }
    EveryTypeListed(goal.op);
    var w :| WalkFromTo(asked, w, goal, k);
    assert goal in Keys(s.jobs);
    ClosedSetKeepsWalk(asked, fit, w);
  }

  // ---------------------------------------------------------------------------------------------------
  // The goal's job comes first on its object

  /** Lists only grow at the end. */
  ghost predicate Appends(s: Snap, t: Snap) {
    forall o :: o in s.jobs ==> o in t.jobs && s.jobs[o] <= t.jobs[o]
  }

  lemma {:induction false} SubmitAppends(g: Graph, s: Snap, k: Key, flag: bool)
    requires Closed(g) && k.obj in g
    ensures Appends(s, Submit(g, s, k, flag))
    decreases Universe(g) - Keys(s.jobs), 0
  {
    hide Expand, Universe, Keys;
    if !Listed(s, k) {
      CreatedKeys(g, s, k, flag);
      ExpandAppends(g, Created(s, k, flag), k, 0);
    }
  }

  lemma AppendsNothing(s: Snap)
    ensures Appends(s, s)
  {
  }

  lemma AppendsChain(s: Snap, t: Snap, u: Snap, v: Snap)
    requires Appends(s, t) && u.jobs == t.jobs && Appends(u, v)
    ensures Appends(s, v)
  {
  }

  lemma {:induction false} ExpandAppends(g: Graph, s: Snap, k: Key, n: nat)
    requires Closed(g) && k.obj in g && n <= |Visits(g, k)|
    ensures Appends(s, Expand(g, s, k, n))
    decreases Universe(g) - Keys(s.jobs), |Visits(g, k)| - n + 1
  {
    hide Submit, Universe, Keys, Appends;
    if n == |Visits(g, k)| {
      AppendsNothing(s);
    } else {
      var v := Visits(g, k)[n];
      VisitStays(g, k, v);
      var flag := k in s.flagged && v.required;
      SubmitAppends(g, s, v.to, flag);
      var t := Submit(g, s, v.to, flag);
      var u := t.(req := t.req[ReqId(k, n) := Req(k, v.to, v.required, flag)]);
      ExpandAppends(g, u, k, n + 1);
      AppendsChain(s, t, u, Expand(g, u, k, n + 1));
    }
  }

  lemma {:induction false} GoalComesFirst(g: Graph, goal: Key)
    requires Closed(g) && goal.obj in g
    ensures var s := Submit(g, NOTHING, goal, true);
            goal.obj in s.jobs && s.jobs[goal.obj] != [] && s.jobs[goal.obj][0] == goal.op
  {
    var t := Created(NOTHING, goal, true);
    CreatedKeys(g, NOTHING, goal, true);
    ExpandAppends(g, t, goal, 0);
    assert t.jobs[goal.obj] == [goal.op];
    assert Submit(g, NOTHING, goal, true) == Expand(g, t, goal, 0);
    hide Expand, Submit;
  }

  // ---------------------------------------------------------------------------------------------------
  // Lists of types

  function NonStops(list: seq<JobType>): seq<JobType> {
    if list == [] then
      []
    else
      var last := list[|list| - 1];
      NonStops(list[..|list| - 1]) + (if last == Stop then [] else [last])
  }

  lemma {:induction false} NonStopsMembers(list: seq<JobType>)
    ensures forall t :: t in NonStops(list) <==> t in list && t != Stop
  {
    if list != [] {
      var init, last := list[..|list| - 1], list[|list| - 1];
      assert list == init + [last];
      NonStopsMembers(init);
    }
  }

  lemma {:induction false} NonStopsDistinct(list: seq<JobType>)
    requires Distinct(list)
    ensures Distinct(NonStops(list))
  {
    if list != [] {
      var init, last := list[..|list| - 1], list[|list| - 1];
      assert forall i :: 0 <= i < |init| ==> init[i] == list[i];
      NonStopsDistinct(init);
      NonStopsMembers(init);
      assert last !in NonStops(init);
    }
  }

  lemma {:induction false} NonStopsLast(list: seq<JobType>)
    requires list != [] && list[|list| - 1] != Stop
    ensures NonStops(list) != [] && NonStops(list)[|NonStops(list)| - 1] == list[|list| - 1]
  {
  }

  lemma {:induction false} NonStopsFirst(list: seq<JobType>)
    requires list != [] && list[0] != Stop
    ensures NonStops(list) != [] && NonStops(list)[0] == list[0]
  {
    if |list| > 1 {
      NonStopsFirst(list[..|list| - 1]);
    }
  }

  /** On an object submitted for a goal of this type, the jobs that are not stops. */
  ghost predicate Submittable(op: JobType, list: seq<JobType>) {
    Distinct(list) && forall i :: 0 <= i < |list| ==> list[i] != Stop && (list[i] in Descendants(op) || (i == 0 && list[0] == op))
  }

  lemma Pairs()
    ensures MergedJobType(Verify, Start) == Some(Start) && MergedJobType(Start, Verify) == Some(Start)
    ensures MergedJobType(Start, TryRestart) == Some(RestartOrStart) && MergedJobType(Verify, TryRestart) == Some(RestartOrStart)
    ensures MergedJobType(TryRestart, Start) == Some(RestartOrStart) && MergedJobType(TryRestart, Verify) == Some(RestartOrStart)
    ensures MergedJobType(RestartOrStart, Start) == Some(RestartOrStart)
    ensures MergedJobType(RestartOrStart, Verify) == Some(RestartOrStart)
    ensures MergedJobType(RestartOrStart, TryRestart) == Some(RestartOrStart)
    ensures MergedJobType(Restart, Start) == Some(Restart) && MergedJobType(Restart, Verify) == Some(Restart)
    ensures MergedJobType(Restart, TryRestart) == Some(Restart) && MergedJobType(Reload, TryReload) == Some(Reload)
  {
    var m := MERGE_MATRIX;
    assert |m[1]| == 1 && |m[4]| == 4 && |m[6]| == 6 && |m[7]| == 7 && |m[9]| == 9;
  }

  lemma {:induction false} AlongRestart(list: seq<JobType>)
    requires list != [] && list[0] == Restart
    requires forall i :: 0 < i < |list| ==> list[i] in {Start, Verify, TryRestart}
    ensures MergedAlong(list) == Restart
  {
    Pairs();
    hide MergedJobType;
    if |list| > 1 {
      var init := list[..|list| - 1];
      assert forall i :: 0 <= i < |init| ==> init[i] == list[i];
      AlongRestart(init);
    }
  }

  lemma {:induction false} AlongTwo(list: seq<JobType>)
    requires |list| == 2
    ensures MergedAlong(list) == var m := MergedJobType(list[0], list[1]); if m.Some? then m.value else Stop
  {
    assert list[..1] == [list[0]];
    hide MergedJobType;
  }

  lemma {:induction false} AlongTryRestart(list: seq<JobType>)
    requires |list| >= 2 && Distinct(list) && TryRestart in list
    requires forall i :: 0 <= i < |list| ==> list[i] in {Start, Verify, TryRestart}
    ensures MergedAlong(list) == RestartOrStart
  {
    Pairs();
    hide MergedJobType;
    var init, last := list[..|list| - 1], list[|list| - 1];
    assert list == init + [last] && forall i :: 0 <= i < |init| ==> init[i] == list[i];
    if |list| == 2 {
      AlongTwo(list);
    } else if TryRestart in init {
      AlongTryRestart(init);
    } else {
      StartsOnly(init);
    }
  }

  /** Two or more distinct jobs that start or verify are two, and merge to a start. */
  lemma {:induction false} StartsOnly(list: seq<JobType>)
    requires |list| >= 2 && Distinct(list) && forall i :: 0 <= i < |list| ==> list[i] in {Start, Verify}
    ensures list == [Start, Verify] || list == [Verify, Start]
    ensures MergedAlong(list) == Start
  {
    Pairs();
    DistinctFits(list, {Start, Verify});
    AlongTwo(list);
    hide MergedAlong, MergedJobType;
  }

  /** Of the lists that can be left, one alone keeps its merged type in its last job. */
  lemma {:induction false} LastHasMergedType(op: JobType, list: seq<JobType>)
    requires Submittable(op, list) && |list| >= 2
    ensures MergedAlong(list) == list[|list| - 1] <==> list == [Verify, Start]
  {
    hide MergedAlong;
    assert list[1] in Descendants(op);
    if op == Reload || op == TryReload {
      ReloadLists(op, list);
    } else if list[0] == Restart {
      AlongRestart(list);
    } else if TryRestart in list {
      AlongTryRestart(list);
    } else {
      StartsOnly(list);
    }
  }

  lemma {:induction false} ReloadLists(op: JobType, list: seq<JobType>)
    requires Submittable(op, list) && |list| >= 2 && (op == Reload || op == TryReload)
    ensures list == [Reload, TryReload] && MergedAlong(list) == Reload
  {
    Pairs();
    DistinctFits(list, {Reload, TryReload});
    AlongTwo(list);
    hide MergedAlong, MergedJobType;
  }

  // ---------------------------------------------------------------------------------------------------
  // The survivor

  /**
    * Of the jobs submitted on an object, let two or more be left to merge, no stop having won.  Then the job that is
    * left has the type that the matrix gives exactly when they are a verify and, after it, a start job.
    */
  lemma {:induction false} TypeKeptIffVerifyThenStart(g: Graph, goal: Key, p: Plan, o: Obj)
    requires Closed(g) && goal.obj in g && Mergeable(p) && o in p.jobs
    requires var s := Submit(g, NOTHING, goal, true); o in s.jobs && p.jobs[o] == s.jobs[o]
    requires !Conflicting(p, o) && !StopWins(p, o) && |NonStops(p.jobs[o])| >= 2
    ensures MergeGroup(p, o).Some? && o in MergeGroup(p, o).value.jobs
    ensures var list := NonStops(p.jobs[o]);
            MergeGroup(p, o).value.jobs[o] == [MergedAlong(list)] <==> list == [Verify, Start]
  {
    var list := NonStops(p.jobs[o]);
    SubmittedAreSubmittable(g, goal, p, o);
    LastHasMergedType(goal.op, list);
    LastSurvives(p, o);
    MergeGroupIsQuotient(p, o);
    hide MergedAlong, NonStops, Submit, MergeGroup, Conflicting, MergeImage;
  }

  /**
    * The objective is not redirected: where merging succeeds, its job is still there exactly when it is a stop, or no
    * other job but a stop is left on its object.
    */
  lemma {:induction false} SubmittedObjectiveStaysIff(g: Graph, goal: Key, p: Plan)
    requires Closed(g) && goal.obj in g && Mergeable(p) && p.objective == goal && goal in p.flagged
    requires var s := Submit(g, NOTHING, goal, true);
             goal.obj in s.jobs && goal.obj in p.jobs && p.jobs[goal.obj] == s.jobs[goal.obj]
    requires !Conflicting(p, goal.obj)
    ensures goal in Keys(Merged(p, p.jobs.Keys).jobs) <==> goal.op == Stop || NonStops(p.jobs[goal.obj]) == [goal.op]
  {
    var list := p.jobs[goal.obj];
    GoalComesFirst(g, goal);
    ListIsDistinct(p, goal.obj);
    hide Submit, Merged, NonStops;
    FirstOfGroup(p, list);
    ObjectiveStaysIff(p);
    if goal.op != Stop {
      NonStopsFirst(list);
      NonStopsDistinct(list);
      LastSurvives(p, goal.obj);
      OnlyIfOne(NonStops(list));
    }
  }

  lemma FirstOfGroup(p: Plan, list: seq<JobType>)
    requires p.objective.obj in p.jobs && list == p.jobs[p.objective.obj] && list != [] && list[0] == p.objective.op
    requires p.objective in p.flagged && !Conflicting(p, p.objective.obj)
    ensures p.objective in Keys(p.jobs)
    ensures StopWins(p, p.objective.obj) <==> p.objective.op == Stop
    ensures p.objective.op == Stop ==> Survivor(p, p.objective.obj) == Stop
  {
    assert list[0] in list;
    assert p.objective == Key(p.objective.obj, p.objective.op);
  }

  lemma OnlyIfOne<T>(list: seq<T>)
    requires list != [] && Distinct(list)
    ensures list[|list| - 1] == list[0] <==> list == [list[0]]
  {
  }

  lemma LastSurvives(p: Plan, o: Obj)
    requires Mergeable(p) && o in p.jobs && !StopWins(p, o) && NonStops(p.jobs[o]) != []
    ensures p.jobs[o] != [] && Survivor(p, o) == NonStops(p.jobs[o])[|NonStops(p.jobs[o])| - 1]
  {
    var list := p.jobs[o];
    NonStopsMembers(list);
    if list[|list| - 1] == Stop {
      var init := list[..|list| - 1];
      assert NonStops(list) == NonStops(init);
      NonStopsLast(init);
      assert init[|init| - 1] == list[|list| - 2];
    } else {
      NonStopsLast(list);
    }
  }

  lemma {:induction false} SubmittedAreSubmittable(g: Graph, goal: Key, p: Plan, o: Obj)
    requires Closed(g) && goal.obj in g && Mergeable(p) && o in p.jobs
    requires var s := Submit(g, NOTHING, goal, true); o in s.jobs && p.jobs[o] == s.jobs[o]
    ensures Submittable(goal.op, NonStops(p.jobs[o]))
  {
    var s, list := Submit(g, NOTHING, goal, true), p.jobs[o];
    hide *;
    SubmitGenerates(g, goal);
    GoalComesFirst(g, goal);
    ListIsDistinct(p, o);
    ListedTypes(g, goal, s, o);
    NonStopsMembers(list);
    NonStopsDistinct(list);
    FirstStaysFirst(list, goal.op);
    TypesFit(goal.op, list, NonStops(list));
  }

  lemma ListIsDistinct(p: Plan, o: Obj)
    requires Mergeable(p) && o in p.jobs
    ensures Distinct(p.jobs[o])
  {
  }

  lemma ListedTypes(g: Graph, goal: Key, s: Snap, o: Obj)
    requires Closed(g) && Generated(g, s, goal) && o in s.jobs
    requires goal.obj in s.jobs && s.jobs[goal.obj] != [] && s.jobs[goal.obj][0] == goal.op
    ensures forall t :: t in s.jobs[o] ==>
              t in Descendants(goal.op) || (t == goal.op && s.jobs[o] != [] && s.jobs[o][0] == t)
  {
    hide Descendants, Generated, Closed;
    forall t | t in s.jobs[o]
      ensures t in Descendants(goal.op) || (t == goal.op && s.jobs[o] != [] && s.jobs[o][0] == t)
    {
      assert Key(o, t) in Keys(s.jobs);
      SubmittedTypes(g, goal, s, Key(o, t));
    }
  }

  lemma TypesFit(op: JobType, list: seq<JobType>, rest: seq<JobType>)
    requires Distinct(rest) && forall t :: t in rest ==> t in list && t != Stop
    requires forall t :: t in list ==> t in Descendants(op) || (t == op && list != [] && list[0] == t)
    requires list != [] && list[0] == op && op != Stop ==> rest != [] && rest[0] == op
    ensures Submittable(op, rest)
  {
    hide Descendants;
    forall i | 0 <= i < |rest|
      ensures rest[i] != Stop && (rest[i] in Descendants(op) || (i == 0 && rest[0] == op))
    {
      assert rest[i] in rest;
    }
  }

  lemma {:induction false} FirstStaysFirst(list: seq<JobType>, op: JobType)
    ensures list != [] && list[0] == op && op != Stop ==> NonStops(list) != [] && NonStops(list)[0] == op
  {
    if list != [] && list[0] == op && op != Stop {
      NonStopsFirst(list);
    }
  }
}
