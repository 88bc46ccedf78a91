/**
  * On which transactions the engine as the code has it, which does not mark jobs as running, starts a job while it is
  * running, if completions come in an unfortunate order.
  */
module DoubleStarts {
  import opened Types
  import opened Walks
  import opened AfterGraphs
  import opened Engine
  import opened AsyncEngine
  import opened CodeEngine

  /** The jobs that may run at once have been started, and nothing has ended yet. */
  ghost predicate JustEnqueued(g: Graph, s: State) {
    Invariant(g, s) && FirstStarts(g, s.run)
  }

  /** No job is ordered after a stop or restart job. */
  ghost predicate Steady(g: Graph, r: Run) {
    forall f, b :: f in r && b in r && Follows(g, f, b) ==> r[b].op != Stop && r[b].op != Restart
  }

  /** `f` is listed more than once among the followers of `b`. */
  ghost predicate ListedTwice(to: Graph, b: Obj, f: Obj) {
    b in to && exists i, j :: 0 <= i < j < |to[b]| && IsFollower(to[b][i], f) && IsFollower(to[b][j], f)
  }

  predicate IsFollower(l: Link, f: Obj) {
    After in l.kinds && l.to == f
  }

  /** `f` is ordered after another job that is, through a chain, itself ordered after `b`. */
  ghost predicate Covered(g: Graph, r: Run, f: Obj, b: Obj) {
    exists y :: y != b && y in r && Follows(g, f, y) && Reaches(AfterAmong(g, r.Keys), y, b)
  }

  /**
    * No job is ordered after a stop or restart job, and whatever is listed more than once among the followers of a
    * job has to wait for a later job anyway.
    */
  ghost predicate NeverTwice(g: Graph, to: Graph, r: Run) {
    && Steady(g, r)
    && forall b, f :: b in r && f in r && ListedTwice(to, b, f) ==> Covered(g, r, f, b)
  }

  // ---------------------------------------------------------------------------------------------------
  // Safety

  /** Whatever has been started waited only for what has succeeded. */
  ghost predicate StartedInOrder(g: Graph, r: Run) {
    forall x, w :: WaitsFor(g, r, x, w) && r[x].state != Awaiting ==> r[w].state == Succeeded
  }

  ghost predicate Good(g: Graph, s: State) {
    Invariant(g, s) && Steady(g, s.run) && StartedInOrder(g, s.run)
  }

  lemma LaunchKeepsOrder(g: Graph, s: State, o: Obj)
    requires Steady(g, s.run) && StartedInOrder(g, s.run)
    ensures Steady(g, TryLaunch(g, s, o).run) && StartedInOrder(g, TryLaunch(g, s, o).run)
  {
    if o in s.ids && Runnable(g, s.run, o) {
      var r, t := s.run, Launch(s, o).run;
      forall x, w | WaitsFor(g, t, x, w) && t[x].state != Awaiting
        ensures t[w].state == Succeeded
      {
        assert WaitsFor(g, r, x, w);
      }
    }
  }

  lemma {:induction false} WakeKeepsOrder(g: Graph, s: State, links: seq<Link>)
    requires Steady(g, s.run) && StartedInOrder(g, s.run)
    ensures Steady(g, Wake(g, s, links).run) && StartedInOrder(g, Wake(g, s, links).run)
  {
    hide Steady, StartedInOrder, TryLaunch;
    if links != [] {
      WakeKeepsOrder(g, s, links[..|links| - 1]);
      LaunchKeepsOrder(g, Wake(g, s, links[..|links| - 1]), links[|links| - 1].to);
    }
  }

  lemma EndedKeepsOrder(g: Graph, s: State, id: int, res: JobState)
    requires RunningSet(s) && Steady(g, s.run) && StartedInOrder(g, s.run) && id in s.running
    ensures Steady(g, Ended(s, id, res).run) && StartedInOrder(g, Ended(s, id, res).run)
  {
    var o, r, t := s.running[id], s.run, Ended(s, id, res).run;
    assert r[o].state == Running;
    forall x, w | WaitsFor(g, t, x, w) && t[x].state != Awaiting
      ensures t[w].state == Succeeded
    {
      assert Follows(g, x, w) && r[w].op != Stop && r[w].op != Restart;
      assert WaitsFor(g, r, x, w) && r[x].state != Awaiting;
    }
  }

  lemma NextKeepsGood(g: Graph, to: Graph, s: State, e: Event)
    requires Mirrored(g, to) && s.run.Keys <= to.Keys && Good(g, s)
    ensures Good(g, Next(g, to, s, e)) && Next(g, to, s, e).run.Keys == s.run.Keys
  {
    hide Mirrored, Steady, StartedInOrder, Ended, Wake, TryLaunch;
    NextKeepsInvariant(g, to, s, e);
    NextIsWake(g, to, s, e);
    if Happens(to, s, e) {
      var o, ended := s.running[e.id], Ended(s, e.id, Result(e));
      EndedKeepsOrder(g, s, e.id, Result(e));
      LaunchKeepsOrder(g, ended, o);
      WakeKeepsOrder(g, Resumed(g, s, e), to[o]);
    }
  }

  /** Success reaches down the waits of what has succeeded. */
  lemma SuccessBelow(g: Graph, r: Run, y: Obj, b: Obj)
    requires Steady(g, r) && StartedInOrder(g, r) && y in r && r[y].state == Succeeded
    requires Reaches(AfterAmong(g, r.Keys), y, b)
    ensures b in r && r[b].state == Succeeded
  {
    var after := AfterAmong(g, r.Keys);
    var done := set x | x in r && r[x].state == Succeeded;
    forall x, w | x in done && Step(after, x, w)
      ensures w in done
    {
      AmongStep(g, r.Keys, x, w);
      assert WaitsFor(g, r, x, w);
    }
    var w :| WalkFromTo(after, w, y, b);
    ClosedSetKeepsWalk(after, done, w);
  }

  /** At the end of a job, what is listed among its followers and may run is listed once, and is not running. */
  lemma OnceWhenGood(g: Graph, to: Graph, s: State, e: Event)
    requires Mirrored(g, to) && Good(g, s) && NeverTwice(g, to, s.run) && Happens(to, s, e)
    ensures ListsOnce(g, Resumed(g, s, e).run, to[s.running[e.id]])
  {
    var o := s.running[e.id];
    var links, t := to[o], Resumed(g, s, e).run;
    assert s.run[o].state == Running;
    forall j | 0 <= j < |links| && After in links[j].kinds && Released(g, t, links[j].to)
      ensures t[links[j].to].state == Awaiting
      ensures forall i :: 0 <= i < j && After in links[i].kinds ==> links[i].to != links[j].to
    {
      var f := links[j].to;
      assert Follows(to, o, f);
      FollowerWaits(g, to, s, e, f);
      if i :| 0 <= i < j && After in links[i].kinds && links[i].to == f {
        assert IsFollower(links[i], f) && IsFollower(links[j], f);
        assert ListedTwice(to, o, f);
        NotCovered(g, s, e, f);
      }
    }
  }

  lemma FollowerWaits(g: Graph, to: Graph, s: State, e: Event, f: Obj)
    requires Mirrored(g, to) && Good(g, s) && Happens(to, s, e) && Follows(to, s.running[e.id], f)
    requires Released(g, Resumed(g, s, e).run, f)
    ensures var o, t := s.running[e.id], Resumed(g, s, e).run;
            && f in s.run && f != o && t[f] == s.run[f] && s.run[f].state == Awaiting && Follows(g, f, o)
            && t.Keys == s.run.Keys && (forall y :: y in t && y != o ==> t[y] == s.run[y])
  {
    var o, t := s.running[e.id], Resumed(g, s, e).run;
    assert Follows(g, f, o) && s.run[o].state == Running;
    assert f in s.run;
    assert s.run[o].op != Stop && s.run[o].op != Restart;
    assert t == Ended(s, e.id, Result(e)).run;
    assert WaitsFor(g, t, f, o);
    assert WaitsFor(g, s.run, f, o);
  }

  /** Waiting for a later job, the follower would not have been released. */
  lemma NotCovered(g: Graph, s: State, e: Event, f: Obj)
    requires Good(g, s) && e.id in s.running && s.running[e.id] in s.run && f in s.run
    requires var o, t := s.running[e.id], Resumed(g, s, e).run;
             && t.Keys == s.run.Keys && (forall y :: y in t && y != o ==> t[y] == s.run[y])
             && Released(g, t, f)
    ensures !Covered(g, s.run, f, s.running[e.id])
  {
    var o, t := s.running[e.id], Resumed(g, s, e).run;
    assert s.run[o].state == Running;
    if Covered(g, s.run, f, o) {
      var y :| y != o && y in s.run && Follows(g, f, y) && Reaches(AfterAmong(g, s.run.Keys), y, o);
      assert WaitsFor(g, t, f, y);
      SuccessBelow(g, s.run, y, o);
    }
  }

  lemma NeverTwiceStays(g: Graph, to: Graph, r: Run, t: Run)
    requires NeverTwice(g, to, r) && t.Keys == r.Keys && Steady(g, t)
    ensures NeverTwice(g, to, t)
  {
    forall b, f | b in t && f in t && ListedTwice(to, b, f)
      ensures Covered(g, t, f, b)
    {
      assert Covered(g, r, f, b);
    }
  }

  /** Whatever happens, no job is started while it is running. */
  lemma {:induction false} NeverStartedTwice(g: Graph, to: Graph, s: State, events: seq<Event>)
    requires Mirrored(g, to) && s.run.Keys <= to.Keys && Good(g, s) && NeverTwice(g, to, s.run)
    ensures AllClean(g, to, AsCode(s), events)
    ensures Good(g, Reached(g, to, s, events)) && Reached(g, to, s, events).run.Keys == s.run.Keys
    decreases |events|
  {
    hide Mirrored, Clean, Next, CodeReached, CodeNext, NeverTwice, ListsOnce, Resumed, AsCode;
    if events != [] {
      var init, e := events[..|events| - 1], events[|events| - 1];
      NeverStartedTwice(g, to, s, init);
      var t := Reached(g, to, s, init);
      NextKeepsGood(g, to, t, e);
      AlikeWhileClean(g, to, s, init);
      NeverTwiceStays(g, to, s.run, t.run);
      if Happens(to, t, e) {
        OnceWhenGood(g, to, t, e);
      }
      CleanStep(g, to, t, e);
    }
  }

  lemma EnqueuedIsGood(g: Graph, to: Graph, s: State)
    requires JustEnqueued(g, s) && Steady(g, s.run)
    ensures Good(g, s)
  {
  }

  // ---------------------------------------------------------------------------------------------------
  // Runs in which all but a few jobs are completed

  ghost predicate AllWell(s: State) {
    forall o :: o in s.run ==> s.run[o].state == Awaiting || s.run[o].state == Running || s.run[o].state == Succeeded
  }

  /** From `r` to `t` nothing happened but that awaiting jobs were started. */
  ghost predicate Advances(r: Run, t: Run) {
    && t.Keys == r.Keys
    && forall x :: x in r ==>
         t[x].op == r[x].op && (t[x].state == r[x].state || (r[x].state == Awaiting && t[x].state == Running))
  }

  /** The completions still to come, at most. */
  ghost function Left(s: State): int {
    Budget(s) - s.starts + |s.running|
  }

  lemma LeftIsNat(s: State)
    ensures Left(s) >= 0
  {
  }

  lemma LaunchAdvances(g: Graph, s: State, o: Obj)
    requires RunningSet(s) && Numbered(s)
    ensures Advances(s.run, TryLaunch(g, s, o).run) && Left(TryLaunch(g, s, o)) == Left(s)
  {
    hide Left, RunningSet, Numbered;
    if o in s.ids && Runnable(g, s.run, o) {
      LaunchLeaves(s, o);
    }
  }

  lemma LaunchLeaves(s: State, o: Obj)
    requires RunningSet(s) && Numbered(s) && o in s.ids && o in s.run && s.run[o].state == Awaiting
    ensures Left(Launch(s, o)) == Left(s)
  {
    LaunchKeepsBudget(s, o);
    assert s.ids[o] !in s.running;
    hide Budget, RunningSet, Numbered;
    assert Launch(s, o).running.Keys == s.running.Keys + {s.ids[o]};
  }

  lemma {:induction false} WakeAdvances(g: Graph, s: State, links: seq<Link>)
    requires RunningSet(s) && Numbered(s)
    ensures Advances(s.run, Wake(g, s, links).run) && Left(Wake(g, s, links)) == Left(s)
  {
    hide TryLaunch, Left, RunningSet, Numbered;
    if links != [] {
      var init, last := links[..|links| - 1], links[|links| - 1];
      WakeAdvances(g, s, init);
      WakeKeeps(g, s, init);
      LaunchAdvances(g, Wake(g, s, init), last.to);
    }
  }

  lemma EndedLeaves(s: State, id: int)
    requires RunningSet(s) && Numbered(s) && id in s.running
    ensures Left(Ended(s, id, Succeeded)) < Left(s)
  {
    EndedKeepsBudget(s, id, Succeeded);
    hide Budget;
    assert (s.running - {id}).Keys == s.running.Keys - {id};
  }

  lemma ResumedAdvances(g: Graph, s: State, e: Event)
    requires RunningSet(s) && Numbered(s) && e.id in s.running && Ending(Result(e))
    ensures RunningSet(Resumed(g, s, e)) && Numbered(Resumed(g, s, e))
    ensures Advances(Ended(s, e.id, Result(e)).run, Resumed(g, s, e).run)
    ensures Left(Resumed(g, s, e)) == Left(Ended(s, e.id, Result(e)))
  {
    EndedKeepsRunningSet(s, e.id, Result(e));
    LaunchAdvances(g, Ended(s, e.id, Result(e)), s.running[e.id]);
    TryLaunchKeeps(g, Ended(s, e.id, Result(e)), s.running[e.id]);
    hide Left, Ended, TryLaunch;
  }

  lemma AdvancesOn(r: Run, t: Run, u: Run)
    requires Advances(r, t) && Advances(t, u)
    ensures Advances(r, u)
  {
  }

  /** One completion with success. */
  lemma SuccessStep(g: Graph, to: Graph, s: State, id: int)
    requires Mirrored(g, to) && s.run.Keys <= to.Keys && Invariant(g, s) && AllWell(s) && id in s.running
    ensures var e := Completion(id, Succeeded);
            && Happens(to, s, e)
            && Invariant(g, Next(g, to, s, e)) && AllWell(Next(g, to, s, e))
            && Advances(Ended(s, id, Succeeded).run, Next(g, to, s, e).run)
            && Left(Next(g, to, s, e)) < Left(s)
            && Next(g, to, s, e).run.Keys == s.run.Keys
  {
    var e := Completion(id, Succeeded);
    var o := s.running[id];
    NextKeepsInvariant(g, to, s, e);
    NextIsWake(g, to, s, e);
    ResumedAdvances(g, s, e);
    WakeAdvances(g, Resumed(g, s, e), to[o]);
    AdvancesOn(Ended(s, id, Succeeded).run, Resumed(g, s, e).run, Next(g, to, s, e).run);
    EndedLeaves(s, id);
    EndedWell(s, id);
    AdvancedWell(Ended(s, id, Succeeded), Next(g, to, s, e));
    hide Mirrored, Left, Next, Wake, Resumed, Invariant, RunningSet, Numbered, Ended, AllWell, Advances;
  }

  lemma EndedWell(s: State, id: int)
    requires RunningSet(s) && AllWell(s) && id in s.running
    ensures AllWell(Ended(s, id, Succeeded)) && Ended(s, id, Succeeded).run.Keys == s.run.Keys
  {
  }

  lemma AdvancedWell(s: State, t: State)
    requires AllWell(s) && Advances(s.run, t.run)
    ensures AllWell(t) && t.run.Keys == s.run.Keys
  {
  }

  /** No held job has been completed, and what is running is held. */
  ghost predicate Quiet(s: State, t: State, hold: set<Obj>) {
    && t.run.Keys == s.run.Keys && AllWell(t)
    && (forall id :: id in t.running ==> t.running[id] in hold)
    && (forall h :: h in hold && h in s.run ==> Kept(s.run, t.run, h))
  }

  ghost predicate Kept(r: Run, t: Run, h: Obj)
    requires h in r
  {
    && h in t && t[h].op == r[h].op
    && (r[h].state == Running ==> t[h].state == Running)
    && (r[h].state == Awaiting ==> t[h].state == Awaiting || t[h].state == Running)
  }

  /** All but the jobs in `hold` are completed, with success, until only such are running. */
  lemma {:induction false} Quiesce(g: Graph, to: Graph, s: State, hold: set<Obj>) returns (events: seq<Event>)
    requires Mirrored(g, to) && s.run.Keys <= to.Keys && Invariant(g, s) && AllWell(s)
    ensures Invariant(g, Reached(g, to, s, events)) && Quiet(s, Reached(g, to, s, events), hold)
    ensures forall i :: 0 <= i < |events| ==> events[i].Completion? && events[i].res == Succeeded
    ensures forall h, n :: h in hold && h in s.run && 0 <= n <= |events| ==>
              Kept(s.run, Reached(g, to, s, events[..n]).run, h)
    decreases Left(s)
  {
    hide *;
    if id :| id in s.running && s.running[id] !in hold {
      var e := Completion(id, Succeeded);
      LeftIsNat(s);
      SuccessStep(g, to, s, id);
      var t := Next(g, to, s, e);
      LeftIsNat(t);
      OthersKept(g, to, s, id, hold);
      var rest := Quiesce(g, to, t, hold);
      events := [e] + rest;
      StepThenRest(g, to, s, e, rest, hold);
    } else {
      events := [];
      NothingToDo(g, to, s, hold);
    }
  }

  lemma {:induction false} NothingToDo(g: Graph, to: Graph, s: State, hold: set<Obj>)
    requires AllWell(s) && forall id :: id in s.running ==> s.running[id] in hold
    ensures Reached(g, to, s, []) == s && Quiet(s, Reached(g, to, s, []), hold)
    ensures forall h, n :: h in hold && h in s.run && 0 <= n <= 0 ==> Kept(s.run, Reached(g, to, s, [][..n]).run, h)
  {
  }

  lemma OthersKept(g: Graph, to: Graph, s: State, id: int, hold: set<Obj>)
    requires Invariant(g, s) && id in s.running && s.running[id] !in hold
    requires Advances(Ended(s, id, Succeeded).run, Next(g, to, s, Completion(id, Succeeded)).run)
    ensures forall h :: h in hold && h in s.run ==> Kept(s.run, Next(g, to, s, Completion(id, Succeeded)).run, h)
  {
    hide Next;
  }

  lemma KeptOn(r: Run, t: Run, u: Run, h: Obj)
    requires h in r && h in t && Kept(r, t, h) && Kept(t, u, h)
    ensures Kept(r, u, h)
  {
  }

  lemma {:induction false} StepThenRest(g: Graph, to: Graph, s: State, e: Event, rest: seq<Event>, hold: set<Obj>)
    requires var t := Next(g, to, s, e);
             && t.run.Keys == s.run.Keys && Quiet(t, Reached(g, to, t, rest), hold)
             && (forall h :: h in hold && h in s.run ==> Kept(s.run, t.run, h))
             && (forall h, n :: h in hold && h in t.run && 0 <= n <= |rest| ==> Kept(t.run, Reached(g, to, t, rest[..n]).run, h))
    ensures Reached(g, to, s, [e] + rest) == Reached(g, to, Next(g, to, s, e), rest)
    ensures Quiet(s, Reached(g, to, s, [e] + rest), hold)
    ensures forall h, n :: h in hold && h in s.run && 0 <= n <= |[e] + rest| ==>
              Kept(s.run, Reached(g, to, s, ([e] + rest)[..n]).run, h)
  {
    var t := Next(g, to, s, e);
    OneEvent(g, to, s, e);
    ReachedJoin(g, to, s, [e], rest);
    hide Next, Reached;
    forall h, n | h in hold && h in s.run && 0 <= n <= |[e] + rest|
      ensures Kept(s.run, Reached(g, to, s, ([e] + rest)[..n]).run, h)
    {
      if n == 0 {
        NoEvent(g, to, s, [e] + rest);
      } else {
        assert ([e] + rest)[..n] == [e] + rest[..n - 1];
        ReachedJoin(g, to, s, [e], rest[..n - 1]);
        KeptOn(s.run, t.run, Reached(g, to, t, rest[..n - 1]).run, h);
      }
    }
    assert rest[..|rest|] == rest;
    forall h | h in hold && h in s.run
      ensures Kept(s.run, Reached(g, to, t, rest).run, h)
    {
      KeptOn(s.run, t.run, Reached(g, to, t, rest).run, h);
    }
  }

  lemma {:induction false} OneEvent(g: Graph, to: Graph, s: State, e: Event)
    ensures Reached(g, to, s, [e]) == Next(g, to, s, e)
  {
    assert [e][..0] == [];
    hide Next;
  }

  lemma {:induction false} NoEvent(g: Graph, to: Graph, s: State, events: seq<Event>)
    ensures Reached(g, to, s, events[..0]) == s
  {
    assert events[..0] == [];
  }

  // ---------------------------------------------------------------------------------------------------
  // Who is still waiting when it is quiet

  /** `x` waits, through a chain of jobs ordered one after the other, for the running job `h`. */
  ghost predicate WaitsOn(g: Graph, r: Run, x: Obj, h: Obj) {
    h in r && r[h].state == Running && exists z :: Reaches(AfterAmong(g, r.Keys), x, z) && WaitsFor(g, r, z, h)
  }

  lemma WaitsFurther(g: Graph, r: Run, x: Obj, b: Obj, h: Obj)
    requires WaitsFor(g, r, x, b) && WaitsOn(g, r, b, h)
    ensures WaitsOn(g, r, x, h)
  {
    var z :| Reaches(AfterAmong(g, r.Keys), b, z) && WaitsFor(g, r, z, h);
    AmongStep(g, r.Keys, x, b);
    StepThenReaches(AfterAmong(g, r.Keys), x, b, z);
  }

  lemma WaitsDirectly(g: Graph, r: Run, x: Obj, h: Obj)
    requires WaitsFor(g, r, x, h) && r[h].state == Running
    ensures WaitsOn(g, r, x, h)
  {
    ReachesSelf(AfterAmong(g, r.Keys), x);
  }

  /** A running job that one waits on is ordered before it. */
  lemma WaitsOnReaches(g: Graph, r: Run, x: Obj, h: Obj)
    ensures WaitsOn(g, r, x, h) ==> Reaches(AfterAmong(g, r.Keys), x, h) && r[h].op != Stop && r[h].op != Restart
  {
    if WaitsOn(g, r, x, h) {
      var z :| Reaches(AfterAmong(g, r.Keys), x, z) && WaitsFor(g, r, z, h);
      AmongStep(g, r.Keys, z, h);
      ReachesThroughStep(AfterAmong(g, r.Keys), x, z, h);
    }
  }

  /** What is awaiting then waits on a job that is running. */
  lemma AwaitingWaitsOn(g: Graph, t: State, x: Obj)
    requires Invariant(g, t) && AllWell(t) && Acyclic(AfterAmong(g, t.run.Keys))
    requires x in t.run && t.run[x].state == Awaiting
    ensures exists h :: WaitsOn(g, t.run, x, h)
  {
    var r := t.run;
    var after := AfterAmong(g, r.Keys);
    var stuck := set o | o in r && r[o].state == Awaiting && forall h :: !WaitsOn(g, r, o, h);
    forall o | o in stuck
      ensures StepsInto(after, stuck, o)
    {
      assert o !in Ready(g, r);
      var b :| WaitsFor(g, r, o, b) && r[b].state != Succeeded;
      if r[b].state == Running {
        WaitsDirectly(g, r, o, b);
      }
      forall h
        ensures !WaitsOn(g, r, b, h)
      {
        if WaitsOn(g, r, b, h) {
          WaitsFurther(g, r, o, b, h);
        }
      }
      AmongStep(g, r.Keys, o, b);
      assert b in stuck;
    }
    LeftIsEmpty(after, stuck);
    assert x !in stuck;
  }

  lemma NoWayBack(g: Graph, os: set<Obj>, f: Obj, y: Obj)
    requires Acyclic(AfterAmong(g, os)) && f in os && y in os && Follows(g, f, y)
    ensures f != y && !Reaches(AfterAmong(g, os), y, f)
  {
    var after := AfterAmong(g, os);
    AmongStep(g, os, f, y);
    if Reaches(after, y, f) {
      var w :| WalkFromTo(after, w, y, f);
      assert IsWalk(after, [f]);
      JoinWalks(after, [f], w);
      assert ClosedWalk(after, [f] + w);
    }
    if f == y {
      ReachesSelf(after, y);
    }
  }

  /** When only held jobs are running, a job that waits on none of them and is not held has succeeded. */
  lemma SettledUnless(g: Graph, s: State, t: State, hold: set<Obj>, y: Obj)
    requires Invariant(g, t) && Quiet(s, t, hold) && Acyclic(AfterAmong(g, t.run.Keys)) && y in t.run
    ensures t.run[y].state == Succeeded || y in hold || exists h :: h in hold && WaitsOn(g, t.run, y, h)
  {
    if t.run[y].state == Awaiting {
      AwaitingWaitsOn(g, t, y);
      var h :| WaitsOn(g, t.run, y, h);
      RunningIsHeld(g, s, t, hold, h);
    } else if t.run[y].state == Running {
      RunningIsHeld(g, s, t, hold, y);
    }
  }

  lemma RunningIsHeld(g: Graph, s: State, t: State, hold: set<Obj>, h: Obj)
    requires Invariant(g, t) && Quiet(s, t, hold) && h in t.run && t.run[h].state == Running
    ensures h in hold
  {
    assert t.running[t.ids[h]] == h;
  }

  // ---------------------------------------------------------------------------------------------------
  // A job ordered after a stop or restart job

  /** All that `f` is ordered after has succeeded. */
  ghost predicate AllBefore(g: Graph, r: Run, f: Obj) {
    forall y :: y in r && Follows(g, f, y) ==> r[y].state == Succeeded
  }

  lemma {:induction false} LastBefore(g: Graph, to: Graph, s: State, events: seq<Event>, f: Obj) returns (n: nat)
    requires !AllBefore(g, s.run, f) && AllBefore(g, Reached(g, to, s, events).run, f)
    ensures n < |events|
    ensures !AllBefore(g, Reached(g, to, s, events[..n]).run, f)
    ensures AllBefore(g, Next(g, to, Reached(g, to, s, events[..n]), events[n]).run, f)
  {
    hide Next, AllBefore;
    if AllBefore(g, Reached(g, to, s, events[..|events| - 1]).run, f) {
      n := LastBefore(g, to, s, events[..|events| - 1], f);
      assert events[..|events| - 1][..n] == events[..n];
    } else {
      n := |events| - 1;
    }
  }

  /** The completion of the last job before `f`, while `f` is running, starts `f` again. */
  lemma LastStartsAgain(g: Graph, to: Graph, v: State, e: Event, f: Obj)
    requires Mirrored(g, to) && v.run.Keys <= to.Keys && Invariant(g, v) && AllWell(v)
    requires f in v.run && v.run[f].state == Running
    requires e.Completion? && e.res == Succeeded
    requires !AllBefore(g, v.run, f) && AllBefore(g, Next(g, to, v, e).run, f)
    requires f in Next(g, to, v, e).run && Next(g, to, v, e).run[f].state == Running
    requires e.id in v.running ==> v.running[e.id] != f
    ensures Happens(to, v, e) && !ListsOnce(g, Resumed(g, v, e).run, to[v.running[e.id]])
  {
    NextIsWake(g, to, v, e);
    assert e.id in v.running;
    SuccessStep(g, to, v, e.id);
    var o, ended, w := v.running[e.id], Ended(v, e.id, Succeeded), Next(g, to, v, e);
    var y :| y in v.run && Follows(g, f, y) && v.run[y].state != Succeeded;
    assert w.run[y].state == Succeeded && ended.run[y].state == Succeeded;
    assert y == o && v.run[o].op != Restart;
    assert Resumed(g, v, e) == ended;
    assert ended.run[f] == v.run[f];
    forall b | WaitsFor(g, ended.run, f, b)
      ensures ended.run[b].state == Succeeded
    {
      assert w.run[b].state == Succeeded;
    }
    assert Released(g, ended.run, f);
    FollowerIsListed(g, to, o, f);
    hide Next, Wake;
  }

  lemma FollowerIsListed(g: Graph, to: Graph, o: Obj, f: Obj)
    requires Mirrored(g, to) && Follows(g, f, o)
    ensures o in to && exists j :: 0 <= j < |to[o]| && After in to[o][j].kinds && to[o][j].to == f
  {
    assert Follows(to, o, f);
  }

  lemma {:induction false} WellThroughout(g: Graph, to: Graph, s: State, events: seq<Event>)
    requires Mirrored(g, to) && s.run.Keys <= to.Keys && Invariant(g, s) && AllWell(s)
    requires forall i :: 0 <= i < |events| ==> events[i].Completion? && events[i].res == Succeeded
    ensures var t := Reached(g, to, s, events); Invariant(g, t) && AllWell(t) && t.run.Keys == s.run.Keys
    decreases |events|
  {
    hide Mirrored, Invariant, AllWell, Next;
    if events != [] {
      var init, e := events[..|events| - 1], events[|events| - 1];
      WellThroughout(g, to, s, init);
      SuccessKeepsWell(g, to, Reached(g, to, s, init), e);
    }
  }

  lemma SuccessKeepsWell(g: Graph, to: Graph, s: State, e: Event)
    requires Mirrored(g, to) && s.run.Keys <= to.Keys && Invariant(g, s) && AllWell(s)
    requires e.Completion? && e.res == Succeeded
    ensures var t := Next(g, to, s, e); Invariant(g, t) && AllWell(t) && t.run.Keys == s.run.Keys
  {
    if e.id in s.running {
      SuccessStep(g, to, s, e.id);
    }
    hide Mirrored, Invariant, AllWell, Complete;
  }

  /** A held job that stays as it was has not been completed. */
  lemma HeldNotCompleted(g: Graph, to: Graph, r: Run, v: State, e: Event, f: Obj)
    requires Mirrored(g, to) && v.run.Keys <= to.Keys && Invariant(g, v) && AllWell(v)
    requires e.Completion? && e.res == Succeeded
    requires f in r && r[f].state == Running && Kept(r, v.run, f) && Kept(r, Next(g, to, v, e).run, f)
    ensures e.id in v.running ==> v.running[e.id] != f
  {
    if e.id in v.running {
      SuccessStep(g, to, v, e.id);
    }
    hide Next;
  }

  /** From where `f` runs while not all before it has succeeded, a run that holds `f` alone starts it again. */
  lemma RunsAgain(g: Graph, to: Graph, s: State, f: Obj) returns (events: seq<Event>, e: Event)
    requires Mirrored(g, to) && s.run.Keys <= to.Keys && Invariant(g, s) && AllWell(s)
    requires Acyclic(AfterAmong(g, s.run.Keys)) && f in s.run && s.run[f].state == Running && !AllBefore(g, s.run, f)
    ensures var v := Reached(g, to, s, events);
            Happens(to, v, e) && !ListsOnce(g, Resumed(g, v, e).run, to[v.running[e.id]])
  {
    hide *;
    var all := Quiesce(g, to, s, {f});
    assert all[..|all|] == all;
    assert f in {f};
    BeforeIsDone(g, s, Reached(g, to, s, all), f);
    var n := LastBefore(g, to, s, all, f);
    events, e := all[..n], all[n];
    WellThroughout(g, to, s, events);
    PrefixEnds(g, to, s, all, n);
    HeldRuns(s.run, Reached(g, to, s, all[..n]).run, f);
    HeldRuns(s.run, Reached(g, to, s, all[..n + 1]).run, f);
    HeldNotCompleted(g, to, s.run, Reached(g, to, s, events), e, f);
    LastStartsAgain(g, to, Reached(g, to, s, events), e, f);
  }

  lemma {:induction false} PrefixEnds(g: Graph, to: Graph, s: State, events: seq<Event>, n: nat)
    requires n < |events|
    ensures Reached(g, to, s, events[..n + 1]) == Next(g, to, Reached(g, to, s, events[..n]), events[n])
  {
    assert events[..n + 1][..n] == events[..n];
    hide Next;
  }

  lemma HeldRuns(r: Run, t: Run, f: Obj)
    requires f in r && r[f].state == Running && Kept(r, t, f)
    ensures f in t && t[f].state == Running
  {
  }

  lemma BeforeIsDone(g: Graph, s: State, t: State, f: Obj)
    requires Invariant(g, t) && Quiet(s, t, {f}) && Acyclic(AfterAmong(g, s.run.Keys)) && f in s.run
    ensures AllBefore(g, t.run, f)
  {
    hide Acyclic, Invariant, WaitsOn;
    forall y | y in t.run && Follows(g, f, y)
      ensures t.run[y].state == Succeeded
    {
      NoWayBack(g, s.run.Keys, f, y);
      SettledUnless(g, s, t, {f}, y);
      if h :| h in {f} && WaitsOn(g, t.run, y, h) {
        WaitsOnReaches(g, t.run, y, h);
      }
    }
  }

  /** `b` is a stop or restart job and `f` is ordered after it: held back long enough, `b` starts `f` again. */
  lemma UnsteadyStartsTwice(g: Graph, to: Graph, s: State, f: Obj, b: Obj) returns (events: seq<Event>, e: Event)
    requires Mirrored(g, to) && s.run.Keys <= to.Keys && JustEnqueued(g, s) && Acyclic(AfterAmong(g, s.run.Keys))
    requires f in s.run && b in s.run && Follows(g, f, b) && (s.run[b].op == Stop || s.run[b].op == Restart)
    ensures var v := Reached(g, to, s, events);
            Happens(to, v, e) && !ListsOnce(g, Resumed(g, v, e).run, to[v.running[e.id]])
  {
    EnqueuedParts(g, s, f, b);
    hide *;
    var first := Quiesce(g, to, s, {b, f});
    var t := Reached(g, to, s, first);
    UnsteadyHeld(g, s, t, f, b);
    WellThroughout(g, to, s, first);
    var rest;
    rest, e := RunsAgain(g, to, t, f);
    ReachedJoin(g, to, s, first, rest);
    events := first + rest;
  }

  lemma EnqueuedParts(g: Graph, s: State, f: Obj, b: Obj)
    requires JustEnqueued(g, s) && f in s.run && b in s.run
    ensures Invariant(g, s) && AllWell(s) && s.run[f].state != Succeeded && s.run[b].state != Succeeded
    ensures (s.run[f].state == Awaiting || s.run[f].state == Running) && (s.run[b].state == Awaiting || s.run[b].state == Running)
  {
  }

  /** What is held has not succeeded. */
  lemma HeldIsOpen(s: State, t: State, hold: set<Obj>, h: Obj)
    requires Quiet(s, t, hold) && h in hold && h in s.run && (s.run[h].state == Awaiting || s.run[h].state == Running)
    ensures h in t.run && t.run[h].op == s.run[h].op && (t.run[h].state == Awaiting || t.run[h].state == Running)
  {
  }

  lemma UnsteadyHeld(g: Graph, s: State, t: State, f: Obj, b: Obj)
    requires Invariant(g, t) && Quiet(s, t, {b, f}) && Acyclic(AfterAmong(g, s.run.Keys))
    requires f in s.run && b in s.run && Follows(g, f, b) && (s.run[b].op == Stop || s.run[b].op == Restart)
    requires (s.run[f].state == Awaiting || s.run[f].state == Running) && (s.run[b].state == Awaiting || s.run[b].state == Running)
    ensures t.run.Keys == s.run.Keys && f in t.run && t.run[f].state == Running && !AllBefore(g, t.run, f)
  {
    HeldIsOpen(s, t, {b, f}, f);
    HeldIsOpen(s, t, {b, f}, b);
    forall h | WaitsOn(g, t.run, f, h)
      ensures h == f
    {
      RunningIsHeld(g, s, t, {b, f}, h);
      WaitsOnReaches(g, t.run, f, h);
    }
    if t.run[f].state == Awaiting {
      AwaitingWaitsOn(g, t, f);
    }
    hide Invariant, Acyclic;
  }

  // ---------------------------------------------------------------------------------------------------
  // A job listed twice

  /** `f` is listed twice after `b`, the last it waits for: the completion of `b` starts `f` twice. */
  lemma UncoveredStartsTwice(g: Graph, to: Graph, s: State, f: Obj, b: Obj) returns (events: seq<Event>, e: Event)
    requires Mirrored(g, to) && s.run.Keys <= to.Keys && JustEnqueued(g, s) && Acyclic(AfterAmong(g, s.run.Keys))
    requires Steady(g, s.run) && f in s.run && b in s.run && ListedTwice(to, b, f) && !Covered(g, s.run, f, b)
    ensures var v := Reached(g, to, s, events);
            Happens(to, v, e) && !ListsOnce(g, Resumed(g, v, e).run, to[v.running[e.id]])
  {
    EnqueuedParts(g, s, f, b);
    EnqueuedIsGood(g, to, s);
    TwiceFollows(g, to, b, f);
    hide *;
    events := Quiesce(g, to, s, {b, f});
    var t := Reached(g, to, s, events);
    GoodThroughout(g, to, s, events);
    OnlyLastLeft(g, s, t, f, b);
    e := Completion(t.ids[b], Succeeded);
    TwiceReleased(g, to, t, e, f, b);
  }

  lemma TwiceFollows(g: Graph, to: Graph, b: Obj, f: Obj)
    requires Mirrored(g, to) && ListedTwice(to, b, f)
    ensures Follows(g, f, b) && b in to
  {
    assert Follows(to, b, f);
  }

  lemma {:induction false} GoodThroughout(g: Graph, to: Graph, s: State, events: seq<Event>)
    requires Mirrored(g, to) && s.run.Keys <= to.Keys && Good(g, s)
    ensures Good(g, Reached(g, to, s, events)) && Reached(g, to, s, events).run.Keys == s.run.Keys
    decreases |events|
  {
    hide Mirrored, Good, Next;
    if events != [] {
      GoodThroughout(g, to, s, events[..|events| - 1]);
      NextKeepsGood(g, to, Reached(g, to, s, events[..|events| - 1]), events[|events| - 1]);
    }
  }

  lemma OnlyLastLeft(g: Graph, s: State, t: State, f: Obj, b: Obj)
    requires Good(g, t) && Quiet(s, t, {b, f}) && Acyclic(AfterAmong(g, s.run.Keys)) && f in s.run && b in s.run
    requires Follows(g, f, b) && !Covered(g, s.run, f, b)
    requires (s.run[f].state == Awaiting || s.run[f].state == Running) && (s.run[b].state == Awaiting || s.run[b].state == Running)
    ensures t.run.Keys == s.run.Keys && t.run[b].state == Running && t.run[f].state == Awaiting && b in t.ids && f != b
    ensures forall y :: y in t.run && Follows(g, f, y) && y != b ==> t.run[y].state == Succeeded
  {
    hide Acyclic, Invariant, WaitsOn, Quiet, Covered, AllWell;
    QuietKeeps(s, t, {b, f});
    HeldIsOpen(s, t, {b, f}, f);
    HeldIsOpen(s, t, {b, f}, b);
    NoWayBack(g, s.run.Keys, f, b);
    LaterIsDone(g, s, t, f, b);
    LastIsRunning(g, s, t, f, b);
    FollowerAwaits(g, t, f, b);
  }

  lemma QuietKeeps(s: State, t: State, hold: set<Obj>)
    requires Quiet(s, t, hold)
    ensures t.run.Keys == s.run.Keys && AllWell(t)
  {
  }

  lemma LaterIsDone(g: Graph, s: State, t: State, f: Obj, b: Obj)
    requires Invariant(g, t) && Quiet(s, t, {b, f}) && Acyclic(AfterAmong(g, s.run.Keys)) && f in s.run
    requires !Covered(g, s.run, f, b)
    ensures forall y :: y in t.run && Follows(g, f, y) && y != b ==> t.run[y].state == Succeeded
  {
    hide Acyclic, Invariant, WaitsOn;
    forall y | y in t.run && Follows(g, f, y) && y != b
      ensures t.run[y].state == Succeeded
    {
      NoWayBack(g, s.run.Keys, f, y);
      SettledUnless(g, s, t, {b, f}, y);
      WaitsOnReaches(g, t.run, y, b);
      WaitsOnReaches(g, t.run, y, f);
    }
  }

  lemma LastIsRunning(g: Graph, s: State, t: State, f: Obj, b: Obj)
    requires Invariant(g, t) && Quiet(s, t, {b, f}) && Acyclic(AfterAmong(g, s.run.Keys)) && f in s.run && b in s.run
    requires Follows(g, f, b) && b in t.run && (t.run[b].state == Awaiting || t.run[b].state == Running)
    ensures t.run[b].state == Running
  {
    NoWayBack(g, s.run.Keys, f, b);
    forall h | WaitsOn(g, t.run, b, h)
      ensures h == b
    {
      RunningIsHeld(g, s, t, {b, f}, h);
      WaitsOnReaches(g, t.run, b, h);
    }
    if t.run[b].state == Awaiting {
      AwaitingWaitsOn(g, t, b);
    }
    hide Invariant, Acyclic;
  }

  lemma FollowerAwaits(g: Graph, t: State, f: Obj, b: Obj)
    requires Good(g, t) && f in t.run && b in t.run && Follows(g, f, b) && t.run[b].state == Running
    requires t.run[f].state == Awaiting || t.run[f].state == Running
    ensures t.run[f].state == Awaiting && b in t.ids && f != b
  {
    assert WaitsFor(g, t.run, f, b);
  }

  lemma TwiceReleased(g: Graph, to: Graph, t: State, e: Event, f: Obj, b: Obj)
    requires Good(g, t) && t.run.Keys <= to.Keys && b in t.run && f in t.run && f != b && ListedTwice(to, b, f) && Follows(g, f, b)
    requires t.run[b].state == Running && t.run[f].state == Awaiting && b in t.ids && e == Completion(t.ids[b], Succeeded)
    requires forall y :: y in t.run && Follows(g, f, y) && y != b ==> t.run[y].state == Succeeded
    ensures Happens(to, t, e) && !ListsOnce(g, Resumed(g, t, e).run, to[t.running[e.id]])
  {
    assert t.running[e.id] == b && t.run[b].op != Stop && t.run[b].op != Restart;
    var ended := Ended(t, e.id, Succeeded);
    assert Resumed(g, t, e) == ended;
    assert Released(g, ended.run, f);
    var i, j :| 0 <= i < j < |to[b]| && IsFollower(to[b][i], f) && IsFollower(to[b][j], f);
    assert After in to[b][j].kinds && to[b][j].to == f;
  }

  // ---------------------------------------------------------------------------------------------------
  // Exactly when

  lemma {:induction false} NotAllClean(g: Graph, to: Graph, s: State, events: seq<Event>, e: Event)
    requires Mirrored(g, to) && s.run.Keys <= to.Keys && Invariant(g, s)
    requires var v := Reached(g, to, s, events);
             Happens(to, v, e) && !ListsOnce(g, Resumed(g, v, e).run, to[v.running[e.id]])
    ensures !AllClean(g, to, AsCode(s), events + [e])
  {
    if AllClean(g, to, AsCode(s), events + [e]) {
      CleanMeansOnce(g, to, s, events, e);
    }
    hide *;
  }

  /**
    * For a transaction whose After graph is acyclic, the engine as the code has it never starts a job twice, whatever
    * completes, fails or times out in whatever order, exactly when no job is ordered after a stop or restart job and
    * each that is listed more than once after a job has to wait for a later one anyway.
    */
  lemma {:induction false} NoDoubleStartIff(g: Graph, to: Graph, s: State)
    requires Mirrored(g, to) && s.run.Keys <= to.Keys && JustEnqueued(g, s) && Acyclic(AfterAmong(g, s.run.Keys))
    ensures (forall events :: AllClean(g, to, AsCode(s), events)) <==> NeverTwice(g, to, s.run)
  {
    if NeverTwice(g, to, s.run) {
      EnqueuedIsGood(g, to, s);
      forall events
        ensures AllClean(g, to, AsCode(s), events)
      {
        NeverStartedTwice(g, to, s, events);
      }
    } else {
      var events, e := SomeDoubleStart(g, to, s);
      NotAllClean(g, to, s, events, e);
    }
    hide *;
  }

  lemma SomeDoubleStart(g: Graph, to: Graph, s: State) returns (events: seq<Event>, e: Event)
    requires Mirrored(g, to) && s.run.Keys <= to.Keys && JustEnqueued(g, s) && Acyclic(AfterAmong(g, s.run.Keys))
    requires !NeverTwice(g, to, s.run)
    ensures Invariant(g, s)
    ensures var v := Reached(g, to, s, events);
            Happens(to, v, e) && !ListsOnce(g, Resumed(g, v, e).run, to[v.running[e.id]])
  {
    assert Invariant(g, s);
    hide JustEnqueued, Mirrored, Acyclic, Invariant, ListedTwice, Covered, ListsOnce, Happens, Reached, Resumed;
    if Steady(g, s.run) {
      var b, f :| b in s.run && f in s.run && ListedTwice(to, b, f) && !Covered(g, s.run, f, b);
      events, e := UncoveredStartsTwice(g, to, s, f, b);
    } else {
      var f, b :| f in s.run && b in s.run && Follows(g, f, b) && (s.run[b].op == Stop || s.run[b].op == Restart);
      events, e := UnsteadyStartsTwice(g, to, s, f, b);
    }
  }
}
