/**
  * The asynchronous engine as the code has it: a job that is run stays awaiting, and may be run again.  For as long as
  * it starts no job that is running, it does what the engine that marks running jobs does.
  */
module CodeEngine {
  import opened Types
  import opened Walks
  import opened Engine
  import opened AsyncEngine

  /** What the code has where the other engine has `s`. */
  function AsCode(s: State): State {
    s.(run := Unmarked(s.run))
  }

  /** `job_run`: the state of the job is left as it is. */
  function Begin(u: State, o: Obj): State {
    if o in u.ids then u.(running := u.running[u.ids[o] := o], armed := u.armed + {o}, starts := u.starts + 1) else u
  }

  function BeginAll(u: State, list: seq<Obj>): State {
    if list == [] then u else Begin(BeginAll(u, list[..|list| - 1]), list[|list| - 1])
  }

  /** The event is about a running job. */
  ghost predicate Happens(to: Graph, s: State, e: Event) {
    e.id in s.running && s.running[e.id] in s.run && s.running[e.id] in to && (e.Completion? ==> Ending(e.res))
  }

  function Result(e: Event): JobState {
    if e.Completion? then e.res else TimedOut
  }

  /**
    * The jobs that the end of a job starts, in order: itself, if it was a restart job that succeeded and may run as a
    * start job, and then its followers that may run.
    */
  ghost function StartedBy(g: Graph, to: Graph, u: State, e: Event): seq<Obj>
    requires Happens(to, u, e)
  {
    var o := u.running[e.id];
    var ended := Ended(u, e.id, Result(e));
    Again(g, u, e) + StartsUnmarked(g, ended.run, to[o])
  }

  ghost function Again(g: Graph, u: State, e: Event): seq<Obj>
    requires e.id in u.running && u.running[e.id] in u.run
  {
    var o := u.running[e.id];
    if Result(e) == Succeeded && u.run[o].op == Restart && Runnable(g, Ended(u, e.id, Result(e)).run, o) then [o] else []
  }

  ghost function CodeNext(g: Graph, to: Graph, u: State, e: Event): State {
    if Happens(to, u, e) then BeginAll(Ended(u, e.id, Result(e)), StartedBy(g, to, u, e)) else u
  }

  ghost function CodeReached(g: Graph, to: Graph, u: State, events: seq<Event>): State {
    if events == [] then u else CodeNext(g, to, CodeReached(g, to, u, events[..|events| - 1]), events[|events| - 1])
  }

  /** The event starts no job twice, and none that is running. */
  ghost predicate Clean(g: Graph, to: Graph, u: State, e: Event) {
    Happens(to, u, e) ==>
      && Distinct(StartedBy(g, to, u, e))
      && forall i :: i in u.running && i != e.id ==> u.running[i] !in StartedBy(g, to, u, e)
  }

  ghost predicate AllClean(g: Graph, to: Graph, u: State, events: seq<Event>) {
    events == []
    || (AllClean(g, to, u, events[..|events| - 1])
        && Clean(g, to, CodeReached(g, to, u, events[..|events| - 1]), events[|events| - 1]))
  }

  // ---------------------------------------------------------------------------------------------------
  // One event

  lemma {:induction false} BeginsJoin(u: State, a: seq<Obj>, b: seq<Obj>)
    ensures BeginAll(u, a + b) == BeginAll(BeginAll(u, a), b)
  {
    if b == [] {
      assert a + b == a;
    } else {
      assert (a + b)[..|a + b| - 1] == a + b[..|b| - 1];
      BeginsJoin(u, a, b[..|b| - 1]);
    }
  }

  lemma LaunchIsBegin(g: Graph, s: State, o: Obj)
    requires s.ids.Keys == s.run.Keys
    ensures AsCode(TryLaunch(g, s, o)) == if Runnable(g, s.run, o) then Begin(AsCode(s), o) else AsCode(s)
  {
    LaunchUnmarked(g, s, o);
    hide Unmarked;
  }

  lemma {:induction false} WakeIsBegin(g: Graph, s: State, links: seq<Link>)
    requires s.ids.Keys == s.run.Keys
    ensures AsCode(Wake(g, s, links)) == BeginAll(AsCode(s), StartsMarked(g, s, links))
  {
    hide Begin, Runnable, TryLaunch;
    if links != [] {
      var init, last := links[..|links| - 1], links[|links| - 1];
      WakeIsBegin(g, s, init);
      WakeMarksItsStarts(g, s, init);
      LaunchIsBegin(g, Wake(g, s, init), last.to);
      var a := StartsMarked(g, s, init);
      assert (a + [last.to])[..|a|] == a && (a + [last.to])[|a|] == last.to && a + [] == a;
    }
  }

  lemma EndedAsCode(s: State, id: int, res: JobState)
    requires id in s.running && s.running[id] in s.run && Ending(res)
    ensures Ended(AsCode(s), id, res) == AsCode(Ended(s, id, res))
  {
    var o := s.running[id];
    assert Ended(AsCode(s), id, res).run == Unmarked(Ended(s, id, res).run);
  }

  /** The job as it stands when its followers are woken. */
  ghost function Resumed(g: Graph, s: State, e: Event): State
    requires e.id in s.running && s.running[e.id] in s.run
  {
    var o := s.running[e.id];
    var ended := Ended(s, e.id, Result(e));
    if Result(e) == Succeeded && s.run[o].op == Restart then TryLaunch(g, ended, o) else ended
  }

  lemma {:induction false} NextIsWake(g: Graph, to: Graph, s: State, e: Event)
    ensures Next(g, to, s, e) == if Happens(to, s, e) then Wake(g, Resumed(g, s, e), to[s.running[e.id]]) else s
  {
  }

  /** What the completion starts first, and the state then. */
  lemma AgainResumes(g: Graph, to: Graph, s: State, e: Event)
    requires RunningSet(s) && Numbered(s) && Happens(to, s, e)
    ensures Happens(to, AsCode(s), e) && Ending(Result(e))
    ensures var again, t := Again(g, AsCode(s), e), Resumed(g, s, e);
            && RunningSet(t) && Numbered(t)
            && BeginAll(AsCode(Ended(s, e.id, Result(e))), again) == AsCode(t)
            && Unmarked(t.run) == Unmarked(Ended(s, e.id, Result(e)).run)
            && (again == [] || again == [s.running[e.id]])
            && (forall o :: o in t.run ==>
                  (t.run[o].state == Running <==> o in again || exists i :: i in s.running && i != e.id && s.running[i] == o))
  {
    var o := s.running[e.id];
    var ended := Ended(s, e.id, Result(e));
    EndedKeepsRunningSet(s, e.id, Result(e));
    EndedAsCode(s, e.id, Result(e));
    TryLaunchKeeps(g, ended, o);
    LaunchIsBegin(g, ended, o);
    LaunchUnmarked(g, ended, o);
    RunnableUnmarked(g, ended.run, o);
    AgainIs(g, s, e);
    RunningAfter(g, s, e);
    hide Runnable, RunningSet, Unmarked, Ended;
  }

  lemma AgainIs(g: Graph, s: State, e: Event)
    requires RunningSet(s) && e.id in s.running && Ending(Result(e))
    ensures var o, ended := s.running[e.id], Ended(s, e.id, Result(e));
            && o in s.run
            && Again(g, AsCode(s), e)
               == if Result(e) == Succeeded && s.run[o].op == Restart && Runnable(g, ended.run, o) then [o] else []
  {
    var o, ended := s.running[e.id], Ended(s, e.id, Result(e));
    EndedAsCode(s, e.id, Result(e));
    RunnableUnmarked(g, ended.run, o);
    hide Runnable;
  }

  lemma RunningAfter(g: Graph, s: State, e: Event)
    requires RunningSet(s) && Numbered(s) && e.id in s.running && Ending(Result(e))
    ensures var o, t := s.running[e.id], Resumed(g, s, e);
            forall x :: x in t.run ==>
              (t.run[x].state == Running <==>
               (x == o && Result(e) == Succeeded && s.run[o].op == Restart && Runnable(g, Ended(s, e.id, Result(e)).run, o))
               || exists i :: i in s.running && i != e.id && s.running[i] == x)
  {
    var o, t := s.running[e.id], Resumed(g, s, e);
    forall x | x in t.run && x != o
      ensures t.run[x].state == Running <==> exists i :: i in s.running && i != e.id && s.running[i] == x
    {
      if s.run[x].state == Running {
        assert s.ids[x] in s.running && s.running[s.ids[x]] == x;
      }
    }
    hide Runnable;
  }

  /** An event is clean exactly when the list of followers is, and then both engines go on alike. */
  lemma CleanStep(g: Graph, to: Graph, s: State, e: Event)
    requires RunningSet(s) && Numbered(s)
    ensures Clean(g, to, AsCode(s), e) <==>
            (Happens(to, s, e) ==> ListsOnce(g, Resumed(g, s, e).run, to[s.running[e.id]]))
    ensures Clean(g, to, AsCode(s), e) ==> CodeNext(g, to, AsCode(s), e) == AsCode(Next(g, to, s, e))
  {
    NextIsWake(g, to, s, e);
    HappensAsCode(to, s, e);
    if Happens(to, s, e) {
      AgainResumes(g, to, s, e);
      EndedAsCode(s, e.id, Result(e));
      var t, links := Resumed(g, s, e), to[s.running[e.id]];
      var again, woken := Again(g, AsCode(s), e), StartsUnmarked(g, Unmarked(t.run), links);
      UnmarkedStarts(g, t.run, links);
      SameStartsIfOnce(g, t, links);
      WakeIsBegin(g, t, links);
      BeginsJoin(AsCode(Ended(s, e.id, Result(e))), again, woken);
      assert StartedBy(g, to, AsCode(s), e) == again + woken;
      CleanIffOnce(s, e, t.run, again, woken);
      hide *;
      hide Clean;
    }
  }

  lemma HappensAsCode(to: Graph, s: State, e: Event)
    ensures Happens(to, AsCode(s), e) <==> Happens(to, s, e)
  {
  }

  lemma CleanIffOnce(s: State, e: Event, r: Run, again: seq<Obj>, woken: seq<Obj>)
    requires e.id in s.running && (again == [] || again == [s.running[e.id]])
    requires forall o :: o in woken ==> o in r
    requires forall i :: i in s.running && i != e.id ==> s.running[i] != s.running[e.id]
    requires forall o :: o in r ==>
               (r[o].state == Running <==> o in again || exists i :: i in s.running && i != e.id && s.running[i] == o)
    ensures Distinct(again + woken) && (forall i :: i in s.running && i != e.id ==> s.running[i] !in again + woken) <==>
            StartedOnce(r, woken)
  {
    var all := again + woken;
    assert forall o :: o in all <==> o in again || o in woken;
    if again == [] {
      assert all == woken;
    } else {
      FirstAndRest(s.running[e.id], woken);
    }
  }

  lemma FirstAndRest<T>(x: T, rest: seq<T>)
    ensures Distinct([x] + rest) <==> x !in rest && Distinct(rest)
  {
    var all := [x] + rest;
    assert forall i :: 0 <= i < |rest| ==> all[i + 1] == rest[i];
    if Distinct(all) {
      forall i | 0 <= i < |rest|
        ensures rest[i] != x && forall j :: i < j < |rest| ==> rest[i] != rest[j]
      {
        assert all[0] != all[i + 1];
        forall j | i < j < |rest|
          ensures rest[i] != rest[j]
        {
          assert all[i + 1] != all[j + 1];
        }
      }
    }
  }

  // ---------------------------------------------------------------------------------------------------
  // Runs

  /** While every event is clean the two engines go on alike. */
  lemma {:induction false} AlikeWhileClean(g: Graph, to: Graph, s: State, events: seq<Event>)
    requires Mirrored(g, to) && s.run.Keys <= to.Keys && Invariant(g, s)
    requires AllClean(g, to, AsCode(s), events)
    ensures CodeReached(g, to, AsCode(s), events) == AsCode(Reached(g, to, s, events))
    decreases |events|
  {
    hide Mirrored, Clean, CodeNext, Next, Invariant;
    if events != [] {
      var init, e := events[..|events| - 1], events[|events| - 1];
      AlikeWhileClean(g, to, s, init);
      InvariantThroughout(g, to, s, init);
      InvariantParts(g, Reached(g, to, s, init));
      CleanStep(g, to, Reached(g, to, s, init), e);
    }
  }

  lemma InvariantParts(g: Graph, s: State)
    requires Invariant(g, s)
    ensures RunningSet(s) && Numbered(s) && NothingLost(g, s)
  {
  }

  lemma {:induction false} ReachedJoin(g: Graph, to: Graph, s: State, a: seq<Event>, b: seq<Event>)
    ensures Reached(g, to, s, a + b) == Reached(g, to, Reached(g, to, s, a), b)
    decreases |b|
  {
    hide Next;
    if b == [] {
      assert a + b == a;
    } else {
      assert (a + b)[..|a + b| - 1] == a + b[..|b| - 1] && (a + b)[|a + b| - 1] == b[|b| - 1];
      ReachedJoin(g, to, s, a, b[..|b| - 1]);
    }
  }

  lemma {:induction false} CleanPrefix(g: Graph, to: Graph, u: State, events: seq<Event>, n: nat)
    requires n <= |events| && AllClean(g, to, u, events)
    ensures AllClean(g, to, u, events[..n])
    decreases |events|
  {
    if n == |events| {
      assert events[..n] == events;
    } else {
      CleanPrefix(g, to, u, events[..|events| - 1], n);
      assert events[..|events| - 1][..n] == events[..n];
    }
  }

  /** Wherever all events are clean, every reachable list of followers is. */
  lemma {:induction false} CleanMeansOnce(g: Graph, to: Graph, s: State, events: seq<Event>, e: Event)
    requires Mirrored(g, to) && s.run.Keys <= to.Keys && Invariant(g, s)
    requires AllClean(g, to, AsCode(s), events + [e]) && Happens(to, Reached(g, to, s, events), e)
    ensures var t := Reached(g, to, s, events); ListsOnce(g, Resumed(g, t, e).run, to[t.running[e.id]])
  {
    hide Mirrored, Invariant, Reached, CodeReached, Clean, ListsOnce, Resumed;
    assert (events + [e])[..|events|] == events && (events + [e])[|events|] == e;
    AlikeWhileClean(g, to, s, events);
    InvariantThroughout(g, to, s, events);
    InvariantParts(g, Reached(g, to, s, events));
    CleanStep(g, to, Reached(g, to, s, events), e);
  }
}
