/**
  * The job engine with restarters that complete jobs later, as a state machine over completions and timeouts.
  * A job that is run is marked as running, as the documentation of the states has it.
  */
module AsyncEngine {
  import opened Types
  import opened Walks
  import opened AfterGraphs
  import opened Engine

  /**
    * The engine: the jobs, their numbers (-1 for none yet), which number runs which job, the jobs whose timer is
    * armed, and how many starts there have been.
    */
  datatype State = State(run: Run, ids: map<Obj, int>, running: map<int, Obj>, armed: set<Obj>, starts: nat)

  /** Hand a job to its restarter. */
  function Launch(s: State, o: Obj): State
    requires o in s.run && o in s.ids
  {
    State(s.run[o := Status(s.run[o].op, Running)], s.ids, s.running[s.ids[o] := o], s.armed + {o}, s.starts + 1)
  }

  ghost function TryLaunch(g: Graph, s: State, o: Obj): State {
    if o in s.ids && Runnable(g, s.run, o) then Launch(s, o) else s
  }

  /** The followers on the list are launched, in order, if they may run. */
  ghost function Wake(g: Graph, s: State, links: seq<Link>): State {
    if links == [] then
      s
    else
      var last := links[|links| - 1];
      var before := Wake(g, s, links[..|links| - 1]);
      if After in last.kinds then TryLaunch(g, before, last.to) else before
  }

  /** How a job can end. */
  predicate Ending(res: JobState) {
    res != Awaiting && res != Running
  }

  predicate Bad(state: JobState) {
    state == Failed || state == TimedOut || state == Cancelled
  }

  /** The job number `id` is no longer running: it leaves the map, its timer is disarmed, its state recorded. */
  function Ended(s: State, id: int, res: JobState): State
    requires id in s.running && s.running[id] in s.run
  {
    var o := s.running[id];
    var status := if res == Succeeded && s.run[o].op == Restart then Status(Start, Awaiting)
                  else Status(s.run[o].op, res);
    State(s.run[o := status], s.ids, s.running - {id}, s.armed - {o}, s.starts)
  }

  /** The whole effect of `job_complete`. */
  ghost function Complete(g: Graph, to: Graph, s: State, id: int, res: JobState): State
    requires id in s.running && s.running[id] in s.run && s.running[id] in to
  {
    var o := s.running[id];
    var ended := Ended(s, id, res);
    var resumed := if res == Succeeded && s.run[o].op == Restart then TryLaunch(g, ended, o) else ended;
    Wake(g, resumed, to[o])
  }

  // ---------------------------------------------------------------------------------------------------
  // What holds in every state

  /** `running` maps distinct numbers to exactly the running jobs, each with an armed timer. */
  ghost predicate RunningSet(s: State) {
    && s.ids.Keys == s.run.Keys
    && (forall id :: id in s.running ==> s.running[id] in s.run && s.ids[s.running[id]] == id
                                         && s.run[s.running[id]].state == Running)
    && (forall o :: o in s.run && s.run[o].state == Running ==> s.ids[o] in s.running && s.running[s.ids[o]] == o)
    && s.armed == (set o | o in s.run && s.run[o].state == Running)
  }

  /** No two jobs have the same number. */
  ghost predicate NumbersDiffer(s: State) {
    && s.ids.Keys == s.run.Keys
    && forall a, b :: a in s.ids && b in s.ids && a != b && s.ids[a] == s.ids[b] ==> s.ids[a] == -1
  }

  /** Every job has a number of its own. */
  ghost predicate Numbered(s: State) {
    NumbersDiffer(s) && forall o :: o in s.ids ==> s.ids[o] != -1
  }

  /** No wake-up was lost: no awaiting job may run. */
  ghost predicate NothingLost(g: Graph, s: State) {
    Ready(g, s.run) == {}
  }

  ghost predicate Invariant(g: Graph, s: State) {
    RunningSet(s) && Numbered(s) && NothingLost(g, s)
  }

  /** Nothing has ended yet, and what was started waits for nothing. */
  ghost predicate FirstStarts(g: Graph, r: Run) {
    forall o :: o in r ==>
      && (r[o].state == Awaiting || r[o].state == Running)
      && (r[o].state == Running ==> forall b :: !WaitsFor(g, r, o, b))
  }

  lemma LaunchKeepsFirst(g: Graph, s: State, o: Obj)
    requires FirstStarts(g, s.run)
    ensures FirstStarts(g, TryLaunch(g, s, o).run)
  {
    var r, t := s.run, TryLaunch(g, s, o).run;
    forall x | x in t && t[x].state == Running
      ensures forall b :: !WaitsFor(g, t, x, b)
    {
      assert forall b :: WaitsFor(g, t, x, b) <==> WaitsFor(g, r, x, b);
    }
  }

  /** Launching one job makes no other ready. */
  lemma LaunchUnreadies(g: Graph, s: State, o: Obj)
    requires o in s.run && o in s.ids && Runnable(g, s.run, o)
    ensures Ready(g, Launch(s, o).run) == Ready(g, s.run) - {o}
  {
    OtherChangeReleasesNobody(g, s.run, o, Running);
    var after := Launch(s, o).run;
    forall x | x in Ready(g, s.run) && x != o
      ensures x in Ready(g, after)
    {
      forall b | WaitsFor(g, after, x, b)
        ensures after[b].state == Succeeded
      {
        assert WaitsFor(g, s.run, x, b);
      }
    }
  }

  lemma LaunchKeepsRunningSet(s: State, o: Obj)
    requires RunningSet(s) && NumbersDiffer(s) && o in s.run && s.run[o].state == Awaiting && s.ids[o] != -1
    ensures RunningSet(Launch(s, o)) && NumbersDiffer(Launch(s, o))
    ensures Numbered(s) ==> Numbered(Launch(s, o))
  {
  }

  /** A job that is not running gets a number no other job has. */
  lemma NumberingKeepsRunningSet(s: State, o: Obj, id: int)
    requires RunningSet(s) && NumbersDiffer(s) && o in s.run && s.run[o].state == Awaiting
    requires forall x :: x in s.ids ==> s.ids[x] != id
    ensures RunningSet(s.(ids := s.ids[o := id])) && NumbersDiffer(s.(ids := s.ids[o := id]))
  {
  }

  lemma TryLaunchKeeps(g: Graph, s: State, o: Obj)
    requires RunningSet(s) && Numbered(s)
    ensures var t := TryLaunch(g, s, o);
            && RunningSet(t) && Numbered(t)
            && Ready(g, t.run) == Ready(g, s.run) - {o}
  {
    if o in s.ids && Runnable(g, s.run, o) {
      LaunchUnreadies(g, s, o);
      LaunchKeepsRunningSet(s, o);
    }
  }

  /** The objects on the list. */
  ghost function Listed(links: seq<Link>): set<Obj> {
    set l | l in links && After in l.kinds :: l.to
  }

  lemma {:induction false} WakeKeeps(g: Graph, s: State, links: seq<Link>)
    requires RunningSet(s) && Numbered(s)
    ensures var t := Wake(g, s, links);
            && RunningSet(t) && Numbered(t)
            && Ready(g, t.run) == Ready(g, s.run) - Listed(links)
  {
    if links != [] {
      var init, last := links[..|links| - 1], links[|links| - 1];
      assert links == init + [last];
      WakeKeeps(g, s, init);
      ListedLast(init, last);
      TryLaunchKeeps(g, Wake(g, s, init), last.to);
    }
  }

  lemma ListedLast(init: seq<Link>, last: Link)
    ensures Listed(init + [last]) == Listed(init) + (if After in last.kinds then {last.to} else {})
  {
  }

  lemma EndedKeepsRunningSet(s: State, id: int, res: JobState)
    requires RunningSet(s) && Numbered(s) && id in s.running && Ending(res)
    ensures RunningSet(Ended(s, id, res)) && Numbered(Ended(s, id, res))
  {
  }

  /** After a job has ended only it and the jobs on objects that follow its object can have become ready. */
  lemma EndedReleases(g: Graph, s: State, id: int, res: JobState)
    requires RunningSet(s) && id in s.running && Ending(res)
    ensures var o := s.running[id];
            forall x :: x in Ready(g, Ended(s, id, res).run) ==>
              || x in Ready(g, s.run)
              || (x != o && res == Succeeded && Follows(g, x, o))
              || (x == o && res == Succeeded && s.run[o].op == Restart)
  {
    var o := s.running[id];
    if res == Succeeded && s.run[o].op == Restart {
      ConversionReleasesNobody(g, s.run, o);
    } else if res == Succeeded {
      SuccessReleases(g, s.run, o);
    } else {
      OtherChangeReleasesNobody(g, s.run, o, res);
    }
  }

  lemma MirrorLists(g: Graph, to: Graph, o: Obj)
    requires Mirrored(g, to) && o in to
    ensures forall x :: Follows(g, x, o) ==> x in Listed(to[o])
  {
    forall x | Follows(g, x, o)
      ensures x in Listed(to[o])
    {
      assert Follows(to, o, x);
      var k :| 0 <= k < |to[o]| && After in to[o][k].kinds && to[o][k].to == x;
      assert to[o][k] in to[o];
    }
  }

  /** A completion, of whatever kind, keeps the invariant: no wake-up is lost. */
  lemma CompleteKeepsInvariant(g: Graph, to: Graph, s: State, id: int, res: JobState)
    requires Mirrored(g, to) && s.run.Keys <= to.Keys
    requires Invariant(g, s) && id in s.running && Ending(res)
    ensures Invariant(g, Complete(g, to, s, id, res))
  {
    var o := s.running[id];
    var ended := Ended(s, id, res);
    EndedKeepsRunningSet(s, id, res);
    EndedReleases(g, s, id, res);
    TryLaunchKeeps(g, ended, o);
    var resumed := if res == Succeeded && s.run[o].op == Restart then TryLaunch(g, ended, o) else ended;
    MirrorLists(g, to, o);
    WakeKeeps(g, resumed, to[o]);
  }

  /** The jobs in `os` are marked as running. */
  function Marked(r: Run, os: set<Obj>): Run {
    map o | o in r :: if o in os then Status(r[o].op, Running) else r[o]
  }

  lemma TryLaunchMarks(g: Graph, s: State, o: Obj)
    requires s.ids.Keys == s.run.Keys
    ensures TryLaunch(g, s, o).run == Marked(s.run, Ready(g, s.run) * {o})
  {
  }

  lemma MarkedTwice(r: Run, a: set<Obj>, b: set<Obj>)
    ensures Marked(Marked(r, a), b) == Marked(r, a + b)
  {
  }

  /** Waking starts exactly the jobs on the list that could run at first. */
  lemma {:induction false} WakeMarks(g: Graph, s: State, links: seq<Link>)
    requires RunningSet(s) && Numbered(s)
    ensures Wake(g, s, links).run == Marked(s.run, Ready(g, s.run) * Listed(links))
  {
    if links == [] {
      assert Marked(s.run, Ready(g, s.run) * Listed(links)) == s.run;
    } else {
      var init, last := links[..|links| - 1], links[|links| - 1];
      assert links == init + [last];
      var t, ready := Wake(g, s, init), Ready(g, s.run);
      WakeMarks(g, s, init);
      WakeKeeps(g, s, init);
      WakeKeepsJobs(g, s, init);
      ListedLast(init, last);
      TryLaunchMarks(g, t, last.to);
      MarkedTwice(s.run, ready * Listed(init), Ready(g, t.run) * {last.to});
      hide Ready, Listed, Wake, TryLaunch, Marked;
      assert ready * Listed(init) + (ready - Listed(init)) * {last.to} == ready * (Listed(init) + {last.to});
    }
  }

  /**
    * A completion records how the job ended, a restart job that succeeded becoming an awaiting start job, and then starts
    * exactly the jobs that may run; of the others nothing changes.
    */
  lemma CompletionStartsReady(g: Graph, to: Graph, s: State, id: int, res: JobState)
    requires Mirrored(g, to) && s.run.Keys <= to.Keys
    requires Invariant(g, s) && id in s.running && Ending(res)
    ensures var o := s.running[id];
            var ended := s.run[o := if res == Succeeded && s.run[o].op == Restart then Status(Start, Awaiting)
                                    else Status(s.run[o].op, res)];
            Complete(g, to, s, id, res).run
            == map x | x in s.run :: if Runnable(g, ended, x) then Status(ended[x].op, Running) else ended[x]
  {
    var o := s.running[id];
    var ended := Ended(s, id, res);
    var resumed := if res == Succeeded && s.run[o].op == Restart then TryLaunch(g, ended, o) else ended;
    var again := if res == Succeeded && s.run[o].op == Restart then {o} else {};
    EndedKeepsRunningSet(s, id, res);
    EndedReleases(g, s, id, res);
    TryLaunchKeeps(g, ended, o);
    TryLaunchMarks(g, ended, o);
    MirrorLists(g, to, o);
    WakeMarks(g, resumed, to[o]);
    AllReadyMarked(g, ended.run, resumed.run, again, Listed(to[o]));
    assert Ready(g, ended.run) <= again + Listed(to[o]);
    ReadyMarked(g, ended.run);
    hide Ready, Listed, Wake, TryLaunch, RunningSet, Numbered, Mirrored;
  }

  lemma AllReadyMarked(g: Graph, r: Run, t: Run, again: set<Obj>, listed: set<Obj>)
    requires Ready(g, r) <= again + listed
    requires t == Marked(r, Ready(g, r) * again) && Ready(g, t) == Ready(g, r) - again
    ensures Marked(t, Ready(g, t) * listed) == Marked(r, Ready(g, r))
  {
    MarkedTwice(r, Ready(g, r) * again, Ready(g, t) * listed);
    assert Ready(g, r) * again + (Ready(g, r) - again) * listed == Ready(g, r);
    hide Ready, Marked;
  }

  lemma ReadyMarked(g: Graph, r: Run)
    ensures Marked(r, Ready(g, r)) == map x | x in r :: if Runnable(g, r, x) then Status(r[x].op, Running) else r[x]
  {
  }

  // ---------------------------------------------------------------------------------------------------
  // Runs

  datatype Event = Completion(id: int, res: JobState) | Timeout(id: int)

  /** One event; an event that cannot happen changes nothing. */
  ghost function Next(g: Graph, to: Graph, s: State, e: Event): State {
    if e.id in s.running && s.running[e.id] in s.run && s.running[e.id] in to && (e.Completion? ==> Ending(e.res)) then
      Complete(g, to, s, e.id, if e.Completion? then e.res else TimedOut)
    else
      s
  }

  /** Any interleaving of events. */
  ghost function Reached(g: Graph, to: Graph, s: State, events: seq<Event>): State {
    if events == [] then s else Next(g, to, Reached(g, to, s, events[..|events| - 1]), events[|events| - 1])
  }

  lemma NextKeepsInvariant(g: Graph, to: Graph, s: State, e: Event)
    requires Mirrored(g, to) && s.run.Keys <= to.Keys && Invariant(g, s)
    ensures Invariant(g, Next(g, to, s, e)) && Next(g, to, s, e).run.Keys == s.run.Keys
  {
    hide Mirrored, Complete, Ending;
    if Next(g, to, s, e) != s {
      EventCompletes(g, to, s, e);
      var res := if e.Completion? then e.res else TimedOut;
      CompleteKeepsInvariant(g, to, s, e.id, res);
      CompleteKeepsJobs(g, to, s, e.id, res);
    }
  }

  lemma EventCompletes(g: Graph, to: Graph, s: State, e: Event)
    requires Next(g, to, s, e) != s
    ensures var res := if e.Completion? then e.res else TimedOut;
            && e.id in s.running && s.running[e.id] in s.run && s.running[e.id] in to && Ending(res)
            && Next(g, to, s, e) == Complete(g, to, s, e.id, res)
  {
  }

  lemma {:induction false} WakeKeepsJobs(g: Graph, s: State, links: seq<Link>)
    ensures Wake(g, s, links).run.Keys == s.run.Keys && Wake(g, s, links).ids == s.ids
  {
    if links != [] {
      WakeKeepsJobs(g, s, links[..|links| - 1]);
    }
  }

  lemma CompleteKeepsJobs(g: Graph, to: Graph, s: State, id: int, res: JobState)
    requires id in s.running && s.running[id] in s.run && s.running[id] in to
    ensures Complete(g, to, s, id, res).run.Keys == s.run.Keys
    ensures Complete(g, to, s, id, res).ids == s.ids
  {
    var o := s.running[id];
    var ended := Ended(s, id, res);
    var resumed := if res == Succeeded && s.run[o].op == Restart then TryLaunch(g, ended, o) else ended;
    WakeKeepsJobs(g, resumed, to[o]);
  }

  /** The invariant holds after every sequence of completions and timeouts. */
  lemma {:induction false} InvariantThroughout(g: Graph, to: Graph, s: State, events: seq<Event>)
    requires Mirrored(g, to) && s.run.Keys <= to.Keys && Invariant(g, s)
    ensures Invariant(g, Reached(g, to, s, events)) && Reached(g, to, s, events).run.Keys == s.run.Keys
    decreases |events|
  {
    hide Mirrored, Invariant, Next;
    if events != [] {
      InvariantThroughout(g, to, s, events[..|events| - 1]);
      NextKeepsInvariant(g, to, Reached(g, to, s, events[..|events| - 1]), events[|events| - 1]);
    }
  }

  // ---------------------------------------------------------------------------------------------------
  // Failures

  /** Each job on the chain is unstarted and waits for the next; the last one ended badly. */
  ghost predicate BlockedBy(g: Graph, r: Run, chain: seq<Obj>) {
    && |chain| >= 2
    && (forall i :: 0 <= i < |chain| - 1 ==> HeldUp(g, r, chain[i], chain[i + 1]))
    && chain[|chain| - 1] in r && Bad(r[chain[|chain| - 1]].state)
  }

  ghost predicate HeldUp(g: Graph, r: Run, a: Obj, b: Obj) {
    WaitsFor(g, r, a, b) && r[a].state == Awaiting
  }

  /** From `r` to `t` no job of the chain has changed type or state. */
  ghost predicate Untouched(r: Run, t: Run, chain: seq<Obj>) {
    forall x :: x in chain && x in r ==> x in t && t[x] == r[x]
  }

  lemma UntouchedStaysBlocked(g: Graph, r: Run, t: Run, chain: seq<Obj>)
    requires BlockedBy(g, r, chain) && Untouched(r, t, chain)
    ensures BlockedBy(g, t, chain)
  {
    forall i | 0 <= i < |chain| - 1
      ensures HeldUp(g, t, chain[i], chain[i + 1])
    {
      assert HeldUp(g, r, chain[i], chain[i + 1]);
      assert chain[i] in chain && chain[i + 1] in chain;
    }
    assert chain[|chain| - 1] in chain;
  }

  /** No member of the chain may run, and none is running. */
  lemma BlockedMayNotRun(g: Graph, r: Run, chain: seq<Obj>, x: Obj)
    requires BlockedBy(g, r, chain) && x in chain
    ensures x in r && !Runnable(g, r, x) && r[x].state != Running
  {
    var i :| 0 <= i < |chain| && chain[i] == x;
    if i < |chain| - 1 {
      assert HeldUp(g, r, chain[i], chain[i + 1]);
      if i + 1 < |chain| - 1 {
        assert HeldUp(g, r, chain[i + 1], chain[i + 1 + 1]);
      }
    }
  }

  lemma TryLaunchSparesBlocked(g: Graph, s: State, o: Obj, chain: seq<Obj>)
    requires BlockedBy(g, s.run, chain)
    ensures BlockedBy(g, TryLaunch(g, s, o).run, chain)
    ensures Untouched(s.run, TryLaunch(g, s, o).run, chain)
  {
    if o in chain {
      BlockedMayNotRun(g, s.run, chain, o);
    }
    UntouchedStaysBlocked(g, s.run, TryLaunch(g, s, o).run, chain);
  }

  lemma {:induction false} WakeSparesBlocked(g: Graph, s: State, links: seq<Link>, chain: seq<Obj>)
    requires BlockedBy(g, s.run, chain)
    ensures BlockedBy(g, Wake(g, s, links).run, chain)
    ensures Untouched(s.run, Wake(g, s, links).run, chain)
  {
    hide BlockedBy;
    if links != [] {
      var before := Wake(g, s, links[..|links| - 1]);
      WakeSparesBlocked(g, s, links[..|links| - 1], chain);
      TryLaunchSparesBlocked(g, before, links[|links| - 1].to, chain);
    }
  }

  lemma CompleteSparesBlocked(g: Graph, to: Graph, s: State, id: int, res: JobState, chain: seq<Obj>)
    requires RunningSet(s) && id in s.running && s.running[id] in to
    requires BlockedBy(g, s.run, chain)
    ensures BlockedBy(g, Complete(g, to, s, id, res).run, chain)
    ensures Untouched(s.run, Complete(g, to, s, id, res).run, chain)
  {
    var o := s.running[id];
    var ended := Ended(s, id, res);
    if o in chain {
      BlockedMayNotRun(g, s.run, chain, o);
    }
    assert Untouched(s.run, ended.run, chain);
    UntouchedStaysBlocked(g, s.run, ended.run, chain);
    TryLaunchSparesBlocked(g, ended, o, chain);
    var resumed := if res == Succeeded && s.run[o].op == Restart then TryLaunch(g, ended, o) else ended;
    WakeSparesBlocked(g, resumed, to[o], chain);
  }

  /**
    * A job that waits, directly or through unstarted jobs, for one that ended badly is never started, whatever
    * happens next; nor do restart jobs that become start jobs change that.
    */
  lemma {:induction false} FailureIsolated(g: Graph, to: Graph, s: State, events: seq<Event>, chain: seq<Obj>)
    requires Mirrored(g, to) && s.run.Keys <= to.Keys && Invariant(g, s)
    requires BlockedBy(g, s.run, chain)
    ensures BlockedBy(g, Reached(g, to, s, events).run, chain)
    ensures Untouched(s.run, Reached(g, to, s, events).run, chain)
    decreases |events|
  {
    hide Mirrored, BlockedBy, Next;
    if events != [] {
      var before, e := events[..|events| - 1], events[|events| - 1];
      FailureIsolated(g, to, s, before, chain);
      InvariantThroughout(g, to, s, before);
      NextSparesBlocked(g, to, Reached(g, to, s, before), e, chain);
    }
  }

  lemma NextSparesBlocked(g: Graph, to: Graph, s: State, e: Event, chain: seq<Obj>)
    requires RunningSet(s) && BlockedBy(g, s.run, chain)
    ensures BlockedBy(g, Next(g, to, s, e).run, chain)
    ensures Untouched(s.run, Next(g, to, s, e).run, chain)
  {
    hide Complete, BlockedBy, Next;
    if Next(g, to, s, e) != s {
      EventCompletes(g, to, s, e);
      CompleteSparesBlocked(g, to, s, e.id, if e.Completion? then e.res else TimedOut, chain);
    }
  }

  ghost predicate Blocked(g: Graph, r: Run, o: Obj) {
    exists chain :: BlockedBy(g, r, chain) && chain[0] == o
  }

  lemma BlockedFurther(g: Graph, r: Run, a: Obj, b: Obj)
    requires HeldUp(g, r, a, b)
    ensures Bad(r[b].state) || Blocked(g, r, b) ==> Blocked(g, r, a)
  {
    if Bad(r[b].state) {
      assert BlockedBy(g, r, [a, b]);
    }
    if Blocked(g, r, b) {
      var chain :| BlockedBy(g, r, chain) && chain[0] == b;
      var longer := [a] + chain;
      forall i | 0 <= i < |longer| - 1
        ensures HeldUp(g, r, longer[i], longer[i + 1])
      {
        if i > 0 {
          assert HeldUp(g, r, chain[i - 1], chain[i - 1 + 1]);
        }
      }
      assert BlockedBy(g, r, longer);
    }
  }

  /**
    * When nothing is running, each job succeeded, ended badly itself, or waits, through a chain of unstarted
    * jobs, on one that did.
    */
  lemma QuietMeansSettled(g: Graph, s: State)
    requires Invariant(g, s) && s.running == map[] && Acyclic(AfterAmong(g, s.run.Keys))
    ensures forall o :: o in s.run ==> s.run[o].state == Succeeded || Bad(s.run[o].state) || Blocked(g, s.run, o)
  {
    var follow := AfterAmong(g, s.run.Keys);
    var left := set o | o in s.run && s.run[o].state == Awaiting && !Blocked(g, s.run, o);
    forall x | x in left
      ensures StepsInto(follow, left, x)
    {
      assert x !in Ready(g, s.run);
      var b :| WaitsFor(g, s.run, x, b) && s.run[b].state != Succeeded;
      assert s.run[b].state != Running;
      assert HeldUp(g, s.run, x, b);
      BlockedFurther(g, s.run, x, b);
      AmongStep(g, s.run.Keys, x, b);
      assert b in left;
    }
    LeftIsEmpty(follow, left);
    forall o | o in s.run && s.run[o].state == Awaiting
      ensures Blocked(g, s.run, o)
    {
      assert o !in left;
    }
  }

  lemma LeftIsEmpty(g: Digraph<Obj>, left: set<Obj>)
    requires Acyclic(g) && forall x :: x in left ==> StepsInto(g, left, x)
    ensures left == {}
  {
    AcyclicIffNoTrap(g);
    assert Trap(g, left);
  }

  // ---------------------------------------------------------------------------------------------------
  // How many starts there can be

  /** Jobs to start, and restart jobs yet to become start jobs. */
  ghost function ToStart(r: Run): set<Obj> {
    set o | o in r && r[o].state == Awaiting
  }

  ghost function ToConvert(r: Run): set<Obj> {
    set o | o in r && r[o].op == Restart && (r[o].state == Awaiting || r[o].state == Running)
  }

  /** The starts made and those that may still be made. */
  ghost function Budget(s: State): nat {
    s.starts + |ToStart(s.run)| + |ToConvert(s.run)|
  }

  lemma LaunchKeepsBudget(s: State, o: Obj)
    requires o in s.run && o in s.ids && s.run[o].state == Awaiting
    ensures Budget(Launch(s, o)) == Budget(s)
  {
    assert ToStart(Launch(s, o).run) == ToStart(s.run) - {o};
    assert ToConvert(Launch(s, o).run) == ToConvert(s.run);
  }

  lemma {:induction false} WakeKeepsBudget(g: Graph, s: State, links: seq<Link>)
    ensures Budget(Wake(g, s, links)) == Budget(s)
  {
    if links != [] {
      var before, last := Wake(g, s, links[..|links| - 1]), links[|links| - 1];
      WakeKeepsBudget(g, s, links[..|links| - 1]);
      if After in last.kinds && last.to in before.ids && Runnable(g, before.run, last.to) {
        LaunchKeepsBudget(before, last.to);
      }
    }
  }

  lemma EndedKeepsBudget(s: State, id: int, res: JobState)
    requires RunningSet(s) && id in s.running && Ending(res)
    ensures Budget(Ended(s, id, res)) <= Budget(s)
    ensures res == Succeeded ==> Budget(Ended(s, id, res)) == Budget(s)
  {
    EndedCounts(s, id, res);
    hide RunningSet, Ended, ToStart, ToConvert;
  }

  lemma EndedCounts(s: State, id: int, res: JobState)
    requires RunningSet(s) && id in s.running && Ending(res)
    ensures var (o, after) := (s.running[id], Ended(s, id, res).run);
            && o !in ToStart(s.run) && (o in ToConvert(s.run) <==> s.run[o].op == Restart)
            && ToConvert(after) == ToConvert(s.run) - {o}
            && ToStart(after) == ToStart(s.run) + if res == Succeeded && s.run[o].op == Restart then {o} else {}
  {
  }

  lemma NextKeepsBudget(g: Graph, to: Graph, s: State, e: Event)
    requires RunningSet(s)
    ensures Budget(Next(g, to, s, e)) <= Budget(s)
  {
    hide Budget;
    if Next(g, to, s, e) != s {
      EventCompletes(g, to, s, e);
      var res := if e.Completion? then e.res else TimedOut;
      var o := s.running[e.id];
      var ended := Ended(s, e.id, res);
      EndedKeepsBudget(s, e.id, res);
      if o in ended.ids && Runnable(g, ended.run, o) {
        LaunchKeepsBudget(ended, o);
      }
      var resumed := if res == Succeeded && s.run[o].op == Restart then TryLaunch(g, ended, o) else ended;
      WakeKeepsBudget(g, resumed, to[o]);
    }
  }

  /** However the run goes, the starts made from `s` on are at most one per awaiting job and one per restart job. */
  lemma {:induction false} StartsAreBounded(g: Graph, to: Graph, s: State, events: seq<Event>)
    requires Mirrored(g, to) && s.run.Keys <= to.Keys && Invariant(g, s)
    ensures Budget(Reached(g, to, s, events)) <= Budget(s)
    ensures Reached(g, to, s, events).starts <= s.starts + |ToStart(s.run)| + |ToConvert(s.run)|
    decreases |events|
  {
    if events != [] {
      var before := events[..|events| - 1];
      StartsAreBounded(g, to, s, before);
      InvariantThroughout(g, to, s, before);
      NextKeepsBudget(g, to, Reached(g, to, s, before), events[|events| - 1]);
    }
  }

  // ---------------------------------------------------------------------------------------------------
  // As the code has it: a job that is run stays awaiting

  /** Running jobs as the code leaves them. */
  function Unmarked(r: Run): Run {
    map o | o in r :: Status(r[o].op, if r[o].state == Running then Awaiting else r[o].state)
  }

  /** The jobs the code starts along the list: starting one changes nothing that is looked at afterwards. */
  ghost function StartsUnmarked(g: Graph, r: Run, links: seq<Link>): seq<Obj> {
    if links == [] then
      []
    else
      var last := links[|links| - 1];
      StartsUnmarked(g, r, links[..|links| - 1])
      + (if After in last.kinds && Runnable(g, r, last.to) then [last.to] else [])
  }

  /** The jobs started along the list when each is marked as running. */
  ghost function StartsMarked(g: Graph, s: State, links: seq<Link>): seq<Obj> {
    if links == [] then
      []
    else
      var init, last := links[..|links| - 1], links[|links| - 1];
      StartsMarked(g, s, init)
      + (if After in last.kinds && Runnable(g, Wake(g, s, init).run, last.to) then [last.to] else [])
  }

  lemma RunnableUnmarked(g: Graph, r: Run, o: Obj)
    ensures Runnable(g, r, o) <==> Runnable(g, Unmarked(r), o) && r[o].state != Running
  {
    var u := Unmarked(r);
    assert forall b :: WaitsFor(g, r, o, b) <==> WaitsFor(g, u, o, b);
    assert forall b :: b in r ==> (r[b].state == Succeeded <==> u[b].state == Succeeded);
  }

  /** Waking marks exactly the jobs it starts; unmarked, nothing has changed. */
  lemma {:induction false} WakeMarksItsStarts(g: Graph, s: State, links: seq<Link>)
    requires s.ids.Keys == s.run.Keys
    ensures var t := Wake(g, s, links);
            && t.run.Keys == s.run.Keys && t.ids == s.ids
            && Unmarked(t.run) == Unmarked(s.run)
            && t.starts == s.starts + |StartsMarked(g, s, links)|
            && forall o :: o in s.run ==>
                 (t.run[o].state == Running <==> s.run[o].state == Running || o in StartsMarked(g, s, links))
  {
    if links != [] {
      var init, last := links[..|links| - 1], links[|links| - 1];
      WakeMarksItsStarts(g, s, init);
      LaunchUnmarked(g, Wake(g, s, init), last.to);
    }
  }

  lemma LaunchUnmarked(g: Graph, s: State, o: Obj)
    requires s.ids.Keys == s.run.Keys
    ensures Unmarked(TryLaunch(g, s, o).run) == Unmarked(s.run)
  {
  }

  lemma {:induction false} MarkedStartsFewer(g: Graph, s: State, links: seq<Link>)
    requires s.ids.Keys == s.run.Keys
    ensures |StartsMarked(g, s, links)| <= |StartsUnmarked(g, Unmarked(s.run), links)|
  {
    if links != [] {
      var init, last := links[..|links| - 1], links[|links| - 1];
      MarkedStartsFewer(g, s, init);
      WakeMarksItsStarts(g, s, init);
      RunnableUnmarked(g, Wake(g, s, init).run, last.to);
    }
  }

  /** Every job is started at most once, and none that is running. */
  ghost predicate StartedOnce(r: Run, starts: seq<Obj>) {
    Distinct(starts) && forall o :: o in starts ==> o in r && r[o].state != Running
  }

  /** The job has been started or not, but not ended, and none it waits for is yet to succeed. */
  ghost predicate Released(g: Graph, r: Run, o: Obj) {
    && o in r && (r[o].state == Awaiting || r[o].state == Running)
    && forall b :: WaitsFor(g, r, o, b) ==> r[b].state == Succeeded
  }

  /** No job on the list that is released is running already, or is there twice. */
  ghost predicate ListsOnce(g: Graph, r: Run, links: seq<Link>) {
    forall j :: 0 <= j < |links| && After in links[j].kinds && Released(g, r, links[j].to) ==>
      && r[links[j].to].state == Awaiting
      && forall i :: 0 <= i < j && After in links[i].kinds ==> links[i].to != links[j].to
  }

  lemma ReleasedIsRunnable(g: Graph, r: Run, o: Obj)
    ensures Runnable(g, Unmarked(r), o) <==> Released(g, r, o)
  {
    var u := Unmarked(r);
    assert forall b :: WaitsFor(g, r, o, b) <==> WaitsFor(g, u, o, b);
    assert forall b :: b in r ==> (r[b].state == Succeeded <==> u[b].state == Succeeded);
  }

  lemma {:induction false} UnmarkedStarts(g: Graph, r: Run, links: seq<Link>)
    ensures forall o :: o in StartsUnmarked(g, Unmarked(r), links) <==>
              Released(g, r, o) && exists i :: 0 <= i < |links| && After in links[i].kinds && links[i].to == o
    ensures StartedOnce(r, StartsUnmarked(g, Unmarked(r), links)) <==> ListsOnce(g, r, links)
  {
    hide Runnable, Released;
    if links != [] {
      var init, last := links[..|links| - 1], links[|links| - 1];
      var a := StartsUnmarked(g, Unmarked(r), init);
      UnmarkedStarts(g, r, init);
      ReleasedIsRunnable(g, r, last.to);
      ListsOnceLast(g, r, init, last);
      assert links == init + [last];
      if After in last.kinds && Released(g, r, last.to) {
        ReleasedIsThere(g, r, last.to);
        OneMoreStart(r, a, last.to);
        assert StartsUnmarked(g, Unmarked(r), links) == a + [last.to];
        assert last.to in a <==> exists i :: 0 <= i < |init| && After in init[i].kinds && init[i].to == last.to;
      } else {
        assert StartsUnmarked(g, Unmarked(r), links) == a;
      }
      hide ListsOnce, StartedOnce;
    }
  }

  lemma ReleasedIsThere(g: Graph, r: Run, o: Obj)
    requires Released(g, r, o)
    ensures o in r && (r[o].state == Awaiting || r[o].state == Running)
  {
  }

  lemma ListsOnceLast(g: Graph, r: Run, init: seq<Link>, last: Link)
    ensures ListsOnce(g, r, init + [last]) <==>
            && ListsOnce(g, r, init)
            && (After in last.kinds && Released(g, r, last.to) ==>
                  && r[last.to].state == Awaiting
                  && forall i :: 0 <= i < |init| && After in init[i].kinds ==> init[i].to != last.to)
  {
    hide Released;
    var links := init + [last];
    assert links[|init|] == last && forall i :: 0 <= i < |init| ==> links[i] == init[i];
    if ListsOnce(g, r, links) {
      assert forall j :: 0 <= j < |init| ==> links[j] == init[j];
      assert ListsOnce(g, r, init);
    }
  }

  /**
    * The code, which does not mark jobs as running, starts the jobs it should exactly when no follower that may
    * run is listed twice and none is running already; otherwise it starts some job a second time.
    */
  lemma {:induction false} UnmarkedStartsSameIff(g: Graph, s: State, links: seq<Link>)
    requires s.ids.Keys == s.run.Keys
    ensures StartsUnmarked(g, Unmarked(s.run), links) == StartsMarked(g, s, links) <==> ListsOnce(g, s.run, links)
  {
    SameStartsIfOnce(g, s, links);
    UnmarkedStarts(g, s.run, links);
  }

  lemma {:induction false} SameStartsIfOnce(g: Graph, s: State, links: seq<Link>)
    requires s.ids.Keys == s.run.Keys
    ensures StartsUnmarked(g, Unmarked(s.run), links) == StartsMarked(g, s, links) <==>
            StartedOnce(s.run, StartsUnmarked(g, Unmarked(s.run), links))
  {
    if links != [] {
      var init, last := links[..|links| - 1], links[|links| - 1];
      var o := last.to;
      var u := Unmarked(s.run);
      var a, b := StartsUnmarked(g, u, init), StartsMarked(g, s, init);
      SameStartsIfOnce(g, s, init);
      MarkedStartsFewer(g, s, init);
      WakeMarksItsStarts(g, s, init);
      RunnableUnmarked(g, Wake(g, s, init).run, o);
      if After in last.kinds && Runnable(g, u, o) {
        assert StartsUnmarked(g, u, links) == a + [o];
        assert o in s.run;
        OneMoreStart(s.run, a, o);
        assert (a + [o])[..|a|] == a;
      } else {
        assert StartsUnmarked(g, u, links) == a && StartsMarked(g, s, links) == b;
      }
    }
  }

  lemma OneMoreStart(r: Run, a: seq<Obj>, o: Obj)
    requires o in r
    ensures StartedOnce(r, a + [o]) <==> StartedOnce(r, a) && o !in a && r[o].state != Running
  {
    var c := a + [o];
    assert c[|a|] == o && forall i :: 0 <= i < |a| ==> c[i] == a[i];
    if StartedOnce(r, c) {
      assert forall x :: x in a ==> x in c;
      assert forall i, j :: 0 <= i < j < |a| ==> c[i] != c[j];
      assert forall i :: 0 <= i < |a| ==> c[i] != c[|a|];
    }
  }

  /** "f" is listed twice among the followers of "b": it is started twice when "b" has succeeded. */
  lemma StartedTwice()
    ensures var follower := Link({After}, "f");
            var g := map["b" := [], "f" := [Link({After}, "b"), Link({After}, "b")]];
            var run := map["b" := Status(Start, Succeeded), "f" := Status(Start, Awaiting)];
            StartsUnmarked(g, run, [follower, follower]) == ["f", "f"]
  {
    var follower := Link({After}, "f");
    var g := map["b" := [], "f" := [Link({After}, "b"), Link({After}, "b")]];
    var run := map["b" := Status(Start, Succeeded), "f" := Status(Start, Awaiting)];
    assert Runnable(g, run, "f");
    assert [follower, follower][..1] == [follower] && [follower][..0] == [];
    assert StartsUnmarked(g, run, [follower]) == ["f"];
  }
}
