/**
  * The job engine with a restarter that completes each job at once: `job_run`, the restarter's `start` and
  * `job_complete` call each other.
  */
module SyncEngine {
  import opened Types
  import opened Walks
  import opened AfterGraphs
  import opened Engine

  /** The restarter was told to start the job on `obj`; `at` is the state of all jobs at that moment. */
  datatype Event = Started(obj: Obj, op: JobType, at: Run)

  /** When the job started, every job on an object it follows had succeeded, or was a stop or restart job. */
  ghost predicate InOrder(g: Graph, e: Event) {
    && e.obj in e.at && e.at[e.obj] == Status(e.op, Awaiting)
    && forall b :: Follows(g, e.obj, b) && b in e.at ==>
                     e.at[b].op == Stop || e.at[b].op == Restart || e.at[b].state == Succeeded
  }

  /** As what the job on `o` was started, each time. */
  ghost function StartsOf(log: seq<Event>, o: Obj): seq<JobType> {
    if log == [] then
      []
    else
      var last := log[|log| - 1];
      StartsOf(log[..|log| - 1], o) + (if last.obj == o then [last.op] else [])
  }

  /** As what a job submitted as `first` has been started by the time its status is `s`. */
  ghost function StartsBy(first: JobType, s: Status): seq<JobType> {
    if first == Restart then
      if s.op == Restart then [] else if s.state == Awaiting then [Restart] else [Restart, Start]
    else
      if s.state == Awaiting then [] else [first]
  }

  /** What the log has to say of each job; the job `pending` has just been started. */
  ghost predicate Logged(first: map<Obj, JobType>, r: Run, log: seq<Event>, pending: set<Obj>) {
    && first.Keys == r.Keys
    && forall o :: o in r ==>
         && (r[o].op == first[o] || (first[o] == Restart && r[o].op == Start))
         && StartsOf(log, o) == StartsBy(first[o], r[o]) + (if o in pending then [r[o].op] else [])
  }

  /** What the i-th entry says of the jobs at that moment is what the entries before it tell. */
  ghost predicate Stamped(first: map<Obj, JobType>, log: seq<Event>, i: nat)
    requires i < |log|
  {
    && Logged(first, log[i].at, log[..i], {})
    && forall o :: o in log[i].at ==> Between(log[i].at[o])
  }

  /** Between steps a job is awaiting or has succeeded, a restart job having become a start job. */
  ghost predicate Between(s: Status) {
    s.state == Awaiting || (s.state == Succeeded && s.op != Restart)
  }

  /**
    * By the i-th start, each job on an object that is followed had been started, and so had succeeded, stop jobs apart;
    * a restart job twice, or not at all.
    */
  ghost predicate AfterOthers(g: Graph, first: map<Obj, JobType>, log: seq<Event>, i: nat)
    requires i < |log|
  {
    forall b :: b in first && Follows(g, log[i].obj, b) && first[b] != Stop ==>
      if first[b] == Restart then StartsOf(log[..i], b) == [] || StartsOf(log[..i], b) == [Restart, Start]
      else StartsOf(log[..i], b) == [first[b]]
  }

  lemma {:induction false} InOrderMeans(g: Graph, first: map<Obj, JobType>, log: seq<Event>, i: nat)
    requires i < |log| && InOrder(g, log[i]) && Stamped(first, log, i)
    ensures AfterOthers(g, first, log, i) && log[i].at.Keys == first.Keys
  {
    hide StartsOf;
  }

  /** A restart job ordered after itself waits for itself once it has become a start job. */
  ghost predicate OnlySelfStuck(g: Graph, first: map<Obj, JobType>, r: Run, except: set<Obj>) {
    forall o :: o in r && o in first && o !in except && r[o].state == Awaiting && r[o].op != first[o] ==> Follows(g, o, o)
  }

  /** What holds of the jobs and the log between steps. */
  ghost predicate Sound(g: Graph, first: map<Obj, JobType>, r: Run, log: seq<Event>, pending: set<Obj>, converted: set<Obj>) {
    && (forall o :: o in r ==> Between(r[o]))
    && Logged(first, r, log, pending)
    && (forall i :: 0 <= i < |log| ==> InOrder(g, log[i]) && Stamped(first, log, i))
    && OnlySelfStuck(g, first, r, converted)
  }

  /** The members of `trap` are all still waiting. */
  ghost predicate Trapped(g: Graph, first: map<Obj, JobType>, r: Run, trap: set<Obj>) {
    && Trap(WaitGraph(g, first), trap)
    && forall o :: o in trap ==> o in r && r[o].state == Awaiting
  }

  /**
    * Who waits for whom at the outset, for as long as it takes: a restart job is waited for by itself only,
    * after it has become a start job.
    */
  function WaitGraph(g: Graph, first: map<Obj, JobType>): Digraph<Obj> {
    var after := AfterAmong(g, first.Keys);
    map o | o in after ::
      set b | b in after[o] && b in first && first[b] != Stop && (first[b] != Restart || b == o)
  }

  lemma WaitStep(g: Graph, first: map<Obj, JobType>, a: Obj, b: Obj)
    ensures Step(WaitGraph(g, first), a, b) <==>
            && a in first && b in first && Follows(g, a, b)
            && first[b] != Stop && (first[b] != Restart || a == b)
  {
    AmongStep(g, first.Keys, a, b);
  }

  /** No two jobs have the same number, and the numbers given are below `next`. */
  ghost predicate NumbersDiffer(ids: map<Obj, int>, next: int) {
    && next >= 0 && (forall a :: a in ids ==> -1 <= ids[a] < next)
    && forall a, b :: a in ids && b in ids && a != b && ids[a] == ids[b] ==> ids[a] == -1
  }

  /** All jobs but those in `rest` have been numbered, and numbers given before are kept. */
  ghost predicate Kept(before: map<Obj, int>, ids: map<Obj, int>, rest: set<Obj>) {
    && ids.Keys == before.Keys
    && forall a :: a in ids ==> (before[a] != -1 ==> ids[a] == before[a]) && (a !in rest ==> ids[a] != -1)
  }

  lemma NoneNumbered(ids: map<Obj, int>)
    ensures Kept(ids, ids, ids.Keys)
  {
  }

  lemma NumberNext(before: map<Obj, int>, ids: map<Obj, int>, rest: set<Obj>, o: Obj, next: int)
    requires NumbersDiffer(ids, next) && Kept(before, ids, rest + {o}) && o in ids
    ensures ids[o] == -1 ==> NumbersDiffer(ids[o := next], next + 1) && Kept(before, ids[o := next], rest)
    ensures ids[o] != -1 ==> Kept(before, ids, rest)
  {
  }

  lemma AllNumbered(before: map<Obj, int>, ids: map<Obj, int>, next: int)
    requires NumbersDiffer(ids, next) && Kept(before, ids, {})
    ensures forall a :: a in ids ==> 0 <= ids[a] < next && (before[a] != -1 ==> ids[a] == before[a])
    ensures forall a, b :: a in ids && b in ids && a != b ==> ids[a] != ids[b]
  {
  }

  class Scheduler {
    /** The After and other edges from each object, and, mirroring them, those to each object. */
    const edges: Graph
    const edgesTo: Graph
    /** The first job of each object of the transaction. */
    const jobs: map<Obj, Job>
    ghost const first: map<Obj, JobType>
    var running: map<int, Job>
    var lastId: int
    ghost var log: seq<Event>

    constructor (edges: Graph, edgesTo: Graph, jobs: map<Obj, Job>)
      requires forall o :: o in jobs ==> jobs[o].obj == o && jobs[o].state == Awaiting && jobs[o].id == -1
                                         && !jobs[o].armed
      requires jobs.Keys <= edges.Keys && edges.Keys == edgesTo.Keys && Mirrored(edges, edgesTo)
      ensures this.edges == edges && this.edgesTo == edgesTo && this.jobs == jobs
      ensures first == map o | o in jobs :: jobs[o].op
      ensures Valid({}, {}) && running == map[] && log == [] && NumbersDiffer(Ids(), lastId)
    {
      this.edges, this.edgesTo, this.jobs := edges, edgesTo, jobs;
      first := map o | o in jobs :: jobs[o].op;
      running, lastId, log := map[], 0, [];
    }

    /** What holds between steps; the jobs in `pending` have been started and not completed. */
    ghost predicate Valid(pending: set<Obj>, converted: set<Obj>)
      reads this, jobs.Values
    {
      && (forall o :: o in jobs ==> jobs[o].obj == o)
      && jobs.Keys <= edges.Keys && edges.Keys == edgesTo.Keys && Mirrored(edges, edgesTo)
      && Sound(edges, first, StatusOf(jobs), log, pending, converted)
      && (forall o :: o in jobs ==> (jobs[o].armed <==> o in pending))
    }

    /** The number of each job, -1 for none yet. */
    ghost function Ids(): map<Obj, int>
      reads jobs.Values`id
    {
      map o | o in jobs :: jobs[o].id
    }

    /** Give the job to the restarter. */
    method JobRun(job: Job, ghost trap: set<Obj>, ghost converted: set<Obj>)
      requires Valid({}, converted) && converted <= {job.obj} && Trapped(edges, first, StatusOf(jobs), trap)
      requires job.obj in jobs && jobs[job.obj] == job && Runnable(edges, StatusOf(jobs), job.obj)
      requires running == map[]
      modifies this`running, this`log
      modifies jobs.Values`op, jobs.Values`state, jobs.Values`armed
      ensures Valid({}, {}) && Trapped(edges, first, StatusOf(jobs), trap)
      ensures running == map[]
      ensures Ready(edges, StatusOf(jobs)) <= old(Ready(edges, StatusOf(jobs))) - {job.obj}
      ensures Unconverted(StatusOf(jobs)) <= old(Unconverted(StatusOf(jobs))) && Waiting(StatusOf(jobs)) <= old(Waiting(StatusOf(jobs)))
      decreases Unconverted(StatusOf(jobs)), Waiting(StatusOf(jobs)), 2
    {
      hide Sound, Trapped, Mirrored, Runnable, Ready, Unconverted, Waiting;
      ghost var r0, log0 := StatusOf(jobs), log;
      StartLogged(edges, first, r0, log0, job.obj, converted);
      running := running[job.id := job];
      job.armed := true;
      log := log + [Started(job.obj, job.op, r0)];
      assert StatusOf(jobs) == r0;
      Start(job.id, trap, converted);
    }

    /** The restarter's `start`: the job is complete before the call returns. */
    method Start(id: int, ghost trap: set<Obj>, ghost converted: set<Obj>)
      requires id in running && running == map[id := running[id]]
      requires var job := running[id];
               && job.obj in jobs && jobs[job.obj] == job
               && Valid({job.obj}, converted) && converted <= {job.obj} && Trapped(edges, first, StatusOf(jobs), trap)
               && Runnable(edges, StatusOf(jobs), job.obj)
      modifies this`running, this`log
      modifies jobs.Values`op, jobs.Values`state, jobs.Values`armed
      ensures Valid({}, {}) && Trapped(edges, first, StatusOf(jobs), trap)
      ensures running == map[]
      ensures Ready(edges, StatusOf(jobs)) <= old(Ready(edges, StatusOf(jobs))) - {old(running)[id].obj}
      ensures Unconverted(StatusOf(jobs)) <= old(Unconverted(StatusOf(jobs))) && Waiting(StatusOf(jobs)) <= old(Waiting(StatusOf(jobs)))
      decreases Unconverted(StatusOf(jobs)), Waiting(StatusOf(jobs)), 1
    {
      hide *;
      JobSucceeded(id, trap, converted);
    }

    /**
      * `job_complete` as the restarter calls it, with success.  A restart job becomes a start job, which runs at
      * once if it may; then the jobs on objects that follow the job's object are run if they may.
      */
    method JobSucceeded(id: int, ghost trap: set<Obj>, ghost converted: set<Obj>)
      requires id in running && running == map[id := running[id]]
      requires var job := running[id];
               && job.obj in jobs && jobs[job.obj] == job
               && Valid({job.obj}, converted) && converted <= {job.obj} && Trapped(edges, first, StatusOf(jobs), trap)
               && Runnable(edges, StatusOf(jobs), job.obj)
      modifies this`running, this`log
      modifies jobs.Values`op, jobs.Values`state, jobs.Values`armed
      ensures Valid({}, {}) && Trapped(edges, first, StatusOf(jobs), trap)
      ensures running == map[]
      ensures Ready(edges, StatusOf(jobs)) <= old(Ready(edges, StatusOf(jobs))) - {old(running)[id].obj}
      ensures Unconverted(StatusOf(jobs)) <= old(Unconverted(StatusOf(jobs))) && Waiting(StatusOf(jobs)) <= old(Waiting(StatusOf(jobs)))
      decreases Unconverted(StatusOf(jobs)), Waiting(StatusOf(jobs)), 0
    {
      hide *;
      var job := running[id];
      ghost var r0 := StatusOf(jobs);
      IsJob(job.obj, {job.obj}, converted);
      var restarted := EndJob(id, trap, converted);
      if restarted {
        var runnable := JobRunnable(edges, jobs, job);
        ReadyMeansRunnable(edges, StatusOf(jobs), job.obj);
        if runnable {
          JobRun(job, trap, {job.obj});
        } else {
          StuckIsValid(job.obj, r0);
        }
      }
      StartOthers(job, trap, Ready(edges, r0) - {job.obj});
    }

    /** Take the job off the running jobs, disarm its timer and record how it ended. */
    method EndJob(id: int, ghost trap: set<Obj>, ghost converted: set<Obj>) returns (restarted: bool)
      requires id in running && running == map[id := running[id]]
      requires var job := running[id];
               && job.obj in jobs && jobs[job.obj] == job
               && Valid({job.obj}, converted) && converted <= {job.obj} && Trapped(edges, first, StatusOf(jobs), trap)
               && Runnable(edges, StatusOf(jobs), job.obj)
      modifies this`running
      modifies jobs.Values`op, jobs.Values`state, jobs.Values`armed
      ensures running == map[] && Trapped(edges, first, StatusOf(jobs), trap)
      ensures Valid({}, if restarted then {old(running[id]).obj} else {})
      ensures StatusOf(jobs) == if restarted then old(StatusOf(jobs))[old(running[id]).obj := Status(JobType.Start, Awaiting)]
                        else old(StatusOf(jobs))[old(running[id]).obj := Status(old(running[id].op), Succeeded)]
      ensures restarted ==> Ready(edges, StatusOf(jobs)) <= old(Ready(edges, StatusOf(jobs)))
      ensures restarted ==>
                Unconverted(StatusOf(jobs)) < old(Unconverted(StatusOf(jobs))) && Waiting(StatusOf(jobs)) <= old(Waiting(StatusOf(jobs)))
      ensures !restarted ==>
                forall x :: x in Ready(edges, StatusOf(jobs)) ==>
                  x in old(Ready(edges, StatusOf(jobs))) - {old(running[id]).obj} || Follows(edges, x, old(running[id]).obj)
      ensures !restarted ==>
                Unconverted(StatusOf(jobs)) <= old(Unconverted(StatusOf(jobs))) && Waiting(StatusOf(jobs)) < old(Waiting(StatusOf(jobs)))
    {
      hide Sound, Trapped, Mirrored, Runnable, Ready, Unconverted, Waiting;
      var job := running[id];
      ghost var r0 := StatusOf(jobs);
      job.armed := false;
      running := running - {id};
      job.state := Succeeded;
      restarted := job.op == Restart;
      if restarted {
        Converted(edges, first, r0, log, trap, converted, job.obj);
        job.op, job.state := JobType.Start, Awaiting;
        assert StatusOf(jobs) == r0[job.obj := Status(JobType.Start, Awaiting)];
      } else {
        Completed(edges, first, r0, log, trap, converted, job.obj);
        assert StatusOf(jobs) == r0[job.obj := Status(job.op, Succeeded)];
      }
    }

    lemma EachJob()
      ensures StatusOf(jobs).Keys == jobs.Keys && Ids().Keys == jobs.Keys
      ensures forall o :: o in jobs ==> Ids()[o] == jobs[o].id
    {
    }

    lemma IsJob(o: Obj, pending: set<Obj>, converted: set<Obj>)
      requires Valid(pending, converted) && o in jobs
      ensures o in edges && jobs[o].obj == o && o in Ids()
    {
    }

    lemma StuckIsValid(o: Obj, r0: Run)
      requires Valid({}, {o}) && Runnable(edges, r0, o)
      requires StatusOf(jobs) == r0[o := Status(JobType.Start, Awaiting)] && !Runnable(edges, StatusOf(jobs), o)
      ensures Valid({}, {})
    {
      ConvertedStuck(edges, first, r0, log, o);
      hide Sound, Mirrored, Runnable;
    }

    /** Run the jobs on the objects that follow the object of `job`, if they may run. */
    method StartOthers(job: Job, ghost trap: set<Obj>, ghost before: set<Obj>)
      requires Valid({}, {}) && Trapped(edges, first, StatusOf(jobs), trap) && running == map[]
      requires job.obj in jobs && jobs[job.obj] == job
      requires forall x :: x in Ready(edges, StatusOf(jobs)) ==> x in before || Follows(edges, x, job.obj)
      modifies this`running, this`log
      modifies jobs.Values`op, jobs.Values`state, jobs.Values`armed
      ensures Valid({}, {}) && Trapped(edges, first, StatusOf(jobs), trap)
      ensures running == map[]
      ensures Ready(edges, StatusOf(jobs)) <= before
      ensures Unconverted(StatusOf(jobs)) <= old(Unconverted(StatusOf(jobs))) && Waiting(StatusOf(jobs)) <= old(Waiting(StatusOf(jobs)))
      decreases Unconverted(StatusOf(jobs)), Waiting(StatusOf(jobs)), 3
    {
      hide Sound, Trapped, Mirrored, Runnable, Ready, Unconverted, Waiting, ListedFrom;
      var links := edgesTo[job.obj];
      FollowersListed(edges, edgesTo, job.obj);
      for i := 0 to |links|
        invariant Valid({}, {}) && Trapped(edges, first, StatusOf(jobs), trap)
        invariant running == map[]
        invariant forall x :: x in Ready(edges, StatusOf(jobs)) ==> x in before || ListedFrom(links, i, x)
        invariant Unconverted(StatusOf(jobs)) <= old(Unconverted(StatusOf(jobs))) && Waiting(StatusOf(jobs)) <= old(Waiting(StatusOf(jobs)))
      {
        var dep := links[i];
        NextListed(links, i);
        ReadyAreJobs(edges, StatusOf(jobs));
        if After in dep.kinds && dep.to in jobs {
          var runnable := JobRunnable(edges, jobs, jobs[dep.to]);
          ReadyMeansRunnable(edges, StatusOf(jobs), dep.to);
          if runnable {
            JobRun(jobs[dep.to], trap, {});
          }
        }
      }
      NoneListed(links);
    }

    /** Give a job its number, unless it has one. */
    method Number(job: Job)
      requires Valid({}, {}) && job.obj in jobs && jobs[job.obj] == job
      modifies this`lastId, job`id
      ensures Valid({}, {}) && StatusOf(jobs) == old(StatusOf(jobs))
      ensures job.obj in old(Ids())
      ensures Ids() == if old(Ids()[job.obj]) == -1 then old(Ids())[job.obj := old(lastId)] else old(Ids())
      ensures lastId == old(lastId) + if old(Ids()[job.obj]) == -1 then 1 else 0
    {
      hide Sound, Mirrored;
      ghost var r := StatusOf(jobs);
      if job.id == -1 {
        job.id := lastId;
        lastId := lastId + 1;
      }
      assert StatusOf(jobs) == r;
    }

    /** Number the jobs, in whatever order the map holds them, and run those that may run. */
    method TxEnqueueLeaves(ghost trap: set<Obj>)
      requires Valid({}, {}) && Trapped(edges, first, StatusOf(jobs), trap) && running == map[]
      requires NumbersDiffer(Ids(), lastId)
      modifies this, jobs.Values
      ensures Valid({}, {}) && Trapped(edges, first, StatusOf(jobs), trap)
      ensures running == map[]
      ensures Ready(edges, StatusOf(jobs)) == {}
      ensures forall o :: o in jobs ==> 0 <= jobs[o].id < lastId
      ensures forall o :: o in jobs && old(Ids())[o] != -1 ==> jobs[o].id == old(Ids())[o]
      ensures forall a, b :: a in jobs && b in jobs && a != b ==> jobs[a].id != jobs[b].id
    {
      hide *;
      var rest := jobs.Keys;
      ReadyAreJobs(edges, StatusOf(jobs));
      ghost var ids0 := Ids();
      EachJob();
      NoneNumbered(ids0);
      while rest != {}
        invariant Valid({}, {}) && Trapped(edges, first, StatusOf(jobs), trap)
        invariant running == map[]
        invariant rest <= jobs.Keys && Ready(edges, StatusOf(jobs)) <= rest
        invariant NumbersDiffer(Ids(), lastId) && Kept(ids0, Ids(), rest)
        decreases rest
      {
        ghost var rest0 := rest;
        var o :| o in rest;
        rest := rest - {o};
        var job := jobs[o];
        ghost var ids, n := Ids(), lastId;
        IsJob(o, {}, {});
        Number(job);
        assert rest + {o} == rest0;
        NumberNext(ids0, ids, rest, o, n);
        var runnable := JobRunnable(edges, jobs, job);
        ReadyMeansRunnable(edges, StatusOf(jobs), o);
        if runnable {
          JobRun(job, trap, {});
        }
      }
      AllNumbered(ids0, Ids(), lastId);
      EachJob();
    }

    /**
      * The whole run.  Every job succeeds exactly when the initial waits have no cycle; whatever succeeds was
      * started once, a restart job once as such and once as a start job; and nothing was started out of order.
      */
    method TxEnqueue()
      requires Valid({}, {}) && running == map[]
      requires forall o :: o in jobs ==> jobs[o].state == Awaiting && jobs[o].op == first[o]
      requires NumbersDiffer(Ids(), lastId)
      modifies this, jobs.Values
      ensures Valid({}, {}) && running == map[]
      ensures (forall o :: o in jobs ==> jobs[o].state == Succeeded) <==> Acyclic(WaitGraph(edges, first))
      ensures forall o :: o in jobs && jobs[o].state == Succeeded ==>
                StartsOf(log, o) == if first[o] == Restart then [Restart, JobType.Start] else [first[o]]
      ensures forall i :: 0 <= i < |log| ==> InOrder(edges, log[i]) && log[i].at.Keys == jobs.Keys
      ensures forall i :: 0 <= i < |log| ==> AfterOthers(edges, first, log, i)
      ensures forall a, b :: a in jobs && b in jobs && a != b ==> jobs[a].id != jobs[b].id
    {
      hide Sound, Trapped, Mirrored, Ready, Acyclic, Trap, WaitGraph, StartsOf, InOrder, AfterOthers, NumbersDiffer;
      ghost var trap := ATrap(edges, first);
      AllTrapped(edges, first, StatusOf(jobs), log, trap);
      TxEnqueueLeaves(trap);
      ghost var r := StatusOf(jobs);
      assert r.Keys == jobs.Keys && forall o :: o in jobs ==> r[o] == Status(jobs[o].op, jobs[o].state);
      if Acyclic(WaitGraph(edges, first)) {
        NothingReadyAllDone(edges, first, r, log);
      } else {
        TrappedNotDone(edges, first, r, trap);
      }
      SoundLog(edges, first, r, log);
    }
  }

  ghost function Unconverted(r: Run): set<Obj> {
    set o | o in r && r[o].state == Awaiting && r[o].op == Restart
  }

  /** Entering a start in the log. */
  lemma StartLogged(g: Graph, first: map<Obj, JobType>, r: Run, log: seq<Event>, o: Obj, converted: set<Obj>)
    requires Sound(g, first, r, log, {}, converted) && Runnable(g, r, o)
    ensures Sound(g, first, r, log + [Started(o, r[o].op, r)], {o}, converted)
  {
    hide Logged, InOrder, Stamped, Between, Runnable, OnlySelfStuck;
    StartsWhenReady(g, r, o);
    var e := Started(o, r[o].op, r);
    OneMoreLogged(first, r, log, o);
    forall i | 0 <= i < |log + [e]|
      ensures InOrder(g, (log + [e])[i]) && Stamped(first, log + [e], i)
    {
      StampedStays(first, r, log, e, i);
    }
  }

  lemma StartsWhenReady(g: Graph, r: Run, o: Obj)
    requires Runnable(g, r, o)
    ensures o in r && InOrder(g, Started(o, r[o].op, r))
  {
    forall b | Follows(g, o, b) && b in r
      ensures r[b].op == Stop || r[b].op == Restart || r[b].state == Succeeded
    {
      assert r[b].op != Stop && r[b].op != Restart ==> WaitsFor(g, r, o, b);
    }
    hide Follows;
  }

  lemma {:induction false} OneMoreLogged(first: map<Obj, JobType>, r: Run, log: seq<Event>, o: Obj)
    requires Logged(first, r, log, {}) && o in r
    ensures Logged(first, r, log + [Started(o, r[o].op, r)], {o})
  {
    var e := Started(o, r[o].op, r);
    assert (log + [e])[..|log|] == log;
  }

  lemma StampedStays(first: map<Obj, JobType>, r: Run, log: seq<Event>, e: Event, i: nat)
    requires i <= |log| && e.at == r && Logged(first, r, log, {}) && forall o :: o in r ==> Between(r[o])
    requires i < |log| ==> Stamped(first, log, i)
    ensures Stamped(first, log + [e], i)
  {
    assert (log + [e])[..i] == log[..i];
    assert log[..|log|] == log;
    hide Logged, Between;
  }

  /** The restart job on `o` was started, succeeded and became a start job. */
  lemma Converted(g: Graph, first: map<Obj, JobType>, r: Run, log: seq<Event>, trap: set<Obj>, converted: set<Obj>, o: Obj)
    requires Sound(g, first, r, log, {o}, converted) && converted <= {o} && Trapped(g, first, r, trap)
    requires Runnable(g, r, o) && r[o].op == Restart
    ensures var after := r[o := Status(JobType.Start, Awaiting)];
            && Sound(g, first, after, log, {}, {o}) && Trapped(g, first, after, trap)
            && Ready(g, after) <= Ready(g, r)
            && Unconverted(after) < Unconverted(r) && Waiting(after) <= Waiting(r)
  {
    hide Sound, Trapped, Ready, Runnable, Unconverted, Waiting;
    ConvertedRun(g, first, r, trap, o);
    NowConverted(g, first, r, log, converted, o);
  }

  lemma ConvertedRun(g: Graph, first: map<Obj, JobType>, r: Run, trap: set<Obj>, o: Obj)
    requires Trapped(g, first, r, trap) && Runnable(g, r, o) && r[o].op == Restart
    ensures var after := r[o := Status(JobType.Start, Awaiting)];
            && Trapped(g, first, after, trap)
            && Ready(g, after) <= Ready(g, r)
            && Unconverted(after) < Unconverted(r) && Waiting(after) <= Waiting(r)
  {
    ConversionReleasesNobody(g, r, o);
    var after := r[o := Status(JobType.Start, Awaiting)];
    assert o in Unconverted(r) && o !in Unconverted(after);
    hide Trap, WaitGraph;
  }

  lemma NowConverted(g: Graph, first: map<Obj, JobType>, r: Run, log: seq<Event>, converted: set<Obj>, o: Obj)
    requires Sound(g, first, r, log, {o}, converted) && converted <= {o} && Runnable(g, r, o) && r[o].op == Restart
    ensures Sound(g, first, r[o := Status(JobType.Start, Awaiting)], log, {}, {o})
  {
    hide InOrder, Stamped, StartsOf, Follows;
  }

  /** A job that waits once it is a start job, though it did not as a restart job, waits for itself. */
  lemma ConvertedStuck(g: Graph, first: map<Obj, JobType>, r: Run, log: seq<Event>, o: Obj)
    requires Runnable(g, r, o)
    requires var after := r[o := Status(JobType.Start, Awaiting)];
             !Runnable(g, after, o) && Sound(g, first, after, log, {}, {o})
    ensures Sound(g, first, r[o := Status(JobType.Start, Awaiting)], log, {}, {})
  {
    var after := r[o := Status(JobType.Start, Awaiting)];
    var b :| WaitsFor(g, after, o, b) && after[b].state != Succeeded;
    assert b != o ==> WaitsFor(g, r, o, b);
  }

  /** The job on `o`, not a restart job, was started and succeeded. */
  lemma Completed(g: Graph, first: map<Obj, JobType>, r: Run, log: seq<Event>, trap: set<Obj>, converted: set<Obj>, o: Obj)
    requires Sound(g, first, r, log, {o}, converted) && converted <= {o} && Trapped(g, first, r, trap)
    requires Runnable(g, r, o) && r[o].op != Restart
    ensures var after := r[o := Status(r[o].op, Succeeded)];
            && Sound(g, first, after, log, {}, {}) && Trapped(g, first, after, trap)
            && o !in Ready(g, after)
            && (forall x :: x in Ready(g, after) ==> x in Ready(g, r) || (x != o && Follows(g, x, o)))
            && Unconverted(after) <= Unconverted(r) && Waiting(after) < Waiting(r)
  {
    SuccessReleases(g, r, o);
    StaysTrapped(g, first, r, log, trap, converted, o);
    NowSucceeded(g, first, r, log, converted, o);
    var after := r[o := Status(r[o].op, Succeeded)];
    assert o in Waiting(r) && o !in Waiting(after);
    hide Sound, Trapped, Ready, Runnable;
  }

  lemma StaysTrapped(g: Graph, first: map<Obj, JobType>, r: Run, log: seq<Event>, trap: set<Obj>, converted: set<Obj>, o: Obj)
    requires Sound(g, first, r, log, {o}, converted) && Trapped(g, first, r, trap) && Runnable(g, r, o) && r[o].op != Restart
    ensures Trapped(g, first, r[o := Status(r[o].op, Succeeded)], trap)
  {
    TrappedMayRun(g, first, r, log, trap, o);
    hide Runnable, Trap, WaitGraph;
  }

  lemma NowSucceeded(g: Graph, first: map<Obj, JobType>, r: Run, log: seq<Event>, converted: set<Obj>, o: Obj)
    requires Sound(g, first, r, log, {o}, converted) && converted <= {o} && Runnable(g, r, o) && r[o].op != Restart
    ensures Sound(g, first, r[o := Status(r[o].op, Succeeded)], log, {}, {})
  {
    hide InOrder, StartsOf, Follows, WaitsFor;
  }

  /** `x` is on the list of followers from the i-th entry on. */
  ghost predicate ListedFrom(links: seq<Link>, i: nat, x: Obj) {
    exists k :: i <= k < |links| && After in links[k].kinds && links[k].to == x
  }

  lemma NextListed(links: seq<Link>, i: nat)
    requires i < |links|
    ensures forall x :: ListedFrom(links, i, x) ==>
              ListedFrom(links, i + 1, x) || (After in links[i].kinds && links[i].to == x)
  {
  }

  lemma NoneListed(links: seq<Link>)
    ensures forall x :: !ListedFrom(links, |links|, x)
  {
  }

  lemma FollowersListed(edges: Graph, edgesTo: Graph, o: Obj)
    requires Mirrored(edges, edgesTo) && o in edgesTo
    ensures forall x :: Follows(edges, x, o) ==> ListedFrom(edgesTo[o], 0, x)
  {
    forall x | Follows(edges, x, o)
      ensures ListedFrom(edgesTo[o], 0, x)
    {
      assert Follows(edgesTo, o, x);
    }
  }

  lemma ReadyMeansRunnable(g: Graph, r: Run, x: Obj)
    ensures x in Ready(g, r) <==> Runnable(g, r, x)
  {
  }

  lemma ReadyAreJobs(g: Graph, r: Run)
    ensures Ready(g, r) <= r.Keys
  {
  }

  /** A set of jobs that wait for each other, empty only if there is no other. */
  lemma ATrap(g: Graph, first: map<Obj, JobType>) returns (trap: set<Obj>)
    ensures Trap(WaitGraph(g, first), trap) && trap <= first.Keys
    ensures trap == {} <==> Acyclic(WaitGraph(g, first))
  {
    var waits := WaitGraph(g, first);
    AcyclicIffNoTrap(waits);
    if Acyclic(waits) {
      trap := {};
    } else {
      trap :| Trap(waits, trap) && trap != {};
      forall x | x in trap
        ensures x in first
      {
        assert StepsInto(waits, trap, x);
      }
    }
  }

  lemma AllTrapped(g: Graph, first: map<Obj, JobType>, r: Run, log: seq<Event>, trap: set<Obj>)
    requires Sound(g, first, r, log, {}, {}) && Trap(WaitGraph(g, first), trap) && trap <= first.Keys
    requires forall o :: o in r ==> r[o].state == Awaiting
    ensures Trapped(g, first, r, trap)
  {
  }

  lemma TrappedNotDone(g: Graph, first: map<Obj, JobType>, r: Run, trap: set<Obj>)
    requires Trapped(g, first, r, trap) && trap != {}
    ensures exists o :: o in r && r[o].state == Awaiting
  {
    var o :| o in trap;
  }

  lemma {:induction false} SoundLog(g: Graph, first: map<Obj, JobType>, r: Run, log: seq<Event>)
    requires Sound(g, first, r, log, {}, {})
    ensures first.Keys == r.Keys
    ensures forall o :: o in r && r[o].state == Succeeded ==>
              StartsOf(log, o) == if first[o] == Restart then [Restart, JobType.Start] else [first[o]]
    ensures forall i :: 0 <= i < |log| ==>
              InOrder(g, log[i]) && log[i].at.Keys == first.Keys && AfterOthers(g, first, log, i)
  {
    hide StartsOf, InOrder, Stamped, AfterOthers, OnlySelfStuck;
    forall i | 0 <= i < |log|
      ensures log[i].at.Keys == first.Keys && AfterOthers(g, first, log, i)
    {
      InOrderMeans(g, first, log, i);
    }
  }

  /** Unless a restart job is ordered after itself, a job yet to succeed that is not ready waits for another. */
  lemma WaitsForAnother(g: Graph, first: map<Obj, JobType>, r: Run, log: seq<Event>, x: Obj)
    requires Sound(g, first, r, log, {}, {}) && x in r && r[x].state == Awaiting && !Runnable(g, r, x)
    requires forall o :: o in first && first[o] == Restart ==> !Follows(g, o, o)
    ensures StepsInto(WaitGraph(g, first), Waiting(r), x)
  {
    var b :| WaitsFor(g, r, x, b) && r[b].state != Succeeded;
    WaitStep(g, first, x, b);
  }

  lemma NoSelfWait(g: Graph, first: map<Obj, JobType>, o: Obj)
    requires Acyclic(WaitGraph(g, first)) && o in first && first[o] == Restart
    ensures !Follows(g, o, o)
  {
    WaitStep(g, first, o, o);
    assert !ClosedWalk(WaitGraph(g, first), [o, o]);
  }

  /** If no job is ready and the initial waits have no cycle, all jobs have succeeded. */
  lemma NothingReadyAllDone(g: Graph, first: map<Obj, JobType>, r: Run, log: seq<Event>)
    requires Sound(g, first, r, log, {}, {}) && Ready(g, r) == {}
    requires Acyclic(WaitGraph(g, first))
    ensures forall o :: o in r ==> r[o].state == Succeeded
  {
    forall o | o in first && first[o] == Restart
      ensures !Follows(g, o, o)
    {
      NoSelfWait(g, first, o);
    }
    forall x | x in Waiting(r)
      ensures StepsInto(WaitGraph(g, first), Waiting(r), x)
    {
      assert x !in Ready(g, r);
      WaitsForAnother(g, first, r, log, x);
    }
    hide Acyclic, WaitGraph, Ready, Follows, Logged, OnlySelfStuck, InOrder;
    AcyclicIffNoTrap(WaitGraph(g, first));
    assert Trap(WaitGraph(g, first), Waiting(r));
    assert forall o :: o in r ==> o !in Waiting(r);
  }

  /** A runnable member of a trap is a restart job ordered after itself. */
  lemma TrappedMayRun(g: Graph, first: map<Obj, JobType>, r: Run, log: seq<Event>, trap: set<Obj>, o: Obj)
    requires Logged(first, r, log, {o}) && Trap(WaitGraph(g, first), trap)
    requires forall x :: x in trap ==> x in r && r[x].state == Awaiting
    requires Runnable(g, r, o)
    ensures o in trap ==> r[o].op == Restart && Follows(g, o, o)
  {
    if o in trap {
      assert StepsInto(WaitGraph(g, first), trap, o);
      var y :| y in trap && Step(WaitGraph(g, first), o, y);
      WaitStep(g, first, o, y);
      assert !WaitsFor(g, r, o, y);
    }
  }
}
