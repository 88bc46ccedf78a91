/** The methods of the job engine, with restarters that complete jobs later, against the state machine. */
module AsyncScheduler {
  import opened Types
  import opened Engine
  import opened AsyncEngine

  class Scheduler {
    const edges: Graph
    const edgesTo: Graph
    /** The first job of each object of the transaction. */
    const jobs: map<Obj, Job>
    var running: map<int, Job>
    var lastId: int
    /** The state of the machine. */
    ghost var abs: State

    constructor (edges: Graph, edgesTo: Graph, jobs: map<Obj, Job>)
      requires forall o :: o in jobs ==> jobs[o].obj == o && jobs[o].state == Awaiting && jobs[o].id == -1
                                         && !jobs[o].armed
      requires jobs.Keys <= edges.Keys && edges.Keys == edgesTo.Keys && Mirrored(edges, edgesTo)
      ensures this.edges == edges && this.edgesTo == edgesTo && this.jobs == jobs
      ensures Valid() && running == map[] && lastId == 0
      ensures abs == State(StatusOf(jobs), map o | o in jobs :: -1, map[], {}, 0)
    {
      this.edges, this.edgesTo, this.jobs := edges, edgesTo, jobs;
      running, lastId := map[], 0;
      abs := State(StatusOf(jobs), map o | o in jobs :: -1, map[], {}, 0);
    }

    /** The jobs and the fields are as the state has them. */
    ghost predicate Valid()
      reads this, jobs.Values
    {
      && jobs.Keys <= edges.Keys && edges.Keys == edgesTo.Keys && Mirrored(edges, edgesTo)
      && (forall o :: o in jobs ==> jobs[o].obj == o)
      && (forall o :: o in jobs ==> Matches(abs, o, jobs[o].op, jobs[o].state, jobs[o].id, jobs[o].armed))
      && OnlyJobs(abs, jobs.Keys)
      && RunningMatches(abs.running, running, jobs)
    }

    lemma IsJob(o: Obj)
      requires Valid() && o in jobs
      ensures o in abs.run && o in abs.ids && o in edges && o in edgesTo
      ensures jobs[o].obj == o && abs.ids[o] == jobs[o].id
    {
    }

    lemma IsRunning(id: int)
      requires Valid() && id in running
      ensures id in abs.running && abs.running[id] in abs.run && abs.running[id] in edgesTo
      ensures abs.running[id] == running[id].obj && running[id].obj in jobs && jobs[running[id].obj] == running[id]
      ensures abs.run[running[id].obj].op == running[id].op
    {
    }

    lemma JobsHaveIds()
      requires Valid()
      ensures abs.ids.Keys == jobs.Keys && abs.run.Keys == jobs.Keys
      ensures running == map[] ==> abs.running == map[]
    {
      hide Mirrored;
    }

    lemma StatusIsRun()
      requires Valid()
      ensures StatusOf(jobs) == abs.run
    {
      hide Mirrored;
    }

    /** Hand the job to its restarter, with a timer, and mark it as running. */
    method JobRun(job: Job)
      requires Valid() && job.obj in jobs && jobs[job.obj] == job
      modifies this`running, this`abs, job`armed, job`state
      ensures Valid() && abs == Launch(old(abs), job.obj)
    {
      IsJob(job.obj);
      LaunchMatches(abs, job.obj, jobs.Keys, running, jobs, job);
      hide Mirrored, Matches, OnlyJobs, RunningMatches, Launch;
      abs := Launch(abs, job.obj);
      running := running[job.id := job];
      job.armed := true;
      job.state := Running;
    }

    /** Run the job if it may run. */
    method RunIfRunnable(job: Job)
      requires Valid() && job.obj in jobs && jobs[job.obj] == job
      modifies this`running, this`abs, job`armed, job`state
      ensures Valid() && abs == TryLaunch(edges, old(abs), job.obj)
    {
      hide Runnable, Valid;
      StatusIsRun();
      IsJob(job.obj);
      var runnable := JobRunnable(edges, jobs, job);
      if runnable {
        JobRun(job);
      }
    }

    /**
      * A job is complete.  A restart job that succeeded becomes a start job, which is run if it may; then the
      * jobs on objects that follow the job's object are run if they may.
      */
    method JobComplete(id: int, res: JobState)
      requires Valid() && id in running && Ending(res)
      modifies this`running, this`abs, jobs.Values
      ensures Valid()
      ensures abs == Complete(edges, edgesTo, old(abs), id, res)
    {
      hide *;
      var job := running[id];
      IsRunning(id);
      ghost var s := abs;
      var converted := EndJob(id, res);
      if converted {
        RunIfRunnable(job);
      }
      ghost var resumed := abs;
      JobsHaveIds();
      var links := edgesTo[job.obj];
      NoWake(edges, resumed, links);
      for i := 0 to |links|
        invariant Valid()
        invariant abs == Wake(edges, resumed, links[..i])
      {
        WakeMore(edges, resumed, links, i, jobs.Keys);
        var dep := links[i];
        if After in dep.kinds && dep.to in jobs {
          IsJob(dep.to);
          RunIfRunnable(jobs[dep.to]);
        }
      }
      assert links[..|links|] == links;
      AssembleComplete(edges, edgesTo, s, id, res, resumed, abs);
    }

    /** Take the job off the running jobs, disarm its timer and record how it ended. */
    method EndJob(id: int, res: JobState) returns (converted: bool)
      requires Valid() && id in running
      modifies this`running, this`abs, running[id]
      ensures Valid() && abs == Ended(old(abs), id, res)
      ensures converted <==> res == Succeeded && old(running[id].op) == Restart
    {
      hide Mirrored, Matches, OnlyJobs, RunningMatches, Ended;
      IsRunning(id);
      EndedMatches(abs, id, res, jobs.Keys, running, jobs);
      var job := running[id];
      abs := Ended(abs, id, res);
      job.armed := false;
      running := running - {id};
      converted := res == Succeeded && job.op == Restart;
      if converted {
        job.op, job.state := Start, Awaiting;
      } else {
        job.state := res;
      }
    }

    /** The timer of the job has elapsed. */
    method JobTimeoutCb(id: int)
      requires Valid() && id in running
      modifies this`running, this`abs, jobs.Values
      ensures Valid()
      ensures abs == Complete(edges, edgesTo, old(abs), id, TimedOut)
    {
      ghost var s := abs;
      IsRunning(id);
      DisarmTimer(running[id]);
      hide Mirrored, Wake, TryLaunch;
      assert Ended(abs, id, TimedOut) == Ended(s, id, TimedOut);
      JobComplete(id, TimedOut);
    }

    /** The elapsed timer is gone. */
    method DisarmTimer(job: Job)
      requires Valid() && job.obj in jobs && jobs[job.obj] == job
      modifies this`abs, job`armed
      ensures Valid() && abs == old(abs).(armed := old(abs).armed - {job.obj})
    {
      IsJob(job.obj);
      DisarmMatches(abs, job.obj, jobs.Keys);
      hide Mirrored, Matches, OnlyJobs, RunningMatches;
      job.armed := false;
      abs := abs.(armed := abs.armed - {job.obj});
    }

    /** Give a job its number, unless it has one. */
    method Number(job: Job)
      requires Valid() && job.obj in jobs && jobs[job.obj] == job && job.id == -1
      modifies this`lastId, this`abs, job`id
      ensures Valid() && lastId == old(lastId) + 1 && job.id == old(lastId)
      ensures abs == old(abs).(ids := old(abs).ids[job.obj := old(lastId)])
    {
      IsJob(job.obj);
      NumberMatches(abs, job.obj, lastId, jobs.Keys);
      hide Mirrored, Matches, OnlyJobs, RunningMatches;
      if job.id == -1 {
        job.id := lastId;
        abs := abs.(ids := abs.ids[job.obj := lastId]);
        lastId := lastId + 1;
      }
    }

    /** Number the jobs, in whatever order the map holds them, and run those that may run. */
    method TxEnqueueLeaves()
      requires Valid() && running == map[] && lastId == 0 && abs.armed == {}
      requires forall o :: o in jobs ==> abs.run[o].state == Awaiting && abs.ids[o] == -1
      modifies this`running, this`abs, this`lastId, jobs.Values
      ensures Valid() && Invariant(edges, abs) && FirstStarts(edges, abs.run)
      ensures Budget(abs) == old(Budget(abs))
    {
      hide *;
      JobsHaveIds();
      StartEnqueueing(edges, abs);
      var rest := jobs.Keys;
      ghost var b := Budget(abs);
      while rest != {}
        invariant Valid() && rest <= jobs.Keys
        invariant Enqueueing(edges, abs, rest, lastId, b)
        decreases rest
      {
        var o :| o in rest;
        var job := jobs[o];
        ghost var s, n := abs, lastId;
        IsJob(o);
        EnqueueStep(edges, s, rest, o, n, b);
        Number(job);
        RunIfRunnable(job);
        rest := rest - {o};
      }
      AllEnqueued(edges, abs, lastId, b);
    }
  }

  /** The jobs in `rest` are yet to be numbered; no other is ready, and no start has been lost or made up. */
  ghost predicate Enqueueing(g: Graph, s: State, rest: set<Obj>, next: int, budget: nat) {
    && NumberedBut(s, rest, next) && next >= 0
    && RunningSet(s) && NumbersDiffer(s)
    && Ready(g, s.run) <= rest
    && FirstStarts(g, s.run)
    && Budget(s) == budget
  }

  lemma StartEnqueueing(g: Graph, s: State)
    requires s.ids.Keys == s.run.Keys && s.running == map[] && s.armed == {}
    requires forall o :: o in s.run ==> s.run[o].state == Awaiting && s.ids[o] == -1
    ensures Enqueueing(g, s, s.run.Keys, 0, Budget(s))
  {
    hide Budget;
  }

  lemma EnqueueStep(g: Graph, s: State, rest: set<Obj>, o: Obj, next: int, budget: nat)
    requires Enqueueing(g, s, rest, next, budget) && o in rest && o in s.ids
    ensures s.ids[o] == -1
    ensures var numbered := s.(ids := s.ids[o := next]);
            Enqueueing(g, TryLaunch(g, numbered, o), rest - {o}, next + 1, budget)
  {
    NumberingKeeps(g, s, rest, o, next);
    LaunchKeepsFirst(g, s.(ids := s.ids[o := next]), o);
    NumberedNext(g, s.(ids := s.ids[o := next]), rest, o, next + 1);
    hide NumberedBut, RunningSet, NumbersDiffer, Budget, Ready, TryLaunch, FirstStarts;
  }

  lemma AllEnqueued(g: Graph, s: State, next: int, budget: nat)
    requires Enqueueing(g, s, {}, next, budget)
    ensures Invariant(g, s) && FirstStarts(g, s.run) && Budget(s) == budget
  {
    AllNumbered(s, next);
  }

  /** The job on `o` is as the state has it. */
  ghost predicate Matches(s: State, o: Obj, op: JobType, state: JobState, id: int, armed: bool) {
    && o in s.run && o in s.ids
    && s.run[o] == Status(op, state) && s.ids[o] == id && (o in s.armed <==> armed)
  }

  ghost predicate OnlyJobs(s: State, objects: set<Obj>) {
    forall o :: o in s.run || o in s.ids || o in s.armed ==> o in objects
  }

  ghost predicate RunningMatches(model: map<int, Obj>, running: map<int, Job>, jobs: map<Obj, Job>) {
    && model.Keys == running.Keys
    && forall id :: id in running ==>
         model[id] == running[id].obj && running[id].obj in jobs && jobs[running[id].obj] == running[id]
  }

  lemma LaunchMatches(s: State, o: Obj, objects: set<Obj>, running: map<int, Job>, jobs: map<Obj, Job>, job: Job)
    requires o in s.run && o in s.ids && o in jobs && jobs[o] == job && job.obj == o
    requires OnlyJobs(s, objects) && RunningMatches(s.running, running, jobs)
    ensures var t := Launch(s, o);
            && OnlyJobs(t, objects) && RunningMatches(t.running, running[s.ids[o] := job], jobs)
            && (forall op, state, id, armed :: Matches(s, o, op, state, id, armed) ==> Matches(t, o, op, Running, id, true))
            && (forall x, op, state, id, armed :: x != o && Matches(s, x, op, state, id, armed) ==>
                  Matches(t, x, op, state, id, armed))
  {
  }

  lemma NumberMatches(s: State, o: Obj, n: int, objects: set<Obj>)
    requires o in s.ids && OnlyJobs(s, objects)
    ensures var t := s.(ids := s.ids[o := n]);
            && OnlyJobs(t, objects)
            && (forall op, state, id, armed :: Matches(s, o, op, state, id, armed) ==> Matches(t, o, op, state, n, armed))
            && (forall x, op, state, id, armed :: x != o && Matches(s, x, op, state, id, armed) ==>
                  Matches(t, x, op, state, id, armed))
  {
  }

  lemma DisarmMatches(s: State, o: Obj, objects: set<Obj>)
    requires OnlyJobs(s, objects)
    ensures var t := s.(armed := s.armed - {o});
            && OnlyJobs(t, objects)
            && (forall op, state, id, armed :: Matches(s, o, op, state, id, armed) ==> Matches(t, o, op, state, id, false))
            && (forall x, op, state, id, armed :: x != o && Matches(s, x, op, state, id, armed) ==>
                  Matches(t, x, op, state, id, armed))
  {
  }

  lemma EndedMatches(s: State, id: int, res: JobState, objects: set<Obj>, running: map<int, Job>, jobs: map<Obj, Job>)
    requires id in s.running && s.running[id] in s.run
    requires OnlyJobs(s, objects) && RunningMatches(s.running, running, jobs)
    ensures var t := Ended(s, id, res);
            var o := s.running[id];
            && OnlyJobs(t, objects) && RunningMatches(t.running, running - {id}, jobs)
            && (forall op, state, i, armed :: Matches(s, o, op, state, i, armed) ==>
                  if res == Succeeded && op == Restart then Matches(t, o, Start, Awaiting, i, false)
                  else Matches(t, o, op, res, i, false))
            && (forall x, op, state, i, armed :: x != o && Matches(s, x, op, state, i, armed) ==>
                  Matches(t, x, op, state, i, armed))
  {
  }

  /** All jobs but those in `rest`, which have not run, have a number below `next`. */
  ghost predicate NumberedBut(s: State, rest: set<Obj>, next: int) {
    && s.ids.Keys == s.run.Keys && rest <= s.run.Keys
    && (forall o :: o in s.ids ==> s.ids[o] < next)
    && (forall o :: o in rest ==> s.ids[o] == -1 && s.run[o].state == Awaiting)
    && (forall o :: o in s.ids && o !in rest ==> s.ids[o] != -1)
  }

  lemma AllNumbered(s: State, next: int)
    requires NumberedBut(s, {}, next) && NumbersDiffer(s)
    ensures Numbered(s)
  {
  }

  lemma {:induction false} NoWake(g: Graph, s: State, links: seq<Link>)
    ensures Wake(g, s, links[..0]) == s
  {
  }

  lemma {:induction false} AssembleComplete(g: Graph, to: Graph, s: State, id: int, res: JobState, resumed: State, final: State)
    requires id in s.running && s.running[id] in s.run && s.running[id] in to
    requires var o := s.running[id];
             && resumed == (if res == Succeeded && s.run[o].op == Restart then TryLaunch(g, Ended(s, id, res), o)
                            else Ended(s, id, res))
             && final == Wake(g, resumed, to[o])
    ensures final == Complete(g, to, s, id, res)
  {
  }

  lemma {:induction false} WakeMore(g: Graph, s: State, links: seq<Link>, i: nat, objects: set<Obj>)
    requires i < |links| && s.ids.Keys == objects
    ensures var before := Wake(g, s, links[..i]);
            Wake(g, s, links[..i + 1])
            == if After in links[i].kinds && links[i].to in objects then TryLaunch(g, before, links[i].to) else before
  {
    assert links[..i + 1][..i] == links[..i];
    WakeKeepsJobs(g, s, links[..i]);
  }

  lemma NumberingKeeps(g: Graph, s: State, rest: set<Obj>, o: Obj, id: int)
    requires RunningSet(s) && NumbersDiffer(s) && NumberedBut(s, rest, id) && o in rest && id >= 0
    ensures s.ids[o] == -1
    ensures var t := s.(ids := s.ids[o := id]);
            && RunningSet(t) && NumbersDiffer(t) && NumberedBut(t, rest - {o}, id + 1)
            && t.run[o].state == Awaiting && Budget(t) == Budget(s)
  {
    NumberingKeepsRunningSet(s, o, id);
  }

  lemma NumberedNext(g: Graph, s: State, rest: set<Obj>, o: Obj, next: int)
    requires RunningSet(s) && NumbersDiffer(s) && NumberedBut(s, rest - {o}, next) && o in rest && o in s.run
    requires s.ids[o] != -1
    ensures var t := TryLaunch(g, s, o);
            && RunningSet(t) && NumbersDiffer(t) && NumberedBut(t, rest - {o}, next)
            && Budget(t) == Budget(s) && Ready(g, t.run) == Ready(g, s.run) - {o}
  {
    if Runnable(g, s.run, o) {
      LaunchUnreadies(g, s, o);
      LaunchKeepsRunningSet(s, o);
      LaunchKeepsBudget(s, o);
    }
  }
}
