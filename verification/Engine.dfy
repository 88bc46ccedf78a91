/** The job engine's view of a transaction: who waits for whom, who may run. */
module Engine {
  import opened Types

  datatype JobState = Awaiting | Running | Succeeded | Failed | TimedOut | Cancelled

  /** A job of the transaction as the engine runs it. */
  class Job {
    const obj: Obj
    var op: JobType
    var state: JobState
    var id: int
    /** Whether the timeout timer of the job is armed. */
    var armed: bool

    constructor (obj: Obj, op: JobType)
      ensures this.obj == obj && this.op == op && state == Awaiting && id == -1 && !armed
    {
      this.obj, this.op, state, id, armed := obj, op, Awaiting, -1, false;
    }
  }

  /** What the engine knows of a job: its current type and its state. */
  datatype Status = Status(op: JobType, state: JobState)

  /** The job of each object. */
  type Run = map<Obj, Status>

  ghost function StatusOf(jobs: map<Obj, Job>): Run
    reads jobs.Values
  {
    map o | o in jobs :: Status(jobs[o].op, jobs[o].state)
  }

  /**
    * How a job is ordered with respect to one on the other end of an After edge: 1 if that one goes first, -1 if it
    * is a stop or restart job, whose ordering is reversed.
    */
  function AfterOrder(other: JobType): int {
    if other == Stop || other == Restart then -1 else 1
  }

  /**
    * The job on `a` waits for the job on `b`: there is an After edge, and the type of the job on `b` is one
    * neither stop nor restart.
    */
  ghost predicate WaitsFor(g: Graph, r: Run, a: Obj, b: Obj) {
    a in r && b in r && Follows(g, a, b) && r[b].op != Stop && r[b].op != Restart
  }

  ghost predicate Runnable(g: Graph, r: Run, o: Obj) {
    && o in r && r[o].state == Awaiting
    && forall b :: WaitsFor(g, r, o, b) ==> r[b].state == Succeeded
  }

  ghost function Ready(g: Graph, r: Run): set<Obj> {
    set o | o in r && Runnable(g, r, o)
  }

  ghost function Waiting(r: Run): set<Obj> {
    set o | o in r && r[o].state == Awaiting
  }

  /** The edges to an object list its followers: they mirror the edges from objects. */
  ghost predicate Mirrored(edges: Graph, edgesTo: Graph) {
    forall a, b :: Follows(edges, a, b) <==> Follows(edgesTo, b, a)
  }

  /** A success lets run, at most, jobs that wait for the job. */
  lemma SuccessReleases(g: Graph, r: Run, o: Obj)
    requires o in r
    ensures var after := r[o := Status(r[o].op, Succeeded)];
            && o !in Ready(g, after)
            && forall x :: x in Ready(g, after) ==> x in Ready(g, r) || (x != o && Follows(g, x, o))
  {
    var after := r[o := Status(r[o].op, Succeeded)];
    forall x | x in Ready(g, after) && x !in Ready(g, r)
      ensures x != o && Follows(g, x, o)
    {
      var b :| WaitsFor(g, r, x, b) && r[b].state != Succeeded;
      assert WaitsFor(g, after, x, b);
    }
  }

  /** Any other change of state lets nobody else run. */
  lemma OtherChangeReleasesNobody(g: Graph, r: Run, o: Obj, state: JobState)
    requires o in r && r[o].state != Succeeded && state != Succeeded
    ensures var after := r[o := Status(r[o].op, state)];
            forall x :: x in Ready(g, after) ==> x in Ready(g, r) || x == o
  {
    var after := r[o := Status(r[o].op, state)];
    forall x | x in Ready(g, after) && x != o
      ensures x in Ready(g, r)
    {
      forall b | WaitsFor(g, r, x, b)
        ensures r[b].state == Succeeded
      {
        assert WaitsFor(g, after, x, b);
      }
    }
  }

  /** A restart job that becomes an awaiting start job lets nobody else run: it may now be waited for. */
  lemma ConversionReleasesNobody(g: Graph, r: Run, o: Obj)
    requires o in r && r[o].op == Restart && r[o].state != Succeeded
    ensures var after := r[o := Status(Start, Awaiting)];
            forall x :: x in Ready(g, after) ==> x in Ready(g, r) || x == o
  {
    var after := r[o := Status(Start, Awaiting)];
    forall x | x in Ready(g, after) && x != o
      ensures x in Ready(g, r)
    {
      forall b | WaitsFor(g, r, x, b)
        ensures r[b].state == Succeeded
      {
        assert WaitsFor(g, after, x, b);
      }
    }
  }

  /** Whether the job may run: it is awaiting, and no job it must wait for is yet to succeed. */
  method JobRunnable(edges: Graph, jobs: map<Obj, Job>, job: Job) returns (runnable: bool)
    requires job.obj in jobs && jobs[job.obj] == job && job.obj in edges
    ensures runnable <==> Runnable(edges, StatusOf(jobs), job.obj)
    ensures runnable <==>
              && job.state == Awaiting
              && forall b :: Follows(edges, job.obj, b) && b in jobs ==>
                   jobs[b].op == Stop || jobs[b].op == Restart || jobs[b].state == Succeeded
  {
    if job.state != Awaiting {
      return false;
    }
    var o := job.obj;
    for i := 0 to |edges[o]|
      invariant forall k :: 0 <= k < i && After in edges[o][k].kinds && edges[o][k].to in jobs ==>
                  (AfterOrder(jobs[edges[o][k].to].op) == 1 ==> jobs[edges[o][k].to].state == Succeeded)
    {
      var dep := edges[o][i];
      if After in dep.kinds && dep.to in jobs && AfterOrder(jobs[dep.to].op) == 1 {
        if jobs[dep.to].state != Succeeded {
          assert Follows(edges, o, dep.to);
          assert WaitsFor(edges, StatusOf(jobs), o, dep.to);
          return false;
        }
      }
    }
    return true;
  }
}
