/** From an operation on an object to the run of its transaction: the generator and the engine together. */
module Enqueue {
  import opened Types
  import opened Jobs
  import opened Walks
  import opened Ordering
  import opened Plans
  import opened OneWayRound
  import opened Construction
  import opened MergeTheorems
  import opened GoalFlags
  import opened Cascading
  import opened Documented
  import opened DocumentedConstruction
  import opened TransactionGenerator
  import opened Engine
  import opened SyncEngine
  import AsyncEngine
  import DocumentedGenerator
  import Submission
  import JobSubmit
  import opened Turns

  /** The job the engine runs for each object that has one: the first of its list. */
  function FirstJobs(lists: Lists): map<Obj, JobType> {
    map o | o in lists && lists[o] != [] :: lists[o][0]
  }

  lemma FirstOfEach(lists: Lists)
    ensures FirstJobs(lists).Keys == Working(lists)
  {
  }

  /** The same, each with the type that merging has stored. */
  function StoredJobs(lists: Lists, types: Kinds): map<Obj, JobType>
    requires forall o :: o in lists && lists[o] != [] ==> Key(o, lists[o][0]) in types
  {
    map o | o in lists && lists[o] != [] :: types[Key(o, lists[o][0])]
  }

  /** A transaction whose After graph is acyclic has no waits that run in a circle, whatever the types of its jobs. */
  lemma AcyclicTransactionRuns(g: Graph, lists: Lists, first: map<Obj, JobType>)
    requires Acyclic(AfterGraph(g, lists)) && first.Keys == Working(lists)
    ensures Acyclic(WaitGraph(g, first))
  {
    forall a, b | Step(WaitGraph(g, first), a, b)
      ensures Step(AfterGraph(g, lists), a, b)
    {
      WaitStep(g, first, a, b);
      AfterStep(g, lists, a, b);
    }
    FewerStepsStayAcyclic(WaitGraph(g, first), AfterGraph(g, lists));
  }

  /** Nor, whatever types its jobs come to have, does it keep the engine from settling. */
  lemma AcyclicTransactionSettles(g: Graph, lists: Lists, s: AsyncEngine.State)
    requires Acyclic(AfterGraph(g, lists)) && s.run.Keys == Working(lists)
    requires AsyncEngine.Invariant(g, s) && s.running == map[]
    ensures forall o :: o in s.run ==>
              s.run[o].state == Succeeded || AsyncEngine.Bad(s.run[o].state) || AsyncEngine.Blocked(g, s.run, o)
  {
    AsyncEngine.QuietMeansSettled(g, s);
  }

  /** A job of each of these types. */
  method MakeJobs(first: map<Obj, JobType>) returns (jobs: map<Obj, Job>)
    ensures jobs.Keys == first.Keys
    ensures forall o :: o in jobs ==>
              fresh(jobs[o]) && jobs[o].obj == o && jobs[o].op == first[o] && jobs[o].state == Awaiting
              && jobs[o].id == -1 && !jobs[o].armed
  {
    jobs := map[];
    var rest := first.Keys;
    while rest != {}
      invariant rest <= first.Keys && jobs.Keys == first.Keys - rest
      invariant forall o :: o in jobs ==>
                  fresh(jobs[o]) && jobs[o].obj == o && jobs[o].op == first[o] && jobs[o].state == Awaiting
                  && jobs[o].id == -1 && !jobs[o].armed
      decreases rest
    {
      var o :| o in rest;
      rest := rest - {o};
      var job := new Job(o, first[o]);
      jobs := jobs[o := job];
    }
  }

  /** Run the jobs of the transaction until none may run. */
  method RunJobs(edges: Graph, edgesTo: Graph, first: map<Obj, JobType>) returns (s: Scheduler)
    requires first.Keys <= edges.Keys && edges.Keys == edgesTo.Keys && Mirrored(edges, edgesTo)
    ensures s.running == map[] && s.jobs.Keys == first.Keys
    ensures (forall o :: o in s.jobs ==> s.jobs[o].state == Succeeded) <==> Acyclic(WaitGraph(edges, first))
    ensures forall o :: o in s.jobs && s.jobs[o].state == Succeeded ==>
              StartsOf(s.log, o) == if first[o] == Restart then [Restart, JobType.Start] else [first[o]]
    ensures forall i :: 0 <= i < |s.log| ==> InOrder(edges, s.log[i]) && s.log[i].at.Keys == s.jobs.Keys
    ensures forall i, b :: 0 <= i < |s.log| && Follows(edges, s.log[i].obj, b) && b in s.log[i].at ==>
              s.log[i].at[b].op == Stop || s.log[i].at[b].op == Restart || s.log[i].at[b].state == Succeeded
    ensures forall i :: 0 <= i < |s.log| ==> AfterOthers(edges, first, s.log, i)
  {
    hide Mirrored, InOrder, AfterOthers, StartsOf, Acyclic, WaitGraph, Scheduler.Valid;
    var jobs := MakeJobs(first);
    s := new Scheduler(edges, edgesTo, jobs);
    assert s.first == first;
    s.TxEnqueue();
    OrderSpelledOut(edges, s.log);
  }

  /** Run the transaction with these lists, of at most one job each. */
  method RunFirst(edges: Graph, edgesTo: Graph, lists: Lists) returns (s: Scheduler)
    requires lists.Keys <= edges.Keys && edges.Keys == edgesTo.Keys && Mirrored(edges, edgesTo)
    requires forall o :: o in lists && lists[o] != [] ==> lists[o] == [lists[o][0]]
    ensures forall o :: o in s.jobs <==> o in lists && lists[o] != []
    ensures (forall o :: o in s.jobs ==> s.jobs[o].state == Succeeded) <==> Acyclic(WaitGraph(edges, FirstJobs(lists)))
    ensures forall o :: o in s.jobs && s.jobs[o].state == Succeeded ==>
              StartsOf(s.log, o) == if lists[o] == [Restart] then [Restart, JobType.Start] else lists[o]
    ensures forall i :: 0 <= i < |s.log| ==> InOrder(edges, s.log[i]) && s.log[i].at.Keys == s.jobs.Keys
    ensures forall i, b :: 0 <= i < |s.log| && Follows(edges, s.log[i].obj, b) && b in s.log[i].at ==>
              s.log[i].at[b].op == Stop || s.log[i].at[b].op == Restart || s.log[i].at[b].state == Succeeded
    ensures forall i :: 0 <= i < |s.log| ==> AfterOthers(edges, FirstJobs(lists), s.log, i)
  {
    hide Mirrored, InOrder, StartsOf, Acyclic, WaitGraph, Scheduler.Valid, Follows, AfterOthers;
    s := RunJobs(edges, edgesTo, FirstJobs(lists));
  }

  /** Run the transaction with these lists, of at most one job each, which merging has given these types. */
  method RunStored(edges: Graph, edgesTo: Graph, lists: Lists, types: Kinds) returns (s: Scheduler)
    requires lists.Keys <= edges.Keys && edges.Keys == edgesTo.Keys && Mirrored(edges, edgesTo)
    requires forall o :: o in lists && lists[o] != [] ==> Key(o, lists[o][0]) in types
    requires Acyclic(WaitGraph(edges, StoredJobs(lists, types)))
    ensures forall o :: o in s.jobs <==> o in lists && lists[o] != []
    ensures forall o :: o in s.jobs ==> s.jobs[o].state == Succeeded
    ensures forall o :: o in s.jobs ==>
              StartsOf(s.log, o) == if types[Key(o, lists[o][0])] == Restart then [Restart, JobType.Start]
                                    else [types[Key(o, lists[o][0])]]
    ensures forall i :: 0 <= i < |s.log| ==> InOrder(edges, s.log[i]) && s.log[i].at.Keys == s.jobs.Keys
    ensures forall i, b :: 0 <= i < |s.log| && Follows(edges, s.log[i].obj, b) && b in s.log[i].at ==>
              s.log[i].at[b].op == Stop || s.log[i].at[b].op == Restart || s.log[i].at[b].state == Succeeded
    ensures forall i :: 0 <= i < |s.log| ==> AfterOthers(edges, StoredJobs(lists, types), s.log, i)
  {
    hide Mirrored, InOrder, StartsOf, Acyclic, WaitGraph, Scheduler.Valid, Follows, AfterOthers;
    s := RunJobs(edges, edgesTo, StoredJobs(lists, types));
  }

  /** The log entry says that each job on an object it follows had succeeded or was a stop or restart job. */
  lemma OrderSpelledOut(g: Graph, log: seq<Event>)
    requires forall i :: 0 <= i < |log| ==> InOrder(g, log[i])
    ensures forall i, b :: 0 <= i < |log| && Follows(g, log[i].obj, b) && b in log[i].at ==>
              log[i].at[b].op == Stop || log[i].at[b].op == Restart || log[i].at[b].state == Succeeded
  {
  }

  /** The job left on the goal's object has the merged type of the jobs merged there, the goal's among them. */
  ghost predicate GoalServed(goal: Key, submitted: Submission.Snap, f: Image, lists: Lists, types: Kinds)
    requires forall o :: o in lists && lists[o] != [] ==> Key(o, lists[o][0]) in types
  {
    && goal.obj in submitted.jobs && goal.obj in lists && lists[goal.obj] != []
    && goal.op in Live(PlanOf(submitted, goal), goal.obj, f)
    && types[Key(goal.obj, lists[goal.obj][0])] == MergedAlong(Live(PlanOf(submitted, goal), goal.obj, f))
  }

  lemma ConstructedServesGoal(g: Graph, goal: Key, s: Submission.Snap, p: Plan, f: Image, types: Kinds)
    requires Constructed(g, goal, s, p, f, types)
    ensures forall o :: o in p.jobs && p.jobs[o] != [] ==> Key(o, p.jobs[o][0]) in types
    ensures StoredJobs(p.jobs, types).Keys == Working(p.jobs)
    ensures forall o :: o in p.jobs ==> |p.jobs[o]| <= 1
    ensures GoalServed(goal, s, f, p.jobs, types)
    ensures Acyclic(AfterGraph(g, p.jobs))
  {
    assert WholeGroup(PlanOf(s, goal), p, f, types, goal.obj);
    assert goal in f && goal in Keys(s.jobs);
    OnlyElements(s.jobs[goal.obj], goal.obj, f.Keys);
    hide Acyclic, AfterGraph, FlagsExact, GoalBitsExact;
  }

  /**
    * The documented behaviour from end to end.  It fails exactly when the goal requires an ordering cycle, or with
    * a contradiction; else there is a transaction in which the goal's operation is served, and every job of it is
    * run, in order, to success.
    */
  method TxEnqueueDocumented(edges: Graph, edgesTo: Graph, goal: Key)
    returns (r: Outcome, tx: Transaction, s: Scheduler?, types: Kinds, ghost submitted: Submission.Snap, ghost f: Image)
    requires Closed(edges) && edges.Keys == edgesTo.Keys && Mirrored(edges, edgesTo) && goal.obj in edges
    ensures tx.Valid() && tx.graph == edges
    ensures submitted == JobSubmit.Submit(edges, NOTHING, goal, true)
    ensures r.Accepted? <==> s != null
    ensures r.Accepted? ==> forall o :: o in tx.jobs && tx.jobs[o] != [] ==> Key(o, tx.jobs[o][0]) in types
    ensures r.Accepted? ==> forall o :: o in s.jobs <==> o in tx.jobs && tx.jobs[o] != []
    ensures r.Accepted? ==> forall o :: o in s.jobs ==>
              && s.jobs[o].state == Succeeded && o in tx.jobs && |tx.jobs[o]| == 1 && Key(o, tx.jobs[o][0]) in types
              && StartsOf(s.log, o) == if types[Key(o, tx.jobs[o][0])] == Restart then [Restart, JobType.Start]
                                       else [types[Key(o, tx.jobs[o][0])]]
    ensures r.Accepted? ==> forall i :: 0 <= i < |s.log| ==> InOrder(edges, s.log[i]) && s.log[i].at.Keys == s.jobs.Keys
    ensures r.Accepted? ==> forall i, b :: 0 <= i < |s.log| && Follows(edges, s.log[i].obj, b) && b in s.log[i].at ==>
              s.log[i].at[b].op == Stop || s.log[i].at[b].op == Restart || s.log[i].at[b].state == Succeeded
    ensures r.Accepted? ==> forall i :: 0 <= i < |s.log| ==> AfterOthers(edges, StoredJobs(tx.jobs, types), s.log, i)
    ensures r.Accepted? ==> GoalServed(goal, submitted, f, tx.jobs, types)
    ensures r.Accepted? ==> Constructed(edges, goal, submitted, tx.AsPlan(), f, types)
    ensures r.Accepted? ==> DocumentedGenerator.CameAbout(edges, goal, submitted, Making(tx.AsPlan(), f, types))
    ensures DocumentedGenerator.Untroubled(edges, submitted.jobs) ==>
              && r.Accepted? && f.Keys == Keys(submitted.jobs)
              && forall o :: o in submitted.jobs ==> o in tx.jobs && |tx.jobs[o]| == 1
    ensures r.Accepted? ==> forall o :: !GoalContradicts(edges, goal, o)
    ensures r.Cyclic? <==> !GoalOrdered(edges, goal)
    ensures r.Unmergeable? ==> exists o :: DocumentedGenerator.MergeContradicts(edges, goal, o)
  {
    hide Mirrored, InOrder, StartsOf, Acyclic, WaitGraph, Scheduler.Valid, Follows, StoredJobs, GoalContradicts,
      GoalOrdered, DocumentedGenerator.MergeContradicts, Constructed, GoalServed, JobSubmit.Submit, AfterOthers,
      DocumentedGenerator.CameAbout, DocumentedGenerator.Untroubled;
    tx := new Transaction(edges, goal);
    r, types, submitted, f := DocumentedGenerator.Generate(tx);
    s := null;
    if r.Accepted? {
      ConstructedServesGoal(edges, goal, submitted, tx.AsPlan(), f, types);
      AcyclicTransactionRuns(edges, tx.jobs, StoredJobs(tx.jobs, types));
      s := RunStored(edges, edgesTo, tx.jobs, types);
    }
  }

  /** The only job of an object is its first. */
  lemma OnlyJobs(g: Graph, goal: Key, p: Plan)
    requires InGoodOrder(g, goal, p)
    ensures forall o :: o in p.jobs && p.jobs[o] != [] ==> p.jobs[o] == [p.jobs[o][0]]
  {
    hide Reaches;
  }

  /**
    * As the code does it: the jobs are all run to success exactly when the pass left no waits in a circle, and are if,
    * as submitted, every object on an ordering cycle had only one After edge leading to a cycle.
    */
  method TxEnqueue(edges: Graph, edgesTo: Graph, goal: Key) returns (r: Outcome, tx: Transaction, s: Scheduler?)
    requires Closed(edges) && edges.Keys == edgesTo.Keys && Mirrored(edges, edgesTo) && goal.obj in edges
    ensures tx.Valid() && tx.graph == edges
    ensures r.Accepted? <==> s != null
    ensures r.Accepted? ==> InGoodOrder(edges, goal, tx.AsPlan())
    ensures r.Accepted? ==> forall o :: o in s.jobs <==> o in tx.jobs && tx.jobs[o] != []
    ensures r.Accepted? && OneWay(AfterGraph(edges, JobSubmit.Submit(edges, NOTHING, goal, true).jobs)) ==>
              forall o :: o in s.jobs ==> s.jobs[o].state == Succeeded
    ensures r.Accepted? ==>
              ((forall o :: o in s.jobs ==> s.jobs[o].state == Succeeded) <==> Acyclic(WaitGraph(edges, FirstJobs(tx.jobs))))
    ensures r.Accepted? ==> forall o :: o in s.jobs && s.jobs[o].state == Succeeded ==>
              StartsOf(s.log, o) == if tx.jobs[o] == [Restart] then [Restart, JobType.Start] else tx.jobs[o]
    ensures r.Accepted? ==> forall i :: 0 <= i < |s.log| ==> InOrder(edges, s.log[i]) && s.log[i].at.Keys == s.jobs.Keys
    ensures r.Accepted? ==> forall i, b :: 0 <= i < |s.log| && Follows(edges, s.log[i].obj, b) && b in s.log[i].at ==>
              s.log[i].at[b].op == Stop || s.log[i].at[b].op == Restart || s.log[i].at[b].state == Succeeded
    ensures r.Accepted? ==> forall i :: 0 <= i < |s.log| ==> AfterOthers(edges, FirstJobs(tx.jobs), s.log, i)
    ensures r.Cyclic? ==> EssentialCycle(edges, tx.AsPlan())
    ensures r.Unmergeable? ==> exists o :: GoalContradicts(edges, goal, o)
  {
    hide Mirrored, InOrder, StartsOf, Acyclic, WaitGraph, AfterGraph, Scheduler.Valid, Follows, FirstJobs,
      EssentialCycle, GoalContradicts, InGoodOrder, OneWay, AfterOthers, JobSubmit.Submit;
    tx := new Transaction(edges, goal);
    ghost var submitted, order, pruned;
    r, submitted, order, pruned := tx.Generate();
    s := null;
    if r.Accepted? {
      if OneWay(AfterGraph(edges, submitted.jobs)) {
        FirstOfEach(tx.jobs);
        AcyclicTransactionRuns(edges, tx.jobs, FirstJobs(tx.jobs));
      }
      OnlyJobs(edges, goal, tx.AsPlan());
      s := RunFirst(edges, edgesTo, tx.jobs);
    }
  }
}
