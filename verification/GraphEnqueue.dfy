/** An operation on an object of the graph as edges and loads have built it, from the graph to the run. */
module GraphEnqueue {
  import opened Types
  import opened Jobs
  import opened Engine
  import opened Outline
  import ObjectGraph
  import LoadOrder
  import SyncEngine
  import TransactionGenerator
  import Documented
  import DocumentedConstruction
  import Enqueue
  import Submission

  /**
    * When the job started, it was awaiting, and for every After edge declared from a name of its object to a name of
    * an object with a job, that job had succeeded or was a stop or restart job.
    */
  ghost predicate InDeclaredOrder(g: ObjectGraph.State, e: SyncEngine.Event)
    requires ObjectGraph.Wellformed(g)
  {
    && e.obj in e.at && e.at[e.obj] == Status(e.op, Awaiting)
    && forall d, b :: d in g.declared && Joins(g, d, true, e.obj, b) && b in e.at ==>
                        e.at[b].op == Stop || e.at[b].op == Restart || e.at[b].state == Succeeded
  }

  lemma OrderIsDeclared(g: ObjectGraph.State, e: SyncEngine.Event)
    requires ObjectGraph.Wellformed(g)
    ensures SyncEngine.InOrder(OutlineOf(g, true), e) <==> InDeclaredOrder(g, e)
  {
    forall b
      ensures Follows(OutlineOf(g, true), e.obj, b) <==> exists d :: d in g.declared && Joins(g, d, true, e.obj, b)
    {
      FollowsIsDeclared(g, true, e.obj, b);
    }
    hide ObjectGraph.Wellformed, OutlineOf, Joins, Follows;
    if SyncEngine.InOrder(OutlineOf(g, true), e) {
      forall d, b | d in g.declared && Joins(g, d, true, e.obj, b) && b in e.at
        ensures e.at[b].op == Stop || e.at[b].op == Restart || e.at[b].state == Succeeded
      {
        assert Follows(OutlineOf(g, true), e.obj, b);
      }
    }
  }

  lemma DeclaredOrderSpelledOut(g: ObjectGraph.State, log: seq<SyncEngine.Event>)
    requires ObjectGraph.Wellformed(g) && forall i :: 0 <= i < |log| ==> InDeclaredOrder(g, log[i])
    ensures forall i, d, b :: 0 <= i < |log| && d in g.declared && Joins(g, d, true, log[i].obj, b) && b in log[i].at ==>
              log[i].at[b].op == Stop || log[i].at[b].op == Restart || log[i].at[b].state == Succeeded
  {
    hide ObjectGraph.Wellformed, Joins;
  }

  /** Whatever edges were added and objects loaded, with care, the graph is one to enqueue transactions on. */
  lemma {:induction false} ChangedGraphIsFit(g: ObjectGraph.State, cs: seq<LoadOrder.Change>, o: Obj)
    requires ObjectGraph.Wellformed(g) && LoadOrder.Named(cs) && LoadOrder.Careful(g, cs)
    ensures ObjectGraph.Wellformed(LoadOrder.Changed(g, cs))
    ensures var h := LoadOrder.Changed(g, cs);
            && Closed(OutlineOf(h, true)) && OutlineOf(h, true).Keys == OutlineOf(h, false).Keys
            && Mirrored(OutlineOf(h, true), OutlineOf(h, false))
            && (o in Mains(h) <==> o in OutlineOf(h, true))
  {
    LoadOrder.ChangesKeep(g, cs);
    OutlineIsFit(LoadOrder.Changed(g, cs));
    hide ObjectGraph.Wellformed, OutlineOf, Mains, Closed, Mirrored;
  }

  /** The documented behaviour on such a graph: the run is in order as the edges were declared. */
  method TxEnqueueOnGraph(ghost g: ObjectGraph.State, edges: Graph, edgesTo: Graph, goal: Key)
    returns (r: TransactionGenerator.Outcome, tx: TransactionGenerator.Transaction, s: SyncEngine.Scheduler?,
             types: Documented.Kinds, ghost submitted: Submission.Snap, ghost f: Image)
    requires ObjectGraph.Wellformed(g) && goal.obj in Mains(g)
    requires edges == OutlineOf(g, true) && edgesTo == OutlineOf(g, false)
    ensures r.Accepted? <==> s != null
    ensures r.Accepted? ==> forall o :: o in tx.jobs && tx.jobs[o] != [] ==> Key(o, tx.jobs[o][0]) in types
    ensures r.Accepted? ==> Enqueue.GoalServed(goal, submitted, f, tx.jobs, types)
    ensures r.Accepted? ==> forall o :: o in s.jobs <==> o in tx.jobs && tx.jobs[o] != []
    ensures r.Accepted? ==> forall o :: o in s.jobs ==> s.jobs[o].state == Succeeded && |tx.jobs[o]| == 1
    ensures r.Accepted? ==> forall o :: o in s.jobs ==>
              SyncEngine.StartsOf(s.log, o) == if types[Key(o, tx.jobs[o][0])] == Restart then [Restart, Start]
                                               else [types[Key(o, tx.jobs[o][0])]]
    ensures r.Accepted? ==> forall i :: 0 <= i < |s.log| ==> InDeclaredOrder(g, s.log[i]) && s.log[i].at.Keys == s.jobs.Keys
    ensures r.Accepted? ==> forall i, d, b ::
              0 <= i < |s.log| && d in g.declared && Joins(g, d, true, s.log[i].obj, b) && b in s.log[i].at ==>
                s.log[i].at[b].op == Stop || s.log[i].at[b].op == Restart || s.log[i].at[b].state == Succeeded
    ensures r.Cyclic? <==> !DocumentedConstruction.GoalOrdered(edges, goal)
  {
    OutlineIsFit(g);
    hide ObjectGraph.Wellformed, OutlineOf, Mains, Closed, Mirrored, InDeclaredOrder, SyncEngine.InOrder, SyncEngine.StartsOf,
      SyncEngine.AfterOthers, Enqueue.GoalServed, DocumentedConstruction.GoalOrdered, DocumentedConstruction.Constructed;
    r, tx, s, types, submitted, f := Enqueue.TxEnqueueDocumented(edges, edgesTo, goal);
    if r.Accepted? {
      forall i | 0 <= i < |s.log|
        ensures InDeclaredOrder(g, s.log[i])
      {
        OrderIsDeclared(g, s.log[i]);
      }
      DeclaredOrderSpelledOut(g, s.log);
    }
  }
}
