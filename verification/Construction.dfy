/** What an accepted transaction is, all phases taken together. */
module Construction {
  import opened Types
  import opened Jobs
  import opened Walks
  import opened Closure
  import opened Submission
  import opened Ordering
  import opened Plans
  import opened OneWayRound
  import opened Cascade
  import opened Merging
  import opened MergeTheorems
  import opened GoalFlags

  /** The goal requires some job on `o`. */
  ghost predicate RequiredOn(g: Graph, goal: Key, o: Obj) {
    exists t :: Reaches(Requires(g), goal, Key(o, t))
  }

  /**
    * At most one job per object; the goal's object keeps one and it is flagged; the goal asks for every job, and
    * requires one on the object of every flagged job; requirements connect jobs that are there.
    */
  ghost predicate InGoodOrder(g: Graph, goal: Key, p: Plan) {
    && (forall o :: o in p.jobs ==> |p.jobs[o]| <= 1)
    && goal.obj in p.jobs && p.jobs[goal.obj] != [] && Key(goal.obj, p.jobs[goal.obj][0]) in p.flagged
    && (forall k :: k in Keys(p.jobs) ==> Reaches(AsksFor(g), goal, k))
    && (forall k :: k in p.flagged ==> RequiredOn(g, goal, k.obj))
    && (forall id :: id in p.req ==> p.req[id].from in Keys(p.jobs) && p.req[id].to in Keys(p.jobs))
  }

  /** A job on `o` that stops it and another that does not are both required by the goal. */
  ghost predicate GoalContradicts(g: Graph, goal: Key, o: Obj) {
    Reaches(Requires(g), goal, Key(o, Stop)) && exists t :: t != Stop && Reaches(Requires(g), goal, Key(o, t))
  }

  /** The phases from submission to merging, with a pruning in between. */
  ghost predicate Phases(g: Graph, goal: Key, s: Plan, q: Plan, p: Plan) {
    && WellFormed(g, s) && WellFormed(g, q) && FlagsBacked(s)
    && s.objective == goal
    && (forall k :: k in Keys(s.jobs) ==> Reaches(AsksFor(g), goal, k))
    && (forall k :: k in s.flagged ==> Reaches(Requires(g), goal, k))
    && Pruned(s, q)
    && (forall o :: o in q.jobs ==> !Conflicting(q, o))
    && p == Merged(q, q.jobs.Keys)
  }

  lemma MergeableFromWellFormed(g: Graph, q: Plan)
    requires WellFormed(g, q)
    ensures Mergeable(q)
  {
  }

  /** Every transaction that passes all phases is in good order. */
  lemma PhasesGiveGoodOrder(g: Graph, goal: Key, s: Plan, q: Plan, p: Plan)
    requires Phases(g, goal, s, q, p)
    ensures InGoodOrder(g, goal, p)
    ensures AfterGraph(g, p.jobs) == AfterGraph(g, q.jobs)
  {
    MergeableFromWellFormed(g, q);
    PrunedKeys(s, q);
    var f := MergeImage(q, q.jobs.Keys);
    forall o | o in p.jobs
      ensures |p.jobs[o]| <= 1
    {
      OneJobLeft(q, o);
    }
    assert goal in q.flagged && goal in Keys(q.jobs);
    OneJobLeft(q, goal.obj);
    forall k | k in Keys(p.jobs)
      ensures k in Keys(q.jobs)
    {
      SurvivorIsKept(q, k.obj);
    }
    forall k | k in p.flagged
      ensures RequiredOn(g, goal, k.obj)
    {
      var j :| j in q.flagged && j in f && f[j] == k;
      assert Reaches(Requires(g), goal, Key(j.obj, j.op));
    }
    MergedIsMergeable(q, q.jobs.Keys);
    MergingKeepsAfterGraph(g, q);
  }

  /**
    * As the code deletes, every job that is left still has all it requires exactly when the jobs that were deleted,
    * in pruning and merging, are all that the documentation would have deleted with them.
    */
  lemma NeedsAreMetIff(g: Graph, goal: Key, s: Plan, q: Plan, p: Plan)
    requires Phases(g, goal, s, q, p)
    ensures var left := MergeImage(q, q.jobs.Keys).Keys;
            && left <= Keys(s.jobs)
            && (Upward(s, Keys(s.jobs) - left) == Keys(s.jobs) - left <==>
                forall id :: id in s.req && s.req[id].required && s.req[id].from in left ==> id in p.req)
  {
    PrunedKeys(s, q);
    var f := MergeImage(q, q.jobs.Keys);
    CodeMeetsCascadeIff(g, s, Keys(s.jobs) - f.Keys);
    forall id | id in s.req
      ensures id in p.req <==> s.req[id].from in f && s.req[id].to in f
    {
      RequirementLeft(g, goal, s, q, p, id);
    }
    hide MergeImage, Merged, Upward, Pruned;
  }

  lemma RequirementLeft(g: Graph, goal: Key, s: Plan, q: Plan, p: Plan, id: ReqId)
    requires Phases(g, goal, s, q, p) && id in s.req
    ensures var f := MergeImage(q, q.jobs.Keys);
            id in p.req <==> s.req[id].from in f && s.req[id].to in f
  {
    var f := MergeImage(q, q.jobs.Keys);
    assert id in q.req <==> Survives(s.req[id], Keeping(Keys(q.jobs)));
    assert id in p.req <==> id in q.req && Survives(q.req[id], f);
  }

  /** Where flags were passed on, no flagged job loses what it requires. */
  lemma FlaggedNeedsAreMet(g: Graph, goal: Key, s: Plan, q: Plan, p: Plan)
    requires Phases(g, goal, s, q, p) && FlagsPropagated(s)
    ensures forall id :: id in s.req && s.req[id].required && s.req[id].from in s.flagged ==> id in p.req
  {
    MergeableFromWellFormed(g, q);
    forall id | id in s.req && s.req[id].required && s.req[id].from in s.flagged
      ensures id in p.req
    {
      FlaggedIsKept(q, s.req[id].from);
      FlaggedIsKept(q, s.req[id].to);
      RequirementLeft(g, goal, s, q, p, id);
    }
  }

  /** An unmergeable transaction has a goal that requires an object to be stopped and not stopped. */
  lemma ConflictIsContradiction(g: Graph, goal: Key, q: Plan, o: Obj)
    requires forall k :: k in q.flagged ==> Reaches(Requires(g), goal, k)
    requires Conflicting(q, o)
    ensures GoalContradicts(g, goal, o)
  {
  }

  /** A transaction as the code makes it, with a single pass of `verify_acyclic` in the order `order`. */
  ghost predicate AsCoded(g: Graph, goal: Key, s: Snap, order: seq<Obj>, q: Plan, p: Plan) {
    && Closed(g) && Generated(g, s, goal)
    && (forall o :: o in order <==> o in s.jobs)
    && Pass(g, PlanOf(s, goal), order) == (true, q)
    && (forall o :: o in q.jobs ==> !Conflicting(q, o))
    && p == Merged(q, q.jobs.Keys)
  }

  /** The objects from which the pass over `p` found a cycle lead to none in what it left. */
  ghost predicate RecheckIdle(g: Graph, p: Plan, left: Plan, order: seq<Obj>)
    requires Closed(g) && forall o :: o in order ==> o in g
  {
    forall o :: o in Hits(g, p, order) && HasJob(left.jobs, o) ==> Search(g, left.jobs, o, []).None?
  }

  lemma AsCodedPhases(g: Graph, goal: Key, s: Snap, order: seq<Obj>, q: Plan, p: Plan)
    requires AsCoded(g, goal, s, order, q, p)
    ensures Phases(g, goal, PlanOf(s, goal), q, p) && FlagsBacked(q)
  {
    GeneratedWellFormed(g, s, goal);
    GeneratedFlagsSound(g, s, goal);
    PassPrunes(g, PlanOf(s, goal), order);
  }

  /**
    * Whatever the code accepts is in good order; and its After graph is acyclic if, as submitted, every object on a
    * cycle had only one After edge leading to a cycle, and exactly when searching once more from the objects that
    * led to a removal finds nothing.
    */
  lemma AcceptedByTheCode(g: Graph, goal: Key, s: Snap, order: seq<Obj>, q: Plan, p: Plan)
    requires AsCoded(g, goal, s, order, q, p)
    ensures InGoodOrder(g, goal, p)
    ensures OneWay(AfterGraph(g, s.jobs)) ==> Acyclic(AfterGraph(g, p.jobs))
    ensures EssentialCycle(g, PlanOf(s, goal)) ==> !Acyclic(AfterGraph(g, p.jobs))
    ensures Acyclic(AfterGraph(g, p.jobs)) <==> RecheckIdle(g, PlanOf(s, goal), q, order)
  {
    AsCodedPhases(g, goal, s, order, q, p);
    PhasesGiveGoodOrder(g, goal, PlanOf(s, goal), q, p);
    AsCodedRecheck(g, goal, s, order, q, p);
    hide *;
  }

  lemma AsCodedRecheck(g: Graph, goal: Key, s: Snap, order: seq<Obj>, q: Plan, p: Plan)
    requires AsCoded(g, goal, s, order, q, p)
    ensures forall o :: o in order ==> o in g
    ensures OneWay(AfterGraph(g, s.jobs)) ==> Acyclic(AfterGraph(g, q.jobs))
    ensures EssentialCycle(g, PlanOf(s, goal)) ==> !Acyclic(AfterGraph(g, q.jobs))
    ensures Acyclic(AfterGraph(g, q.jobs)) <==> RecheckIdle(g, PlanOf(s, goal), q, order)
  {
    hide Generated, Merged, Conflicting, Acyclic, FlagsBacked, Hits, Pass, Search, Keys, FlagsSound, OneWay, Pruned, EssentialCycle;
    GeneratedWellFormed(g, s, goal);
    GeneratedFlagsSound(g, s, goal);
    PassLeavesAcyclicIff(g, PlanOf(s, goal), order);
    PassPrunes(g, PlanOf(s, goal), order);
    PrunedSameEssentialCycles(g, PlanOf(s, goal), q);
    if OneWay(AfterGraph(g, s.jobs)) {
      OnePassIsEnoughIf(g, PlanOf(s, goal), order);
    }
  }

  /** Jobs needed by the goal are required by it. */
  lemma NeededIsRequired(g: Graph, goal: Key, s: Snap, p: Plan)
    requires Closed(g) && Generated(g, s, goal) && OnlyFlagged(PlanOf(s, goal), p) && FlagsSound(p, goal)
    ensures forall k :: k in p.flagged ==> Reaches(Requires(g), goal, k)
  {
    SameNeeds(PlanOf(s, goal), p);
    forall k | k in p.flagged
      ensures Reaches(Requires(g), goal, k)
    {
      var w :| WalkFromTo(Needs(p), w, goal, k);
      forall a, b | a in Keys(s.jobs) && Step(Needs(p), a, b)
        ensures b in Keys(s.jobs) && Step(Requires(g), a, b)
      {
        NeedsAreRequiredEdges(g, s, goal, a, b);
        RequiredStepIsNeed(g, s, goal, a, b);
      }
      WalkTransfers(Needs(p), Requires(g), Keys(s.jobs), w);
      assert WalkFromTo(Requires(g), w, goal, k);
    }
  }
}
