/** What the goal flag means: required, through a chain of required requirements, by the objective. */
module GoalFlags {
  import opened Types
  import opened Jobs
  import opened Walks
  import opened Closure
  import opened Submission
  import opened Plans
  import opened Cascade
  import opened Merging
  import opened MergeTheorems

  /** From each job to the jobs it has a required requirement on. */
  function Needs(p: Plan): Digraph<Key> {
    map k | k in Keys(p.jobs) :: set id | id in p.req && p.req[id].required && p.req[id].from == k :: p.req[id].to
  }

  lemma NeedStep(p: Plan, a: Key, b: Key)
    ensures Step(Needs(p), a, b) <==>
            a in Keys(p.jobs)
            && exists id :: id in p.req && p.req[id].required && p.req[id].from == a && p.req[id].to == b
  {
  }

  /** Every flagged job is needed by `root`. */
  ghost predicate FlagsSound(p: Plan, root: Key) {
    root in p.flagged && forall k :: k in p.flagged ==> Reaches(Needs(p), root, k)
  }

  /** The flagged jobs are exactly those needed by `root`. */
  ghost predicate FlagsExact(p: Plan, root: Key) {
    forall k :: k in p.flagged <==> Reaches(Needs(p), root, k)
  }

  /** A requirement is goal-required exactly when its requirer is flagged and it is required. */
  ghost predicate GoalBitsExact(p: Plan) {
    forall id :: id in p.req ==> (p.req[id].goal <==> p.req[id].required && p.req[id].from in p.flagged)
  }

  /** Sound flags are exact exactly when they are closed under required requirements. */
  lemma ExactIffPropagated(g: Graph, p: Plan, root: Key)
    requires WellFormed(g, p) && FlagsSound(p, root)
    ensures FlagsExact(p, root) <==> FlagsPropagated(p)
  {
    var needs := Needs(p);
    if FlagsPropagated(p) {
      forall k | Reaches(needs, root, k)
        ensures k in p.flagged
      {
        var w :| WalkFromTo(needs, w, root, k);
        forall a, b | a in p.flagged && Step(needs, a, b)
          ensures b in p.flagged
        {
          NeedStep(p, a, b);
        }
        ClosedSetKeepsWalk(needs, p.flagged, w);
      }
    }
    if FlagsExact(p, root) {
      forall id | id in p.req && p.req[id].required && p.req[id].from in p.flagged
        ensures p.req[id].to in p.flagged
      {
        NeedStep(p, p.req[id].from, p.req[id].to);
        ReachesThroughStep(needs, root, p.req[id].from, p.req[id].to);
      }
    }
  }

  /** Everything that holds of a transaction once its objective has been submitted. */
  ghost predicate Generated(g: Graph, s: Snap, goal: Key) {
    && Consistent(g, s)
    && LeastClosed(g, goal, Keys(s.jobs))
    && (forall k :: k in Keys(s.jobs) ==> k.obj in g && Made(s.req, k, Visits(g, k)))
    && (forall k :: k in Keys(s.jobs) ==> Reaches(AsksFor(g), goal, k))
    && goal in s.flagged
    && (forall k :: k in s.flagged ==> Reaches(Requires(g), goal, k))
    && (forall k :: k in s.flagged && k != goal ==> HasGoalReq(s.req, k))
  }

  const NOTHING := Snap(map[], {}, {}, map[])

  /** Submitting the objective to an empty transaction. */
  lemma SubmittedFromNothing(g: Graph, s: Snap, goal: Key)
    requires Closed(g) && goal.obj in g
    requires Submitted(g, NOTHING, s, goal, true)
    ensures Generated(g, s, goal)
  {
    assert Keys(NOTHING.jobs) == {};
    forall k, v | k in Keys(s.jobs) && k.obj in g && v in Visits(g, k)
      ensures v.to in Keys(s.jobs)
    {
      var n :| 0 <= n < |Visits(g, k)| && Visits(g, k)[n] == v;
      assert ReqId(k, n) in s.req && GoalBitOk(s, ReqId(k, n));
    }
    assert ClosedUnder(g, goal, Keys(s.jobs));
    ReachableClosedIsLeast(g, goal, Keys(s.jobs));
  }

  function PlanOf(s: Snap, goal: Key): Plan {
    Plan(goal, s.jobs, s.flagged, s.req)
  }

  lemma VisitHasReq(g: Graph, s: Snap, goal: Key, k: Key, v: Visit) returns (id: ReqId)
    requires Generated(g, s, goal) && k in Keys(s.jobs) && v in Visits(g, k)
    ensures id in s.req && id.maker == k
    ensures s.req[id].from == k && s.req[id].to == v.to && s.req[id].required == v.required
  {
    var n :| 0 <= n < |Visits(g, k)| && Visits(g, k)[n] == v;
    id := ReqId(k, n);
    assert id in s.req;
  }

  lemma ReqHasVisit(g: Graph, s: Snap, goal: Key, id: ReqId)
    requires Generated(g, s, goal) && id in s.req
    ensures id.maker in Keys(s.jobs) && s.req[id].from == id.maker && id.nth < |Visits(g, id.maker)|
    ensures Visits(g, id.maker)[id.nth] == Visit(s.req[id].to, s.req[id].required)
  {
    assert GoalBitOk(s, id);
    assert Made(s.req, id.maker, Visits(g, id.maker));
    assert id == ReqId(id.maker, id.nth);
    assert ReqId(id.maker, id.nth) in s.req;
  }

  /** Among the submitted jobs, needing is what the required edges say. */
  lemma NeedsAreRequiredEdges(g: Graph, s: Snap, goal: Key, a: Key, b: Key)
    requires Closed(g) && Generated(g, s, goal) && a in Keys(s.jobs)
    ensures Step(Needs(PlanOf(s, goal)), a, b) <==> Step(Requires(g), a, b)
  {
    var p := PlanOf(s, goal);
    if Step(Needs(p), a, b) {
      NeedStep(p, a, b);
      var id :| id in p.req && p.req[id].required && p.req[id].from == a && p.req[id].to == b;
      ReqHasVisit(g, s, goal, id);
      assert Visit(b, true) in Visits(g, a);
      VisitStays(g, a, Visit(b, true));
    }
    if Step(Requires(g), a, b) {
      var v :| v in Visits(g, a) && v.required && v.to == b;
      var id := VisitHasReq(g, s, goal, a, v);
      NeedStep(p, a, b);
    }
  }

  lemma RequiredStepIsNeed(g: Graph, s: Snap, goal: Key, a: Key, b: Key)
    requires Closed(g) && Generated(g, s, goal) && a in Keys(s.jobs) && Step(Requires(g), a, b)
    ensures b in Keys(s.jobs) && Step(Needs(PlanOf(s, goal)), a, b)
  {
    NeedsAreRequiredEdges(g, s, goal, a, b);
    NeedStep(PlanOf(s, goal), a, b);
    var id :| id in s.req && s.req[id].from == a && s.req[id].to == b;
    assert GoalBitOk(s, id);
  }

  /** After submission every flagged job is needed by the objective, and the flags are backed. */
  lemma GeneratedFlagsSound(g: Graph, s: Snap, goal: Key)
    requires Closed(g) && Generated(g, s, goal)
    ensures FlagsSound(PlanOf(s, goal), goal)
    ensures FlagsBacked(PlanOf(s, goal))
  {
    forall k | k in s.flagged
      ensures Reaches(Needs(PlanOf(s, goal)), goal, k)
    {
      var w :| WalkFromTo(Requires(g), w, goal, k);
      forall a, b | a in Keys(s.jobs) && Step(Requires(g), a, b)
        ensures b in Keys(s.jobs) && Step(Needs(PlanOf(s, goal)), a, b)
      {
        RequiredStepIsNeed(g, s, goal, a, b);
      }
      WalkTransfers(Requires(g), Needs(PlanOf(s, goal)), Keys(s.jobs), w);
      assert WalkFromTo(Needs(PlanOf(s, goal)), w, goal, k);
    }
    forall id | id in s.req && s.req[id].goal
      ensures s.req[id].from in s.flagged && s.req[id].to in s.flagged
    {
      assert GoalBitOk(s, id);
    }
  }

  /**
    * The flags `job_submit` leaves are exact exactly when no job flagged after its expansion requires a job that
    * is not flagged.
    */
  lemma SubmittedFlagsExactIff(g: Graph, s: Snap, goal: Key)
    requires Closed(g) && Generated(g, s, goal)
    ensures FlagsExact(PlanOf(s, goal), goal) <==>
            forall k, v :: k in s.upgraded && k.obj in g && v in Visits(g, k) && v.required ==> v.to in s.flagged
  {
    var p := PlanOf(s, goal);
    GeneratedFlagsSound(g, s, goal);
    GeneratedWellFormed(g, s, goal);
    ExactIffPropagated(g, p, goal);
    hide FlagsExact, FlagsSound, FlagsBacked, WellFormed, Needs, LeastClosed, Reaches;
    if forall k, v :: k in s.upgraded && k.obj in g && v in Visits(g, k) && v.required ==> v.to in s.flagged {
      forall id | id in p.req && p.req[id].required && p.req[id].from in p.flagged
        ensures p.req[id].to in p.flagged
      {
        assert GoalBitOk(s, id);
        ReqHasVisit(g, s, goal, id);
        assert Visit(p.req[id].to, true) in Visits(g, id.maker);
      }
    }
    if FlagsPropagated(p) {
      forall k, v | k in s.upgraded && k.obj in g && v in Visits(g, k) && v.required
        ensures v.to in s.flagged
      {
        var id := VisitHasReq(g, s, goal, k, v);
        assert p.req[id].from in p.flagged;
      }
    }
  }

  lemma GeneratedWellFormed(g: Graph, s: Snap, goal: Key)
    requires Closed(g) && Generated(g, s, goal)
    ensures WellFormed(g, PlanOf(s, goal))
  {
    forall id | id in s.req
      ensures s.req[id].from in Keys(s.jobs) && s.req[id].to in Keys(s.jobs)
    {
      assert GoalBitOk(s, id);
    }
  }

  /**
    * The goal bits of the requirements are exact exactly when no job flagged after its expansion has a required
    * visit.
    */
  lemma SubmittedGoalBitsExactIff(g: Graph, s: Snap, goal: Key)
    requires Closed(g) && Generated(g, s, goal)
    ensures GoalBitsExact(PlanOf(s, goal)) <==>
            forall k, v :: k in s.upgraded && k.obj in g && v in Visits(g, k) ==> !v.required
  {
    var p := PlanOf(s, goal);
    if GoalBitsExact(p) {
      forall k, v | k in s.upgraded && k.obj in g && v in Visits(g, k)
        ensures !v.required
      {
        var id := VisitHasReq(g, s, goal, k, v);
        assert GoalBitOk(s, id);
      }
    }
    if forall k, v :: k in s.upgraded && k.obj in g && v in Visits(g, k) ==> !v.required {
      forall id | id in p.req
        ensures p.req[id].goal <==> p.req[id].required && p.req[id].from in p.flagged
      {
        assert GoalBitOk(s, id);
        ReqHasVisit(g, s, goal, id);
        assert Visit(p.req[id].to, p.req[id].required) in Visits(g, id.maker);
      }
    }
  }

  /** Jobs were deleted, none of them flagged. */
  ghost predicate OnlyUnflaggedLost(p: Plan, q: Plan) {
    q.flagged == p.flagged && q.req == ImageOfReqs(p.req, Keeping(Keys(q.jobs)))
  }

  /** Deleting unflagged jobs keeps exact flags exact. */
  lemma DeletionKeepsExact(g: Graph, p: Plan, q: Plan, root: Key)
    requires WellFormed(g, p) && WellFormed(g, q) && OnlyUnflaggedLost(p, q)
    requires FlagsSound(p, root) && FlagsPropagated(p)
    ensures FlagsSound(q, root) && FlagsPropagated(q) && FlagsExact(q, root)
  {
    forall k | k in q.flagged
      ensures Reaches(Needs(q), root, k)
    {
      var w :| WalkFromTo(Needs(p), w, root, k);
      forall a, b | a in p.flagged && Step(Needs(p), a, b)
        ensures b in p.flagged && Step(Needs(q), a, b)
      {
        FlaggedStepKept(p, q, a, b);
      }
      WalkTransfers(Needs(p), Needs(q), p.flagged, w);
      assert WalkFromTo(Needs(q), w, root, k);
    }
    forall id | id in q.req && q.req[id].required && q.req[id].from in q.flagged
      ensures q.req[id].to in q.flagged
    {
      assert q.req[id] == p.req[id];
    }
    ExactIffPropagated(g, q, root);
  }

  lemma FlaggedStepKept(p: Plan, q: Plan, a: Key, b: Key)
    requires OnlyUnflaggedLost(p, q) && FlagsPropagated(p) && q.flagged <= Keys(q.jobs)
    requires a in p.flagged && Step(Needs(p), a, b)
    ensures b in p.flagged && Step(Needs(q), a, b)
  {
    NeedStep(p, a, b);
    var id :| id in p.req && p.req[id].required && p.req[id].from == a && p.req[id].to == b;
    assert id in q.req && q.req[id] == p.req[id];
    NeedStep(q, a, b);
  }

  /** Merging takes a need of a flagged job to a need of what it was merged into. */
  lemma MergedStep(p: Plan, a: Key, b: Key)
    requires Mergeable(p) && FlagsPropagated(p) && forall o :: o in p.jobs ==> !Conflicting(p, o)
    requires a in p.flagged && Step(Needs(p), a, b)
    ensures var f := MergeImage(p, p.jobs.Keys);
            b in p.flagged && a in f && b in f && Step(Needs(Merged(p, p.jobs.Keys)), f[a], f[b])
  {
    NeedStep(p, a, b);
    var id :| id in p.req && p.req[id].required && p.req[id].from == a && p.req[id].to == b;
    FlaggedIsKept(p, a);
    FlaggedIsKept(p, b);
    var q := Merged(p, p.jobs.Keys);
    var f := MergeImage(p, p.jobs.Keys);
    assert id in q.req && q.req[id] == Moved(p.req[id], f);
    MergedIsMergeable(p, p.jobs.Keys);
    NeedStep(q, f[a], f[b]);
  }

  lemma {:induction false} MergedWalk(p: Plan, w: seq<Key>)
    requires Mergeable(p) && FlagsPropagated(p) && forall o :: o in p.jobs ==> !Conflicting(p, o)
    requires IsWalk(Needs(p), w) && w[0] in p.flagged
    ensures var f := MergeImage(p, p.jobs.Keys);
            w[0] in f && w[|w| - 1] in f && Reaches(Needs(Merged(p, p.jobs.Keys)), f[w[0]], f[w[|w| - 1]])
    decreases |w|
  {
    var f := MergeImage(p, p.jobs.Keys);
    var needs := Needs(Merged(p, p.jobs.Keys));
    if |w| == 1 {
      FlaggedIsKept(p, w[0]);
      ReachesSelf(needs, f[w[0]]);
    } else {
      WalkTail(Needs(p), w);
      MergedStep(p, w[0], w[1]);
      MergedWalk(p, w[1..]);
      StepThenReaches(needs, f[w[0]], f[w[1]], f[w[|w| - 1]]);
    }
  }

  /** After merging every flagged job is needed by the job the root was merged into. */
  lemma MergingKeepsSound(p: Plan, root: Key)
    requires Mergeable(p) && FlagsPropagated(p) && FlagsSound(p, root)
    requires forall o :: o in p.jobs ==> !Conflicting(p, o)
    ensures root.obj in p.jobs && p.jobs[root.obj] != []
    ensures FlagsSound(Merged(p, p.jobs.Keys), Key(root.obj, Survivor(p, root.obj)))
  {
    var f := MergeImage(p, p.jobs.Keys);
    FlaggedIsKept(p, root);
    var q := Merged(p, p.jobs.Keys);
    assert f[root] in q.flagged;
    forall k | k in q.flagged
      ensures Reaches(Needs(q), f[root], k)
    {
      var j :| j in p.flagged && j in f && f[j] == k;
      var w :| WalkFromTo(Needs(p), w, root, j);
      MergedWalk(p, w);
    }
  }

  /** Some job on `o` is flagged. */
  ghost predicate GroupFlagged(p: Plan, o: Obj) {
    exists t :: Key(o, t) in p.flagged
  }

  /**
    * As the code merges, the flags stay closed under required requirements exactly when every surviving required
    * requirement of a group with a flagged job leads to a group with a flagged job.
    */
  lemma MergingKeepsPropagatedIff(p: Plan)
    requires Mergeable(p) && forall o :: o in p.jobs ==> !Conflicting(p, o)
    ensures FlagsPropagated(Merged(p, p.jobs.Keys)) <==>
            forall id :: id in p.req && p.req[id].required && Survives(p.req[id], MergeImage(p, p.jobs.Keys)) ==>
                           (GroupFlagged(p, p.req[id].from.obj) ==> GroupFlagged(p, p.req[id].to.obj))
  {
    var q := Merged(p, p.jobs.Keys);
    var f := MergeImage(p, p.jobs.Keys);
    forall k | k in f
      ensures f[k] in q.flagged <==> GroupFlagged(p, k.obj)
    {
      OneJobLeft(p, k.obj);
    }
    assert forall id :: id in q.req <==> id in p.req && Survives(p.req[id], f);
    assert forall id :: id in q.req ==> q.req[id] == Moved(p.req[id], f);
    hide GroupFlagged, MergeImage, Merged, Mergeable;
  }

  // -----------------------------------------------------------------------------------------------------
  // Repairing flags

  ghost predicate GoalBitsSound(p: Plan) {
    forall id :: id in p.req && p.req[id].goal ==>
      p.req[id].required && p.req[id].from in p.flagged && p.req[id].to in p.flagged
  }

  /** `q` is `p` but for flags and goal bits that were set. */
  ghost predicate OnlyFlagged(p: Plan, q: Plan) {
    && q.jobs == p.jobs && q.objective == p.objective
    && p.flagged <= q.flagged
    && q.req.Keys == p.req.Keys
    && forall id :: id in p.req ==>
         && q.req[id].from == p.req[id].from && q.req[id].to == p.req[id].to
         && q.req[id].required == p.req[id].required
         && (p.req[id].goal ==> q.req[id].goal)
  }

  lemma SameNeeds(p: Plan, q: Plan)
    requires OnlyFlagged(p, q)
    ensures Needs(q) == Needs(p)
  {
    forall k | k in Keys(p.jobs)
      ensures Needs(q)[k] == Needs(p)[k]
    {
      forall b
        ensures b in Needs(q)[k] <==> b in Needs(p)[k]
      {
        NeedStep(p, k, b);
        NeedStep(q, k, b);
      }
    }
  }

  /** If the requirement is required, it is goal-required and its other end is flagged. */
  ghost predicate NeedPassed(p: Plan, id: ReqId) {
    id in p.req && p.req[id].required ==> p.req[id].goal && p.req[id].to in p.flagged
  }

  /** The flag of `k` has been passed on. */
  ghost predicate Passed(p: Plan, k: Key) {
    forall id :: id in p.req && p.req[id].from == k ==> NeedPassed(p, id)
  }

  /** `q` comes from `p` by passing flags on. */
  ghost predicate Repairing(p: Plan, q: Plan) {
    && OnlyFlagged(p, q)
    && GoalBitsSound(q)
    && (forall root :: FlagsSound(p, root) ==> FlagsSound(q, root))
    && (FlagsBacked(p) ==> FlagsBacked(q))
  }

  lemma StartRepairing(p: Plan)
    requires GoalBitsSound(p)
    ensures Repairing(p, p)
  {
  }

  lemma RepairStep(p: Plan, q: Plan, r: Plan, id: ReqId)
    requires Repairing(p, q)
    requires id in q.req && q.req[id].required && q.req[id].from in q.flagged && q.req[id].from in Keys(q.jobs)
    requires r.jobs == q.jobs && r.objective == q.objective
    requires r.req == q.req[id := q.req[id].(goal := true)] && r.flagged == q.flagged + {q.req[id].to}
    ensures Repairing(p, r)
    ensures forall k :: Passed(q, k) ==> Passed(r, k)
    ensures forall i :: NeedPassed(q, i) ==> NeedPassed(r, i)
    ensures NeedPassed(r, id)
  {
    BitSet(q, r, id);
    hide FlagsSound, FlagsBacked, GoalBitsSound;
  }

  lemma AllPassed(p: Plan)
    requires GoalBitsSound(p) && forall k :: k in p.flagged ==> Passed(p, k)
    ensures FlagsPropagated(p) && GoalBitsExact(p)
  {
    forall id | id in p.req && p.req[id].required && p.req[id].from in p.flagged
      ensures p.req[id].goal && p.req[id].to in p.flagged
    {
      assert Passed(p, p.req[id].from) && NeedPassed(p, id);
    }
  }

  /** One goal bit set and the other end flagged: nothing already passed is undone. */
  lemma BitSet(p: Plan, q: Plan, id: ReqId)
    requires id in p.req && p.req[id].required && p.req[id].from in p.flagged && GoalBitsSound(p)
    requires q == p.(req := p.req[id := p.req[id].(goal := true)], flagged := p.flagged + {p.req[id].to})
    ensures OnlyFlagged(p, q) && GoalBitsSound(q)
    ensures forall i :: NeedPassed(p, i) ==> NeedPassed(q, i)
    ensures forall k :: Passed(p, k) ==> Passed(q, k)
    ensures forall root :: FlagsSound(p, root) && p.req[id].from in Keys(p.jobs) ==> FlagsSound(q, root)
    ensures FlagsBacked(p) ==> FlagsBacked(q)
  {
    SameNeeds(p, q);
    NeedStep(p, p.req[id].from, p.req[id].to);
    forall root | FlagsSound(p, root) && p.req[id].from in Keys(p.jobs)
      ensures FlagsSound(q, root)
    {
      ReachesThroughStep(Needs(p), root, p.req[id].from, p.req[id].to);
    }
    BitSetBacked(p, q, id);
  }

  lemma BitSetBacked(p: Plan, q: Plan, id: ReqId)
    requires id in p.req && p.req[id].from in p.flagged
    requires q == p.(req := p.req[id := p.req[id].(goal := true)], flagged := p.flagged + {p.req[id].to})
    ensures FlagsBacked(p) ==> FlagsBacked(q)
  {
    forall k | FlagsBacked(p) && k in q.flagged && k != q.objective
      ensures HasGoalReq(q.req, k)
    {
      if k == p.req[id].to {
        assert q.req[id].goal && q.req[id].to == k;
      } else {
        assert HasGoalReq(p.req, k);
        var j :| j in p.req && p.req[j].goal && p.req[j].to == k;
        assert q.req[j].goal && q.req[j].to == k;
      }
    }
  }
}
