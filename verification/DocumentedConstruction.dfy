/** What the documented construction of a transaction achieves, all phases taken together. */
module DocumentedConstruction {
  import opened Types
  import opened Jobs
  import opened Walks
  import opened AfterGraphs
  import opened Closure
  import opened Submission
  import opened Ordering
  import opened Plans
  import opened MergeTheorems
  import opened GoalFlags
  import opened Construction
  import opened Cascading
  import opened Documented

  /** `p0` is what submission leaves, with the goal flags passed on. */
  ghost predicate Begun(g: Graph, goal: Key, s: Snap, p0: Plan) {
    Closed(g) && Generated(g, s, goal) && OnlyFlagged(PlanOf(s, goal), p0) && Sane(g, p0)
  }

  lemma FlaggedIffRequired(g: Graph, goal: Key, s: Snap, p0: Plan)
    requires Begun(g, goal, s, p0)
    ensures forall k :: k in p0.flagged <==> Reaches(Requires(g), goal, k)
  {
    NeededIsRequired(g, goal, s, p0);
    SaneIsBacked(g, p0);
    SameNeeds(PlanOf(s, goal), p0);
    forall k | Reaches(Requires(g), goal, k)
      ensures k in p0.flagged
    {
      var w :| WalkFromTo(Requires(g), w, goal, k);
      forall a, b | a in Keys(s.jobs) && Step(Requires(g), a, b)
        ensures b in Keys(s.jobs) && Step(Needs(p0), a, b)
      {
        RequiredStepIsNeed(g, s, goal, a, b);
      }
      WalkTransfers(Requires(g), Needs(p0), Keys(s.jobs), w);
      assert WalkFromTo(Needs(p0), w, goal, k);
    }
  }

  /** The objects on which the goal requires a job. */
  ghost function RequiredObjects(g: Graph, goal: Key): set<Obj> {
    set o | o in g && RequiredOn(g, goal, o)
  }

  /** The After edges between objects on which the goal requires jobs form no cycle. */
  ghost predicate GoalOrdered(g: Graph, goal: Key) {
    Acyclic(AfterAmong(g, RequiredObjects(g, goal)))
  }

  lemma RequiredIsEssential(g: Graph, goal: Key, s: Snap, p0: Plan, o: Obj)
    requires Begun(g, goal, s, p0)
    ensures o in RequiredObjects(g, goal) <==> Essential(p0, o)
    ensures o in RequiredObjects(g, goal) ==> o in Working(p0.jobs)
  {
    FlaggedIffRequired(g, goal, s, p0);
    SaneIsBacked(g, p0);
    EssentialIffFlagged(g, p0, o);
    if Essential(p0, o) {
      var k :| k in p0.flagged && k.obj == o;
      assert k == Key(o, k.op);
      EssentialHasJob(p0, o);
    }
    if o in RequiredObjects(g, goal) {
      var t :| Reaches(Requires(g), goal, Key(o, t));
      assert Key(o, t) in p0.flagged;
      EssentialHasJob(p0, o);
    }
  }

  /** Whether there is a cycle that cannot be broken is a matter of the graph and the goal alone. */
  lemma EssentialCycleIff(g: Graph, goal: Key, s: Snap, p0: Plan)
    requires Begun(g, goal, s, p0)
    ensures EssentialCycle(g, p0) <==> !GoalOrdered(g, goal)
  {
    var os := RequiredObjects(g, goal);
    forall o
      ensures o in os <==> Essential(p0, o)
      ensures o in os ==> o in Working(p0.jobs)
    {
      RequiredIsEssential(g, goal, s, p0, o);
    }
    hide RequiredObjects, Essential, Begun, Working, Step;
    if EssentialCycle(g, p0) {
      var w :| ClosedWalk(AfterGraph(g, p0.jobs), w) && forall o :: o in w ==> Essential(p0, o);
      WalkAmong(g, Working(p0.jobs), os, w);
    }
    if !GoalOrdered(g, goal) {
      var w :| ClosedWalk(AfterAmong(g, os), w);
      WalkStaysAmong(g, os, w);
      WalkAmong(g, os, Working(p0.jobs), w);
      assert ClosedWalk(AfterGraph(g, p0.jobs), w) && forall o :: o in w ==> Essential(p0, o);
    }
  }

  lemma WalkAmong(g: Graph, a: set<Obj>, b: set<Obj>, w: seq<Obj>)
    requires ClosedWalk(AfterAmong(g, a), w) && forall o :: o in w ==> o in b
    ensures ClosedWalk(AfterAmong(g, b), w)
  {
    forall i | 0 <= i < |w| - 1
      ensures Step(AfterAmong(g, b), w[i], w[i + 1])
    {
      assert Step(AfterAmong(g, a), w[i], w[i + 1]);
      AmongStep(g, a, w[i], w[i + 1]);
      AmongStep(g, b, w[i], w[i + 1]);
    }
  }

  lemma WalkStaysAmong(g: Graph, os: set<Obj>, w: seq<Obj>)
    requires ClosedWalk(AfterAmong(g, os), w)
    ensures forall o :: o in w ==> o in os
  {
    forall o | o in w
      ensures o in os
    {
      var i :| 0 <= i < |w| && w[i] == o;
      if i < |w| - 1 {
        assert Step(AfterAmong(g, os), w[i], w[i + 1]);
        AmongStep(g, os, w[i], w[i + 1]);
      } else {
        assert Step(AfterAmong(g, os), w[i - 1], w[i - 1 + 1]);
        AmongStep(g, os, w[i - 1], w[i]);
      }
    }
  }

  // ---------------------------------------------------------------------------------------------------
  // What merging makes the goal require

  /**
    * What a job requires and what it may be merged with: any other job of the object, stops apart, that the goal
    * asks for.
    */
  ghost function Pulls(g: Graph, goal: Key): Digraph<Key> {
    map k | k in Universe(g) ::
      set j | j in Universe(g)
              && (Step(Requires(g), k, j)
                  || (j.obj == k.obj && j.op != Stop && k.op != Stop && Reaches(AsksFor(g), goal, j)))
  }

  ghost predicate Pulled(g: Graph, goal: Key, k: Key) {
    Reaches(Pulls(g, goal), goal, k)
  }

  /** Whatever went into a flagged job is required by the goal, or became so by merging. */
  ghost predicate AllPulled(g: Graph, goal: Key, p: Plan, f: Image) {
    forall k :: k in f && f[k] in p.flagged ==> Pulled(g, goal, k)
  }

  lemma PullsRequired(g: Graph, goal: Key, k: Key)
    requires Closed(g) && Reaches(Requires(g), goal, k)
    ensures Pulled(g, goal, k)
  {
    var w :| WalkFromTo(Requires(g), w, goal, k);
    forall a, b | Step(Requires(g), a, b)
      ensures Step(Pulls(g, goal), a, b)
    {
      RequiredInUniverse(g, a, b);
    }
    WalkInLargerGraph(Requires(g), Pulls(g, goal), w);
    assert WalkFromTo(Pulls(g, goal), w, goal, k);
  }

  lemma RequiredInUniverse(g: Graph, a: Key, b: Key)
    requires Closed(g) && Step(Requires(g), a, b)
    ensures a in Universe(g) && b in Universe(g)
  {
    var v :| v in Visits(g, a) && v.required && v.to == b;
    VisitStays(g, a, v);
    EveryTypeListed(b.op);
  }

  lemma PullsOn(g: Graph, goal: Key, k: Key, j: Key)
    requires Pulled(g, goal, k) && k in Universe(g) && j in Universe(g)
    requires Step(Requires(g), k, j)
             || (j.obj == k.obj && j.op != Stop && k.op != Stop && Reaches(AsksFor(g), goal, j))
    ensures Pulled(g, goal, j)
  {
    assert Step(Pulls(g, goal), k, j);
    ReachesThroughStep(Pulls(g, goal), goal, k, j);
  }

  /** Jobs that went into the same job are pulled together. */
  lemma PulledTogether(g: Graph, goal: Key, s: Snap, p0: Plan, p: Plan, f: Image, k: Key, j: Key)
    requires Begun(g, goal, s, p0) && Carries(p0, p, f)
    requires k in f && j in f && k.obj == j.obj && (k.op == Stop <==> j.op == Stop) && Pulled(g, goal, k)
    ensures Pulled(g, goal, j)
  {
    if k != j {
      EveryTypeListed(k.op);
      EveryTypeListed(j.op);
      assert k in Keys(s.jobs) && j in Keys(s.jobs);
      PullsOn(g, goal, k, j);
    }
  }

  lemma PulledAtFirst(g: Graph, goal: Key, s: Snap, p0: Plan)
    requires Begun(g, goal, s, p0)
    ensures AllPulled(g, goal, p0, Keeping(Keys(p0.jobs)))
  {
    FlaggedIffRequired(g, goal, s, p0);
    forall k | k in p0.flagged
      ensures Pulled(g, goal, k)
    {
      PullsRequired(g, goal, k);
    }
  }

  lemma TrimKeepsPulled(g: Graph, goal: Key, p: Plan, q: Plan, f: Image)
    requires AllPulled(g, goal, p, f) && Trimmed(p, q)
    ensures AllPulled(g, goal, q, Compose(f, Keeping(Keys(q.jobs))))
  {
    hide Pulled;
  }

  lemma MergeKeepsPulled(g: Graph, goal: Key, s: Snap, p0: Plan, p: Plan, f: Image, o: Obj)
    requires Begun(g, goal, s, p0) && Carries(p0, p, f) && AllPulled(g, goal, p, f) && FrontAgrees(p, o)
    ensures AllPulled(g, goal, MergeFirst(p, o), Compose(f, FrontImage(p, o)))
  {
    var q, h := MergeFirst(p, o), FrontImage(p, o);
    FirstImage(p, o);
    assert forall j :: j in Keys(p.jobs) ==> j in f && f[j] == j;
    hide MergeFirst, FrontImage, Pulled, Begun;
    forall k | k in f && f[k] in h && h[f[k]] in q.flagged
      ensures Pulled(g, goal, k)
    {
      var i :| i in p.flagged && i in h && h[i] == h[f[k]];
      assert f[i] == i && Pulled(g, goal, i);
      assert i.obj == k.obj && (i.op == Stop <==> k.op == Stop);
      PulledTogether(g, goal, s, p0, p, f, i, k);
    }
  }

  lemma FlaggingKeepsPulled(g: Graph, goal: Key, s: Snap, p0: Plan, p: Plan, q: Plan, f: Image)
    requires Begun(g, goal, s, p0) && Carries(p0, p, f) && AllPulled(g, goal, p, f) && p.objective in p.flagged
    requires p.objective in Keys(p.jobs) && OnlyFlagged(p, q) && FlagsSound(q, q.objective)
    ensures AllPulled(g, goal, q, f)
  {
    SameNeeds(p, q);
    var pulled := set j | j in Keys(p.jobs) && forall k :: k in f && f[k] == j ==> Pulled(g, goal, k);
    forall a, b | a in pulled && Step(Needs(p), a, b)
      ensures b in pulled
    {
      NeedPulls(g, goal, s, p0, p, f, a, b);
    }
    forall k | k in f && f[k] in q.flagged
      ensures Pulled(g, goal, k)
    {
      var w :| WalkFromTo(Needs(q), w, q.objective, f[k]);
      ClosedSetKeepsWalk(Needs(p), pulled, w);
    }
  }

  lemma NeedPulls(g: Graph, goal: Key, s: Snap, p0: Plan, p: Plan, f: Image, a: Key, b: Key)
    requires Begun(g, goal, s, p0) && Carries(p0, p, f) && Step(Needs(p), a, b)
    requires forall k :: k in f && f[k] == a ==> Pulled(g, goal, k)
    ensures b in Keys(p.jobs) && forall k :: k in f && f[k] == b ==> Pulled(g, goal, k)
  {
    NeedStep(p, a, b);
    var id :| id in p.req && p.req[id].required && p.req[id].from == a && p.req[id].to == b;
    var x, y := RequirementCameFrom(p0, p, f, id);
    RequiredAtFirst(g, goal, s, p0, id);
    RequiredInUniverse(g, x, y);
    PullsOn(g, goal, x, y);
    forall k | k in f && f[k] == b
      ensures Pulled(g, goal, k)
    {
      PulledTogether(g, goal, s, p0, p, f, y, k);
    }
  }

  lemma RequirementCameFrom(p0: Plan, p: Plan, f: Image, id: ReqId) returns (x: Key, y: Key)
    requires Carries(p0, p, f) && id in p.req
    ensures id in p0.req && p0.req[id].required == p.req[id].required && p0.req[id].from == x && p0.req[id].to == y
    ensures x in f && y in f && f[x] == p.req[id].from && f[y] == p.req[id].to
    ensures p.req[id].to in Keys(p.jobs)
  {
    var e := Ends(p0.req);
    assert id in Ends(p.req);
    assert id in e && Survives(e[id], f) && ImageOfReqs(e, f)[id] == Moved(e[id], f);
    assert Ends(p.req)[id] == p.req[id].(goal := false);
    x, y := p0.req[id].from, p0.req[id].to;
  }

  lemma RequiredAtFirst(g: Graph, goal: Key, s: Snap, p0: Plan, id: ReqId)
    requires Begun(g, goal, s, p0) && id in p0.req && p0.req[id].required
    ensures Step(Requires(g), p0.req[id].from, p0.req[id].to)
  {
    SameNeeds(PlanOf(s, goal), p0);
    assert p0.req[id].from in Keys(p0.jobs);
    NeedStep(p0, p0.req[id].from, p0.req[id].to);
    NeedsAreRequiredEdges(g, s, goal, p0.req[id].from, p0.req[id].to);
  }

  // ---------------------------------------------------------------------------------------------------
  // The whole construction

  /** Everything the documented steps keep. */
  ghost predicate UnderWay(g: Graph, goal: Key, s: Snap, p0: Plan, p: Plan, f: Image, types: Kinds) {
    && Begun(g, goal, s, p0) && Sane(g, p)
    && Carries(p0, p, f) && Typed(p0, p, f, types) && AllPulled(g, goal, p, f)
  }

  lemma UnderWayAtFirst(g: Graph, goal: Key, s: Snap, p0: Plan, types: Kinds)
    requires Begun(g, goal, s, p0) && types == map k | k in Keys(p0.jobs) :: k.op
    ensures UnderWay(g, goal, s, p0, p0, Keeping(Keys(p0.jobs)), types)
  {
    CarriesSelf(g, p0);
    TypedSelf(p0, types);
    PulledAtFirst(g, goal, s, p0);
  }

  /** A deletion with everything that requires what is deleted. */
  lemma DeletionStep(g: Graph, goal: Key, s: Snap, p0: Plan, p: Plan, q: Plan, f: Image, types: Kinds)
    requires UnderWay(g, goal, s, p0, p, f, types) && Trimmed(p, q)
    ensures UnderWay(g, goal, s, p0, q, Compose(f, Keeping(Keys(q.jobs))), types)
  {
    hide Begun, Sane, Carries, Typed, AllPulled, Trimmed, Keys;
    TrimKeepsSane(g, p, q);
    SaneObjective(g, p);
    TrimCarries(p0, p, q, f);
    TrimTyped(p0, p, q, f, types);
    TrimKeepsPulled(g, goal, p, q, f);
  }

  lemma SaneObjective(g: Graph, p: Plan)
    requires Sane(g, p)
    ensures p.objective in p.flagged && p.objective in Keys(p.jobs)
  {
  }

  /** A merge that stores its type and redirects the objective, and then passes the goal flags on, giving `q`. */
  lemma MergeStep(g: Graph, goal: Key, s: Snap, p0: Plan, p: Plan, q: Plan, f: Image, types: Kinds, o: Obj)
    requires UnderWay(g, goal, s, p0, p, f, types) && FrontAgrees(p, o)
    requires OnlyFlagged(MergeFirst(p, o), q) && Sane(g, q)
    ensures Key(o, p.jobs[o][0]) in types && Key(o, p.jobs[o][1]) in types
    ensures UnderWay(g, goal, s, p0, q, Compose(f, FrontImage(p, o)), Stored(p, o, types))
  {
    var p1, h := MergeFirst(p, o), Compose(f, FrontImage(p, o));
    FrontInTypes(p0, p, f, types, o);
    hide Begun, Sane, Carries, Typed, AllPulled, Keys, OnlyFlagged, FrontAgrees, MergeFirst, FrontImage, Stored;
    BegunMergeable(g, goal, s, p0);
    MergeTyped(p0, p, f, types, o);
    MergeCarries(p0, p, f, o);
    MergeKeepsPulled(g, goal, s, p0, p, f, o);
    MergeKeepsSound(g, p, o);
    SoundObjective(g, p1);
    SaneSound(g, q);
    FlagsCarried(p0, p1, q, h);
    FlaggingKeepsPulled(g, goal, s, p0, p1, q, h);
    TypedStays(p0, p1, q, h, Stored(p, o, types));
  }

  lemma FrontInTypes(p0: Plan, p: Plan, f: Image, types: Kinds, o: Obj)
    requires Carries(p0, p, f) && Typed(p0, p, f, types) && FrontAgrees(p, o)
    ensures o in p.jobs && |p.jobs[o]| >= 2
    ensures Key(o, p.jobs[o][0]) in types && Key(o, p.jobs[o][1]) in types
  {
    assert Lined(Live(p0, o, f), p.jobs[o], o, f, types);
  }

  lemma BegunMergeable(g: Graph, goal: Key, s: Snap, p0: Plan)
    requires Begun(g, goal, s, p0)
    ensures Mergeable(p0)
  {
  }

  lemma SoundObjective(g: Graph, p: Plan)
    requires WellFormed(g, p) && FlagsSound(p, p.objective)
    ensures p.objective in p.flagged && p.objective in Keys(p.jobs)
  {
  }

  lemma SaneSound(g: Graph, p: Plan)
    requires Sane(g, p)
    ensures FlagsSound(p, p.objective)
  {
  }

  lemma TypedStays(p0: Plan, p: Plan, q: Plan, f: Image, types: Kinds)
    requires Typed(p0, p, f, types) && OnlyFlagged(p, q)
    ensures Typed(p0, q, f, types)
  {
    hide Lined, Live;
  }

  /**
    * What an accepted transaction is under the documented rules.  `f` says where each submitted job that was not
    * deleted went, `types` what type each job has.
    */
  ghost predicate Constructed(g: Graph, goal: Key, s: Snap, p: Plan, f: Image, types: Kinds) {
    && Acyclic(AfterGraph(g, p.jobs))
    && (forall o :: o in p.jobs ==> |p.jobs[o]| <= 1)
    && goal.obj in p.jobs && p.objective.obj == goal.obj && p.jobs[goal.obj] == [p.objective.op]
    && FlagsExact(p, p.objective) && GoalBitsExact(p)
    && Carries(PlanOf(s, goal), p, f)
    && (forall k :: Reaches(Requires(g), goal, k) ==> k in f && f[k] in p.flagged)
    && (forall o :: o in p.jobs && p.jobs[o] != [] ==> WholeGroup(PlanOf(s, goal), p, f, types, o))
  }

  /** All jobs submitted on `o` that were not deleted went into the one that is left, whose type they make up. */
  ghost predicate WholeGroup(p0: Plan, p: Plan, f: Image, types: Kinds, o: Obj) {
    && o in p.jobs && o in p0.jobs && p.jobs[o] != [] && Live(p0, o, f) != []
    && (forall t :: t in Live(p0, o, f) ==> Key(o, t) in f && f[Key(o, t)] == Key(o, p.jobs[o][0]))
    && Key(o, p.jobs[o][0]) in types && types[Key(o, p.jobs[o][0])] == MergedAlong(Live(p0, o, f))
  }

  lemma OneIsWhole(p0: Plan, p: Plan, f: Image, types: Kinds, o: Obj)
    requires o in p0.jobs && o in p.jobs && |p.jobs[o]| == 1 && Lined(Live(p0, o, f), p.jobs[o], o, f, types)
    ensures WholeGroup(p0, p, f, types, o)
  {
    var live := Live(p0, o, f);
    LinedParts(live, p.jobs[o], o, f, types);
    assert live[..|live|] == live;
  }

  /**
    * When the documented steps have left at most one job per object and no ordering cycle, all that the
    * documentation promises holds at once: in particular every required requirement of a job that is left is
    * there, between what its ends were merged into; and the goal required no object to be both stopped and not.
    */
  lemma AcceptedAsDocumented(g: Graph, goal: Key, s: Snap, p0: Plan, p: Plan, f: Image, types: Kinds)
    requires UnderWay(g, goal, s, p0, p, f, types)
    requires Acyclic(AfterGraph(g, p.jobs)) && forall o :: o in p.jobs ==> |p.jobs[o]| <= 1
    ensures Constructed(g, goal, s, p, f, types)
    ensures forall id :: id in s.req && s.req[id].required && s.req[id].from in f ==>
              && s.req[id].to in f && id in p.req && p.req[id].required
              && p.req[id].from == f[s.req[id].from] && p.req[id].to == f[s.req[id].to]
    ensures forall o :: !GoalContradicts(g, goal, o)
  {
    hide Begun, WellFormed, FlagsSound, Carries, Typed, AllPulled, Acyclic, AfterGraph, FlagsExact, GoalBitsExact, WholeGroup,
      Reaches;
    FlaggedIffRequired(g, goal, s, p0);
    SaneIsBacked(g, p);
    CarriesFromSubmitted(g, goal, s, p0, p, f);
    FlaggedIsLeft(p0, p, f);
    GroupsAreWhole(g, goal, s, p0, p, f, types);
    ObjectiveIsLeft(p0, p, f);
    SubmittedObjective(g, goal, s, p0);
    NeedsCarried(PlanOf(s, goal), p, f);
    forall o
      ensures !GoalContradicts(g, goal, o)
    {
      if t :| t != Stop && Reaches(Requires(g), goal, Key(o, Stop)) && Reaches(Requires(g), goal, Key(o, t)) {
        NoContradiction(p0, p, f, o, t);
      }
    }
  }

  lemma SubmittedObjective(g: Graph, goal: Key, s: Snap, p0: Plan)
    requires Begun(g, goal, s, p0)
    ensures p0.objective == goal && p0.jobs == s.jobs
  {
  }

  lemma FlaggedIsLeft(p0: Plan, p: Plan, f: Image)
    requires Carries(p0, p, f)
    ensures forall k :: k in p0.flagged ==> k in f && f[k] in p.flagged
  {
  }

  lemma NeedsCarried(p0: Plan, p: Plan, f: Image)
    requires Carries(p0, p, f)
    ensures forall id :: id in p0.req && p0.req[id].required && p0.req[id].from in f ==>
              && p0.req[id].to in f && id in p.req && p.req[id].required
              && p.req[id].from == f[p0.req[id].from] && p.req[id].to == f[p0.req[id].to]
  {
    hide Carries;
    forall id | id in p0.req && p0.req[id].required && p0.req[id].from in f
      ensures && p0.req[id].to in f && id in p.req && p.req[id].required
              && p.req[id].from == f[p0.req[id].from] && p.req[id].to == f[p0.req[id].to]
    {
      RequirementCarried(p0, p, f, id);
    }
  }

  lemma GroupsAreWhole(g: Graph, goal: Key, s: Snap, p0: Plan, p: Plan, f: Image, types: Kinds)
    requires Begun(g, goal, s, p0) && Carries(p0, p, f) && Typed(p0, p, f, types)
    requires forall o :: o in p.jobs ==> |p.jobs[o]| <= 1
    ensures forall o :: o in p.jobs && p.jobs[o] != [] ==> WholeGroup(PlanOf(s, goal), p, f, types, o)
  {
    SubmittedObjective(g, goal, s, p0);
    CarriedObjects(p0, p, f);
    hide Carries, Lined, WholeGroup, Begun, MergedAlong;
    forall o | o in p.jobs && p.jobs[o] != []
      ensures WholeGroup(PlanOf(s, goal), p, f, types, o)
    {
      assert Lined(Live(p0, o, f), p.jobs[o], o, f, types);
      OneIsWhole(p0, p, f, types, o);
      SameGroup(p0, PlanOf(s, goal), p, f, types, o);
    }
  }

  lemma SameGroup(p0: Plan, s: Plan, p: Plan, f: Image, types: Kinds, o: Obj)
    requires p0.jobs == s.jobs && WholeGroup(p0, p, f, types, o)
    ensures WholeGroup(s, p, f, types, o)
  {
  }

  lemma CarriesFromSubmitted(g: Graph, goal: Key, s: Snap, p0: Plan, p: Plan, f: Image)
    requires Begun(g, goal, s, p0) && Carries(p0, p, f)
    ensures Carries(PlanOf(s, goal), p, f)
  {
    CarriesBack(PlanOf(s, goal), p0, p, f);
    hide *;
  }

  lemma CarriesBack(p: Plan, p0: Plan, q: Plan, f: Image)
    requires OnlyFlagged(p, p0) && Carries(p0, q, f)
    ensures Carries(p, q, f)
  {
    assert Ends(p0.req) == Ends(p.req);
    hide Ends, Keys, ImageOfReqs;
  }

  lemma ObjectiveIsLeft(p0: Plan, p: Plan, f: Image)
    requires Carries(p0, p, f) && forall o :: o in p.jobs ==> |p.jobs[o]| <= 1
    ensures p0.objective.obj == p.objective.obj && p.objective.obj in p.jobs
    ensures p.jobs[p.objective.obj] == [p.objective.op]
  {
  }

  lemma NoContradiction(p0: Plan, p: Plan, f: Image, o: Obj, t: JobType)
    requires Carries(p0, p, f) && forall x :: x in p.jobs ==> |p.jobs[x]| <= 1
    ensures !(t != Stop && Key(o, Stop) in p0.flagged && Key(o, t) in p0.flagged)
  {
  }
}
