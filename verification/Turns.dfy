/**
  * Merging as documented, turn by turn: two jobs of an object are merged, or, if one of them is a stop and the other is
  * not, one of them is deleted with what requires it.  What this says of the jobs that are left.
  */
module Turns {
  import opened Types
  import opened Jobs
  import opened Ordering
  import opened Plans
  import opened Cascade
  import opened MergeTheorems
  import opened GoalFlags
  import opened Cascading
  import opened Documented
  import opened Chains

  /** A transaction, where the submitted jobs that are left went, and the types of its jobs. */
  datatype Making = Making(plan: Plan, image: Image, types: Kinds)

  /** The first job of `o` is merged into the second, both stops or both not; flags are passed on. */
  ghost predicate MergesTwo(a: Making, b: Making, o: Obj) {
    && FrontAgrees(a.plan, o)
    && Key(o, a.plan.jobs[o][0]) in a.types && Key(o, a.plan.jobs[o][1]) in a.types
    && OnlyFlagged(MergeFirst(a.plan, o), b.plan)
    && b.image == Compose(a.image, FrontImage(a.plan, o)) && b.types == Stored(a.plan, o, a.types)
  }

  /**
    * Of the first two jobs of `o` one is a stop and the other is not; `k`, the stop unless that is goal-required, is
    * deleted, not being goal-required, and all that requires it goes with it.
    */
  ghost predicate DropsOne(a: Making, b: Making, o: Obj, k: Key) {
    && o in a.plan.jobs && |a.plan.jobs[o]| >= 2
    && (a.plan.jobs[o][0] == Stop) != (a.plan.jobs[o][1] == Stop)
    && k.obj == o && k.op in a.plan.jobs[o][..2]
    && k !in a.plan.flagged && (k.op == Stop || Key(o, Stop) in a.plan.flagged)
    && b.plan == Cascaded(a.plan, {k})
    && b.image == Compose(a.image, Keeping(Keys(b.plan.jobs))) && b.types == a.types
  }

  /** One turn on an object of `os`. */
  ghost predicate Turn(os: set<Obj>, a: Making, b: Making) {
    exists o :: o in os && (MergesTwo(a, b, o) || exists k :: DropsOne(a, b, o, k))
  }

  ghost function Turning(os: set<Obj>): (Making, Making) -> bool {
    (a, b) => Turn(os, a, b)
  }

  /** Every submitted job that is left went into a job of the transaction. */
  ghost predicate Fits(m: Making) {
    forall j :: j in m.image ==> m.image[j] in Keys(m.plan.jobs)
  }

  lemma MergeFits(a: Making, b: Making, o: Obj)
    requires Fits(a) && MergesTwo(a, b, o)
    ensures Fits(b) && b.image.Keys == a.image.Keys
    ensures o in a.plan.jobs && b.plan.jobs == a.plan.jobs[o := a.plan.jobs[o][1..]] && |a.plan.jobs[o]| >= 2
  {
    FirstShape(a.plan, o);
    hide Keys, FrontAgrees, FrontImage, MergeFirst;
  }

  lemma TurnFits(os: set<Obj>, a: Making, b: Making)
    requires Fits(a) && Turn(os, a, b)
    ensures Fits(b)
  {
    var o :| o in os && (MergesTwo(a, b, o) || exists k :: DropsOne(a, b, o, k));
    if MergesTwo(a, b, o) {
      MergeFits(a, b, o);
    }
  }

  // ---------------------------------------------------------------------------------------------------
  // Who is lost

  /** Where the submitted job `j` is lost: what it had become is the job dropped, or requires it through a chain. */
  ghost predicate DroppedIn(m: Making, n: Making, o: Obj, k: Key, j: Key) {
    DropsOne(m, n, o, k) && j in m.image && TakesAlong(m.plan, {k}, m.image[j])
  }

  /** On the way from `a` to `b` the job was lost so. */
  ghost predicate DroppedBetween(os: set<Obj>, a: Making, b: Making, j: Key) {
    exists m, n, o, k ::
      o in os && DroppedIn(m, n, o, k, j) && Leads(Turning(os), a, m) && Leads(Turning(os), n, b)
  }

  ghost function StillIn(j: Key): Making -> bool {
    m => Fits(m) && j in m.image
  }

  /** No job is lost but as one of a stop and another job on an object, or as one that requires such a job. */
  lemma {:induction false} LostAreDropped(os: set<Obj>, a: Making, b: Making, j: Key)
    requires Leads(Turning(os), a, b) && Fits(a) && j in a.image && j !in b.image
    ensures DroppedBetween(os, a, b, j)
  {
    var m, n := LostInSomeStep(Turning(os), StillIn(j), a, b);
    assert Turn(os, m, n) && StillIn(j)(m);
    TurnFits(os, m, n);
    assert j !in n.image;
    LostInTurn(os, m, n, j);
    hide DroppedIn, Turning;
  }

  lemma LostInTurn(os: set<Obj>, m: Making, n: Making, j: Key)
    requires Turn(os, m, n) && Fits(m) && j in m.image && j !in n.image
    ensures exists o, k :: o in os && DroppedIn(m, n, o, k, j)
  {
    var o :| o in os && (MergesTwo(m, n, o) || exists k :: DropsOne(m, n, o, k));
    if MergesTwo(m, n, o) {
      MergeFits(m, n, o);
    } else {
      var k :| DropsOne(m, n, o, k);
      GoneIsTaken(m.plan, k, m.image[j]);
      assert DroppedIn(m, n, o, k, j);
    }
  }

  lemma GoneIsTaken(p: Plan, k: Key, x: Key)
    requires x in Keys(p.jobs) && x !in Keys(Cascaded(p, {k}).jobs)
    ensures TakesAlong(p, {k}, x)
  {
    SublistsKeys(p.jobs, Keys(p.jobs) - Upward(p, {k}));
    hide TakesAlong, Sublists, Keys;
  }

  // ---------------------------------------------------------------------------------------------------
  // Where nobody is lost

  /** There is no stop in the list beside another job. */
  ghost predicate Unmixed(list: seq<JobType>) {
    Stop !in list || forall t :: t in list ==> t == Stop
  }

  /** Nothing has been lost since `a`, and nothing will be. */
  ghost predicate NobodyLost(os: set<Obj>, a: Making, m: Making) {
    && Fits(m) && m.image.Keys == a.image.Keys && m.plan.jobs.Keys == a.plan.jobs.Keys
    && (forall o :: o in os && o in m.plan.jobs ==> Unmixed(m.plan.jobs[o]))
    && (forall o :: o in m.plan.jobs && a.plan.jobs[o] != [] ==> m.plan.jobs[o] != [])
    && (forall o :: o in m.plan.jobs && |a.plan.jobs[o]| <= 1 ==> m.plan.jobs[o] == a.plan.jobs[o])
  }

  ghost function LosingNobody(os: set<Obj>, a: Making): Making -> bool {
    m => NobodyLost(os, a, m)
  }

  lemma TurnLosesNobody(os: set<Obj>, a: Making, m: Making, n: Making)
    requires NobodyLost(os, a, m) && Turn(os, m, n)
    ensures NobodyLost(os, a, n)
  {
    var o :| o in os && (MergesTwo(m, n, o) || exists k :: DropsOne(m, n, o, k));
    hide MergesTwo, DropsOne, Fits;
    if MergesTwo(m, n, o) {
      assert Fits(m);
      MergeFits(m, n, o);
      MergeLosesNobody(os, a, m, n, o);
    } else {
      var k :| DropsOne(m, n, o, k);
      DropIsMixed(m, n, o, k);
    }
  }

  lemma MergeLosesNobody(os: set<Obj>, a: Making, m: Making, n: Making, o: Obj)
    requires NobodyLost(os, a, m) && Fits(n) && n.image.Keys == m.image.Keys && o in m.plan.jobs
    requires |m.plan.jobs[o]| >= 2 && n.plan.jobs == m.plan.jobs[o := m.plan.jobs[o][1..]]
    ensures NobodyLost(os, a, n)
  {
    hide Fits;
    var list := m.plan.jobs[o];
    assert forall t :: t in list[1..] ==> t in list;
    assert o in os ==> Unmixed(list[1..]);
  }

  lemma DropIsMixed(m: Making, n: Making, o: Obj, k: Key)
    requires DropsOne(m, n, o, k)
    ensures o in m.plan.jobs && !Unmixed(m.plan.jobs[o])
  {
    var list := m.plan.jobs[o];
    assert list[0] in list && list[1] in list;
    hide Cascaded;
  }

  /** Where no stop is beside another job, none is lost, and each object that had a job keeps one. */
  lemma {:induction false} UnmixedLoseNobody(os: set<Obj>, a: Making, b: Making)
    requires Leads(Turning(os), a, b) && Fits(a) && forall o :: o in os && o in a.plan.jobs ==> Unmixed(a.plan.jobs[o])
    ensures NobodyLost(os, a, b)
  {
    forall x, y | LosingNobody(os, a)(x) && Turning(os)(x, y)
      ensures LosingNobody(os, a)(y)
    {
      TurnLosesNobody(os, a, x, y);
    }
    hide NobodyLost, Turn;
    assert LosingNobody(os, a)(a) by {
      NobodyLostYet(os, a);
    }
    LeadsKeeps(Turning(os), LosingNobody(os, a), a, b);
    assert LosingNobody(os, a)(b);
  }

  lemma NobodyLostYet(os: set<Obj>, a: Making)
    requires Fits(a) && forall o :: o in os && o in a.plan.jobs ==> Unmixed(a.plan.jobs[o])
    ensures NobodyLost(os, a, a)
  {
  }

  lemma MoreObjects(os: set<Obj>, more: set<Obj>, a: Making, b: Making)
    requires Leads(Turning(os), a, b) && os <= more
    ensures Leads(Turning(more), a, b)
  {
    forall x, y | Turning(os)(x, y)
      ensures Turning(more)(x, y)
    {
    }
    hide Turn;
    LeadsAnyway(Turning(os), Turning(more), a, b);
  }
}
