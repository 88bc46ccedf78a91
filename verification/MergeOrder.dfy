/**
  * A graph on which the order in which the map holds the objects decides whether the documented merging succeeds:
  * no condition on graph and goal alone can say whether it does.
  */
module MergeOrder {
  import opened Types
  import opened Jobs
  import opened Walks
  import opened Closure
  import opened Submission
  import opened Plans
  import opened Cascade
  import opened Merging
  import opened MergeTheorems
  import opened GoalFlags
  import opened VisitLists
  import opened JobSubmit
  import opened LateFlag
  import opened Cascading
  import opened Documented

  const BStart := Key("b", Start)
  const BStop := Key("b", Stop)
  const AStart := Key("a", Start)
  const AVerify := Key("a", Verify)

  /** The goal requires "b" started and "a" verified, and wants "a" started, which requires "b" stopped. */
  function Torn(): Graph {
    map["goal" := [Link({AddStart}, "b"), Link({AddVerify}, "a"), Link({AddStartNonreq}, "a")],
        "a" := [Link({AddStop}, "b")],
        "b" := []]
  }

  function TornPlan(): Plan {
    Plan(GOAL, map["goal" := [Start], "b" := [Start, Stop], "a" := [Start, Verify]], {GOAL, BStart, AVerify},
         map[ReqId(GOAL, 0) := Req(GOAL, BStart, true, true), ReqId(GOAL, 1) := Req(GOAL, AStart, false, false),
             ReqId(GOAL, 2) := Req(GOAL, AVerify, true, true), ReqId(AStart, 0) := Req(AStart, BStop, true, false)])
  }

  lemma {:induction false} ThreeLinks(l: Link, m: Link, n: Link, r: Rule)
    ensures EdgeVisits([l, m, n], r) == EdgeVisits([l], r) + EdgeVisits([m], r) + EdgeVisits([n], r)
  {
    TwoLinks(l, m, r);
    OneLink(n, r);
    assert [l, m, n][..2] == [l, m];
  }

  lemma GoalVisits(l: Link, m: Link, n: Link)
    requires l == Link({AddStart}, "b") && m == Link({AddVerify}, "a") && n == Link({AddStartNonreq}, "a")
    ensures RuleVisits([l, m, n], Rules(Start)) == [Visit(BStart, true), Visit(AStart, false), Visit(AVerify, true)]
  {
    var a, b, c := Rule(AddStart, Start, true), Rule(AddStartNonreq, Start, false), Rule(AddVerify, Verify, true);
    FiveRules([l, m, n]);
    hide EdgeVisits, RuleVisits, Rules;
    NoMatch([l, m, n], Rule(AddStop, Stop, true));
    NoMatch([l, m, n], Rule(AddStopNonreq, Stop, false));
    ThreeLinks(l, m, n, a);
    ThreeLinks(l, m, n, b);
    ThreeLinks(l, m, n, c);
    OneLink(l, a);
    OneLink(m, a);
    OneLink(n, a);
    OneLink(l, b);
    OneLink(m, b);
    OneLink(n, b);
    OneLink(l, c);
    OneLink(m, c);
    OneLink(n, c);
  }

  lemma AVisits(l: Link)
    requires l == Link({AddStop}, "b")
    ensures RuleVisits([l], Rules(Start)) == [Visit(BStop, true)]
  {
    FiveRules([l]);
    hide EdgeVisits, RuleVisits, Rules;
    OneLink(l, Rule(AddStart, Start, true));
    OneLink(l, Rule(AddStartNonreq, Start, false));
    OneLink(l, Rule(AddVerify, Verify, true));
    OneLink(l, Rule(AddStop, Stop, true));
    OneLink(l, Rule(AddStopNonreq, Stop, false));
  }

  lemma {:induction false} NoRules(links: seq<Link>)
    ensures RuleVisits(links, Rules(Verify)) == [] && RuleVisits([], Rules(Start)) == [] && RuleVisits([], Rules(Stop)) == []
  {
    FiveRules([]);
    RulesLast([], [], Rule(PropagatesStopTo, Stop, true));
    assert [] + [Rule(PropagatesStopTo, Stop, true)] == Rules(Stop);
  }

  lemma TornVisits()
    ensures Closed(Torn())
    ensures Visits(Torn(), GOAL) == [Visit(BStart, true), Visit(AStart, false), Visit(AVerify, true)]
    ensures Visits(Torn(), AStart) == [Visit(BStop, true)] && Visits(Torn(), AVerify) == []
    ensures Visits(Torn(), BStart) == [] && Visits(Torn(), BStop) == []
  {
    var g := Torn();
    hide RuleVisits, Rules;
    GoalVisits(g["goal"][0], g["goal"][1], g["goal"][2]);
    AVisits(g["a"][0]);
    NoRules(g["a"]);
  }

  lemma SubmitsTorn()
    ensures Closed(Torn()) && PlanOf(Submit(Torn(), NOTHING, GOAL, true), GOAL) == TornPlan()
  {
    var g := Torn();
    TornVisits();
    hide Visits;
    assert [] + [Start] == [Start] && [Start] + [Stop] == [Start, Stop] && [Start] + [Verify] == [Start, Verify];
    var s := Created(NOTHING, GOAL, true);
    CreatedKeys(g, NOTHING, GOAL, true);
    var t := Created(s, BStart, true);
    CreatedKeys(g, s, BStart, true);
    assert Submit(g, s, BStart, true) == t;
    var t' := t.(req := t.req[ReqId(GOAL, 0) := Req(GOAL, BStart, true, true)]);
    assert Expand(g, s, GOAL, 0) == Expand(g, t', GOAL, 1);
    hide Torn;
    SubmitsRest(t');
  }

  lemma {:induction false} SubmitsRest(s: Snap)
    requires Closed(Torn()) && s.jobs == map["goal" := [Start], "b" := [Start]] && s.flagged == {GOAL, BStart}
    requires s.upgraded == {} && s.req == map[ReqId(GOAL, 0) := Req(GOAL, BStart, true, true)]
    requires "goal" in Torn() && |Visits(Torn(), GOAL)| == 3
    ensures PlanOf(Expand(Torn(), s, GOAL, 1), GOAL) == TornPlan()
  {
    var g := Torn();
    TornVisits();
    hide Visits;
    var u := SubmitsAStart(s);
    var u' := u.(req := u.req[ReqId(GOAL, 1) := Req(GOAL, AStart, false, false)]);
    assert Expand(g, s, GOAL, 1) == Expand(g, u', GOAL, 2);
    hide Torn;
    SubmitsAVerify(u');
  }

  lemma {:induction false} SubmitsAVerify(s: Snap)
    requires Closed(Torn()) && s.upgraded == {} && s.flagged == {GOAL, BStart}
    requires s.jobs == map["goal" := [Start], "b" := [Start, Stop], "a" := [Start]]
    requires s.req == map[ReqId(GOAL, 0) := Req(GOAL, BStart, true, true), ReqId(GOAL, 1) := Req(GOAL, AStart, false, false),
                          ReqId(AStart, 0) := Req(AStart, BStop, true, false)]
    requires "goal" in Torn() && |Visits(Torn(), GOAL)| == 3
    ensures PlanOf(Expand(Torn(), s, GOAL, 2), GOAL) == TornPlan()
  {
    var g := Torn();
    TornVisits();
    hide Visits;
    assert [Start] + [Verify] == [Start, Verify];
    var v := Created(s, AVerify, true);
    CreatedKeys(g, s, AVerify, true);
    assert Submit(g, s, AVerify, true) == v;
    var v' := v.(req := v.req[ReqId(GOAL, 2) := Req(GOAL, AVerify, true, true)]);
    assert Expand(g, v', GOAL, 3) == v';
    assert Expand(g, s, GOAL, 2) == v';
  }

  lemma SubmitsAStart(s: Snap) returns (u: Snap)
    requires Closed(Torn()) && s.jobs == map["goal" := [Start], "b" := [Start]] && s.flagged == {GOAL, BStart}
    requires s.upgraded == {} && s.req == map[ReqId(GOAL, 0) := Req(GOAL, BStart, true, true)]
    ensures u == Submit(Torn(), s, AStart, false)
    ensures u.jobs == map["goal" := [Start], "b" := [Start, Stop], "a" := [Start]] && u.flagged == {GOAL, BStart}
    ensures u.upgraded == {}
    ensures u.req == map[ReqId(GOAL, 0) := Req(GOAL, BStart, true, true), ReqId(AStart, 0) := Req(AStart, BStop, true, false)]
  {
    var g := Torn();
    TornVisits();
    hide Visits;
    assert [] + [Start] == [Start] && [Start] + [Stop] == [Start, Stop];
    var t := Created(s, AStart, false);
    CreatedKeys(g, s, AStart, false);
    var v := Created(t, BStop, false);
    CreatedKeys(g, t, BStop, false);
    assert Submit(g, t, BStop, false) == v;
    u := v.(req := v.req[ReqId(AStart, 0) := Req(AStart, BStop, true, false)]);
    assert Expand(g, u, AStart, 1) == u;
    assert Expand(g, t, AStart, 0) == u;
  }

  lemma TornKeys()
    ensures Keys(TornPlan().jobs) == {GOAL, BStart, BStop, AStart, AVerify} && Mergeable(TornPlan())
    ensures FlagsPropagated(TornPlan()) && WellFormed(Torn(), TornPlan())
  {
    hide Keys, Visits, TornPlan, Torn, Closed, NoDuplicates;
    TornShape();
    TornKeySet(TornPlan().jobs);
    TornVisits();
    TornReqs();
  }

  lemma TornShape()
    ensures TornPlan().jobs == map["goal" := [Start], "b" := [Start, Stop], "a" := [Start, Verify]]
    ensures TornPlan().jobs.Keys == Torn().Keys && TornPlan().flagged == {GOAL, BStart, AVerify}
  {
  }

  lemma TornReqs()
    ensures var p := TornPlan();
            forall id :: id in p.req ==>
              && p.req[id].from in {GOAL, AStart} && p.req[id].to in {BStart, BStop, AStart, AVerify}
              && (p.req[id].required && p.req[id].from == GOAL ==> p.req[id].to in {BStart, AVerify})
  {
  }

  lemma TornKeySet(jobs: Lists)
    requires jobs == map["goal" := [Start], "b" := [Start, Stop], "a" := [Start, Verify]]
    ensures Keys(jobs) == {GOAL, BStart, BStop, AStart, AVerify} && NoDuplicates(jobs)
  {
    assert jobs["goal"][0] == Start && jobs["b"][0] == Start && jobs["b"][1] == Stop;
    assert jobs["a"][0] == Start && jobs["a"][1] == Verify;
  }

  /** With "a" merged first, the start job it wants goes into the flagged verify job, and "b" is torn. */
  lemma AFirst(q: Plan)
    requires FrontAgrees(TornPlan(), "a") && OnlyFlagged(MergeFirst(TornPlan(), "a"), q) && FlagsPropagated(q)
    ensures Conflicting(q, "b")
  {
    var p := TornPlan();
    var m, h := MergeFirst(p, "a"), FrontImage(p, "a");
    FirstShape(p, "a");
    TornKeys();
    hide MergeFirst, FrontImage, Keys;
    assert p.req[ReqId(AStart, 0)] == Req(AStart, BStop, true, false);
    assert ReqId(AStart, 0) in m.req && m.req[ReqId(AStart, 0)] == Req(AVerify, BStop, true, false);
    assert h[AVerify] == AVerify && h[BStart] == BStart;
    assert AVerify in m.flagged && BStart in m.flagged;
    assert q.req[ReqId(AStart, 0)].from == AVerify && q.req[ReqId(AStart, 0)].to == BStop;
  }

  /** With "b" seen to first, its stop job goes, and the start job of "a" with it. */
  lemma BFirst()
    ensures var q := Cascaded(TornPlan(), {BStop});
            Trimmed(TornPlan(), q) && q.jobs == map["goal" := [Start], "b" := [Start], "a" := [Verify]]
  {
    var p := TornPlan();
    hide TornPlan, Torn, Upward, Keys, WellFormed, Trimmed;
    TornShape();
    TornKeys();
    BStopGone();
    CascadeTrims(Torn(), p, {BStop});
    assert Keys(p.jobs) - {BStop, AStart} == {GOAL, BStart, AVerify};
    TornLists();
  }

  lemma BStopGone()
    ensures Upward(TornPlan(), {BStop}) == {BStop, AStart}
  {
    var p := TornPlan();
    TornKeys();
    var gone := {BStop, AStart};
    hide Keys, WellFormed, FlagsPropagated;
    forall a, b | a in gone && Step(Requirers(p), a, b)
      ensures b in gone
    {
      RequirerStep(p, a, b);
    }
    BStopTakes(p);
    forall k | k in Upward(p, {BStop})
      ensures k in gone
    {
      var w :| WalkFromTo(Requirers(p), w, BStop, k);
      ClosedSetKeepsWalk(Requirers(p), gone, w);
    }
  }

  lemma BStopTakes(p: Plan)
    requires BStop in Keys(p.jobs) && AStart in Keys(p.jobs)
    requires ReqId(AStart, 0) in p.req && p.req[ReqId(AStart, 0)] == Req(AStart, BStop, true, false)
    ensures BStop in Upward(p, {BStop}) && AStart in Upward(p, {BStop})
  {
    ReachesSelf(Requirers(p), BStop);
    assert TakesAlong(p, {BStop}, BStop);
    CascadeIsClosed(p, {BStop}, ReqId(AStart, 0));
  }

  lemma TornLists()
    ensures Sublists(TornPlan().jobs, {GOAL, BStart, AVerify}) == map["goal" := [Start], "b" := [Start], "a" := [Verify]]
  {
    var ks, jobs := {GOAL, BStart, AVerify}, TornPlan().jobs;
    assert jobs.Keys == {"goal", "b", "a"};
    assert jobs["goal"] == [Start] && jobs["b"] == [Start, Stop] && jobs["a"] == [Start, Verify];
    hide Only, TornPlan;
    OnlyOne(Start, "goal", ks);
    OnlyTwo(Start, Stop, "b", ks);
    OnlyTwo(Start, Verify, "a", ks);
    var lists := Sublists(jobs, ks);
    assert lists["goal"] == [Start] && lists["b"] == [Start] && lists["a"] == [Verify];
  }

  lemma {:induction false} OnlyTwo(t: JobType, u: JobType, o: Obj, ks: set<Key>)
    ensures Only([t, u], o, ks) == (if Key(o, t) in ks then [t] else []) + (if Key(o, u) in ks then [u] else [])
  {
    OnlyOne(t, o, ks);
    OnlyOne(u, o, ks);
    OnlyConcat([t], [u], o, ks);
    assert [t] + [u] == [t, u];
  }

  /**
    * Submission leaves a transaction whose flags are right and on which no object has both a goal-required stop and
    * another goal-required job; whether merging fails depends on which object is merged first.
    */
  lemma OrderDecides()
    ensures Closed(Torn()) && PlanOf(Submit(Torn(), NOTHING, GOAL, true), GOAL) == TornPlan()
    ensures FlagsPropagated(TornPlan()) && forall o :: !Conflicting(TornPlan(), o)
    ensures FrontAgrees(TornPlan(), "a")
    ensures forall q :: OnlyFlagged(MergeFirst(TornPlan(), "a"), q) && FlagsPropagated(q) ==> Conflicting(q, "b")
    ensures var q := Cascaded(TornPlan(), {BStop});
            Trimmed(TornPlan(), q) && q.jobs == map["goal" := [Start], "b" := [Start], "a" := [Verify]]
  {
    var p := TornPlan();
    assert (forall o :: Key(o, Stop) !in p.flagged) && p.jobs["a"] == [Start, Verify];
    hide TornPlan, Torn, Submit, Cascaded, Trimmed, WellFormed, MergeFirst;
    SubmitsTorn();
    TornKeys();
    BFirst();
    assert FrontAgrees(p, "a");
    forall q | OnlyFlagged(MergeFirst(p, "a"), q) && FlagsPropagated(q)
      ensures Conflicting(q, "b")
    {
      AFirst(q);
    }
  }
}
