/** Graphs on which merging, as written, leaves a flag not passed on, and merges the objective away. */
module MergedAway {
  import opened Types
  import opened Jobs
  import opened Closure
  import opened Submission
  import opened Ordering
  import opened Plans
  import opened Cascade
  import opened Merging
  import opened GoalFlags
  import opened VisitLists
  import opened JobSubmit

  const GoalStart := Key("goal", Start)
  const AStart := Key("a", Start)
  const AVerify := Key("a", Verify)
  const CStart := Key("c", Start)

  /** The goal wants "a" started, which requires "c", and requires "a" verified. */
  function Mixed(): Graph {
    map["goal" := [Link({AddVerify, AddStartNonreq}, "a")], "a" := [Link({AddStart}, "c")], "c" := []]
  }

  function MixedPlan(): Plan {
    Plan(GoalStart, map["goal" := [Start], "a" := [Start, Verify], "c" := [Start]], {GoalStart, AVerify},
         map[ReqId(GoalStart, 0) := Req(GoalStart, AStart, false, false),
             ReqId(GoalStart, 1) := Req(GoalStart, AVerify, true, true),
             ReqId(AStart, 0) := Req(AStart, CStart, true, false)])
  }

  lemma MixedKinds(l: Link)
    requires l == Link({AddVerify, AddStartNonreq}, "a")
    ensures RuleVisits([l], Rules(Start)) == [Visit(AStart, false), Visit(AVerify, true)]
  {
    hide RuleVisits, EdgeVisits, Rules;
    FiveRules([l]);
    OneLink(l, Rule(AddStart, Start, true));
    OneLink(l, Rule(AddStartNonreq, Start, false));
    OneLink(l, Rule(AddVerify, Verify, true));
    OneLink(l, Rule(AddStop, Stop, true));
    OneLink(l, Rule(AddStopNonreq, Stop, false));
  }

  lemma {:induction false} VerifyAsksNothing(links: seq<Link>)
    ensures RuleVisits(links, Rules(Verify)) == []
  {
  }

  lemma MixedVisits()
    ensures Closed(Mixed()) && Visits(Mixed(), GoalStart) == [Visit(AStart, false), Visit(AVerify, true)]
    ensures Visits(Mixed(), AStart) == [Visit(CStart, true)] && Visits(Mixed(), AVerify) == []
    ensures Visits(Mixed(), CStart) == []
  {
    var g := Mixed();
    hide RuleVisits, EdgeVisits, Rules;
    MixedKinds(g["goal"][0]);
    StartVisits(g["a"], AddStart);
    OneLink(g["a"][0], Rule(AddStart, Start, true));
    VerifyAsksNothing(g["a"]);
    StartVisits(g["c"], AddStart);
    NoMatch(g["c"], Rule(AddStart, Start, true));
  }

  lemma SubmitsMixed()
    ensures Closed(Mixed()) && PlanOf(Submit(Mixed(), NOTHING, GoalStart, true), GoalStart) == MixedPlan()
  {
    var g := Mixed();
    MixedVisits();
    hide Visits;
    assert [] + [Start] == [Start] && [Start] + [Verify] == [Start, Verify];
    var s := Created(NOTHING, GoalStart, true);
    CreatedKeys(g, NOTHING, GoalStart, true);
    var t := Created(s, AStart, false);
    CreatedKeys(g, s, AStart, false);
    var u := Created(t, CStart, false);
    CreatedKeys(g, t, CStart, false);
    assert Submit(g, t, CStart, false) == u;
    var v := u.(req := u.req[ReqId(AStart, 0) := Req(AStart, CStart, true, false)]);
    assert Expand(g, v, AStart, 1) == v;
    assert Expand(g, t, AStart, 0) == v;
    assert Submit(g, s, AStart, false) == v;
    var w := v.(req := v.req[ReqId(GoalStart, 0) := Req(GoalStart, AStart, false, false)]);
    assert Expand(g, s, GoalStart, 0) == Expand(g, w, GoalStart, 1);
    hide Mixed;
    SubmitsAVerify(w);
  }

  lemma {:induction false} SubmitsAVerify(s: Snap)
    requires Closed(Mixed()) && s.upgraded == {} && s.flagged == {GoalStart}
    requires s.jobs == map["goal" := [Start], "a" := [Start], "c" := [Start]]
    requires s.req == map[ReqId(GoalStart, 0) := Req(GoalStart, AStart, false, false),
                          ReqId(AStart, 0) := Req(AStart, CStart, true, false)]
    requires "goal" in Mixed() && |Visits(Mixed(), GoalStart)| == 2
    ensures PlanOf(Expand(Mixed(), s, GoalStart, 1), GoalStart) == MixedPlan()
  {
    var g := Mixed();
    MixedVisits();
    hide Visits;
    assert [Start] + [Verify] == [Start, Verify];
    var t := Created(s, AVerify, true);
    CreatedKeys(g, s, AVerify, true);
    assert Submit(g, s, AVerify, true) == t;
    var u := t.(req := t.req[ReqId(GoalStart, 1) := Req(GoalStart, AVerify, true, true)]);
    assert Expand(g, u, GoalStart, 2) == u;
    assert Expand(g, s, GoalStart, 1) == u;
  }

  lemma MixedShape()
    ensures MixedPlan().jobs.Keys == {"goal", "a", "c"} && MixedPlan().jobs["a"] == [Start, Verify]
    ensures MixedPlan().jobs["c"] == [Start] && MixedPlan().flagged == {GoalStart, AVerify}
    ensures ReqId(AStart, 0) in MixedPlan().req && MixedPlan().req[ReqId(AStart, 0)] == Req(AStart, CStart, true, false)
  {
  }

  /** Submission leaves flags passed on; merging takes the need of the start job to the flagged verify job. */
  lemma FlagNotPassedOn()
    ensures Closed(Mixed()) && PlanOf(Submit(Mixed(), NOTHING, GoalStart, true), GoalStart) == MixedPlan()
    ensures FlagsPropagated(MixedPlan()) && forall o :: !Conflicting(MixedPlan(), o)
    ensures !FlagsPropagated(Merged(MixedPlan(), MixedPlan().jobs.Keys))
  {
    SubmitsMixed();
    var p := MixedPlan();
    MixedShape();
    assert FlagsPropagated(p);
    hide MixedPlan, Submit, FlagsPropagated;
    NeedMoves(p);
  }

  lemma NeedMoves(p: Plan)
    requires p.jobs.Keys == {"goal", "a", "c"} && p.jobs["a"] == [Start, Verify] && p.jobs["c"] == [Start]
    requires p.flagged == {GoalStart, AVerify}
    requires ReqId(AStart, 0) in p.req && p.req[ReqId(AStart, 0)] == Req(AStart, CStart, true, false)
    ensures !FlagsPropagated(Merged(p, p.jobs.Keys)) && forall o :: !Conflicting(p, o)
  {
    MixedImage(p);
    var f := MergeImage(p, p.jobs.Keys);
    var q := Merged(p, p.jobs.Keys);
    NotFlagged(p, f);
    NeedImage(p.req, f);
    hide MergeImage, MergedLists, ImageOfReqs;
    assert AVerify in q.flagged;
    assert p.flagged == {GoalStart, AVerify};
  }

  lemma NeedImage(req: Reqs, f: Image)
    requires AStart in f && f[AStart] == AVerify && CStart in f && f[CStart] == CStart
    requires ReqId(AStart, 0) in req && req[ReqId(AStart, 0)] == Req(AStart, CStart, true, false)
    ensures ReqId(AStart, 0) in ImageOfReqs(req, f)
    ensures ImageOfReqs(req, f)[ReqId(AStart, 0)] == Req(AVerify, CStart, true, false)
  {
  }

  lemma MixedImage(p: Plan)
    requires p.jobs.Keys == {"goal", "a", "c"} && p.jobs["a"] == [Start, Verify] && p.jobs["c"] == [Start]
    requires p.flagged == {GoalStart, AVerify}
    ensures var f := MergeImage(p, p.jobs.Keys);
            && AStart in f && f[AStart] == AVerify && AVerify in f && f[AVerify] == AVerify
            && CStart in f && f[CStart] == CStart
  {
    assert p.jobs["a"][0] == Start && p.jobs["a"][1] == Verify && p.jobs["c"][0] == Start;
    assert AStart in Keys(p.jobs) && AVerify in Keys(p.jobs) && CStart in Keys(p.jobs);
  }

  lemma NotFlagged(p: Plan, f: Image)
    requires p.flagged == {GoalStart, AVerify} && f == MergeImage(p, p.jobs.Keys)
    ensures CStart !in ImageOfFlags(p.flagged, f)
  {
    assert forall k :: k in f ==> f[k].obj == k.obj;
    hide MergeImage;
  }

  // ---------------------------------------------------------------------------------------------------
  // The objective

  /** The goal requires "x" started, which requires the goal's object verified. */
  function Looped(): Graph {
    map["goal" := [Link({AddStart}, "x")], "x" := [Link({AddVerify}, "goal")]]
  }

  lemma VerifyLink(l: Link)
    requires l == Link({AddVerify}, "goal")
    ensures RuleVisits([l], Rules(Start)) == [Visit(Key("goal", Verify), true)]
  {
    hide RuleVisits, EdgeVisits, Rules;
    FiveRules([l]);
    OneLink(l, Rule(AddStart, Start, true));
    OneLink(l, Rule(AddStartNonreq, Start, false));
    OneLink(l, Rule(AddVerify, Verify, true));
    OneLink(l, Rule(AddStop, Stop, true));
    OneLink(l, Rule(AddStopNonreq, Stop, false));
  }

  lemma LoopedVisits()
    ensures Closed(Looped()) && Visits(Looped(), GoalStart) == [Visit(Key("x", Start), true)]
    ensures Visits(Looped(), Key("x", Start)) == [Visit(Key("goal", Verify), true)]
    ensures Visits(Looped(), Key("goal", Verify)) == []
  {
    var g := Looped();
    hide RuleVisits, EdgeVisits, Rules;
    StartVisits(g["goal"], AddStart);
    OneLink(g["goal"][0], Rule(AddStart, Start, true));
    VerifyLink(g["x"][0]);
    VerifyAsksNothing(g["goal"]);
  }

  lemma SubmitsLooped()
    ensures Closed(Looped())
    ensures var p := PlanOf(Submit(Looped(), NOTHING, GoalStart, true), GoalStart);
            && p.jobs == map["goal" := [Start, Verify], "x" := [Start]]
            && p.flagged == {GoalStart, Key("x", Start), Key("goal", Verify)}
  {
    var g, x, y := Looped(), Key("x", Start), Key("goal", Verify);
    LoopedVisits();
    hide Visits;
    assert [] + [Start] == [Start] && [Start] + [Verify] == [Start, Verify];
    var s := Created(NOTHING, GoalStart, true);
    CreatedKeys(g, NOTHING, GoalStart, true);
    var t := Created(s, x, true);
    CreatedKeys(g, s, x, true);
    var u := Created(t, y, true);
    CreatedKeys(g, t, y, true);
    assert Submit(g, t, y, true) == u;
    var v := u.(req := u.req[ReqId(x, 0) := Req(x, y, true, true)]);
    assert Expand(g, v, x, 1) == v;
    assert Expand(g, t, x, 0) == v;
    assert Submit(g, s, x, true) == v;
    var w := v.(req := v.req[ReqId(GoalStart, 0) := Req(GoalStart, x, true, true)]);
    assert Expand(g, w, GoalStart, 1) == w;
    assert Expand(g, s, GoalStart, 0) == w;
  }

  /** Merging succeeds, and the objective is no longer among the jobs. */
  lemma ObjectiveMergedAway()
    ensures Closed(Looped())
    ensures var p := PlanOf(Submit(Looped(), NOTHING, GoalStart, true), GoalStart);
            && (forall o :: !Conflicting(p, o))
            && p.objective in Keys(p.jobs) && p.objective !in Keys(Merged(p, p.jobs.Keys).jobs)
  {
    SubmitsLooped();
    var p := PlanOf(Submit(Looped(), NOTHING, GoalStart, true), GoalStart);
    assert p.objective == GoalStart;
    hide Submit, Looped;
    StartGoes(p);
  }

  lemma StartGoes(p: Plan)
    requires p.jobs == map["goal" := [Start, Verify], "x" := [Start]] && p.objective == GoalStart
    requires p.flagged == {GoalStart, Key("x", Start), Key("goal", Verify)}
    ensures (forall o :: !Conflicting(p, o)) && p.objective in Keys(p.jobs)
    ensures p.objective !in Keys(Merged(p, p.jobs.Keys).jobs)
  {
    assert p.jobs["goal"] == [Start, Verify] && p.jobs["goal"][0] == Start;
    assert Merged(p, p.jobs.Keys).jobs["goal"] == [Verify];
  }
}
