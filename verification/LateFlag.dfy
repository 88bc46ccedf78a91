/** A graph on which `job_submit` sets a goal flag too late to be passed on. */
module LateFlag {
  import opened Types
  import opened Jobs
  import opened Walks
  import opened Closure
  import opened Submission
  import opened Plans
  import opened Cascade
  import opened GoalFlags
  import opened VisitLists
  import opened JobSubmit

  const GOAL := Key("goal", Start)
  const X := Key("x", Start)
  const A := Key("a", Start)
  const B := Key("b", Start)

  /** The goal requires "x" and "a"; "x" wants "a", and so is the first to reach it; "a" requires "b". */
  function Late(): Graph {
    map["goal" := [Link({AddStart}, "x"), Link({AddStart}, "a")],
        "x" := [Link({AddStartNonreq}, "a")],
        "a" := [Link({AddStart}, "b")],
        "b" := []]
  }

  lemma LateVisits()
    ensures Closed(Late())
    ensures Visits(Late(), GOAL) == [Visit(X, true), Visit(A, true)]
    ensures Visits(Late(), X) == [Visit(A, false)] && Visits(Late(), A) == [Visit(B, true)] && Visits(Late(), B) == []
  {
    var g := Late();
    hide RuleVisits, EdgeVisits, Rules;
    StartVisits(g["goal"], AddStart);
    StartVisits(g["x"], AddStartNonreq);
    StartVisits(g["a"], AddStart);
    StartVisits(g["b"], AddStart);
    NoMatch(g["b"], Rule(AddStart, Start, true));
    TwoLinks(g["goal"][0], g["goal"][1], Rule(AddStart, Start, true));
    OneLink(g["goal"][0], Rule(AddStart, Start, true));
    OneLink(g["goal"][1], Rule(AddStart, Start, true));
    OneLink(g["x"][0], Rule(AddStartNonreq, Start, false));
    OneLink(g["a"][0], Rule(AddStart, Start, true));
  }

  /** What submitting the goal leaves: "a" is flagged, "b", which it requires, is not. */
  function Left(): Snap {
    Snap(map["goal" := [Start], "x" := [Start], "a" := [Start], "b" := [Start]], {GOAL, X, A}, {A},
         map[ReqId(A, 0) := Req(A, B, true, false), ReqId(X, 0) := Req(X, A, false, false),
             ReqId(GOAL, 0) := Req(GOAL, X, true, true), ReqId(GOAL, 1) := Req(GOAL, A, true, true)])
  }

  lemma {:induction false} SubmitsA(s: Snap)
    requires Closed(Late()) && Visits(Late(), A) == [Visit(B, true)] && Visits(Late(), B) == []
    requires "a" !in s.jobs && "b" !in s.jobs && A !in s.flagged
    ensures Submit(Late(), s, A, false) ==
            s.(jobs := s.jobs["a" := [Start]]["b" := [Start]], req := s.req[ReqId(A, 0) := Req(A, B, true, false)])
  {
    var g := Late();
    var t := Created(s, A, false);
    CreatedKeys(g, s, A, false);
    assert [] + [Start] == [Start];
    CreatedKeys(g, t, B, false);
    var u := Created(t, B, false);
    assert Expand(g, u, B, 0) == u;
    assert Submit(g, t, B, false) == u;
    var v := u.(req := u.req[ReqId(A, 0) := Req(A, B, true, false)]);
    assert Expand(g, v, A, 1) == v;
    assert Expand(g, t, A, 0) == v;
  }

  lemma {:induction false} SubmitsX(s: Snap)
    requires Closed(Late()) && Visits(Late(), X) == [Visit(A, false)]
    requires Visits(Late(), A) == [Visit(B, true)] && Visits(Late(), B) == []
    requires "x" !in s.jobs && "a" !in s.jobs && "b" !in s.jobs && A !in s.flagged
    ensures Submit(Late(), s, X, true) ==
            Snap(s.jobs["x" := [Start]]["a" := [Start]]["b" := [Start]], s.flagged + {X}, s.upgraded,
                 s.req[ReqId(A, 0) := Req(A, B, true, false)][ReqId(X, 0) := Req(X, A, false, false)])
  {
    var g := Late();
    var t := Created(s, X, true);
    CreatedKeys(g, s, X, true);
    assert [] + [Start] == [Start];
    SubmitsA(t);
    var u := Submit(g, t, A, false);
    var v := u.(req := u.req[ReqId(X, 0) := Req(X, A, false, false)]);
    assert Expand(g, v, X, 1) == v;
    assert Expand(g, t, X, 0) == v;
  }

  lemma SubmitsGoal()
    ensures Closed(Late()) && Submit(Late(), NOTHING, GOAL, true) == Left()
  {
    var g := Late();
    LateVisits();
    var t := Created(NOTHING, GOAL, true);
    CreatedKeys(g, NOTHING, GOAL, true);
    assert [] + [Start] == [Start];
    SubmitsX(t);
    var u := Submit(g, t, X, true);
    var v := u.(req := u.req[ReqId(GOAL, 0) := Req(GOAL, X, true, true)]);
    assert Submit(g, v, A, true) == Flagged(v, A, true);
    var w := Flagged(v, A, true);
    var z := w.(req := w.req[ReqId(GOAL, 1) := Req(GOAL, A, true, true)]);
    assert Expand(g, z, GOAL, 2) == z;
    assert Expand(g, v, GOAL, 1) == z;
    assert Expand(g, t, GOAL, 0) == z;
    assert z == Left();
  }

  /**
    * After submission neither the flags nor the goal bits need be exact; nor does deletion take along the jobs
    * that require the deleted one, of which one may be goal-required.
    */
  lemma FlaggedTooLate()
    ensures Closed(Late()) && Submit(Late(), NOTHING, GOAL, true) == Left()
    ensures !FlagsExact(PlanOf(Left(), GOAL), GOAL) && !GoalBitsExact(PlanOf(Left(), GOAL))
    ensures B !in Left().flagged && A in Upward(PlanOf(Left(), GOAL), {B}) * Left().flagged
  {
    hide *;
    SubmitsGoal();
    LeftInexact();
    LeftCascade();
  }

  lemma LeftInexact()
    ensures !FlagsExact(PlanOf(Left(), GOAL), GOAL) && !GoalBitsExact(PlanOf(Left(), GOAL)) && B !in Left().flagged
  {
    var p := PlanOf(Left(), GOAL);
    LeftKeys();
    LeftReqs(p);
    assert B !in p.flagged && A in p.flagged;
    hide Left, Needs, Keys, Reaches, Step;
    NeedStep(p, GOAL, A);
    NeedStep(p, A, B);
    ReachesSelf(Needs(p), GOAL);
    ReachesThroughStep(Needs(p), GOAL, GOAL, A);
    ReachesThroughStep(Needs(p), GOAL, A, B);
  }

  lemma LeftReqs(p: Plan)
    requires p == PlanOf(Left(), GOAL)
    ensures ReqId(GOAL, 1) in p.req && p.req[ReqId(GOAL, 1)] == Req(GOAL, A, true, true)
    ensures ReqId(A, 0) in p.req && p.req[ReqId(A, 0)] == Req(A, B, true, false)
  {
  }

  lemma LeftCascade()
    ensures A in Upward(PlanOf(Left(), GOAL), {B}) * Left().flagged
  {
    var p := PlanOf(Left(), GOAL);
    LeftKeys();
    LeftReqs(p);
    assert A in p.flagged;
    hide Left, Requirers, Keys, Reaches, Step;
    RequirerStep(p, B, A);
    ReachesSelf(Requirers(p), B);
    ReachesThroughStep(Requirers(p), B, B, A);
    assert TakesAlong(p, {B}, A);
  }

  lemma LeftKeys()
    ensures Keys(Left().jobs) == {GOAL, X, A, B}
  {
    var jobs := Left().jobs;
    assert jobs["goal"][0] == Start && jobs["x"][0] == Start && jobs["a"][0] == Start && jobs["b"][0] == Start;
  }
}
