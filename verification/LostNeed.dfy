/** A graph on which the code deletes a job that a job it keeps requires. */
module LostNeed {
  import opened Types
  import opened Jobs
  import opened Walks
  import opened Closure
  import opened Ordering
  import opened Plans
  import opened Cascade
  import opened GoalFlags
  import opened VisitLists
  import opened JobSubmit
  import opened SinglePass

  /** The goal merely wants "x"; "x" requires "y", which is ordered after itself. */
  function Needy(): Graph {
    map["goal" := [Link({AddStartNonreq}, "x")], "x" := [Link({AddStart}, "y")], "y" := [Link({After}, "y")]]
  }

  function NeedyPlan(): Plan {
    var goal, x, y := Key("goal", Start), Key("x", Start), Key("y", Start);
    Plan(goal, map["goal" := [Start], "x" := [Start], "y" := [Start]], {goal},
         map[ReqId(goal, 0) := Req(goal, x, false, false), ReqId(x, 0) := Req(x, y, true, false)])
  }

  lemma NeedyVisits()
    ensures Closed(Needy())
    ensures Visits(Needy(), Key("goal", Start)) == [Visit(Key("x", Start), false)]
    ensures Visits(Needy(), Key("x", Start)) == [Visit(Key("y", Start), true)] && Visits(Needy(), Key("y", Start)) == []
  {
    var g := Needy();
    hide RuleVisits, EdgeVisits, Rules;
    StartVisits(g["goal"], AddStartNonreq);
    StartVisits(g["x"], AddStart);
    NothingAsked(g["y"]);
    OneLink(g["goal"][0], Rule(AddStartNonreq, Start, false));
    OneLink(g["x"][0], Rule(AddStart, Start, true));
  }

  lemma SubmitsNeedy()
    ensures Closed(Needy())
    ensures PlanOf(Submit(Needy(), NOTHING, Key("goal", Start), true), Key("goal", Start)) == NeedyPlan()
  {
    var g, goal, x, y := Needy(), Key("goal", Start), Key("x", Start), Key("y", Start);
    NeedyVisits();
    hide Visits;
    assert [] + [Start] == [Start];
    var s := Created(NOTHING, goal, true);
    CreatedKeys(g, NOTHING, goal, true);
    var t := Created(s, x, false);
    CreatedKeys(g, s, x, false);
    var u := Created(t, y, false);
    CreatedKeys(g, t, y, false);
    assert Submit(g, t, y, false) == u;
    var v := u.(req := u.req[ReqId(x, 0) := Req(x, y, true, false)]);
    assert Expand(g, v, x, 1) == v;
    assert Expand(g, t, x, 0) == v;
    assert Submit(g, s, x, false) == v;
    var w := v.(req := v.req[ReqId(goal, 0) := Req(goal, x, false, false)]);
    assert Expand(g, w, goal, 1) == w;
    assert Expand(g, s, goal, 0) == w;
  }

  lemma NeedySearches()
    ensures Closed(Needy())
    ensures Search(Needy(), NeedyPlan().jobs, "goal", []).None? && Search(Needy(), NeedyPlan().jobs, "x", []).None?
    ensures Search(Needy(), NeedyPlan().jobs, "y", []) == Some(["y"])
  {
    var g, jobs := Needy(), NeedyPlan().jobs;
    assert Trail(g, ["goal"]) && Trail(g, ["x"]) && Trail(g, ["y"]);
    assert [] + ["goal"] == ["goal"] && [] + ["x"] == ["x"] && [] + ["y"] == ["y"];
    assert SearchEdges(g, jobs, "goal", 1, ["goal"]).None?;
    assert SearchEdges(g, jobs, "x", 1, ["x"]).None?;
    assert Search(g, jobs, "y", ["y"]) == Some(["y"]);
    assert SearchEdges(g, jobs, "y", 0, ["y"]) == Some(["y"]);
  }

  lemma YGoes()
    ensures TryRemove(NeedyPlan(), ["y"]) == Some(DeleteObject(NeedyPlan(), "y"))
  {
    var p := NeedyPlan();
    assert forall id :: id in p.req ==> !p.req[id].goal;
    assert JobsOn(p.jobs, "y") == {Key("y", Start)};
  }

  lemma NeedyPass()
    ensures Closed(Needy())
    ensures Pass(Needy(), NeedyPlan(), ["goal", "x", "y"]) == (true, DeleteObject(NeedyPlan(), "y"))
  {
    var g, p := Needy(), NeedyPlan();
    NeedySearches();
    YGoes();
    assert ["goal", "x", "y"][1..] == ["x", "y"] && ["x", "y"][1..] == ["y"] && ["y"][1..] == [];
    assert p.jobs["y"] == [Start];
    hide Search, TryRemove, DeleteObject;
    assert Pass(g, p, ["y"]) == (true, DeleteObject(p, "y"));
    assert Pass(g, p, ["x", "y"]) == (true, DeleteObject(p, "y"));
  }

  /** The pass deletes "y" and keeps "x", whose required requirement on "y" is gone. */
  lemma NeedIsLost()
    ensures Closed(Needy())
    ensures PlanOf(Submit(Needy(), NOTHING, Key("goal", Start), true), Key("goal", Start)) == NeedyPlan()
    ensures var (ok, left) := Pass(Needy(), NeedyPlan(), ["goal", "x", "y"]);
            && ok && Key("x", Start) in Keys(left.jobs) && ReqId(Key("x", Start), 0) !in left.req
            && NeedyPlan().req[ReqId(Key("x", Start), 0)].required
            && Key("x", Start) in Upward(NeedyPlan(), {Key("y", Start)})
  {
    SubmitsNeedy();
    NeedyPass();
    var p, x, y := NeedyPlan(), Key("x", Start), Key("y", Start);
    var q := DeleteObject(p, "y");
    hide Submit, Pass, Needy;
    assert q.jobs["x"] == [Start] && [Start][0] == Start;
    assert x in Keys(q.jobs) && y !in Keys(q.jobs);
    assert p.jobs["x"] == [Start] && p.jobs["y"] == [Start];
    assert x in Keys(p.jobs) && y in Keys(p.jobs);
    assert p.req[ReqId(x, 0)].from == x && p.req[ReqId(x, 0)].to == y;
    RequirerStep(p, y, x);
    ReachesSelf(Requirers(p), y);
    ReachesThroughStep(Requirers(p), y, y, x);
    assert TakesAlong(p, {y}, x);
  }
}
