/** A transaction on which one pass of `verify_acyclic` returns true and leaves an ordering cycle. */
module SinglePass {
  import opened Types
  import opened Jobs
  import opened Walks
  import opened Ordering
  import opened Plans
  import opened Closure
  import opened GoalFlags
  import opened VisitLists
  import opened JobSubmit
  import opened OneWayRound

  /** "x" is ordered after itself and after "y", and "y" after itself; the goal merely wants both. */
  function TwoCycles(): Graph {
    map["goal" := [Link({AddStartNonreq}, "x"), Link({AddStartNonreq}, "y")],
        "x" := [Link({After}, "y"), Link({After}, "x")],
        "y" := [Link({After}, "y")]]
  }

  function Wanted(): Plan {
    var goal, x, y := Key("goal", Start), Key("x", Start), Key("y", Start);
    Plan(goal, map["goal" := [Start], "x" := [Start], "y" := [Start]], {goal},
         map[ReqId(goal, 0) := Req(goal, x, false, false), ReqId(goal, 1) := Req(goal, y, false, false)])
  }

  lemma SearchFromX()
    ensures Closed(TwoCycles())
    ensures Search(TwoCycles(), Wanted().jobs, "x", []) == Some(["x", "y"])
  {
    var g, jobs := TwoCycles(), Wanted().jobs;
    SearchFromY();
    assert Trail(g, ["x"]);
    assert [] + ["x"] == ["x"];
    assert SearchEdges(g, jobs, "x", 0, ["x"]) == Some(["x", "y"]);
  }

  lemma SearchFromY()
    ensures Closed(TwoCycles()) && Trail(TwoCycles(), ["x"])
    ensures Search(TwoCycles(), Wanted().jobs, "y", ["x"]) == Some(["x", "y"])
  {
    var g, jobs := TwoCycles(), Wanted().jobs;
    assert Trail(g, ["x", "y"]);
    assert ["x"] + ["y"] == ["x", "y"];
    assert Search(g, jobs, "y", ["x", "y"]) == Some(["x", "y"]);
    assert SearchEdges(g, jobs, "y", 0, ["x", "y"]) == Some(["x", "y"]);
  }

  lemma YIsUnessential()
    ensures !Essential(Wanted(), "y")
  {
    assert forall id :: id in Wanted().req ==> !Wanted().req[id].goal;
    assert JobsOn(Wanted().jobs, "y") == {Key("y", Start)};
  }

  lemma {:induction false} GoalHasNoAfterEdge(jobs: Lists)
    ensures Closed(TwoCycles())
    ensures Search(TwoCycles(), jobs, "goal", []).None?
  {
    var g := TwoCycles();
    assert Trail(g, ["goal"]) && [] + ["goal"] == ["goal"];
    assert SearchEdges(g, jobs, "goal", 2, ["goal"]).None?;
    assert SearchEdges(g, jobs, "goal", 1, ["goal"]).None?;
    assert SearchEdges(g, jobs, "goal", 0, ["goal"]).None?;
  }

  lemma WantedJobs()
    ensures Keys(Wanted().jobs) == {Key("goal", Start), Key("x", Start), Key("y", Start)}
  {
    var p := Wanted();
    assert p.jobs["x"] == [Start] && p.jobs["y"] == [Start] && p.jobs["goal"] == [Start];
    assert p.jobs["x"][0] == Start && p.jobs["y"][0] == Start && p.jobs["goal"][0] == Start;
  }

  lemma WantedIsWellFormed()
    ensures WellFormed(TwoCycles(), Wanted()) && FlagsBacked(Wanted())
  {
    WantedJobs();
    SearchFromX();
    hide Keys, Closed, Search;
    assert NoDuplicates(Wanted().jobs);
  }

  /** Once "y" has lost its jobs the rest of the pass has nothing to do. */
  lemma {:induction false} RestOfPass(q: Plan)
    requires !HasJob(q.jobs, "y")
    ensures Closed(TwoCycles())
    ensures Pass(TwoCycles(), q, ["y", "goal"]) == (true, q)
  {
    var g := TwoCycles();
    GoalHasNoAfterEdge(q.jobs);
    assert ["goal"][1..] == [];
    assert Pass(g, q, ["goal"]) == (true, q);
    assert ["y", "goal"][1..] == ["goal"];
  }

  lemma FirstRemoval()
    ensures TryRemove(Wanted(), ["x", "y"]) == Some(DeleteObject(Wanted(), "y"))
  {
    YIsUnessential();
  }

  /** Submission leaves a transaction on which the single pass returns true and leaves a cycle. */
  lemma OnePassIsNotEnough()
    ensures Closed(TwoCycles())
    ensures PlanOf(Submit(TwoCycles(), NOTHING, Key("goal", Start), true), Key("goal", Start)) == Wanted()
    ensures WellFormed(TwoCycles(), Wanted()) && FlagsBacked(Wanted())
    ensures var (ok, left) := Pass(TwoCycles(), Wanted(), ["x", "y", "goal"]);
            ok && !Acyclic(AfterGraph(TwoCycles(), left.jobs))
  {
    SubmitsWanted();
    WantedIsWellFormed();
    SearchFromX();
    FirstRemoval();
    var p := Wanted();
    var q := DeleteObject(p, "y");
    assert HasJob(p.jobs, "x") && HasJob(q.jobs, "x") && !HasJob(q.jobs, "y");
    RestOfPass(q);
    assert ["x", "y", "goal"][1..] == ["y", "goal"];
    SelfLoopStays(q);
    hide TwoCycles, Wanted, Submit, Search, TryRemove, DeleteObject, AfterGraph, Acyclic, WellFormed, FlagsBacked;
  }

  lemma SelfLoopStays(q: Plan)
    requires HasJob(q.jobs, "x")
    ensures !Acyclic(AfterGraph(TwoCycles(), q.jobs))
  {
    var ag := AfterGraph(TwoCycles(), q.jobs);
    assert TwoCycles()["x"][1] in TwoCycles()["x"];
    assert Step(ag, "x", "x");
    assert ClosedWalk(ag, ["x", "x"]);
  }

  // ---------------------------------------------------------------------------------------------------
  // The transaction is what submission leaves

  lemma {:induction false} NothingAsked(links: seq<Link>)
    requires forall i :: 0 <= i < |links| ==> links[i].kinds == {After}
    ensures RuleVisits(links, Rules(Start)) == []
  {
    FiveRules(links);
    NoMatch(links, Rule(AddStart, Start, true));
    NoMatch(links, Rule(AddStartNonreq, Start, false));
    NoMatch(links, Rule(AddVerify, Verify, true));
    NoMatch(links, Rule(AddStop, Stop, true));
    NoMatch(links, Rule(AddStopNonreq, Stop, false));
  }

  lemma TwoCyclesVisits()
    ensures Closed(TwoCycles())
    ensures Visits(TwoCycles(), Key("goal", Start)) == [Visit(Key("x", Start), false), Visit(Key("y", Start), false)]
    ensures Visits(TwoCycles(), Key("x", Start)) == [] && Visits(TwoCycles(), Key("y", Start)) == []
  {
    var g := TwoCycles();
    hide RuleVisits, EdgeVisits, Rules;
    NothingAsked(g["x"]);
    NothingAsked(g["y"]);
    StartVisits(g["goal"], AddStartNonreq);
    TwoLinks(g["goal"][0], g["goal"][1], Rule(AddStartNonreq, Start, false));
    OneLink(g["goal"][0], Rule(AddStartNonreq, Start, false));
    OneLink(g["goal"][1], Rule(AddStartNonreq, Start, false));
  }

  lemma SubmitsWanted()
    ensures Closed(TwoCycles())
    ensures PlanOf(Submit(TwoCycles(), NOTHING, Key("goal", Start), true), Key("goal", Start)) == Wanted()
  {
    var g, goal, x, y := TwoCycles(), Key("goal", Start), Key("x", Start), Key("y", Start);
    TwoCyclesVisits();
    hide Visits;
    assert [] + [Start] == [Start];
    var s := Created(NOTHING, goal, true);
    CreatedKeys(g, NOTHING, goal, true);
    var t := Created(s, x, false);
    CreatedKeys(g, s, x, false);
    assert Submit(g, s, x, false) == t;
    var u := t.(req := t.req[ReqId(goal, 0) := Req(goal, x, false, false)]);
    var v := Created(u, y, false);
    CreatedKeys(g, u, y, false);
    assert Submit(g, u, y, false) == v;
    var w := v.(req := v.req[ReqId(goal, 1) := Req(goal, y, false, false)]);
    assert Expand(g, w, goal, 2) == w;
    assert Expand(g, u, goal, 1) == w;
    assert Expand(g, s, goal, 0) == w;
  }

  /** From "x", which is on a cycle, both edges lead to one. */
  lemma TwoWays()
    ensures !OneWay(AfterGraph(TwoCycles(), Wanted().jobs))
  {
    var g, jobs := TwoCycles(), Wanted().jobs;
    var ag := AfterGraph(g, jobs);
    assert Follows(g, "x", "x") by {
      assert g["x"][1] == Link({After}, "x");
    }
    assert Follows(g, "x", "y") by {
      assert g["x"][0] == Link({After}, "y");
    }
    assert Follows(g, "y", "y") by {
      assert g["y"][0] == Link({After}, "y");
    }
    AfterStep(g, jobs, "x", "x");
    AfterStep(g, jobs, "x", "y");
    AfterStep(g, jobs, "y", "y");
    hide AfterGraph;
    assert ClosedWalk(ag, ["x", "x"]) && OnCycle(ag, "x");
    SelfLoops(ag, "x");
    SelfLoops(ag, "y");
    assert LeadsOn(ag, "x", "x") && LeadsOn(ag, "x", "y");
  }

  lemma SelfLoops(ag: Digraph<Obj>, o: Obj)
    requires Step(ag, o, o)
    ensures Loops(ag, o, [])
  {
    var w := [o, o];
    assert w[0] == w[1] && Lasso(ag, w, []);
  }

  // ---------------------------------------------------------------------------------------------------
  // Two ways need not do harm

  /** As the graph above, but with the edge of "x" to itself listed first. */
  function SelfFirst(): Graph {
    map["goal" := [Link({AddStartNonreq}, "x"), Link({AddStartNonreq}, "y")],
        "x" := [Link({After}, "x"), Link({After}, "y")],
        "y" := [Link({After}, "y")]]
  }

  lemma {:induction false} SearchFindsSelf(jobs: Lists, o: Obj)
    requires (o == "x" || o == "y") && HasJob(jobs, o)
    ensures Closed(SelfFirst()) && Search(SelfFirst(), jobs, o, []) == Some([o])
  {
    var g := SelfFirst();
    assert Trail(g, [o]) && [] + [o] == [o];
    assert g[o][0] == Link({After}, o);
    assert Search(g, jobs, o, [o]) == Some([o]);
    assert SearchEdges(g, jobs, o, 0, [o]) == Some([o]);
  }

  lemma {:induction false} GoalSearchesNothing(jobs: Lists)
    ensures Closed(SelfFirst()) && Search(SelfFirst(), jobs, "goal", []).None?
  {
    var g := SelfFirst();
    assert Trail(g, ["goal"]) && [] + ["goal"] == ["goal"];
    assert SearchEdges(g, jobs, "goal", 2, ["goal"]).None?;
    assert SearchEdges(g, jobs, "goal", 1, ["goal"]).None?;
    assert SearchEdges(g, jobs, "goal", 0, ["goal"]).None?;
  }

  /** Nothing is goal-required, and the objective is not on `o`: the object is not essential. */
  lemma {:induction false} MerelyWantedGoes(p: Plan, o: Obj)
    requires p.objective.obj == "goal" && o != "goal" && forall id :: id in p.req ==> !p.req[id].goal
    ensures TryRemove(p, [o]) == Some(DeleteObject(p, o))
  {
    assert !Essential(p, o);
    hide Essential, DeleteObject;
  }

  lemma {:induction false} EachGoesOnItsTurn(p: Plan, order: seq<Obj>)
    requires p.objective.obj == "goal" && forall id :: id in p.req ==> !p.req[id].goal
    requires forall o :: o in order ==> o == "goal" || o == "x" || o == "y"
    ensures Closed(SelfFirst()) && Pass(SelfFirst(), p, order).0
    ensures forall o :: o == "x" || o == "y" ==>
              (o in order || !HasJob(p.jobs, o)) ==> !HasJob(Pass(SelfFirst(), p, order).1.jobs, o)
    decreases |order|
  {
    var g := SelfFirst();
    GoalSearchesNothing(p.jobs);
    if order != [] {
      var o, rest := order[0], order[1..];
      assert o in order && forall x :: x in rest ==> x in order;
      hide SelfFirst, Search, TryRemove;
      if o != "goal" && HasJob(p.jobs, o) {
        SearchFindsSelf(p.jobs, o);
        MerelyWantedGoes(p, o);
        EachGoesOnItsTurn(DeleteObject(p, o), rest);
      } else {
        EachGoesOnItsTurn(p, rest);
      }
    }
  }

  lemma OnlyGoalLeft(jobs: Lists)
    requires !HasJob(jobs, "x") && !HasJob(jobs, "y")
    ensures Acyclic(AfterGraph(SelfFirst(), jobs))
  {
    var ag := AfterGraph(SelfFirst(), jobs);
    forall w | ClosedWalk(ag, w)
      ensures false
    {
      assert Step(ag, w[0], w[0 + 1]);
      AfterStep(SelfFirst(), jobs, w[0], w[1]);
    }
  }

  lemma SelfFirstTwoWays()
    ensures !OneWay(AfterGraph(SelfFirst(), Wanted().jobs))
  {
    var g, jobs := SelfFirst(), Wanted().jobs;
    var ag := AfterGraph(g, jobs);
    assert Follows(g, "x", "x") by {
      assert g["x"][0] == Link({After}, "x");
    }
    assert Follows(g, "x", "y") by {
      assert g["x"][1] == Link({After}, "y");
    }
    assert Follows(g, "y", "y") by {
      assert g["y"][0] == Link({After}, "y");
    }
    AfterStep(g, jobs, "x", "x");
    AfterStep(g, jobs, "x", "y");
    AfterStep(g, jobs, "y", "y");
    hide AfterGraph;
    assert ClosedWalk(ag, ["x", "x"]) && OnCycle(ag, "x");
    SelfLoops(ag, "x");
    SelfLoops(ag, "y");
    assert LeadsOn(ag, "x", "x") && LeadsOn(ag, "x", "y");
  }

  /**
    * The condition under which one pass is enough is not necessary: here it fails, and still the pass, in whatever
    * order it goes over the objects, returns true and leaves no cycle.
    */
  lemma {:induction false} TwoWaysCanBeFine(order: seq<Obj>)
    requires forall o :: o in order <==> o in Wanted().jobs
    ensures !OneWay(AfterGraph(SelfFirst(), Wanted().jobs))
    ensures Closed(SelfFirst()) && Pass(SelfFirst(), Wanted(), order).0
    ensures Acyclic(AfterGraph(SelfFirst(), Pass(SelfFirst(), Wanted(), order).1.jobs))
  {
    SelfFirstTwoWays();
    assert "x" in Wanted().jobs && "y" in Wanted().jobs;
    EachGoesOnItsTurn(Wanted(), order);
    OnlyGoalLeft(Pass(SelfFirst(), Wanted(), order).1.jobs);
  }
}
