/** When `job_submit` sets no goal flag too late, seen from the graph and the goal. */
module EarlyFlag {
  import opened Types
  import opened Jobs
  import opened Walks
  import opened Closure
  import opened Submission
  import opened GoalFlags
  import opened VisitLists
  import opened JobSubmit
  import opened LateFlag

  /** The goal requires the job, and the job requires others. */
  ghost predicate Matters(g: Graph, goal: Key, k: Key) {
    Reaches(Requires(g), goal, k) && k.obj in g && exists v :: v in Visits(g, k) && v.required
  }

  /**
    * No job that matters, the goal itself apart, is merely wanted by some job, or asked for by a job that the goal
    * does not require.
    */
  ghost predicate NeverMerelyWanted(g: Graph, goal: Key) {
    forall j, v :: Reaches(AsksFor(g), goal, j) && j.obj in g && v in Visits(g, j) && v.to != goal && Matters(g, goal, v.to) ==>
                     v.required && Reaches(Requires(g), goal, j)
  }

  /** Jobs that matter were flagged when they were created. */
  ghost predicate FlaggedEarly(g: Graph, goal: Key, s: Snap) {
    && s.upgraded <= s.flagged <= Keys(s.jobs)
    && forall k :: k in Keys(s.jobs) && Matters(g, goal, k) ==> k in s.flagged && k !in s.upgraded
  }

  lemma {:induction false} SubmitKeepsEarly(g: Graph, goal: Key, s: Snap, k: Key, flag: bool)
    requires Closed(g) && k.obj in g && NeverMerelyWanted(g, goal) && Reaches(AsksFor(g), goal, k)
    requires FlaggedEarly(g, goal, s) && (Matters(g, goal, k) ==> flag || k in s.flagged)
    requires goal in s.flagged || (k == goal && flag)
    ensures FlaggedEarly(g, goal, Submit(g, s, k, flag)) && goal in Submit(g, s, k, flag).flagged
    decreases Universe(g) - Keys(s.jobs), 0
  {
    hide Matters, NeverMerelyWanted, Expand, Universe;
    ListedIsKey(s, k);
    if !Listed(s, k) {
      CreatedKeys(g, s, k, flag);
      var t := Created(s, k, flag);
      hide Keys, Created;
      CreatedEarly(g, goal, s, k, flag);
      ExpandKeepsEarly(g, goal, t, k, 0);
    }
  }

  lemma CreatedEarly(g: Graph, goal: Key, s: Snap, k: Key, flag: bool)
    requires FlaggedEarly(g, goal, s) && k !in Keys(s.jobs) && (Matters(g, goal, k) ==> flag || k in s.flagged)
    requires goal in s.flagged || (k == goal && flag)
    requires Keys(Created(s, k, flag).jobs) == Keys(s.jobs) + {k}
    ensures FlaggedEarly(g, goal, Created(s, k, flag)) && goal in Created(s, k, flag).flagged
  {
    hide Matters, Keys;
  }

  lemma {:induction false} ExpandKeepsEarly(g: Graph, goal: Key, s: Snap, k: Key, n: nat)
    requires Closed(g) && k.obj in g && n <= |Visits(g, k)| && NeverMerelyWanted(g, goal) && Reaches(AsksFor(g), goal, k)
    requires FlaggedEarly(g, goal, s) && k in Keys(s.jobs) && goal in s.flagged
    ensures FlaggedEarly(g, goal, Expand(g, s, k, n)) && goal in Expand(g, s, k, n).flagged
    decreases Universe(g) - Keys(s.jobs), |Visits(g, k)| - n + 1
  {
    hide Submit, Universe;
    if n < |Visits(g, k)| {
      var v := Visits(g, k)[n];
      VisitStays(g, k, v);
      ReachesThroughStep(AsksFor(g), goal, k, v.to);
      var flag := k in s.flagged && v.required;
      assert Matters(g, goal, v.to) ==> flag || v.to in s.flagged by {
        VisitorMatters(g, goal, k, v);
      }
      SubmitKeepsEarly(g, goal, s, v.to, flag);
      var t := Submit(g, s, v.to, flag);
      hide Matters, NeverMerelyWanted;
      ExpandKeepsEarly(g, goal, t.(req := t.req[ReqId(k, n) := Req(k, v.to, v.required, flag)]), k, n + 1);
    }
  }

  lemma VisitorMatters(g: Graph, goal: Key, k: Key, v: Visit)
    requires NeverMerelyWanted(g, goal) && Reaches(AsksFor(g), goal, k) && k.obj in g && v in Visits(g, k)
    ensures v.to != goal && Matters(g, goal, v.to) ==> v.required && Matters(g, goal, k)
  {
  }

  /**
    * If no job other than the goal that the goal requires, and that requires others, is merely wanted anywhere, then
    * the flags and goal bits that submission leaves are exact.
    */
  lemma {:induction false} FlagsExactIfNeverMerelyWanted(g: Graph, goal: Key)
    requires Closed(g) && goal.obj in g && NeverMerelyWanted(g, goal)
    ensures var p := PlanOf(Submit(g, NOTHING, goal, true), goal);
            FlagsExact(p, goal) && GoalBitsExact(p)
  {
    var s := Submit(g, NOTHING, goal, true);
    SubmitGenerates(g, goal);
    ReachesSelf(AsksFor(g), goal);
    assert Keys(NOTHING.jobs) == {};
    SubmitKeepsEarly(g, goal, NOTHING, goal, true);
    UpgradedRequireNothing(g, goal, s);
    SubmittedFlagsExactIff(g, s, goal);
    SubmittedGoalBitsExactIff(g, s, goal);
    hide *;
  }

  lemma UpgradedRequireNothing(g: Graph, goal: Key, s: Snap)
    requires Generated(g, s, goal) && FlaggedEarly(g, goal, s)
    ensures forall k, v :: k in s.upgraded && k.obj in g && v in Visits(g, k) ==> !v.required
  {
    forall k, v | k in s.upgraded && k.obj in g && v in Visits(g, k)
      ensures !v.required
    {
      assert v.required ==> Matters(g, goal, k);
    }
  }

  /** In the graph that flags "a" too late, "a" is merely wanted by "x". */
  lemma LateIsMerelyWanted()
    ensures Closed(Late()) && !NeverMerelyWanted(Late(), GOAL)
  {
    var g := Late();
    LateVisits();
    assert "goal" in g && "x" in g && "a" in g;
    hide *;
    VisitStays(g, GOAL, Visit(X, true));
    VisitStays(g, GOAL, Visit(A, true));
    ReachesSelf(AsksFor(g), GOAL);
    ReachesSelf(Requires(g), GOAL);
    ReachesThroughStep(AsksFor(g), GOAL, GOAL, X);
    ReachesThroughStep(Requires(g), GOAL, GOAL, A);
    RequiringMatters(g, GOAL, A, Visit(B, true));
    MerelyWanted(g, GOAL, X, Visit(A, false));
  }

  lemma RequiringMatters(g: Graph, goal: Key, k: Key, v: Visit)
    requires Reaches(Requires(g), goal, k) && k.obj in g && v in Visits(g, k) && v.required
    ensures Matters(g, goal, k)
  {
  }

  lemma MerelyWanted(g: Graph, goal: Key, j: Key, v: Visit)
    requires Reaches(AsksFor(g), goal, j) && j.obj in g && v in Visits(g, j) && v.to != goal && Matters(g, goal, v.to) && !v.required
    ensures !NeverMerelyWanted(g, goal)
  {
    hide Matters, Reaches;
  }

  // ---------------------------------------------------------------------------------------------------
  // Being merely wanted need not do harm

  /** The goal both requires and wants "a", which requires "b"; the requirement comes first. */
  function Both(): Graph {
    map["goal" := [Link({AddStart, AddStartNonreq}, "a")], "a" := [Link({AddStart}, "b")], "b" := []]
  }

  lemma BothVisits()
    ensures Closed(Both()) && Visits(Both(), GOAL) == [Visit(A, true), Visit(A, false)]
    ensures Visits(Both(), A) == [Visit(B, true)] && Visits(Both(), B) == []
  {
    var g := Both();
    hide RuleVisits, EdgeVisits, Rules;
    BothKinds(g["goal"][0]);
    StartVisits(g["a"], AddStart);
    OneLink(g["a"][0], Rule(AddStart, Start, true));
    StartVisits(g["b"], AddStart);
    NoMatch(g["b"], Rule(AddStart, Start, true));
  }

  lemma BothKinds(l: Link)
    requires l == Link({AddStart, AddStartNonreq}, "a")
    ensures RuleVisits([l], Rules(Start)) == [Visit(A, true), Visit(A, false)]
  {
    hide RuleVisits, EdgeVisits, Rules;
    FiveRules([l]);
    OneLink(l, Rule(AddStart, Start, true));
    OneLink(l, Rule(AddStartNonreq, Start, false));
    OneLink(l, Rule(AddVerify, Verify, true));
    OneLink(l, Rule(AddStop, Stop, true));
    OneLink(l, Rule(AddStopNonreq, Stop, false));
  }

  lemma NoneUpgraded()
    ensures Closed(Both()) && Submit(Both(), NOTHING, GOAL, true).upgraded == {}
  {
    var g := Both();
    BothVisits();
    hide Visits;
    assert [] + [Start] == [Start];
    var s := Created(NOTHING, GOAL, true);
    CreatedKeys(g, NOTHING, GOAL, true);
    var t := Created(s, A, true);
    CreatedKeys(g, s, A, true);
    var u := Created(t, B, true);
    CreatedKeys(g, t, B, true);
    assert Submit(g, t, B, true) == u;
    var v := u.(req := u.req[ReqId(A, 0) := Req(A, B, true, true)]);
    assert Expand(g, v, A, 1) == v;
    assert Expand(g, t, A, 0) == v;
    assert Submit(g, s, A, true) == v;
    var w := v.(req := v.req[ReqId(GOAL, 0) := Req(GOAL, A, true, true)]);
    assert Submit(g, w, A, false) == w;
    var x := w.(req := w.req[ReqId(GOAL, 1) := Req(GOAL, A, false, false)]);
    assert Expand(g, x, GOAL, 2) == x;
    assert Expand(g, w, GOAL, 1) == x;
    assert Expand(g, s, GOAL, 0) == x;
  }

  /** The condition under which flags are exact is not necessary: here it fails, and flags and goal bits are exact. */
  lemma RequiredFirst()
    ensures Closed(Both()) && !NeverMerelyWanted(Both(), GOAL)
    ensures FlagsExact(PlanOf(Submit(Both(), NOTHING, GOAL, true), GOAL), GOAL)
    ensures GoalBitsExact(PlanOf(Submit(Both(), NOTHING, GOAL, true), GOAL))
  {
    var g := Both();
    BothVisits();
    NoneUpgraded();
    assert "goal" in g && "a" in g;
    hide *;
    SubmitGenerates(g, GOAL);
    var s := Submit(g, NOTHING, GOAL, true);
    SubmittedFlagsExactIff(g, s, GOAL);
    SubmittedGoalBitsExactIff(g, s, GOAL);
    VisitStays(g, GOAL, Visit(A, true));
    ReachesSelf(AsksFor(g), GOAL);
    ReachesSelf(Requires(g), GOAL);
    ReachesThroughStep(Requires(g), GOAL, GOAL, A);
    RequiringMatters(g, GOAL, A, Visit(B, true));
    MerelyWanted(g, GOAL, GOAL, Visit(A, false));
  }
}
