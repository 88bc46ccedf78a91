/** `job_submit` as a function of the transaction it is called on. */
module JobSubmit {
  import opened Types
  import opened Jobs
  import opened Closure
  import opened Submission
  import opened GoalFlags

  /** A new job at the end of the list of its object. */
  function Created(s: Snap, k: Key, goal: bool): Snap {
    s.(jobs := s.jobs[k.obj := (if k.obj in s.jobs then s.jobs[k.obj] else []) + [k.op]],
       flagged := if goal then s.flagged + {k} else s.flagged)
  }

  /** A job that is there takes the goal flag. */
  function Flagged(s: Snap, k: Key, goal: bool): Snap {
    if goal && k !in s.flagged then s.(flagged := s.flagged + {k}, upgraded := s.upgraded + {k}) else s
  }

  predicate Listed(s: Snap, k: Key) {
    k.obj in s.jobs && k.op in s.jobs[k.obj]
  }

  lemma CreatedKeys(g: Graph, s: Snap, k: Key, goal: bool)
    requires k.obj in g && !Listed(s, k)
    ensures Keys(Created(s, k, goal).jobs) == Keys(s.jobs) + {k}
    ensures k in Universe(g) && k !in Keys(s.jobs)
    ensures Universe(g) - Keys(Created(s, k, goal).jobs) < Universe(g) - Keys(s.jobs)
  {
    EveryTypeListed(k.op);
    var list := Created(s, k, goal).jobs[k.obj];
    assert list[|list| - 1] == k.op;
  }

  ghost function Submit(g: Graph, s: Snap, k: Key, goal: bool): (t: Snap)
    requires Closed(g) && k.obj in g
    ensures Keys(s.jobs) <= Keys(t.jobs)
    decreases Universe(g) - Keys(s.jobs), 0
  {
    if Listed(s, k) then
      Flagged(s, k, goal)
    else
      CreatedKeys(g, s, k, goal);
      Expand(g, Created(s, k, goal), k, 0)
  }

  /** The visits of job `k` from the n-th on. */
  ghost function Expand(g: Graph, s: Snap, k: Key, n: nat): (t: Snap)
    requires Closed(g) && k.obj in g && n <= |Visits(g, k)|
    ensures Keys(s.jobs) <= Keys(t.jobs)
    decreases Universe(g) - Keys(s.jobs), |Visits(g, k)| - n + 1
  {
    if n == |Visits(g, k)| then
      s
    else
      var v := Visits(g, k)[n];
      VisitStays(g, k, v);
      var goal := k in s.flagged && v.required;
      var t := Submit(g, s, v.to, goal);
      Expand(g, t.(req := t.req[ReqId(k, n) := Req(k, v.to, v.required, goal)]), k, n + 1)
  }

  lemma ListedIsKey(s: Snap, k: Key)
    ensures Listed(s, k) <==> k in Keys(s.jobs)
  {
  }

  // ---------------------------------------------------------------------------------------------------
  // What the function does is what the contract of `job_submit` says

  lemma {:induction false} SubmitDoes(g: Graph, s: Snap, k: Key, flag: bool)
    requires Closed(g) && k.obj in g && Consistent(g, s)
    ensures Submitted(g, s, Submit(g, s, k, flag), k, flag)
    decreases Universe(g) - Keys(s.jobs), 0
  {
    hide Consistent, Visiting, Submitted, Expand, Made, Universe;
    ListedIsKey(s, k);
    if Listed(s, k) {
      ExistingSubmitted(g, s, Submit(g, s, k, flag), k, flag);
    } else {
      CreatedKeys(g, s, k, flag);
      var t := Created(s, k, flag);
      CreatedVisits(g, s, k, flag);
      ExpandDoes(g, t, k, 0);
      assert Visits(g, k)[..0] == [] && Visits(g, k)[..|Visits(g, k)|] == Visits(g, k);
      NewJobSubmitted(g, s, t, Expand(g, t, k, 0), k, flag);
    }
  }

  lemma CreatedVisits(g: Graph, s: Snap, k: Key, flag: bool)
    requires Consistent(g, s) && k.obj in g && k !in Keys(s.jobs)
    requires Keys(Created(s, k, flag).jobs) == Keys(s.jobs) + {k}
    ensures Visiting(g, Created(s, k, flag), Created(s, k, flag), k, [])
  {
    var t := Created(s, k, flag);
    assert NoDuplicates(t.jobs) by {
      assert k.obj in s.jobs ==> k.op !in s.jobs[k.obj];
    }
    assert forall o :: o in t.jobs ==> t.jobs[o] != [];
    hide Consistent, Visiting, Keys, NoDuplicates;
    NewJobVisiting(g, s, t, k);
  }

  lemma {:induction false} ExpandDoes(g: Graph, s: Snap, k: Key, n: nat)
    requires Closed(g) && k.obj in g && n <= |Visits(g, k)| && Visiting(g, s, s, k, Visits(g, k)[..n])
    ensures Visiting(g, s, Expand(g, s, k, n), k, Visits(g, k)[..|Visits(g, k)|])
    decreases Universe(g) - Keys(s.jobs), |Visits(g, k)| - n + 1
  {
    hide Consistent, Visiting, Submitted, Submit, Made, Universe, Visits, Keys;
    var vs := Visits(g, k);
    if n < |vs| {
      var v, done := vs[n], vs[..n];
      assert vs[..n + 1] == done + [v];
      VisitStays(g, k, v);
      VisitingIsConsistent(g, s, k, done);
      var flag := k in s.flagged && v.required;
      SubmitDoes(g, s, v.to, flag);
      var t := Submit(g, s, v.to, flag);
      var u := t.(req := t.req[ReqId(k, n) := Req(k, v.to, v.required, flag)]);
      VisitMade(g, s, t, u, k, done, v, flag);
      StillVisiting(g, s, u, k, done + [v]);
      ExpandDoes(g, u, k, n + 1);
      VisitingChains(g, s, u, Expand(g, u, k, n + 1), k, done + [v], vs[..|vs|]);
    }
  }

  lemma VisitingIsConsistent(g: Graph, s: Snap, k: Key, done: seq<Visit>)
    requires Visiting(g, s, s, k, done)
    ensures Consistent(g, s)
  {
  }

  lemma StillVisiting(g: Graph, s: Snap, u: Snap, k: Key, done: seq<Visit>)
    requires Visiting(g, s, u, k, done)
    ensures Visiting(g, u, u, k, done)
  {
    hide Consistent, Made;
    StartVisiting(g, u, k, done);
  }

  lemma {:induction false} SubmitGenerates(g: Graph, goal: Key)
    requires Closed(g) && goal.obj in g
    ensures Generated(g, Submit(g, NOTHING, goal, true), goal)
  {
    SubmitDoes(g, NOTHING, goal, true);
    SubmittedFromNothing(g, Submit(g, NOTHING, goal, true), goal);
    hide *;
  }
}
