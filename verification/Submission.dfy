/** What one call of `job_submit` adds to a transaction under generation, and how such additions chain. */
module Submission {
  import opened Types
  import opened Jobs
  import opened Closure
  import opened Walks

  /**
    * The transaction while jobs are being submitted.  `upgraded` holds the jobs whose goal flag was set only
    * after they had been expanded.
    */
  datatype Snap = Snap(jobs: Lists, flagged: set<Key>, upgraded: set<Key>, req: Reqs)

  /** The requirements allocated by `k` are, in order, exactly those for the visits `vs`. */
  ghost predicate Made(req: Reqs, k: Key, vs: seq<Visit>) {
    forall n: nat {:trigger ReqId(k, n)} ::
      && (ReqId(k, n) in req <==> n < |vs|)
      && (n < |vs| ==> req[ReqId(k, n)].from == k && req[ReqId(k, n)].to == vs[n].to
                       && req[ReqId(k, n)].required == vs[n].required)
  }

  ghost predicate GoalBitOk(s: Snap, id: ReqId)
    requires id in s.req
  {
    var r := s.req[id];
    && r.from == id.maker
    && r.from in Keys(s.jobs) && r.to in Keys(s.jobs)
    && r.goal == (r.required && r.from in s.flagged && r.from !in s.upgraded)
    && (r.goal ==> r.to in s.flagged)
  }

  /** What holds of the transaction whenever `job_submit` is entered or left. */
  ghost predicate Consistent(g: Graph, s: Snap) {
    && NoDuplicates(s.jobs)
    && s.jobs.Keys <= g.Keys
    && (forall o :: o in s.jobs ==> s.jobs[o] != [])
    && s.upgraded <= s.flagged <= Keys(s.jobs)
    && (forall id :: id in s.req ==> GoalBitOk(s, id))
  }

  /** From `s` to `t` nothing is lost, and only new jobs and those in `own` allocate requirements. */
  ghost predicate Grew(s: Snap, t: Snap, own: set<Key>) {
    && Keys(s.jobs) <= Keys(t.jobs)
    && s.flagged <= t.flagged
    && s.upgraded <= t.upgraded
    && (forall k :: k in t.upgraded && k !in s.upgraded ==> k !in s.flagged)
    && (forall id :: id in s.req ==> id in t.req && t.req[id] == s.req[id])
    && (forall id :: id in t.req && id !in s.req ==> id.maker in own || id.maker !in Keys(s.jobs))
  }

  /** Every job added between `s` and `t` has made all its visits. */
  ghost predicate Finished(g: Graph, s: Snap, t: Snap) {
    forall k :: k in Keys(t.jobs) && k !in Keys(s.jobs) ==> k.obj in g && Made(t.req, k, Visits(g, k))
  }

  /** Every job added is asked for, through a chain, by `root`; every flag added is required by it. */
  ghost predicate FromRoot(g: Graph, s: Snap, t: Snap, root: Key) {
    && (forall k :: k in Keys(t.jobs) && k !in Keys(s.jobs) ==> Reaches(AsksFor(g), root, k))
    && (forall k :: k in t.flagged && k !in s.flagged ==> Reaches(Requires(g), root, k))
  }

  ghost predicate Progress(g: Graph, s: Snap, t: Snap, root: Key, own: set<Key>) {
    Grew(s, t, own) && Finished(g, s, t) && FromRoot(g, s, t, root)
  }

  ghost predicate HasGoalReq(req: Reqs, k: Key) {
    exists id :: id in req && req[id].goal && req[id].to == k
  }

  /** Every flag added, except those in `pending`, has a goal-required requirement on it. */
  ghost predicate Backed(s: Snap, t: Snap, pending: set<Key>) {
    forall k :: k in t.flagged && k !in s.flagged && k !in pending ==> HasGoalReq(t.req, k)
  }

  lemma GrewChains(s: Snap, t: Snap, u: Snap, own: set<Key>)
    requires Grew(s, t, own) && Grew(t, u, own)
    ensures Grew(s, u, own)
  {
  }

  lemma FinishedChains(g: Graph, s: Snap, t: Snap, u: Snap, own: set<Key>)
    requires Grew(s, t, own) && Grew(t, u, own) && own <= Keys(s.jobs)
    requires Finished(g, s, t) && Finished(g, t, u)
    ensures Finished(g, s, u)
  {
    forall k | k in Keys(u.jobs) && k !in Keys(s.jobs)
      ensures k.obj in g && Made(u.req, k, Visits(g, k))
    {
      if k in Keys(t.jobs) {
        assert Made(t.req, k, Visits(g, k));
        MadeStays(t, u, k, Visits(g, k), own);
      }
    }
  }

  /** A job that is not allocating keeps its requirements while others allocate theirs. */
  lemma MadeStays(t: Snap, u: Snap, k: Key, vs: seq<Visit>, own: set<Key>)
    requires Grew(t, u, own) && k in Keys(t.jobs) && k !in own
    requires Made(t.req, k, vs)
    ensures Made(u.req, k, vs)
  {
  }

  lemma ProgressChains(g: Graph, s: Snap, t: Snap, u: Snap, root: Key, own: set<Key>)
    requires Progress(g, s, t, root, own) && Progress(g, t, u, root, own)
    requires own <= Keys(s.jobs)
    ensures Progress(g, s, u, root, own)
  {
    GrewChains(s, t, u, own);
    FinishedChains(g, s, t, u, own);
  }

  lemma BackedChains(s: Snap, t: Snap, u: Snap, own: set<Key>)
    requires Grew(t, u, own) && Backed(s, t, {}) && Backed(t, u, {})
    ensures Backed(s, u, {})
  {
    forall k | k in u.flagged && k !in s.flagged
      ensures HasGoalReq(u.req, k)
    {
      if k in t.flagged {
        assert HasGoalReq(t.req, k);
      }
    }
  }

  /** What the job asked for by a visit adds, the visiting job adds. */
  lemma VisitLifts(g: Graph, s: Snap, t: Snap, k: Key, v: Visit)
    requires Closed(g) && k.obj in g && v in Visits(g, k)
    requires Progress(g, s, t, v.to, {})
    requires v.required || t.flagged == s.flagged
    ensures Progress(g, s, t, k, {k})
  {
    VisitStays(g, k, v);
    forall j | j in Keys(t.jobs) && j !in Keys(s.jobs)
      ensures Reaches(AsksFor(g), k, j)
    {
      StepThenReaches(AsksFor(g), k, v.to, j);
    }
    forall j | j in t.flagged && j !in s.flagged
      ensures Reaches(Requires(g), k, j)
    {
      StepThenReaches(Requires(g), k, v.to, j);
    }
  }

  /** Adding the requirement a visit asks for. */
  lemma RequirementAdded(g: Graph, s: Snap, t: Snap, k: Key, vs: seq<Visit>, v: Visit, goal: bool)
    requires Consistent(g, s) && Made(s.req, k, vs)
    requires k in Keys(s.jobs) && v.to in Keys(s.jobs)
    requires goal == (v.required && k in s.flagged && k !in s.upgraded)
    requires goal ==> v.to in s.flagged
    requires t == s.(req := s.req[ReqId(k, |vs|) := Req(k, v.to, v.required, goal)])
    ensures Consistent(g, t) && Made(t.req, k, vs + [v])
    ensures Progress(g, s, t, k, {k})
  {
    var id := ReqId(k, |vs|);
    forall i | i in t.req
      ensures GoalBitOk(t, i)
    {
      if i != id {
        assert i in s.req && GoalBitOk(s, i);
      }
    }
    forall n: nat
      ensures ReqId(k, n) in t.req <==> n < |vs| + 1
    {
      assert ReqId(k, n) in s.req <==> n < |vs|;
    }
  }

  /** The job `k` was added to `s` giving `t`, and then made all its visits. */
  lemma NewJobFinished(g: Graph, s: Snap, t: Snap, u: Snap, k: Key)
    requires k.obj in g && k !in Keys(s.jobs)
    requires Consistent(g, s)
    requires Keys(t.jobs) == Keys(s.jobs) + {k} && t.req == s.req && t.upgraded == s.upgraded
    requires t.flagged == s.flagged || t.flagged == s.flagged + {k}
    requires Progress(g, t, u, k, {k}) && Made(u.req, k, Visits(g, k))
    ensures Progress(g, s, u, k, {})
  {
    forall j | j in Keys(u.jobs) && j !in Keys(s.jobs)
      ensures Reaches(AsksFor(g), k, j)
    {
      ReachesSelf(AsksFor(g), k);
    }
    forall j | j in u.flagged && j !in s.flagged
      ensures Reaches(Requires(g), k, j)
    {
      ReachesSelf(Requires(g), k);
    }
    forall i | i in u.upgraded && i !in s.upgraded
      ensures i !in s.flagged
    {
      assert i !in t.flagged;
    }
  }

  /** The job `k` has made the visits `done` since `s`. */
  ghost predicate Visiting(g: Graph, s: Snap, t: Snap, k: Key, done: seq<Visit>) {
    && Consistent(g, t)
    && k in Keys(s.jobs) && k in Keys(t.jobs) && k !in t.upgraded
    && Made(t.req, k, done)
    && Progress(g, s, t, k, {k})
    && Backed(s, t, {})
    && (k !in s.flagged ==> t.flagged == s.flagged && t.upgraded == s.upgraded)
  }

  /** What submitting the job `k` does. */
  ghost predicate Submitted(g: Graph, s: Snap, t: Snap, k: Key, goal: bool) {
    && Consistent(g, t)
    && k in Keys(t.jobs)
    && Progress(g, s, t, k, {})
    && Backed(s, t, {k})
    && (goal ==> k in t.flagged)
    && (!goal ==> t.flagged == s.flagged && t.upgraded == s.upgraded)
  }

  lemma StartVisiting(g: Graph, s: Snap, k: Key, done: seq<Visit>)
    requires Consistent(g, s) && Made(s.req, k, done)
    requires k in Keys(s.jobs) && k !in s.upgraded
    ensures Visiting(g, s, s, k, done)
  {
  }

  lemma VisitingChains(g: Graph, s: Snap, t: Snap, u: Snap, k: Key, done: seq<Visit>, more: seq<Visit>)
    requires Visiting(g, s, t, k, done) && Visiting(g, t, u, k, more)
    ensures Visiting(g, s, u, k, more)
  {
    hide Consistent, Made, Finished, FromRoot, Backed;
    assert Grew(s, t, {k}) && Grew(t, u, {k});
    ProgressChains(g, s, t, u, k, {k});
    BackedChains(s, t, u, {k});
  }

  /** One visit: the job asked for is submitted and a requirement on it is added. */
  lemma VisitMade(g: Graph, s: Snap, t: Snap, u: Snap, k: Key, done: seq<Visit>, v: Visit, goal: bool)
    requires Closed(g) && k.obj in g && v in Visits(g, k)
    requires Visiting(g, s, s, k, done)
    requires goal == (k in s.flagged && v.required)
    requires Submitted(g, s, t, v.to, goal)
    requires u == t.(req := t.req[ReqId(k, |done|) := Req(k, v.to, v.required, goal)])
    ensures Visiting(g, s, u, k, done + [v])
  {
    MadeStays(s, t, k, done, {});
    VisitLifts(g, s, t, k, v);
    RequirementAdded(g, t, u, k, done, v, goal);
    ProgressChains(g, s, t, u, k, {k});
    VisitBacked(s, t, u, k, |done|, v, goal);
  }

  lemma VisitBacked(s: Snap, t: Snap, u: Snap, k: Key, n: nat, v: Visit, goal: bool)
    requires Backed(s, t, {v.to}) && (!goal ==> t.flagged == s.flagged)
    requires ReqId(k, n) !in t.req
    requires u == t.(req := t.req[ReqId(k, n) := Req(k, v.to, v.required, goal)])
    ensures Backed(s, u, {})
  {
    forall j | j in u.flagged && j !in s.flagged
      ensures HasGoalReq(u.req, j)
    {
      if j == v.to {
        assert u.req[ReqId(k, n)].to == j;
      } else {
        assert HasGoalReq(t.req, j);
        var id :| id in t.req && t.req[id].goal && t.req[id].to == j;
        assert u.req[id] == t.req[id];
      }
    }
  }

  /** A new job, created between `s` and `t`, that made all its visits between `t` and `u`. */
  lemma NewJobSubmitted(g: Graph, s: Snap, t: Snap, u: Snap, k: Key, goal: bool)
    requires k.obj in g && k !in Keys(s.jobs)
    requires Consistent(g, s)
    requires Keys(t.jobs) == Keys(s.jobs) + {k} && t.req == s.req && t.upgraded == s.upgraded
    requires t.flagged == if goal then s.flagged + {k} else s.flagged
    requires Visiting(g, t, u, k, Visits(g, k))
    ensures Submitted(g, s, u, k, goal)
  {
    NewJobFinished(g, s, t, u, k);
    forall j | j in u.flagged && j !in s.flagged && j != k
      ensures HasGoalReq(u.req, j)
    {
      assert j !in t.flagged;
    }
  }

  /** Setting the goal flag of a job that exists. */
  lemma ExistingSubmitted(g: Graph, s: Snap, t: Snap, k: Key, goal: bool)
    requires Consistent(g, s) && k in Keys(s.jobs)
    requires t == if !goal || k in s.flagged then s
                  else s.(flagged := s.flagged + {k}, upgraded := s.upgraded + {k})
    ensures Submitted(g, s, t, k, goal)
  {
    forall id | id in t.req
      ensures GoalBitOk(t, id)
    {
      assert GoalBitOk(s, id);
    }
    ReachesSelf(Requires(g), k);
  }

  /** Creating a job, with or without its goal flag. */
  lemma NewJobVisiting(g: Graph, s: Snap, t: Snap, k: Key)
    requires Consistent(g, s) && k !in Keys(s.jobs) && k.obj in g
    requires Keys(t.jobs) == Keys(s.jobs) + {k} && NoDuplicates(t.jobs)
    requires t.jobs.Keys == s.jobs.Keys + {k.obj}
    requires forall o :: o in t.jobs ==> t.jobs[o] != []
    requires t.req == s.req && t.upgraded == s.upgraded
    requires t.flagged == s.flagged || t.flagged == s.flagged + {k}
    ensures Visiting(g, t, t, k, [])
  {
    forall id | id in t.req
      ensures GoalBitOk(t, id) && id.maker != k
    {
      assert GoalBitOk(s, id);
    }
    assert Made(t.req, k, []);
  }
}
