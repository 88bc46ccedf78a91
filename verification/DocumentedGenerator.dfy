/**
  * The construction of a transaction as the documentation has it, on the transaction in memory: what the code does
  * but for the early return of `get_del_list`, the unused label of `verify_acyclic`, the flags not passed on, and
  * the merged type and the objective not stored.
  */
module DocumentedGenerator {
  import opened Types
  import opened Jobs
  import opened Walks
  import opened AfterGraphs
  import opened Submission
  import opened Indexes
  import opened Ordering
  import opened Plans
  import opened Cascade
  import opened Merging
  import opened MergeTheorems
  import opened GoalFlags
  import opened Construction
  import opened Cascading
  import opened Documented
  import opened DocumentedConstruction
  import opened TransactionGenerator
  import opened Chains
  import opened Turns
  import JobSubmit

  // ---------------------------------------------------------------------------------------------------
  // Deletion

  /** The jobs gathered for deletion are off the lists. */
  ghost predicate Deleting(p: Plan, jobs: Lists, dellist: seq<Key>) {
    && NoDuplicates(p.jobs) && Distinct(dellist) && (forall k :: k in dellist ==> k in Keys(p.jobs))
    && jobs == Sublists(p.jobs, Keys(p.jobs) - Elements(dellist))
  }

  /**
    * From `before` to `now`, `job` and jobs that require it, through a chain, were gathered, each with all that
    * require it, but for those in `pending`.
    */
  ghost predicate Gathered(p: Plan, before: seq<Key>, now: seq<Key>, job: Key, pending: set<Key>) {
    && before <= now && job in now
    && (forall k :: k in now ==> k in before || Reaches(Requirers(p), job, k))
    && (forall k, b :: k in now && k !in before && k !in pending && Step(Requirers(p), k, b) ==> b in now)
  }

  /**
    * Move `job` and, transitively, the jobs that require it from their lists to the list of jobs to delete: the
    * code with its return in the first loop made a break.
    */
  method GetDelList(tx: Transaction, job: Key, dellist: seq<Key>, ghost p: Plan) returns (dellist': seq<Key>)
    requires Deleting(p, tx.jobs, dellist) && job in Keys(p.jobs)
    requires tx.req == p.req && Indexed(Keys(p.jobs), tx.req, tx.reqs, tx.reqsOn)
    modifies tx`jobs
    ensures Deleting(p, tx.jobs, dellist') && Gathered(p, dellist, dellist', job, {})
    decreases Keys(p.jobs) - Elements(dellist)
  {
    hide Deleting, Gathered, Indexed, Keys, Without;
    if job in dellist {
      GatheredAlready(p, dellist, job);
      return dellist;
    }
    TakeOff(p, tx.jobs, dellist, job);
    dellist' := dellist + [job];
    tx.jobs := tx.jobs[job.obj := Without(tx.jobs[job.obj], job.op)];
    IndexedLive(Keys(p.jobs), tx.req, tx.reqs, tx.reqsOn);
    var rest := tx.reqsOn[job];
    while rest != {}
      invariant Deleting(p, tx.jobs, dellist') && Gathered(p, dellist, dellist', job, {job})
      invariant rest <= tx.reqsOn[job]
      invariant forall id :: id in tx.reqsOn[job] - rest && id in tx.req && tx.req[id].required ==>
                  tx.req[id].from in dellist'
      invariant Elements(dellist + [job]) <= Elements(dellist')
      decreases rest
    {
      var id :| id in rest;
      rest := rest - {id};
      IndexEntry(Keys(p.jobs), tx.req, tx.reqs, tx.reqsOn, job, id);
      if tx.req[id].required {
        ghost var d := dellist';
        FewerToGather(p, dellist, job, d);
        RequirerStep(p, job, tx.req[id].from);
        dellist' := GetDelList(tx, tx.req[id].from, dellist', p);
        GatheredMore(p, dellist, d, dellist', job, tx.req[id].from);
      }
    }
    assert tx.reqsOn[job] - rest == tx.reqsOn[job];
    AllGathered(p, tx.reqs, tx.reqsOn, dellist, dellist', job);
  }

  lemma IndexedLive(live: set<Key>, req: Reqs, reqs: Index, reqsOn: Index)
    requires Indexed(live, req, reqs, reqsOn)
    ensures reqs.Keys == live && reqsOn.Keys == live
    ensures forall id :: id in req ==> req[id].from in live && req[id].to in live
  {
  }

  lemma GatheredAlready(p: Plan, dellist: seq<Key>, job: Key)
    requires job in dellist
    ensures Gathered(p, dellist, dellist, job, {})
  {
  }

  lemma TakeOff(p: Plan, jobs: Lists, dellist: seq<Key>, job: Key)
    requires Deleting(p, jobs, dellist) && job in Keys(p.jobs) && job !in dellist
    ensures job.obj in jobs
    ensures Deleting(p, jobs[job.obj := Without(jobs[job.obj], job.op)], dellist + [job])
    ensures Gathered(p, dellist, dellist + [job], job, {job})
  {
    var kept := Keys(p.jobs) - Elements(dellist);
    Appended(dellist, job);
    assert Keys(p.jobs) - Elements(dellist + [job]) == kept - {job};
    hide Keys, Elements, Gathered, Only;
    TakenOff(p.jobs, kept, job);
    ReachesSelf(Requirers(p), job);
    GatheredFirst(p, dellist, job);
  }

  lemma GatheredFirst(p: Plan, dellist: seq<Key>, job: Key)
    requires Reaches(Requirers(p), job, job)
    ensures Gathered(p, dellist, dellist + [job], job, {job})
  {
  }

  lemma Appended<T>(s: seq<T>, x: T)
    ensures Elements(s + [x]) == Elements(s) + {x}
    ensures x !in s && Distinct(s) ==> Distinct(s + [x])
  {
  }

  lemma TakenOff(jobs: Lists, kept: set<Key>, job: Key)
    requires NoDuplicates(jobs) && job.obj in jobs
    ensures Sublists(jobs, kept)[job.obj := Without(Sublists(jobs, kept)[job.obj], job.op)] == Sublists(jobs, kept - {job})
  {
    forall o | o in jobs
      ensures Only(jobs[o], o, kept - {job})
           == if o == job.obj then Without(Only(jobs[o], o, kept), job.op) else Only(jobs[o], o, kept)
    {
      assert Distinct(jobs[o]);
      if o == job.obj {
        OnlyWithout(jobs[o], o, kept, job.op);
      } else {
        OnlySame(jobs[o], o, kept - {job}, kept);
      }
    }
  }

  lemma {:induction false} OnlyWithout(list: seq<JobType>, o: Obj, ks: set<Key>, t: JobType)
    requires Distinct(list)
    ensures Only(list, o, ks - {Key(o, t)}) == Without(Only(list, o, ks), t)
  {
    if list != [] {
      var rest := list[1..];
      assert list == [list[0]] + rest;
      assert Distinct(rest) && list[0] !in rest by {
        assert forall i :: 0 <= i < |rest| ==> rest[i] == list[i + 1];
      }
      OnlyWithout(rest, o, ks, t);
      OnlyElements(rest, o, ks);
      var left := Only(rest, o, ks);
      if Key(o, list[0]) in ks {
        assert Only(list, o, ks) == [list[0]] + left && ([list[0]] + left)[1..] == left;
        if list[0] == t {
          WithoutAbsent(left, t);
        }
      } else {
        assert Only(list, o, ks) == left;
      }
    }
  }

  lemma {:induction false} WithoutAbsent(list: seq<JobType>, t: JobType)
    requires t !in list
    ensures Without(list, t) == list
  {
    if list != [] {
      assert list == [list[0]] + list[1..];
      WithoutAbsent(list[1..], t);
    }
  }

  lemma FewerToGather(p: Plan, dellist: seq<Key>, job: Key, d: seq<Key>)
    requires job in Keys(p.jobs) && job !in dellist && Elements(dellist + [job]) <= Elements(d)
    ensures Keys(p.jobs) - Elements(d) < Keys(p.jobs) - Elements(dellist)
  {
    Appended(dellist, job);
    assert job in Keys(p.jobs) - Elements(dellist) && job in Elements(d);
  }

  lemma GatheredMore(p: Plan, before: seq<Key>, d: seq<Key>, now: seq<Key>, job: Key, next: Key)
    requires Gathered(p, before, d, job, {job}) && Gathered(p, d, now, next, {}) && Step(Requirers(p), job, next)
    requires Elements(before + [job]) <= Elements(d)
    ensures Gathered(p, before, now, job, {job}) && next in now && Elements(before + [job]) <= Elements(now)
    ensures forall k :: k in d ==> k in now
  {
    forall k | k in now && k !in before
      ensures Reaches(Requirers(p), job, k)
    {
      if k !in d {
        StepThenReaches(Requirers(p), job, next, k);
      }
    }
  }

  lemma AllGathered(p: Plan, reqs: Index, reqsOn: Index, before: seq<Key>, now: seq<Key>, job: Key)
    requires Gathered(p, before, now, job, {job}) && Indexed(Keys(p.jobs), p.req, reqs, reqsOn) && job in Keys(p.jobs)
    requires job in reqsOn
    requires forall id :: id in reqsOn[job] && id in p.req && p.req[id].required ==> p.req[id].from in now
    ensures Gathered(p, before, now, job, {})
  {
    forall b | Step(Requirers(p), job, b)
      ensures b in now
    {
      RequirerStep(p, job, b);
    }
  }

  /** Move all these jobs, and those that require them, to the list of jobs to delete. */
  method GatherAll(tx: Transaction, ks: seq<Key>, ghost p: Plan) returns (dellist: seq<Key>)
    requires NoDuplicates(p.jobs) && tx.jobs == p.jobs && tx.req == p.req
    requires Indexed(Keys(p.jobs), p.req, tx.reqs, tx.reqsOn) && forall k :: k in ks ==> k in Keys(p.jobs)
    modifies tx`jobs
    ensures Deleting(p, tx.jobs, dellist) && GatheredFrom(p, dellist, Elements(ks))
  {
    hide *;
    dellist := [];
    StartDeleting(p);
    for i := 0 to |ks|
      invariant Deleting(p, tx.jobs, dellist)
      invariant GatheredFrom(p, dellist, Elements(ks[..i]))
    {
      ghost var d := dellist;
      assert ks[..i + 1] == ks[..i] + [ks[i]];
      dellist := GetDelList(tx, ks[i], dellist, p);
      GatheredNext(p, d, dellist, ks[..i], ks[i]);
    }
    assert ks[..|ks|] == ks;
  }

  /** Delete these jobs and, transitively, all jobs that require them. */
  method DeleteWithRequirers(tx: Transaction, ks: seq<Key>)
    requires tx.Valid() && forall k :: k in ks ==> k in Keys(tx.jobs)
    modifies tx
    ensures tx.Valid() && tx.objective == old(tx.objective)
    ensures tx.AsPlan() == Cascaded(old(tx.AsPlan()), Elements(ks))
  {
    hide Deleting, Indexed, Keys, Cascaded, NoDuplicates, Closed, GatheredFrom, Elements, Upward, Sublists;
    ghost var p := tx.AsPlan();
    tx.ReqsAreLive();
    var dellist := GatherAll(tx, ks, p);
    ReadyToDestroy(p, tx.jobs, dellist, Elements(ks));
    tx.DestroyAll(dellist);
    assert tx.reqs.Keys == Keys(tx.jobs);
    Destroyed(p, tx.AsPlan(), Elements(ks));
  }

  /** The jobs gathered are those that require one of `ks`, through a chain, and all of these. */
  ghost predicate GatheredFrom(p: Plan, dellist: seq<Key>, ks: set<Key>) {
    && (forall k :: k in ks ==> k in dellist)
    && (forall k :: k in dellist ==> TakesAlong(p, ks, k))
    && (forall k, b :: k in dellist && Step(Requirers(p), k, b) ==> b in dellist)
  }

  lemma StartDeleting(p: Plan)
    requires NoDuplicates(p.jobs)
    ensures Deleting(p, p.jobs, []) && GatheredFrom(p, [], Elements([]))
  {
    SublistsAll(p.jobs);
    assert Keys(p.jobs) - Elements<Key>([]) == Keys(p.jobs);
  }

  lemma GatheredNext(p: Plan, d: seq<Key>, now: seq<Key>, done: seq<Key>, k: Key)
    requires GatheredFrom(p, d, Elements(done)) && Gathered(p, d, now, k, {})
    ensures GatheredFrom(p, now, Elements(done + [k]))
  {
    Appended(done, k);
    GatheredJoin(p, d, now, k, Elements(done), Elements(done + [k]));
    hide Elements;
  }

  lemma GatheredJoin(p: Plan, d: seq<Key>, now: seq<Key>, k: Key, done: set<Key>, all: set<Key>)
    requires GatheredFrom(p, d, done) && Gathered(p, d, now, k, {}) && all == done + {k}
    ensures GatheredFrom(p, now, all)
  {
    forall j | j in now
      ensures TakesAlong(p, all, j)
    {
      if j in d {
        assert TakesAlong(p, done, j);
      }
    }
    assert forall j :: j in d ==> j in now;
    hide TakesAlong;
  }

  lemma ReadyToDestroy(p: Plan, jobs: Lists, dellist: seq<Key>, ks: set<Key>)
    requires Deleting(p, jobs, dellist) && GatheredFrom(p, dellist, ks)
    ensures Distinct(dellist) && forall k :: k in dellist ==> k in Keys(p.jobs) && k !in Keys(jobs)
    ensures (set k | k in dellist) == Upward(p, ks)
    ensures jobs == Sublists(p.jobs, Keys(p.jobs) - Upward(p, ks)) && jobs.Keys == p.jobs.Keys
    ensures Keys(jobs) == Keys(p.jobs) - Upward(p, ks) && NoDuplicates(jobs)
  {
    GatheredIsUpward(p, dellist, ks);
    SublistsKeys(p.jobs, Keys(p.jobs) - Elements(dellist));
    hide Upward, GatheredFrom, Keys, Sublists;
  }

  lemma GatheredIsUpward(p: Plan, dellist: seq<Key>, ks: set<Key>)
    requires GatheredFrom(p, dellist, ks) && forall k :: k in dellist ==> k in Keys(p.jobs)
    ensures Elements(dellist) == Upward(p, ks)
  {
    forall k | k in Upward(p, ks)
      ensures k in dellist
    {
      var d :| d in ks && Reaches(Requirers(p), d, k);
      var w :| WalkFromTo(Requirers(p), w, d, k);
      ClosedSetKeepsWalk(Requirers(p), Elements(dellist), w);
    }
    hide TakesAlong;
  }

  lemma Destroyed(p: Plan, q: Plan, ks: set<Key>)
    requires p.flagged <= Keys(p.jobs) && q.objective == p.objective
    requires q.jobs == Sublists(p.jobs, Keys(p.jobs) - Upward(p, ks)) && Keys(q.jobs) == Keys(p.jobs) - Upward(p, ks)
    requires q.flagged == p.flagged - Upward(p, ks) && q.req == ImageOfReqs(p.req, Keeping(Keys(q.jobs)))
    ensures q == Cascaded(p, ks)
  {
    assert q.flagged == p.flagged * Keys(q.jobs);
  }

  /** Delete all jobs on `o`, with all that require them. */
  method ObjectDelJobs(tx: Transaction, o: Obj)
    requires tx.Valid() && o in tx.jobs
    modifies tx
    ensures tx.Valid() && tx.objective == old(tx.objective)
    ensures tx.AsPlan() == Cascaded(old(tx.AsPlan()), JobsOn(old(tx.jobs), o))
  {
    var list := tx.jobs[o];
    var ks := seq(|list|, i requires 0 <= i < |list| => Key(o, list[i]));
    KeysOfList(tx.jobs, o, ks);
    hide Cascaded, Elements;
    DeleteWithRequirers(tx, ks);
  }

  lemma KeysOfList(jobs: Lists, o: Obj, ks: seq<Key>)
    requires o in jobs && |ks| == |jobs[o]| && forall i :: 0 <= i < |ks| ==> ks[i] == Key(o, jobs[o][i])
    ensures Elements(ks) == JobsOn(jobs, o) && forall k :: k in ks ==> k in Keys(jobs)
  {
    forall t | t in jobs[o]
      ensures Key(o, t) in ks
    {
      var i :| 0 <= i < |jobs[o]| && jobs[o][i] == t;
      assert ks[i] == Key(o, t);
    }
    forall k | k in ks
      ensures k in Keys(jobs) && k in JobsOn(jobs, o)
    {
      var i :| 0 <= i < |ks| && ks[i] == k;
    }
  }

  // ---------------------------------------------------------------------------------------------------
  // Ordering cycles

  /**
    * As the documentation breaks a cycle that was found: the last unessential object of its path loses its jobs, and
    * with them goes what requires them.
    */
  ghost predicate BreaksCycle(g: Graph, p: Plan, q: Plan) {
    exists o, path, i: nat ::
      FoundCycle(g, p, o, path) && LastUnessential(p, path, i) && q == Cascaded(p, JobsOn(p.jobs, path[i]))
  }

  ghost function Breaking(g: Graph): (Plan, Plan) -> bool {
    (p, q) => BreaksCycle(g, p, q)
  }

  method TryRemoveCycle(tx: Transaction, path: seq<Obj>) returns (removed: bool)
    requires tx.Valid() && Sane(tx.graph, tx.AsPlan()) && forall o :: o in path ==> HasJob(tx.jobs, o)
    modifies tx
    ensures tx.Valid() && tx.objective == old(tx.objective)
    ensures !removed ==> tx.AsPlan() == old(tx.AsPlan()) && forall o :: o in path ==> Essential(old(tx.AsPlan()), o)
    ensures removed ==> exists i: nat ::
              && LastUnessential(old(tx.AsPlan()), path, i)
              && tx.AsPlan() == Cascaded(old(tx.AsPlan()), JobsOn(old(tx.jobs), path[i]))
    ensures removed ==> Trimmed(old(tx.AsPlan()), tx.AsPlan()) && Keys(tx.jobs) < old(Keys(tx.jobs))
  {
    hide Essential, Cascaded, Trimmed, Sane, Indexed, Keys;
    ghost var p := tx.AsPlan();
    var i := |path|;
    while i > 0
      invariant 0 <= i <= |path| && tx.Valid() && tx.AsPlan() == p
      invariant forall j :: i <= j < |path| ==> Essential(p, path[j])
    {
      i := i - 1;
      assert path[i] in path;
      var essential := tx.ObjectRequiresAllJobs(path[i]);
      if !essential {
        UnessentialCascadeTrims(tx.graph, p, path[i]);
        ObjectDelJobs(tx, path[i]);
        assert LastUnessential(p, path, i);
        return true;
      }
    }
    return false;
  }

  /**
    * Search for a cycle, break it, and start again, until there is none, which is true, or one cannot be broken.
    * Whether one cannot is settled before the first deletion.
    */
  method VerifyAcyclic(tx: Transaction) returns (ok: bool)
    requires tx.Valid() && Sane(tx.graph, tx.AsPlan())
    modifies tx
    ensures tx.Valid() && Sane(tx.graph, tx.AsPlan()) && tx.objective == old(tx.objective)
    ensures Trimmed(old(tx.AsPlan()), tx.AsPlan())
    ensures ok ==> Acyclic(AfterGraph(tx.graph, tx.jobs))
    ensures ok <==> !EssentialCycle(tx.graph, old(tx.AsPlan()))
    ensures Leads(Breaking(tx.graph), old(tx.AsPlan()), tx.AsPlan())
    ensures Acyclic(AfterGraph(tx.graph, old(tx.jobs))) ==> ok && tx.AsPlan() == old(tx.AsPlan())
    decreases Keys(tx.jobs)
  {
    hide Breaking, FoundCycle, Cascaded, Sane, Trimmed, Acyclic, EssentialCycle, AfterGraph, Search, Indexed,
      Essential, Keys, LastUnessential, RunsBack;
    ghost var p := tx.AsPlan();
    tx.ValidMeansWellFormed();
    TrimmedSelf(tx.graph, p);
    LeadsNowhere(Breaking(tx.graph), p);
    var rest := tx.jobs.Keys;
    while rest != {}
      invariant tx.Valid() && tx.AsPlan() == p && rest <= tx.jobs.Keys
      invariant forall o :: o in tx.jobs.Keys - rest && HasJob(tx.jobs, o) ==> Search(tx.graph, tx.jobs, o, []).None?
      decreases rest
    {
      var o :| o in rest;
      rest := rest - {o};
      if HasJob(tx.jobs, o) {
        var cyclic, path := tx.ObjectCreatesCycle(o, []);
        if cyclic {
          FoundHaveJobs(tx.graph, tx.jobs, o);
          CycleMet(tx.graph, p, o, path);
          var removed := TryRemoveCycle(tx, path);
          if !removed {
            CycleStays(tx.graph, p, o);
            return false;
          }
          ghost var q := tx.AsPlan();
          TrimKeepsSane(tx.graph, p, q);
          TrimKeepsEssentialCycles(tx.graph, p, q);
          BreaksNow(tx.graph, p, q, o, path);
          ok := VerifyAcyclic(tx);
          TrimmedChains(p, q, tx.AsPlan());
          StepThenLeads(Breaking(tx.graph), p, q, tx.AsPlan());
          return ok;
        }
      }
    }
    NothingFound(tx.graph, p);
    return true;
  }

  lemma {:induction false} CycleMet(g: Graph, p: Plan, o: Obj, path: seq<Obj>)
    requires Closed(g) && o in g && HasJob(p.jobs, o)
    requires Search(g, p.jobs, o, []) == Some(path) && RunsBack(AfterGraph(g, p.jobs), o, [], path)
    ensures FoundCycle(g, p, o, path) && !Acyclic(AfterGraph(g, p.jobs))
  {
    FoundCycleIsCycle(g, p, o, path);
  }

  lemma BreaksNow(g: Graph, p: Plan, q: Plan, o: Obj, path: seq<Obj>)
    requires FoundCycle(g, p, o, path)
    requires exists i: nat :: LastUnessential(p, path, i) && q == Cascaded(p, JobsOn(p.jobs, path[i]))
    ensures Breaking(g)(p, q)
  {
    hide FoundCycle, LastUnessential, Cascaded;
  }

  lemma {:induction false} CycleStays(g: Graph, p: Plan, o: Obj)
    requires Closed(g) && o in g && HasJob(p.jobs, o) && Search(g, p.jobs, o, []).Some?
    requires forall x :: x in Search(g, p.jobs, o, []).value ==> Essential(p, x)
    ensures EssentialCycle(g, p)
  {
    FoundHaveJobs(g, p.jobs, o);
    hide *;
    var w := FoundPathHasCycle(AfterGraph(g, p.jobs), o, Search(g, p.jobs, o, []).value);
    EssentialWalk(g, p, w);
  }

  lemma {:induction false} NothingFound(g: Graph, p: Plan)
    requires WellFormed(g, p)
    requires forall o :: o in p.jobs && HasJob(p.jobs, o) ==> Search(g, p.jobs, o, []).None?
    ensures Acyclic(AfterGraph(g, p.jobs)) && !EssentialCycle(g, p)
  {
    var ag := AfterGraph(g, p.jobs);
    NoLoopsIffAcyclic(ag);
    forall o
      ensures !Loops(ag, o, [])
    {
      if Loops(ag, o, []) {
        LoopStartsAtNode(ag, o);
        SearchExact(g, p.jobs, o, []);
      }
    }
  }

  // ---------------------------------------------------------------------------------------------------
  // Merging

  /** No list has become longer. */
  ghost predicate NoLonger(before: Lists, after: Lists) {
    after.Keys == before.Keys && forall o :: o in before ==> |after[o]| <= |before[o]|
  }

  /** The goal, through what it requires and what merging makes it require, wants `o` both stopped and not. */
  ghost predicate MergeContradicts(g: Graph, goal: Key, o: Obj) {
    Pulled(g, goal, Key(o, Stop)) && exists t :: t != Stop && Pulled(g, goal, Key(o, t))
  }

  lemma TrimNoLonger(p: Plan, q: Plan)
    requires Trimmed(p, q)
    ensures NoLonger(p.jobs, q.jobs)
  {
    forall o | o in p.jobs
      ensures |q.jobs[o]| <= |p.jobs[o]|
    {
      OnlyNoLonger(p.jobs[o], o, Keys(q.jobs));
    }
  }

  lemma {:induction false} OnlyNoLonger(list: seq<JobType>, o: Obj, ks: set<Key>)
    ensures |Only(list, o, ks)| <= |list|
    ensures (exists t :: t in list && Key(o, t) !in ks) ==> |Only(list, o, ks)| < |list|
  {
    if list != [] {
      assert list == [list[0]] + list[1..];
      OnlyNoLonger(list[1..], o, ks);
    }
  }

  /** Merge the first job of `o` into the second, redirect the objective and pass the goal flags on. */
  method MergeFirstJobs(tx: Transaction, o: Obj)
    requires tx.Valid() && Sane(tx.graph, tx.AsPlan()) && FrontAgrees(tx.AsPlan(), o)
    modifies tx
    ensures tx.Valid() && Sane(tx.graph, tx.AsPlan())
    ensures OnlyFlagged(MergeFirst(old(tx.AsPlan()), o), tx.AsPlan())
  {
    hide Sane, FrontAgrees, FrontImage, MergeFront, Mergeable, Indexed, NoDuplicates, Keys, Closed, FlagsSound,
      FlagsPropagated, GoalBitsExact, GoalBitsSound, OnlyFlagged, FlagsBacked;
    ghost var p := tx.AsPlan();
    FrontAgreed(p, o);
    MergeKeepsSound(tx.graph, p, o);
    var j1, j2 := Key(o, tx.jobs[o][0]), Key(o, tx.jobs[o][1]);
    tx.MergeFrontJobs(o);
    if tx.objective == j1 {
      tx.objective := j2;
    }
    assert tx.AsPlan() == MergeFirst(p, o);
    tx.RepairFlags();
    tx.ValidMeansWellFormed();
    NowSane(tx.graph, MergeFirst(p, o), tx.AsPlan());
  }

  lemma NowSane(g: Graph, p: Plan, q: Plan)
    requires WellFormed(g, q) && OnlyFlagged(p, q) && FlagsSound(p, p.objective) && FlagsPropagated(q) && GoalBitsExact(q)
    requires forall root :: FlagsSound(p, root) ==> FlagsSound(q, root)
    ensures Sane(g, q)
  {
  }

  /**
    * Merge the jobs of `o` pairwise from the front, or delete one of a pair that cannot be merged with what
    * requires it, until at most one is left.
    */
  method MergeGroupOf(tx: Transaction, o: Obj, types: Kinds, ghost goal: Key, ghost s: Snap, ghost p0: Plan, ghost f: Image)
    returns (ok: bool, types': Kinds, ghost f': Image)
    requires tx.Valid() && UnderWay(tx.graph, goal, s, p0, tx.AsPlan(), f, types) && o in tx.jobs
    modifies tx
    ensures tx.Valid() && UnderWay(tx.graph, goal, s, p0, tx.AsPlan(), f', types')
    ensures NoLonger(old(tx.jobs), tx.jobs)
    ensures ok ==> |tx.jobs[o]| <= 1
    ensures !ok ==> MergeContradicts(tx.graph, goal, o)
    ensures Leads(Turning({o}), Making(old(tx.AsPlan()), f, types), Making(tx.AsPlan(), f', types'))
    ensures forall j :: j in f && j !in f' ==>
              DroppedBetween({o}, Making(old(tx.AsPlan()), f, types), Making(tx.AsPlan(), f', types'), j)
    ensures Unmixed(old(tx.jobs)[o]) ==> ok && f'.Keys == f.Keys && (old(tx.jobs)[o] != [] ==> |tx.jobs[o]| == 1)
  {
    hide Turning, DroppedBetween, Unmixed, UnderWay, Sane, Carries, Typed, AllPulled, Begun, Trimmed, FrontAgrees,
      Mergeable, OnlyFlagged, MergedJobType, MergeFirst, FrontImage, Stored, Indexed, Keys, Cascaded,
      MergeContradicts, NoLonger, NoDuplicates, Closed;
    types', f' := types, f;
    SameLength(tx.jobs);
    ghost var start := Making(tx.AsPlan(), f, types);
    LeadsNowhere(Turning({o}), start);
    UnderWayFits(tx.graph, goal, s, p0, tx.AsPlan(), f, types);
    while |tx.jobs[o]| > 1
      invariant tx.Valid() && UnderWay(tx.graph, goal, s, p0, tx.AsPlan(), f', types') && o in tx.jobs
      invariant NoLonger(old(tx.jobs), tx.jobs)
      invariant Leads(Turning({o}), start, Making(tx.AsPlan(), f', types'))
      decreases |tx.jobs[o]|
    {
      ghost var p, now := tx.AsPlan(), Making(tx.AsPlan(), f', types');
      var list := tx.jobs[o];
      var j1, j2 := Key(o, list[0]), Key(o, list[1]);
      FrontFacts(tx.graph, goal, s, p0, p, f', types', o);
      var merged := MergedJobType(types'[j1], types'[j2]);
      if merged.None? {
        var victim := Victim(tx.goalRequired, j1, j2);
        if victim.None? {
          ConflictContradicts(tx.graph, goal, s, p0, p, f', types', o);
          NobodyUnlessDropped({o}, start, now);
          StopBesideAnother(start, now, o);
          return false, types', f';
        }
        DeleteWithRequirers(tx, [victim.value]);
        f' := VictimStep(tx.graph, goal, s, p0, p, tx.AsPlan(), f', types', o, victim.value);
        VictimTurn(now, Making(tx.AsPlan(), f', types'), o, victim.value);
      } else {
        MergeFirstJobs(tx, o);
        MergeStep(tx.graph, goal, s, p0, p, tx.AsPlan(), f', types', o);
        MergeNoLonger(p, tx.AsPlan(), o);
        f' := Compose(f', FrontImage(p, o));
        types' := types'[j2 := merged.value];
        MergeTurnMade(now, Making(tx.AsPlan(), f', types'), o);
      }
      NoLongerChains(old(tx.jobs), p.jobs, tx.jobs);
      LeadsThenStep(Turning({o}), start, now, Making(tx.AsPlan(), f', types'));
    }
    NobodyUnlessDropped({o}, start, Making(tx.AsPlan(), f', types'));
    return true, types', f';
  }

  lemma UnderWayFits(g: Graph, goal: Key, s: Snap, p0: Plan, p: Plan, f: Image, types: Kinds)
    requires UnderWay(g, goal, s, p0, p, f, types)
    ensures Fits(Making(p, f, types))
  {
    hide Begun, Sane, Typed, AllPulled;
  }

  lemma {:induction false} NobodyUnlessDropped(os: set<Obj>, a: Making, b: Making)
    requires Leads(Turning(os), a, b) && Fits(a)
    ensures forall j :: j in a.image && j !in b.image ==> DroppedBetween(os, a, b, j)
    ensures (forall o :: o in os && o in a.plan.jobs ==> Unmixed(a.plan.jobs[o])) ==> NobodyLost(os, a, b)
  {
    hide Turning, DroppedBetween, NobodyLost, Unmixed, Fits;
    forall j | j in a.image && j !in b.image
      ensures DroppedBetween(os, a, b, j)
    {
      LostAreDropped(os, a, b, j);
    }
    if forall o :: o in os && o in a.plan.jobs ==> Unmixed(a.plan.jobs[o]) {
      UnmixedLoseNobody(os, a, b);
    }
  }

  lemma StopBesideAnother(a: Making, b: Making, o: Obj)
    requires o in a.plan.jobs && o in b.plan.jobs && |b.plan.jobs[o]| >= 2
    requires (b.plan.jobs[o][0] == Stop) != (b.plan.jobs[o][1] == Stop)
    requires Unmixed(a.plan.jobs[o]) ==> NobodyLost({o}, a, b)
    ensures !Unmixed(a.plan.jobs[o])
  {
    var list := b.plan.jobs[o];
    assert list[0] in list && list[1] in list;
    hide Fits;
  }

  lemma VictimTurn(a: Making, b: Making, o: Obj, k: Key)
    requires o in a.plan.jobs && |a.plan.jobs[o]| >= 2
    requires var j1, j2 := Key(o, a.plan.jobs[o][0]), Key(o, a.plan.jobs[o][1]);
             (j1.op == Stop) != (j2.op == Stop) && Victim(a.plan.flagged, j1, j2) == Some(k)
    requires b.plan == Cascaded(a.plan, Elements([k])) && b.types == a.types
    requires b.image == Compose(a.image, Keeping(Keys(b.plan.jobs)))
    ensures Turning({o})(a, b)
  {
    assert Elements([k]) == {k};
    assert DropsOne(a, b, o, k);
    hide DropsOne;
  }

  lemma MergeTurnMade(a: Making, b: Making, o: Obj)
    requires FrontAgrees(a.plan, o)
    requires Key(o, a.plan.jobs[o][0]) in a.types && Key(o, a.plan.jobs[o][1]) in a.types
    requires OnlyFlagged(MergeFirst(a.plan, o), b.plan)
    requires b.image == Compose(a.image, FrontImage(a.plan, o)) && b.types == Stored(a.plan, o, a.types)
    ensures Turning({o})(a, b)
  {
    assert MergesTwo(a, b, o);
    hide MergesTwo;
  }

  lemma SameLength(jobs: Lists)
    ensures NoLonger(jobs, jobs)
  {
  }

  lemma NoLongerChains(a: Lists, b: Lists, c: Lists)
    requires NoLonger(a, b) && NoLonger(b, c)
    ensures NoLonger(a, c)
  {
  }

  lemma FrontFacts(g: Graph, goal: Key, s: Snap, p0: Plan, p: Plan, f: Image, types: Kinds, o: Obj)
    requires UnderWay(g, goal, s, p0, p, f, types) && o in p.jobs && |p.jobs[o]| >= 2
    ensures Sane(g, p)
    ensures var j1, j2 := Key(o, p.jobs[o][0]), Key(o, p.jobs[o][1]);
            && j1 in Keys(p.jobs) && j2 in Keys(p.jobs) && j1 in types && j2 in types
            && (MergedJobType(types[j1], types[j2]).Some? ==>
                  FrontAgrees(p, o) && Stored(p, o, types) == types[j2 := MergedJobType(types[j1], types[j2]).value])
            && (MergedJobType(types[j1], types[j2]).None? ==> (j1.op == Stop) != (j2.op == Stop))
  {
    hide Carries, Typed, AllPulled, Begun, MergedJobType, Keys, Sane, Mergeable;
    BegunMergeable(g, goal, s, p0);
    FrontTypes(p0, p, f, types, o);
    SaneMergeable(g, p);
    ListedAreKeys(p, o);
  }

  lemma SaneMergeable(g: Graph, p: Plan)
    requires Sane(g, p)
    ensures Mergeable(p) && NoDuplicates(p.jobs)
  {
  }

  lemma ConflictContradicts(g: Graph, goal: Key, s: Snap, p0: Plan, p: Plan, f: Image, types: Kinds, o: Obj)
    requires UnderWay(g, goal, s, p0, p, f, types) && o in p.jobs && |p.jobs[o]| >= 2
    requires var j1, j2 := Key(o, p.jobs[o][0]), Key(o, p.jobs[o][1]);
             j1 in p.flagged && j2 in p.flagged && (j1.op == Stop) != (j2.op == Stop)
    ensures MergeContradicts(g, goal, o)
  {
    var j1, j2 := Key(o, p.jobs[o][0]), Key(o, p.jobs[o][1]);
    assert j1 in Keys(p.jobs) && j2 in Keys(p.jobs);
    assert j1 in f && f[j1] == j1 && j2 in f && f[j2] == j2;
    assert Pulled(g, goal, j1) && Pulled(g, goal, j2);
  }

  lemma VictimStep(g: Graph, goal: Key, s: Snap, p0: Plan, p: Plan, q: Plan, f: Image, types: Kinds, o: Obj, k: Key)
    returns (f': Image)
    requires UnderWay(g, goal, s, p0, p, f, types) && o in p.jobs && k.obj == o
    requires k in Keys(p.jobs) && k !in p.flagged && q == Cascaded(p, Elements([k]))
    ensures UnderWay(g, goal, s, p0, q, f', types) && NoLonger(p.jobs, q.jobs)
    ensures f' == Compose(f, Keeping(Keys(q.jobs)))
    ensures o in q.jobs && |q.jobs[o]| < |p.jobs[o]|
  {
    VictimGoes(g, p, q, o, k);
    hide *;
    TrimNoLonger(p, q);
    f' := Compose(f, Keeping(Keys(q.jobs)));
    DeletionStep(g, goal, s, p0, p, q, f, types);
  }

  lemma VictimGoes(g: Graph, p: Plan, q: Plan, o: Obj, k: Key)
    requires Sane(g, p) && o in p.jobs && k.obj == o
    requires k in Keys(p.jobs) && k !in p.flagged && q == Cascaded(p, Elements([k]))
    ensures Trimmed(p, q) && o in q.jobs && |q.jobs[o]| < |p.jobs[o]|
  {
    assert Elements([k]) == {k};
    CascadeTrims(g, p, {k});
    VictimOffList(p, q, o, k);
    hide Sane, Cascaded, Upward;
  }

  lemma VictimOffList(p: Plan, q: Plan, o: Obj, k: Key)
    requires Trimmed(p, q) && k in Keys(p.jobs) && k !in Keys(q.jobs) && k.obj == o
    ensures o in p.jobs && o in q.jobs && |q.jobs[o]| < |p.jobs[o]|
  {
    assert k.op in p.jobs[o] && k == Key(o, k.op);
    OnlyNoLonger(p.jobs[o], o, Keys(q.jobs));
  }

  lemma MergeNoLonger(p: Plan, q: Plan, o: Obj)
    requires FrontAgrees(p, o) && OnlyFlagged(MergeFirst(p, o), q)
    ensures NoLonger(p.jobs, q.jobs) && o in q.jobs && |q.jobs[o]| < |p.jobs[o]|
  {
    FirstShape(p, o);
    hide MergeFirst;
  }

  /** Merge the jobs of every object, in whatever order the map holds them. */
  method MergeJobs(tx: Transaction, types: Kinds, ghost goal: Key, ghost s: Snap, ghost p0: Plan, ghost f: Image)
    returns (ok: bool, types': Kinds, ghost f': Image)
    requires tx.Valid() && UnderWay(tx.graph, goal, s, p0, tx.AsPlan(), f, types)
    modifies tx
    ensures tx.Valid() && UnderWay(tx.graph, goal, s, p0, tx.AsPlan(), f', types')
    ensures NoLonger(old(tx.jobs), tx.jobs)
    ensures ok ==> forall o :: o in tx.jobs ==> |tx.jobs[o]| <= 1
    ensures !ok ==> exists o :: MergeContradicts(tx.graph, goal, o)
    ensures Leads(Turning(old(tx.jobs.Keys)), Making(old(tx.AsPlan()), f, types), Making(tx.AsPlan(), f', types'))
    ensures forall j :: j in f && j !in f' ==>
              DroppedBetween(old(tx.jobs.Keys), Making(old(tx.AsPlan()), f, types), Making(tx.AsPlan(), f', types'), j)
    ensures (forall o :: o in old(tx.jobs) ==> Unmixed(old(tx.jobs)[o])) ==>
              && ok && f'.Keys == f.Keys && tx.jobs.Keys == old(tx.jobs.Keys)
              && forall o :: o in tx.jobs ==> |tx.jobs[o]| == if old(tx.jobs)[o] == [] then 0 else 1
  {
    hide Turning, DroppedBetween, NobodyLost, Unmixed, UnderWay, MergeContradicts, Indexed, Keys, NoDuplicates,
      Closed;
    types', f' := types, f;
    ghost var start, os := Making(tx.AsPlan(), f, types), tx.jobs.Keys;
    LeadsNowhere(Turning(os), start);
    UnderWayFits(tx.graph, goal, s, p0, tx.AsPlan(), f, types);
    NobodyUnlessDropped(os, start, start);
    var rest := tx.jobs.Keys;
    while rest != {}
      invariant tx.Valid() && UnderWay(tx.graph, goal, s, p0, tx.AsPlan(), f', types')
      invariant NoLonger(old(tx.jobs), tx.jobs) && rest <= tx.jobs.Keys
      invariant forall o :: o in tx.jobs.Keys - rest ==> |tx.jobs[o]| <= 1
      invariant Leads(Turning(os), start, Making(tx.AsPlan(), f', types'))
      invariant AllUnmixed(os, start) ==> NobodyLost(os, start, Making(tx.AsPlan(), f', types'))
      decreases rest
    {
      var o :| o in rest;
      rest := rest - {o};
      if |tx.jobs[o]| > 1 {
        ghost var before := Making(tx.AsPlan(), f', types');
        ok, types', f' := MergeGroupOf(tx, o, types', goal, s, p0, f');
        ghost var after := Making(tx.AsPlan(), f', types');
        NoLongerChains(old(tx.jobs), before.plan.jobs, tx.jobs);
        MoreObjects({o}, os, before, after);
        LeadsJoin(Turning(os), start, before, after);
        NobodyUnlessDropped(os, start, after);
        StillUnmixed(os, start, before, o);
        if !ok {
          return;
        }
      }
    }
    ok := true;
    NobodyUnlessDropped(os, start, Making(tx.AsPlan(), f', types'));
    EachKeepsOne(os, start, Making(tx.AsPlan(), f', types'));
  }

  ghost predicate AllUnmixed(os: set<Obj>, a: Making) {
    forall o :: o in os && o in a.plan.jobs ==> Unmixed(a.plan.jobs[o])
  }

  lemma StillUnmixed(os: set<Obj>, a: Making, m: Making, o: Obj)
    requires o in os && o in m.plan.jobs
    ensures NobodyLost(os, a, m) ==> Unmixed(m.plan.jobs[o])
  {
  }

  lemma EachKeepsOne(os: set<Obj>, a: Making, b: Making)
    requires os == a.plan.jobs.Keys && (AllUnmixed(os, a) ==> NobodyLost(os, a, b))
    requires forall o :: o in b.plan.jobs ==> |b.plan.jobs[o]| <= 1
    ensures AllUnmixed(os, a) ==>
              && b.image.Keys == a.image.Keys && b.plan.jobs.Keys == a.plan.jobs.Keys
              && forall o :: o in b.plan.jobs ==> |b.plan.jobs[o]| == if a.plan.jobs[o] == [] then 0 else 1
  {
    hide Unmixed, Fits;
  }

  lemma NoLongerStaysAcyclic(g: Graph, before: Lists, after: Lists)
    requires NoLonger(before, after) && Acyclic(AfterGraph(g, before))
    ensures Acyclic(AfterGraph(g, after))
  {
    FewerStayAcyclic(g, Working(after), Working(before));
  }

  // ---------------------------------------------------------------------------------------------------
  // Construction

  /**
    * How the transaction came about: `s` was submitted and the goal flags passed on, cycles that were found were broken,
    * and then jobs were merged in turns.
    */
  ghost predicate CameAbout(g: Graph, goal: Key, s: Snap, m: Making) {
    exists p0, q ::
      && Begun(g, goal, s, p0) && Leads(Breaking(g), p0, q)
      && Leads(Turning(q.jobs.Keys), Making(q, Keeping(Keys(q.jobs)), map k | k in Keys(p0.jobs) :: k.op), m)
  }

  /** Submit the objective and pass the goal flags on. */
  method SubmitWithFlags(tx: Transaction) returns (types: Kinds, ghost s: Snap)
    requires tx.Valid() && tx.State() == NOTHING && tx.objective.obj in tx.graph
    modifies tx
    ensures tx.Valid() && s == JobSubmit.Submit(tx.graph, NOTHING, old(tx.objective), true)
    ensures Begun(tx.graph, old(tx.objective), s, tx.AsPlan()) && Sane(tx.graph, tx.AsPlan())
    ensures types == map k | k in Keys(tx.jobs) :: k.op
    ensures UnderWay(tx.graph, old(tx.objective), s, tx.AsPlan(), tx.AsPlan(), Keeping(Keys(tx.jobs)), types)
    ensures EssentialCycle(tx.graph, tx.AsPlan()) <==> !GoalOrdered(tx.graph, old(tx.objective))
    ensures tx.jobs == s.jobs && forall o :: o in s.jobs ==> s.jobs[o] != []
  {
    hide Generated, Sane, Begun, UnderWay, GoalOrdered, EssentialCycle, Indexed, Keys, NoDuplicates, Closed,
      FlagsBacked, GoalBitsSound, FlagsSound, FlagsPropagated, GoalBitsExact, OnlyFlagged, JobSubmit.Submit;
    ghost var goal := tx.objective;
    tx.SubmitObjective();
    s := tx.State();
    GeneratedFlagsSound(tx.graph, s, goal);
    tx.RepairFlags();
    tx.ValidMeansWellFormed();
    BegunNow(tx.graph, goal, s, tx.AsPlan());
    SubmittedLists(tx.graph, goal, s, tx.AsPlan());
    types := map k | k in Keys(tx.jobs) :: k.op;
    UnderWayAtFirst(tx.graph, goal, s, tx.AsPlan(), types);
    EssentialCycleIff(tx.graph, goal, s, tx.AsPlan());
  }

  /** No stop job was submitted beside another on an object, and the After edges among the objects form no cycle. */
  ghost predicate Untroubled(g: Graph, jobs: Lists) {
    Acyclic(AfterGraph(g, jobs)) && forall o :: o in jobs ==> Unmixed(jobs[o])
  }

  /**
    * Generate the transaction of the objective: submit it and pass the goal flags on, break ordering cycles, merge.
    * `s` is what was submitted, `f` says where each submitted job that is left went, `types` what type each has.
    */
  method Generate(tx: Transaction) returns (r: Outcome, types: Kinds, ghost s: Snap, ghost f: Image)
    requires tx.Valid() && tx.State() == NOTHING && tx.objective.obj in tx.graph
    modifies tx
    ensures tx.Valid()
    ensures s == JobSubmit.Submit(tx.graph, NOTHING, old(tx.objective), true)
    ensures r.Accepted? ==> Constructed(tx.graph, old(tx.objective), s, tx.AsPlan(), f, types)
    ensures r.Accepted? ==> CameAbout(tx.graph, old(tx.objective), s, Making(tx.AsPlan(), f, types))
    ensures Untroubled(tx.graph, s.jobs) ==>
              r.Accepted? && f.Keys == Keys(s.jobs) && forall o :: o in s.jobs ==> o in tx.jobs && |tx.jobs[o]| == 1
    ensures r.Accepted? ==> forall o :: !GoalContradicts(tx.graph, old(tx.objective), o)
    ensures r.Cyclic? <==> !GoalOrdered(tx.graph, old(tx.objective))
    ensures r.Unmergeable? ==> exists o :: MergeContradicts(tx.graph, old(tx.objective), o)
  {
    hide Sane, Begun, UnderWay, Constructed, GoalOrdered, GoalContradicts, MergeContradicts, EssentialCycle,
      Keeping, Acyclic, AfterGraph, Trimmed, Indexed, Keys, NoDuplicates, Closed, JobSubmit.Submit, NoLonger,
      Turning, Breaking, DroppedBetween, Unmixed, CameAbout;
    ghost var goal := tx.objective;
    types, s := SubmitWithFlags(tx);
    ghost var p0, types0 := tx.AsPlan(), types;
    var ok := VerifyAcyclic(tx);
    if !ok {
      f := map[];
      return Cyclic, types, s, f;
    }
    ghost var q := tx.AsPlan();
    DeletionStep(tx.graph, goal, s, p0, p0, q, Keeping(Keys(p0.jobs)), types);
    KeepsWhatIsLeft(p0, q);
    ok, types, f := MergeJobs(tx, types, goal, s, p0, Keeping(Keys(q.jobs)));
    if !ok {
      return Unmergeable, types, s, f;
    }
    WasMade(tx.graph, goal, s, p0, q, types0, Making(tx.AsPlan(), f, types));
    NoLongerStaysAcyclic(tx.graph, q.jobs, tx.jobs);
    AcceptedAsDocumented(tx.graph, goal, s, p0, tx.AsPlan(), f, types);
    return Accepted, types, s, f;
  }

  lemma WasMade(g: Graph, goal: Key, s: Snap, p0: Plan, q: Plan, types: Kinds, m: Making)
    requires Begun(g, goal, s, p0) && Leads(Breaking(g), p0, q) && types == map k | k in Keys(p0.jobs) :: k.op
    requires Leads(Turning(q.jobs.Keys), Making(q, Keeping(Keys(q.jobs)), types), m)
    ensures CameAbout(g, goal, s, m)
  {
    hide Begun, Breaking, Turning;
  }

  lemma KeepsWhatIsLeft(p: Plan, q: Plan)
    requires Trimmed(p, q)
    ensures Compose(Keeping(Keys(p.jobs)), Keeping(Keys(q.jobs))) == Keeping(Keys(q.jobs))
    ensures Keeping(Keys(q.jobs)).Keys == Keys(q.jobs)
  {
    hide Keys;
  }

  lemma SubmittedLists(g: Graph, goal: Key, s: Snap, p0: Plan)
    requires Begun(g, goal, s, p0)
    ensures p0.jobs == s.jobs && forall o :: o in s.jobs ==> s.jobs[o] != []
  {
  }

  lemma BegunNow(g: Graph, goal: Key, s: Snap, p0: Plan)
    requires Closed(g) && Generated(g, s, goal) && OnlyFlagged(PlanOf(s, goal), p0) && WellFormed(g, p0)
    requires FlagsSound(p0, goal) && FlagsPropagated(p0) && GoalBitsExact(p0)
    ensures Begun(g, goal, s, p0)
    ensures Sane(g, p0)
  {
  }
}
