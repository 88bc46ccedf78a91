/** The transaction generator. */
module TransactionGenerator {
  import opened Types
  import opened Jobs
  import opened Closure
  import opened Walks
  import opened Submission
  import opened Indexes
  import opened Ordering
  import opened Plans
  import opened OneWayRound
  import opened Merging
  import opened MergeTheorems
  import opened GoalFlags
  import opened Cascade
  import opened Construction
  import opened JobSubmit
  import opened Chains

  /** How generating a transaction ends. */
  datatype Outcome = Accepted | Cyclic | Unmergeable

  class Transaction {
    const graph: Graph

    var jobs: Lists
    /** The jobs whose goal_required flag is set. */
    var goalRequired: set<Key>
    /** The requirements in memory, by address. */
    var req: Reqs
    /** For each job in memory, the requirements it has and the requirements on it. */
    var reqs: Index
    var reqsOn: Index
    var objective: Key
    ghost var upgraded: set<Key>

    constructor (g: Graph, goal: Key)
      requires Closed(g)
      ensures graph == g && objective == goal
      ensures Valid() && State() == NOTHING
    {
      graph, objective := g, goal;
      jobs, goalRequired, req, reqs, reqsOn := map[], {}, map[], map[], map[];
      upgraded := {};
    }

    ghost predicate Valid()
      reads this
    {
      && Closed(graph)
      && NoDuplicates(jobs)
      && jobs.Keys <= graph.Keys
      && goalRequired <= Keys(jobs)
      && Indexed(Keys(jobs), req, reqs, reqsOn)
    }

    ghost function State(): Snap
      reads this
    {
      Snap(jobs, goalRequired, upgraded, req)
    }

    ghost function AsPlan(): Plan
      reads this
    {
      Plan(objective, jobs, goalRequired, req)
    }

    lemma ValidMeansWellFormed()
      requires Valid()
      ensures WellFormed(graph, AsPlan()) && Mergeable(AsPlan())
    {
    }

    /** Add a requirement of job `from` on job `on`, allocated at `id`. */
    method AddReq(from: Key, on: Key, required: bool, goal: bool, id: ReqId)
      requires Valid()
      requires from in Keys(jobs) && on in Keys(jobs) && id !in req
      modifies this`req, this`reqs, this`reqsOn
      ensures Valid()
      ensures req == old(req)[id := Req(from, on, required, goal)]
    {
      hide NoDuplicates, Closed, Keys, Indexed;
      IndexLive(Keys(jobs), req, reqs, reqsOn);
      IndexInsert(Keys(jobs), req, reqs, reqsOn, id, Req(from, on, required, goal));
      req := req[id := Req(from, on, required, goal)];
      reqs := reqs[from := reqs[from] + {id}];
      reqsOn := reqsOn[on := reqsOn[on] + {id}];
    }

    /** Submit the job that an edge to `to` asks for, as the visit of `k` after `done`, and require it. */
    method VisitEdge(k: Key, r: Rule, to: Obj, made: nat, ghost done: seq<Visit>)
      requires Valid() && Visiting(graph, State(), State(), k, done) && made == |done|
      requires k in Keys(jobs) && k.obj in graph && to in graph
      requires var v := Visit(Key(to, r.op), r.required); v in Visits(graph, k) && done + [v] <= Visits(graph, k)
      modifies this
      ensures Valid() && objective == old(objective)
      ensures Visiting(graph, old(State()), State(), k, done + [Visit(Key(to, r.op), r.required)])
      ensures made < |Visits(graph, k)|
      ensures Expand(graph, State(), k, made + 1) == Expand(graph, old(State()), k, made)
      decreases Universe(graph) - Keys(jobs), 1
    {
      hide Consistent, Visiting, Submitted, Made, Indexed, NoDuplicates, Keys, Visits, Submit, Expand, Closed;
      ghost var s1 := State();
      ghost var v := Visit(Key(to, r.op), r.required);
      VisitingFacts(graph, s1, s1, k, done);
      var goal := k in goalRequired && r.required;
      ExpandSteps(graph, s1, k, done, v);
      var sub := JobSubmit(to, r.op, goal);
      ghost var s2 := State();
      ReadyToRequire(graph, s1, s2, k, done, sub, goal);
      AddReq(k, sub, r.required, goal, ReqId(k, made));
      VisitMade(graph, s1, s2, State(), k, done, v, goal);
    }

    /** Submit the jobs that the edges of the object of `k` with the bit of rule `r` ask for. */
    method VisitEdges(k: Key, r: Rule, made: nat, ghost vs: seq<Visit>) returns (made': nat)
      requires Valid() && Consistent(graph, State())
      requires k in Keys(jobs) && k.obj in graph && k !in upgraded
      requires r in Rules(k.op)
      requires Made(req, k, vs) && made == |vs|
      requires vs + EdgeVisits(graph[k.obj], r) <= Visits(graph, k)
      modifies this
      ensures Valid() && objective == old(objective)
      ensures made' <= |Visits(graph, k)|
      ensures Expand(graph, State(), k, made') == Expand(graph, old(State()), k, made)
      ensures Visiting(graph, old(State()), State(), k, vs + EdgeVisits(graph[k.obj], r))
      ensures made' == |vs + EdgeVisits(graph[k.obj], r)|
      decreases Universe(graph) - Keys(jobs), 2
    {
      hide Consistent, Visiting, Submitted, Made, Indexed, NoDuplicates, Keys, EdgeVisits, Visits, Submit, Expand;
      made' := made;
      var links := graph[k.obj];
      ghost var s0 := State();
      ghost var done := vs;
      StartVisiting(graph, s0, k, vs);
      NoEdgeVisits(vs, links, r);
      for i := 0 to |links|
        invariant Valid() && objective == old(objective)
        invariant done == vs + EdgeVisits(links[..i], r) && made' == |done|
        invariant Visiting(graph, s0, State(), k, done)
        invariant done <= Visits(graph, k) && Expand(graph, State(), k, made') == Expand(graph, s0, k, made)
      {
        NextEdgeVisit(vs, links, r, i);
        EdgeVisitsSoFar(vs, links, r, i, Visits(graph, k));
        if r.kind in links[i].kinds {
          ghost var s1 := State();
          ghost var v := Visit(Key(links[i].to, r.op), r.required);
          VisitIsAsked(graph, k, r, i);
          VisitingFacts(graph, s0, s1, k, done);
          VisitEdge(k, r, links[i].to, made', done);
          VisitingChains(graph, s0, s1, State(), k, done, done + [v]);
          made' := made' + 1;
          done := done + [v];
        }
      }
      assert links[..|links|] == links;
    }

    /**
      * Add a job on `obj` of type `op`, unless there is one, with everything its edges ask for; set its goal
      * flag if `goal`.
      */
    method JobSubmit(obj: Obj, op: JobType, goal: bool) returns (sj: Key)
      requires Valid() && Consistent(graph, State())
      requires obj in graph
      modifies this
      ensures Valid() && objective == old(objective)
      ensures sj == Key(obj, op)
      ensures Submitted(graph, old(State()), State(), sj, goal)
      ensures State() == Submit(graph, old(State()), sj, goal)
      decreases Universe(graph) - Keys(jobs), 0
    {
      hide Submit, Expand;
      hide Consistent, Visiting, Submitted, Made, Indexed, NoDuplicates, Keys, RuleVisits, EdgeVisits, Closed,
        Universe, Visits;
      sj := Key(obj, op);
      ghost var s0 := State();
      SubmitSteps(graph, s0, sj, goal);
      KeyListed(jobs, obj, op);
      if obj in jobs && op in jobs[obj] {
        FlagExisting(sj, goal);
        return;
      }
      CreateJob(sj, goal);
      ghost var s1 := State();
      InUniverse(graph, sj);
      ghost var done := [];
      var made := 0;
      var rules := Rules(op);
      NoRuleVisits(graph[obj], rules);
      for i := 0 to |rules|
        invariant Valid() && objective == old(objective)
        invariant done == RuleVisits(graph[obj], rules[..i]) && made == |done|
        invariant Visiting(graph, s1, State(), sj, done)
        invariant made <= |Visits(graph, sj)| && Expand(graph, State(), sj, made) == Expand(graph, s1, sj, 0)
      {
        ghost var s2 := State();
        VisitingFacts(graph, s1, s2, sj, done);
        VisitsSoFar(graph, sj, i);
        made := VisitEdges(sj, rules[i], made, done);
        NextRuleVisit(graph[obj], rules, i);
        VisitingChains(graph, s1, s2, State(), sj, done, done + EdgeVisits(graph[obj], rules[i]));
        done := done + EdgeVisits(graph[obj], rules[i]);
      }
      AllVisits(graph, sj);
      NewJobSubmitted(graph, s0, s1, State(), sj, goal);
      Expanded(graph, State(), sj);
    }

    /** A job that exists takes the goal flag; what it asks for has been added already. */
    method FlagExisting(k: Key, goal: bool)
      requires Valid() && Consistent(graph, State()) && k in Keys(jobs)
      modifies this`goalRequired, this`upgraded
      ensures Valid() && Submitted(graph, old(State()), State(), k, goal)
      ensures State() == Flagged(old(State()), k, goal)
    {
      hide Consistent, Submitted, Indexed;
      ghost var s0 := State();
      if goal {
        if k !in goalRequired {
          upgraded := upgraded + {k};
        }
        goalRequired := goalRequired + {k};
      }
      assert goal && k in s0.flagged ==> goalRequired == s0.flagged;
      ExistingSubmitted(graph, s0, State(), k, goal);
    }

    /** Append a new job to the list of its object. */
    method CreateJob(k: Key, goal: bool)
      requires Valid() && Consistent(graph, State())
      requires k.obj in graph && k !in Keys(jobs)
      modifies this
      ensures Valid() && objective == old(objective)
      ensures Keys(jobs) == old(Keys(jobs)) + {k}
      ensures req == old(req) && upgraded == old(upgraded)
      ensures goalRequired == if goal then old(goalRequired) + {k} else old(goalRequired)
      ensures Visiting(graph, State(), State(), k, [])
      ensures State() == Created(old(State()), k, goal)
    {
      hide Indexed, Keys, NoDuplicates, Consistent, Visiting, Created, Closed;
      ghost var s := State();
      if k.obj in jobs {
        jobs := jobs[k.obj := jobs[k.obj] + [k.op]];
      } else {
        jobs := jobs[k.obj := [k.op]];
      }
      CreatedLists(s, jobs, k, goal);
      CreatedConsistent(graph, s, jobs, k);
      IndexGrows(Keys(s.jobs), k, req, reqs, reqsOn);
      reqs, reqsOn := reqs[k := {}], reqsOn[k := {}];
      if goal {
        goalRequired := goalRequired + {k};
      }
      NewJobVisiting(graph, s, State(), k);
    }

    // ------------------------------------------------------------------------------------------------
    // Deletion

    /** Delete requirement `id` of `job`; it disappears from the `reqsOn` of its other end as well. */
    method DelReq(job: Key, id: ReqId) returns (found: bool)
      requires job in reqs
      requires id in reqs[job] ==> id in req && req[id].to in reqsOn
      modifies this`req, this`reqs, this`reqsOn
      ensures found <==> id in old(reqs[job])
      ensures found ==> req == old(req) - {id}
      ensures found ==> reqs == old(reqs)[job := old(reqs[job]) - {id}]
      ensures found ==> reqsOn == old(reqsOn)[old(req[id]).to := old(reqsOn[req[id].to]) - {id}]
      ensures !found ==> req == old(req) && reqs == old(reqs) && reqsOn == old(reqsOn)
    {
      found := id in reqs[job];
      if found {
        var to := req[id].to;
        reqsOn := reqsOn[to := reqsOn[to] - {id}];
        reqs := reqs[job := reqs[job] - {id}];
        req := req - {id};
      }
    }

    /** The end of a job: requirements on it leave the jobs that have them, then its own go. */
    method DestroyJob(k: Key)
      requires k in reqs && Indexed(reqs.Keys, req, reqs, reqsOn)
      modifies this`req, this`reqs, this`reqsOn, this`goalRequired
      ensures reqs.Keys == old(reqs.Keys) - {k}
      ensures Indexed(reqs.Keys, req, reqs, reqsOn)
      ensures req == ImageOfReqs(old(req), Keeping(reqs.Keys))
      ensures goalRequired == old(goalRequired) - {k}
    {
      hide *;
      ghost var live, req0 := reqs.Keys, req;
      StartAround(live, req0, reqs, reqsOn, k);
      DropReqsOn(k, live, req0);
      DropReqs(k, live, req0);
      AllAroundGone(live, req0, req, reqs, reqsOn, k);
      IndexShrinks(live, k, req, reqs, reqsOn);
      reqs, reqsOn := reqs - {k}, reqsOn - {k};
      goalRequired := goalRequired - {k};
    }

    /** The requirements on a job leave the jobs that have them. */
    method DropReqsOn(k: Key, ghost live: set<Key>, ghost req0: Reqs)
      requires k in reqs && reqs.Keys == live && reqsOn.Keys == live && Indexed(live, req, reqs, reqsOn)
      requires OnlyAround(req0, req, k)
      modifies this`req, this`reqs, this`reqsOn
      ensures k in reqs && reqs.Keys == live && reqsOn.Keys == live && Indexed(live, req, reqs, reqsOn)
      ensures OnlyAround(req0, req, k) && reqsOn[k] == {}
    {
      hide Indexed, OnlyAround;
      while reqsOn[k] != {}
        invariant k in reqs && reqs.Keys == live && reqsOn.Keys == live && Indexed(live, req, reqs, reqsOn)
        invariant OnlyAround(req0, req, k)
        decreases reqsOn[k]
      {
        var id :| id in reqsOn[k];
        IndexEntry(live, req, reqs, reqsOn, k, id);
        IndexRemove(live, req, reqs, reqsOn, id);
        OnlyAroundLoses(req0, req, k, id);
        ghost var before := reqsOn;
        reqsOn := reqsOn[k := reqsOn[k] - {id}];
        assert req[id].to == k && reqsOn[k] - {id} == reqsOn[k];
        var found := DelReq(req[id].from, id);
        assert found && reqsOn == before[k := before[k] - {id}];
      }
    }

    /** The requirements of a job leave the indexes of the jobs they are on, and are gone. */
    method DropReqs(k: Key, ghost live: set<Key>, ghost req0: Reqs)
      requires k in reqs && reqs.Keys == live && reqsOn.Keys == live && Indexed(live, req, reqs, reqsOn)
      requires OnlyAround(req0, req, k) && reqsOn[k] == {}
      modifies this`req, this`reqs, this`reqsOn
      ensures k in reqs && reqs.Keys == live && reqsOn.Keys == live && Indexed(live, req, reqs, reqsOn)
      ensures OnlyAround(req0, req, k) && reqsOn[k] == {} && reqs[k] == {}
    {
      hide Indexed, OnlyAround;
      while reqs[k] != {}
        invariant k in reqs && reqs.Keys == live && reqsOn.Keys == live && Indexed(live, req, reqs, reqsOn)
        invariant OnlyAround(req0, req, k) && reqsOn[k] == {}
        decreases reqs[k]
      {
        var id :| id in reqs[k];
        IndexEntry(live, req, reqs, reqsOn, k, id);
        IndexRemove(live, req, reqs, reqsOn, id);
        OnlyAroundLoses(req0, req, k, id);
        var to := req[id].to;
        reqsOn := reqsOn[to := reqsOn[to] - {id}];
        reqs := reqs[k := reqs[k] - {id}];
        req := req - {id};
      }
    }

    /**
      * Move `job` from its object's list to the list of jobs to delete, unless it is there already.  The code
      * returns before the loop over the jobs that require it.
      */
    method GetDelList(job: Key, dellist: seq<Key>) returns (dellist': seq<Key>)
      requires job in dellist || job in Keys(jobs)
      modifies this`jobs
      ensures job in dellist ==> jobs == old(jobs) && dellist' == dellist
      ensures job !in dellist ==> jobs == old(jobs)[job.obj := Without(old(jobs[job.obj]), job.op)]
      ensures job !in dellist ==> dellist' == dellist + [job]
    {
      if job in dellist {
        return dellist;
      }
      dellist' := dellist + [job];
      jobs := jobs[job.obj := Without(jobs[job.obj], job.op)];
    }

    /** The list of jobs to delete goes out of scope. */
    method DestroyAll(dellist: seq<Key>)
      requires Distinct(dellist) && (forall k :: k in dellist ==> k in reqs && k !in Keys(jobs))
      requires Indexed(reqs.Keys, req, reqs, reqsOn)
      modifies this`req, this`reqs, this`reqsOn, this`goalRequired
      ensures reqs.Keys == old(reqs.Keys) - (set k | k in dellist)
      ensures Indexed(reqs.Keys, req, reqs, reqsOn)
      ensures req == ImageOfReqs(old(req), Keeping(reqs.Keys))
      ensures goalRequired == old(goalRequired) - (set k | k in dellist)
    {
      hide Indexed;
      IndexIsIdentity(reqs.Keys, req, reqs, reqsOn);
      for i := 0 to |dellist|
        invariant reqs.Keys == old(reqs.Keys) - (set k | k in dellist[..i])
        invariant Indexed(reqs.Keys, req, reqs, reqsOn)
        invariant req == ImageOfReqs(old(req), Keeping(reqs.Keys))
        invariant goalRequired == old(goalRequired) - (set k | k in dellist[..i])
      {
        ghost var a := reqs.Keys;
        assert dellist[..i + 1] == dellist[..i] + [dellist[i]];
        DestroyJob(dellist[i]);
        KeepingTwice(old(req), a, reqs.Keys);
      }
      assert dellist[..|dellist|] == dellist;
    }

    /** Delete all jobs on `o`. */
    method ObjectDelJobs(o: Obj)
      requires Valid() && o in jobs
      modifies this
      ensures Valid() && objective == old(objective)
      ensures AsPlan() == DeleteObject(old(AsPlan()), o)
    {
      var dellist := [];
      ghost var list := jobs[o];
      ghost var i := 0;
      while jobs[o] != []
        invariant 0 <= i <= |list|
        invariant jobs == old(jobs)[o := list[i..]]
        invariant dellist == seq(i, j requires 0 <= j < i => Key(o, list[j]))
        invariant objective == old(objective) && goalRequired == old(goalRequired)
        invariant req == old(req) && reqs == old(reqs) && reqsOn == old(reqsOn)
        decreases |jobs[o]|
      {
        assert Key(o, jobs[o][0]) in Keys(jobs);
        dellist := GetDelList(Key(o, jobs[o][0]), dellist);
        i := i + 1;
      }
      ObjectEmptied(old(jobs), jobs, o, dellist);
      DestroyAll(dellist);
    }

    // ------------------------------------------------------------------------------------------------
    // Ordering cycles

    /**
      * Follow the After edges from `origin` through objects with jobs, with the objects on the way in `path`.
      * When the walk runs into itself, `found` is where it got to; otherwise `found` is `path` again.
      */
    method ObjectCreatesCycle(origin: Obj, path: seq<Obj>) returns (cyclic: bool, found: seq<Obj>)
      requires Closed(graph) && origin in graph && Trail(graph, path)
      ensures cyclic <==> Search(graph, jobs, origin, path).Some?
      ensures found == if cyclic then Search(graph, jobs, origin, path).value else path
      decreases |graph| - |path|
    {
      if origin in path {
        return true, path;
      }
      LongerTrail(graph, path, origin);
      cyclic, found := false, path + [origin];
      for i := 0 to |graph[origin]|
        invariant Trail(graph, path + [origin])
        invariant !cyclic ==> found == path + [origin]
        invariant SearchEdges(graph, jobs, origin, 0, path + [origin])
               == if cyclic then Some(found) else SearchEdges(graph, jobs, origin, i, path + [origin])
      {
        var edge := graph[origin][i];
        if After in edge.kinds && !cyclic && HasJob(jobs, edge.to) {
          cyclic, found := ObjectCreatesCycle(edge.to, found);
        }
      }
      if !cyclic {
        found := path;
      }
    }

    /** Whether a job on `o` is the objective or has a goal-required requirement on it. */
    method ObjectRequiresAllJobs(o: Obj) returns (essential: bool)
      requires Valid() && o in jobs
      ensures essential <==> Essential(AsPlan(), o)
    {
      var list := jobs[o];
      for i := 0 to |list|
        invariant forall j :: 0 <= j < i ==> Key(o, list[j]) != objective && !HasGoalReq(req, Key(o, list[j]))
      {
        var k := Key(o, list[i]);
        assert k in Keys(jobs) && k in JobsOn(jobs, o);
        if k == objective {
          return true;
        }
        var rest := reqsOn[k];
        while rest != {}
          invariant rest <= reqsOn[k]
          invariant forall id :: id in reqsOn[k] - rest ==> id in req && !req[id].goal
          decreases rest
        {
          var id :| id in rest;
          if req[id].goal {
            assert req[id].to == k;
            return true;
          }
          rest := rest - {id};
        }
        assert forall id :: id in req && req[id].to == k ==> id in reqsOn[k];
      }
      assert forall k :: k in JobsOn(jobs, o) ==> exists j :: 0 <= j < |list| && list[j] == k.op;
      return false;
    }

    /** Delete the jobs of the last object on `path` that is not essential, if there is one. */
    method TryRemoveCycle(path: seq<Obj>) returns (removed: bool)
      requires Valid() && forall o :: o in path ==> o in jobs
      modifies this
      ensures Valid()
      ensures removed <==> TryRemove(old(AsPlan()), path).Some?
      ensures AsPlan() == if removed then TryRemove(old(AsPlan()), path).value else old(AsPlan())
      ensures !removed ==> forall o :: o in path ==> Essential(old(AsPlan()), o)
      ensures removed ==>
                exists i: nat :: LastUnessential(old(AsPlan()), path, i) && AsPlan() == DeleteObject(old(AsPlan()), path[i])
    {
      ghost var p := AsPlan();
      TryRemoveDeletesLast(p, path);
      var i := |path|;
      assert path[..i] == path;
      while i > 0
        invariant 0 <= i <= |path|
        invariant Valid() && AsPlan() == p && TryRemove(p, path) == TryRemove(p, path[..i])
      {
        assert path[..i][..i - 1] == path[..i - 1];
        i := i - 1;
        var essential := ObjectRequiresAllJobs(path[i]);
        if !essential {
          ObjectDelJobs(path[i]);
          return true;
        }
      }
      return false;
    }

    /**
      * One pass over the objects, in whatever order the map holds them: each ordering cycle met is broken if it
      * can be.  This is what the code does; `order` is the order taken.
      */
    method VerifyPass() returns (ok: bool, ghost order: seq<Obj>)
      requires Valid() && FlagsBacked(AsPlan())
      modifies this
      ensures Valid() && FlagsBacked(AsPlan())
      ensures forall o :: o in order ==> o in old(jobs)
      ensures ok ==> forall o :: o in old(jobs) ==> o in order
      ensures (ok, AsPlan()) == Pass(graph, old(AsPlan()), order)
      ensures !ok ==> EssentialCycle(graph, old(AsPlan()))
      ensures EssentialCycle(graph, old(AsPlan())) ==> !Acyclic(AfterGraph(graph, jobs))
      ensures Pruned(old(AsPlan()), AsPlan()) && objective == old(objective)
      ensures Leads(Removing(graph), old(AsPlan()), AsPlan())
    {
      hide Removing, Pass, FlagsBacked, Pruned, Essential, Search, Indexed, TryRemove, RunsBack, EssentialCycle, Acyclic,
        AfterGraph, NoDuplicates;
      PassOfNone(graph, AsPlan());
      ghost var p := AsPlan();
      order := [];
      ok := true;
      var rest := jobs.Keys;
      ValidMeansWellFormed();
      PrunedSelf(graph, p);
      LeadsNowhere(Removing(graph), p);
      while rest != {}
        invariant Valid() && FlagsBacked(AsPlan()) && Pruned(p, AsPlan())
        invariant jobs.Keys == p.jobs.Keys && objective == p.objective
        invariant rest <= jobs.Keys && forall o :: o in order <==> o in jobs.Keys - rest
        invariant Pass(graph, p, order) == (true, AsPlan()) && Leads(Removing(graph), p, AsPlan())
        decreases rest
      {
        var o :| o in rest;
        rest := rest - {o};
        ghost var q := AsPlan();
        PassNext(graph, p, order, o, q);
        order := order + [o];
        PassRemovesForCycles(graph, p, order);
        if HasJob(jobs, o) {
          var cyclic, path := ObjectCreatesCycle(o, []);
          if cyclic {
            FoundHaveJobs(graph, jobs, o);
            ValidMeansWellFormed();
            var removed := TryRemoveCycle(path);
            if !removed {
              PassFailsOnEssentialCycle(graph, p, order);
              PrunedSameEssentialCycles(graph, p, q);
              return false, order;
            }
            RemovalKeeps(graph, q, path);
            PrunedShape(q, AsPlan());
            PrunedChains(p, q, AsPlan());
          }
        }
      }
      ValidMeansWellFormed();
      PrunedSameEssentialCycles(graph, p, AsPlan());
    }

    // ------------------------------------------------------------------------------------------------
    // Merging

    /** All requirements of and on `job` become requirements of and on `into`, which takes its goal flag. */
    method MergeJobInto(job: Key, into: Key)
      requires Valid() && job in Keys(jobs) && into in Keys(jobs) && job != into
      modifies this`req, this`reqs, this`reqsOn, this`goalRequired
      ensures Valid()
      ensures req == ImageOfReqs(old(req), Keeping(Keys(jobs))[job := into])
      ensures reqs[job] == {} && reqsOn[job] == {}
      ensures goalRequired == if job in old(goalRequired) then old(goalRequired) + {into} else old(goalRequired)
    {
      hide Indexed, Redirected, Closed, NoDuplicates, Keys, ImageOfReqs;
      ghost var live, req0, reqs0, on0 := Keys(jobs), req, reqs, reqsOn;
      StartAround(live, req, reqs, reqsOn, job);
      forall id | id in reqs[job] || id in reqsOn[job]
        ensures id in req
      {
        IndexEntry(live, req, reqs, reqsOn, job, id);
      }
      NothingRedirected(req0, into);
      var todo := reqs[job];
      assert reqs0[job] - todo == {};
      while todo != {}
        invariant reqs == reqs0 && reqsOn == on0 && goalRequired == old(goalRequired)
        invariant todo <= reqs0[job]
        invariant req == Redirected(req0, into, reqs0[job] - todo, {})
        decreases todo
      {
        var id :| id in todo;
        FromRedirected(req0, into, reqs0[job], todo, id);
        req := req[id := req[id].(from := into)];
        todo := todo - {id};
      }
      reqs := reqs[into := reqs[into] + reqs[job]][job := {}];
      todo := reqsOn[job];
      assert reqs0[job] - {} == reqs0[job] && on0[job] - todo == {};
      while todo != {}
        invariant reqs == reqs0[into := reqs0[into] + reqs0[job]][job := {}]
        invariant reqsOn == on0 && goalRequired == old(goalRequired)
        invariant todo <= on0[job]
        invariant req == Redirected(req0, into, reqs0[job], on0[job] - todo)
        decreases todo
      {
        var id :| id in todo;
        ToRedirected(req0, into, reqs0[job], on0[job], todo, id);
        req := req[id := req[id].(to := into)];
        todo := todo - {id};
      }
      reqsOn := reqsOn[into := reqsOn[into] + reqsOn[job]][job := {}];
      if job in goalRequired {
        goalRequired := goalRequired + {into};
      }
      assert on0[job] - {} == on0[job];
      IndexRedirect(live, req0, reqs0, on0, job, into);
      RedirectedIsImage(live, req0, reqs0, on0, job, into);
    }

    /** Merge the first job of the list of `o` into the second and drop it. */
    method MergeFrontJobs(o: Obj)
      requires Valid() && o in jobs && |jobs[o]| >= 2
      modifies this
      ensures Valid() && objective == old(objective)
      ensures AsPlan() == MergeFront(old(AsPlan()), o)
    {
      hide Valid, Indexed, Keys, Closed, Mergeable, ImageOfReqs, Keeping, MergeFront, NoDuplicates;
      ghost var p := AsPlan();
      FrontJobs(o);
      var list := jobs[o];
      var j1, j2 := Key(o, list[0]), Key(o, list[1]);
      MergeJobInto(j1, j2);
      ghost var merged := req;
      ReqsAreLive();
      jobs := jobs[o := list[1..]];
      DestroyJob(j1);
      FrontMerged(p, o, merged);
    }

    /** The first two jobs of `o` are jobs, and not the same. */
    lemma FrontJobs(o: Obj)
      requires Valid() && o in jobs && |jobs[o]| >= 2
      ensures var j1, j2 := Key(o, jobs[o][0]), Key(o, jobs[o][1]);
              j1 in Keys(jobs) && j2 in Keys(jobs) && j1 != j2
      ensures Closed(graph) && jobs.Keys <= graph.Keys && Mergeable(AsPlan())
    {
    }

    lemma ReqsAreLive()
      requires Valid()
      ensures reqs.Keys == Keys(jobs) && Indexed(reqs.Keys, req, reqs, reqsOn)
    {
    }

    lemma FrontMerged(p: Plan, o: Obj, merged: Reqs)
      requires o in p.jobs && |p.jobs[o]| >= 2
      requires jobs == p.jobs[o := p.jobs[o][1..]] && objective == p.objective
      requires Closed(graph) && p.jobs.Keys <= graph.Keys && Mergeable(p)
      requires var j1, j2 := Key(o, p.jobs[o][0]), Key(o, p.jobs[o][1]);
               && merged == ImageOfReqs(p.req, Keeping(Keys(p.jobs))[j1 := j2])
               && goalRequired == (if j1 in p.flagged then p.flagged + {j2} else p.flagged) - {j1}
               && reqs.Keys == Keys(p.jobs) - {j1}
      requires req == ImageOfReqs(merged, Keeping(reqs.Keys))
      requires Indexed(reqs.Keys, req, reqs, reqsOn)
      ensures Valid() && AsPlan() == MergeFront(p, o)
    {
      FrontImageSplits(p, o);
      hide Mergeable, ImageOfReqs, Keeping, FrontImage, Indexed, NoDuplicates, Closed;
    }

    /** Merge or delete the jobs of `o` pairwise from the front until one is left. */
    method MergeGroupOf(o: Obj) returns (ok: bool)
      requires Valid() && o in jobs && |jobs[o]| > 1
      modifies this
      ensures Valid() && objective == old(objective) && o in jobs
      ensures ok <==> MergeGroup(old(AsPlan()), o).Some?
      ensures ok ==> Some(AsPlan()) == MergeGroup(old(AsPlan()), o)
    {
      hide Indexed, MergedJobType, MergeFront, DeleteJob, Victim, NoDuplicates, Keys, Without;
      ghost var p := AsPlan();
      while |jobs[o]| > 1
        invariant Valid() && objective == old(objective) && o in jobs
        invariant MergeGroup(p, o) == MergeGroup(AsPlan(), o)
        decreases |jobs[o]|
      {
        var list := jobs[o];
        ghost var q := AsPlan();
        if MergedJobType(list[0], list[1]).None? {
          var victim := Victim(goalRequired, Key(o, list[0]), Key(o, list[1]));
          if victim.None? {
            return false;
          }
          VictimFacts(q, o);
          DeleteOneJob(victim.value);
        } else {
          MergeFrontJobs(o);
          FrontShorter(q, o);
        }
      }
      return true;
    }

    /** Delete a job; the code's `get_del_list` finds no other. */
    method DeleteOneJob(k: Key)
      requires Valid() && k in Keys(jobs)
      modifies this
      ensures Valid() && objective == old(objective)
      ensures AsPlan() == DeleteJob(old(AsPlan()), k)
    {
      hide Indexed, NoDuplicates, Keys, Without, Closed, ImageOfReqs, Keeping, DeleteJob;
      ghost var p := AsPlan();
      OneJobGone(jobs, k);
      ReqsAreLive();
      var dellist := GetDelList(k, []);
      OneElement(dellist, k);
      DestroyAll(dellist);
      JobDeleted(p, AsPlan(), k);
    }

    /** Merge the jobs of every object, in whatever order the map holds the objects. */
    method MergeJobs() returns (ok: bool)
      requires Valid()
      modifies this
      ensures Valid() && objective == old(objective)
      ensures ok <==> forall o :: o in old(jobs) ==> !Conflicting(old(AsPlan()), o)
      ensures ok ==> AsPlan() == Merged(old(AsPlan()), old(jobs.Keys))
    {
      hide Indexed, Merged, Mergeable, MergeGroup, Conflicting, WellFormed, Keys, NoDuplicates;
      ghost var p := AsPlan();
      ValidMeansWellFormed();
      NothingMerged(p);
      var rest := jobs.Keys;
      ghost var done := {};
      MergedObjects(p, done);
      while rest != {}
        invariant Valid() && objective == p.objective
        invariant rest + done == p.jobs.Keys && rest !! done
        invariant AsPlan() == Merged(p, done) && jobs.Keys == p.jobs.Keys
        invariant forall o :: o in done ==> !Conflicting(p, o)
        decreases rest
      {
        var o :| o in rest;
        rest := rest - {o};
        MergedIsMergeable(p, done);
        GroupUntouched(p, done, o);
        MergeGroupIsQuotient(Merged(p, done), o);
        MergeOneMore(p, done, o);
        if |jobs[o]| > 1 {
          var merged := MergeGroupOf(o);
          if !merged {
            return false;
          }
        } else {
          MergedOfOne(Merged(p, done), o);
        }
        done := done + {o};
        MergedObjects(p, done);
      }
      assert done == p.jobs.Keys;
      return true;
    }

    // ------------------------------------------------------------------------------------------------
    // Goal flags

    /**
      * Pass the goal flags on along required requirements until nothing changes: the propagation the code
      * leaves out where it flags a job that exists already.
      */
    method RepairFlags()
      requires Valid() && GoalBitsSound(AsPlan())
      modifies this`goalRequired, this`req
      ensures Valid()
      ensures OnlyFlagged(old(AsPlan()), AsPlan())
      ensures FlagsPropagated(AsPlan()) && GoalBitsExact(AsPlan()) && GoalBitsSound(AsPlan())
      ensures forall root :: FlagsSound(old(AsPlan()), root) ==> FlagsSound(AsPlan(), root)
      ensures FlagsBacked(old(AsPlan())) ==> FlagsBacked(AsPlan())
    {
      hide GoalBitsSound, FlagsSound, FlagsBacked, FlagsPropagated, GoalBitsExact, Passed;
      hide Indexed, Closed, NoDuplicates, Keys, OnlyFlagged;
      ghost var p := AsPlan();
      StartRepairing(p);
      var todo := goalRequired;
      while todo != {}
        invariant Valid() && jobs == p.jobs && objective == p.objective && Repairing(p, AsPlan())
        invariant todo <= goalRequired
        invariant forall k :: k in goalRequired && k !in todo ==> Passed(AsPlan(), k)
        decreases Keys(jobs) - goalRequired, todo
      {
        var k :| k in todo;
        todo := todo - {k};
        StartAround(Keys(jobs), req, reqs, reqsOn, k);
        var rest := reqs[k];
        ghost var flagged0, todo0 := goalRequired, todo;
        while rest != {}
          invariant Valid() && jobs == p.jobs && objective == p.objective && Repairing(p, AsPlan())
          invariant todo <= goalRequired && k in goalRequired && rest <= reqs[k]
          invariant forall j :: j in goalRequired && j !in todo && j != k ==> Passed(AsPlan(), j)
          invariant forall id :: id in reqs[k] - rest ==> NeedPassed(AsPlan(), id)
          invariant flagged0 <= goalRequired && (goalRequired == flagged0 ==> todo == todo0)
          decreases rest
        {
          var id :| id in rest;
          rest := rest - {id};
          IndexEntry(Keys(jobs), req, reqs, reqsOn, k, id);
          if req[id].required {
            ghost var q := AsPlan();
            var to := req[id].to;
            IndexIgnoresGoal(Keys(jobs), req, reqs, reqsOn, id);
            req := req[id := req[id].(goal := true)];
            if to !in goalRequired {
              todo := todo + {to};
              goalRequired := goalRequired + {to};
            }
            RepairStep(p, q, AsPlan(), id);
          }
        }
        PassedByIndex(AsPlan(), reqs, reqsOn, k);
      }
      AllPassed(AsPlan());
    }

    // ------------------------------------------------------------------------------------------------
    // Generation

    /** Submit the objective to the empty transaction. */
    method SubmitObjective()
      requires Valid() && State() == NOTHING && objective.obj in graph
      modifies this
      ensures Valid() && objective == old(objective)
      ensures Generated(graph, State(), objective)
      ensures State() == Submit(graph, NOTHING, objective, true)
      ensures FlagsBacked(AsPlan()) && GoalBitsSound(AsPlan())
    {
      hide Submitted, Indexed, Submit;
      var sj := JobSubmit(objective.obj, objective.op, true);
      SubmittedFromNothing(graph, State(), objective);
      GeneratedFlagsSound(graph, State(), objective);
      assert forall id :: id in req ==> GoalBitOk(State(), id);
    }

    /**
      * Generate the transaction as the code does: submit the objective, make one pass that breaks ordering
      * cycles, merge.  The ghost results are the states in between.
      */
    method Generate() returns (r: Outcome, ghost s: Snap, ghost order: seq<Obj>, ghost q: Plan)
      requires Valid() && State() == NOTHING && objective.obj in graph
      modifies this
      ensures Valid() && objective == old(objective)
      ensures s == Submit(graph, NOTHING, objective, true)
      ensures r.Accepted? ==> AsCoded(graph, objective, s, order, q, AsPlan())
      ensures r.Accepted? ==> InGoodOrder(graph, objective, AsPlan())
      ensures r.Accepted? && OneWay(AfterGraph(graph, s.jobs)) ==> Acyclic(AfterGraph(graph, jobs))
      ensures r.Accepted? ==> (Acyclic(AfterGraph(graph, jobs)) <==> RecheckIdle(graph, PlanOf(s, objective), q, order))
      ensures r.Cyclic? ==> EssentialCycle(graph, AsPlan()) && EssentialCycle(graph, PlanOf(s, objective))
      ensures r.Accepted? && Acyclic(AfterGraph(graph, jobs)) ==> !EssentialCycle(graph, PlanOf(s, objective))
      ensures r.Unmergeable? ==> exists o :: GoalContradicts(graph, objective, o)
    {
      hide Submit, OneWay, Generated, FlagsBacked, Pruned, Pass, Conflicting, InGoodOrder, EssentialCycle, GoalContradicts,
        Merged, Acyclic, Indexed, NoDuplicates, GoalBitsSound;
      SubmitObjective();
      s := State();
      q := AsPlan();
      var ok;
      ok, order := VerifyPass();
      if !ok {
        PassFailsOnEssentialCycle(graph, q, order);
        return Cyclic, s, order, q;
      }
      q := AsPlan();
      PrunedShape(PlanOf(s, objective), q);
      var merged := MergeJobs();
      if !merged {
        ghost var o :| o in q.jobs && Conflicting(q, o);
        ConflictAfterPruning(graph, objective, s, q, o);
        return Unmergeable, s, order, q;
      }
      AcceptedByTheCode(graph, objective, s, order, q, AsPlan());
      return Accepted, s, order, q;
    }
  }

  lemma PrunedShape(p: Plan, q: Plan)
    requires Pruned(p, q)
    ensures q.jobs.Keys == p.jobs.Keys && q.flagged == p.flagged && q.objective == p.objective
  {
  }

  lemma ConflictAfterPruning(g: Graph, goal: Key, s: Snap, q: Plan, o: Obj)
    requires Generated(g, s, goal) && Pruned(PlanOf(s, goal), q) && Conflicting(q, o)
    ensures GoalContradicts(g, goal, o)
  {
    ConflictIsContradiction(g, goal, q, o);
  }

  lemma IndexIgnoresGoal(live: set<Key>, req: Reqs, reqs: Index, reqsOn: Index, id: ReqId)
    requires Indexed(live, req, reqs, reqsOn) && id in req
    ensures Indexed(live, req[id := req[id].(goal := true)], reqs, reqsOn)
  {
  }

  lemma PassedByIndex(p: Plan, reqs: Index, reqsOn: Index, k: Key)
    requires Indexed(Keys(p.jobs), p.req, reqs, reqsOn) && k in Keys(p.jobs)
    requires forall id :: id in reqs[k] ==> NeedPassed(p, id)
    ensures Passed(p, k)
  {
  }

  lemma FrontKeys(p: Plan, o: Obj)
    requires HasFrontPair(p, o)
    ensures var j1, j2 := Key(o, p.jobs[o][0]), Key(o, p.jobs[o][1]);
            && j1 != j2 && j1 in Keys(p.jobs) && j2 in Keys(p.jobs)
            && Keys(p.jobs[o := p.jobs[o][1..]]) == Keys(p.jobs) - {j1}
            && NoDuplicates(p.jobs[o := p.jobs[o][1..]])
  {
    var list := p.jobs[o];
    assert list[0] in list && list[1] in list;
    KeysAfterShortening(p.jobs, o, list[1..], list[0]);
  }

  lemma DropAfterMerge(req: Reqs, flagged: set<Key>, ks: set<Key>, j1: Key, j2: Key)
    requires j1 in ks && j2 in ks && j1 != j2 && flagged <= ks
    ensures var f := Keeping(ks)[j1 := j2];
            && ImageOfReqs(ImageOfReqs(req, f), Keeping(ks - {j1})) == ImageOfReqs(req, f)
            && ImageOfFlags(flagged, f) == (if j1 in flagged then flagged + {j2} else flagged) - {j1}
  {
    var f := Keeping(ks)[j1 := j2];
    ImagesCompose(req, f, Keeping(ks - {j1}));
    assert Compose(f, Keeping(ks - {j1})) == f;
    forall k | k in flagged
      ensures f[k] in ImageOfFlags(flagged, f)
    {
    }
  }

  /** The image of a front merge, then dropping the merged job, is the image of the front merge. */
  lemma FrontImageSplits(p: Plan, o: Obj)
    requires HasFrontPair(p, o)
    ensures var j1, j2 := Key(o, p.jobs[o][0]), Key(o, p.jobs[o][1]);
            && j1 != j2 && j1 in Keys(p.jobs) && j2 in Keys(p.jobs)
            && Keys(p.jobs[o := p.jobs[o][1..]]) == Keys(p.jobs) - {j1}
            && NoDuplicates(p.jobs[o := p.jobs[o][1..]])
    ensures var j1, j2 := Key(o, p.jobs[o][0]), Key(o, p.jobs[o][1]);
            var merged := ImageOfReqs(p.req, FrontImage(p, o));
            && ImageOfReqs(merged, Keeping(Keys(p.jobs) - {j1})) == MergeFront(p, o).req
            && (if j1 in p.flagged then p.flagged + {j2} else p.flagged) - {j1} == MergeFront(p, o).flagged
            && FrontImage(p, o) == Keeping(Keys(p.jobs))[j1 := j2]
  {
    FrontKeys(p, o);
    DropAfterMerge(p.req, p.flagged, Keys(p.jobs), Key(o, p.jobs[o][0]), Key(o, p.jobs[o][1]));
    hide Keys, Keeping, NoDuplicates, ImageOfReqs, ImageOfFlags;
  }

  ghost predicate HasFrontPair(p: Plan, o: Obj) {
    Mergeable(p) && o in p.jobs && |p.jobs[o]| >= 2
  }

  lemma VictimFacts(p: Plan, o: Obj)
    requires o in p.jobs && |p.jobs[o]| >= 2
    requires Victim(p.flagged, Key(o, p.jobs[o][0]), Key(o, p.jobs[o][1])).Some?
    ensures var v := Victim(p.flagged, Key(o, p.jobs[o][0]), Key(o, p.jobs[o][1])).value;
            && v.obj == o && v in Keys(p.jobs) && o in DeleteJob(p, v).jobs
            && |DeleteJob(p, v).jobs[o]| < |p.jobs[o]|
  {
    var v := Victim(p.flagged, Key(o, p.jobs[o][0]), Key(o, p.jobs[o][1])).value;
    assert v.op in p.jobs[o][..2];
    WithoutOneOfTwo(p.jobs[o], v.op);
  }

  lemma FrontShorter(p: Plan, o: Obj)
    requires o in p.jobs && |p.jobs[o]| >= 2
    ensures o in MergeFront(p, o).jobs && |MergeFront(p, o).jobs[o]| < |p.jobs[o]|
  {
  }

  lemma MergedObjects(p: Plan, os: set<Obj>)
    ensures Merged(p, os).jobs.Keys == p.jobs.Keys && Merged(p, os).objective == p.objective
  {
  }

  lemma StartAround(live: set<Key>, req: Reqs, reqs: Index, reqsOn: Index, k: Key)
    requires Indexed(live, req, reqs, reqsOn)
    ensures OnlyAround(req, req, k) && reqs.Keys == live && reqsOn.Keys == live
    ensures forall id :: id in req ==> req[id].from in live && req[id].to in live
  {
  }

  lemma IndexLive(live: set<Key>, req: Reqs, reqs: Index, reqsOn: Index)
    requires Indexed(live, req, reqs, reqsOn)
    ensures reqs.Keys == live && reqsOn.Keys == live
  {
  }

  lemma IndexIsIdentity(live: set<Key>, req: Reqs, reqs: Index, reqsOn: Index)
    requires Indexed(live, req, reqs, reqsOn)
    ensures req == ImageOfReqs(req, Keeping(live))
  {
  }

  /** All jobs of `o` moved to the list of jobs to delete. */
  lemma ObjectEmptied(before: Lists, after: Lists, o: Obj, dellist: seq<Key>)
    requires NoDuplicates(before) && o in before && after == before[o := []]
    requires dellist == seq(|before[o]|, j requires 0 <= j < |before[o]| => Key(o, before[o][j]))
    ensures Distinct(dellist)
    ensures (set k | k in dellist) == JobsOn(before, o)
    ensures Keys(after) == Keys(before) - JobsOn(before, o)
    ensures NoDuplicates(after)
  {
    KeysOfEmptied(before, o);
    forall k | k in JobsOn(before, o)
      ensures k in dellist
    {
      var j :| 0 <= j < |before[o]| && before[o][j] == k.op;
      assert dellist[j] == k;
    }
  }

  lemma {:induction false} NoEdgeVisits(vs: seq<Visit>, links: seq<Link>, r: Rule)
    ensures vs == vs + EdgeVisits(links[..0], r)
  {
  }

  lemma {:induction false} NextEdgeVisit(vs: seq<Visit>, links: seq<Link>, r: Rule, i: nat)
    requires i < |links|
    ensures vs + EdgeVisits(links[..i + 1], r)
         == if r.kind in links[i].kinds
            then (vs + EdgeVisits(links[..i], r)) + [Visit(Key(links[i].to, r.op), r.required)]
            else vs + EdgeVisits(links[..i], r)
  {
    var head := links[..i + 1];
    assert head[..i] == links[..i] && head[i] == links[i];
  }

  lemma OneElement(dellist: seq<Key>, k: Key)
    requires dellist == [] + [k]
    ensures Distinct(dellist) && (set j | j in dellist) == {k}
  {
    assert dellist[0] in dellist;
  }

  lemma JobDeleted(p: Plan, q: Plan, k: Key)
    requires k.obj in p.jobs && p.flagged <= Keys(p.jobs)
    requires q.jobs == p.jobs[k.obj := Without(p.jobs[k.obj], k.op)] && Keys(q.jobs) == Keys(p.jobs) - {k}
    requires q.objective == p.objective && q.flagged == p.flagged - {k}
    requires q.req == ImageOfReqs(p.req, Keeping(Keys(q.jobs)))
    ensures q == DeleteJob(p, k)
  {
    hide Keys, Without, ImageOfReqs, Keeping;
  }

  lemma OneJobGone(jobs: Lists, k: Key)
    requires NoDuplicates(jobs) && k in Keys(jobs)
    ensures k.obj in jobs
    ensures var after := jobs[k.obj := Without(jobs[k.obj], k.op)];
            Keys(after) == Keys(jobs) - {k} && NoDuplicates(after)
  {
    WithoutElements(jobs[k.obj], k.op);
    KeysAfterShortening(jobs, k.obj, Without(jobs[k.obj], k.op), k.op);
  }

  lemma KeyListed(jobs: Lists, obj: Obj, op: JobType)
    ensures Key(obj, op) in Keys(jobs) <==> obj in jobs && op in jobs[obj]
  {
  }

  lemma InUniverse(g: Graph, k: Key)
    requires k.obj in g
    ensures k in Universe(g)
  {
    EveryTypeListed(k.op);
  }

  lemma {:induction false} SubmitSteps(g: Graph, s: Snap, k: Key, goal: bool)
    requires Closed(g) && k.obj in g
    ensures Submit(g, s, k, goal) == if Listed(s, k) then Flagged(s, k, goal) else Expand(g, Created(s, k, goal), k, 0)
  {
    if !Listed(s, k) {
      CreatedKeys(g, s, k, goal);
    }
    hide Expand;
  }

  lemma ExpandSteps(g: Graph, s: Snap, k: Key, done: seq<Visit>, v: Visit)
    requires Closed(g) && k.obj in g && done + [v] <= Visits(g, k)
    ensures v.to.obj in g
    ensures var goal := k in s.flagged && v.required;
            var t := Submit(g, s, v.to, goal);
            Expand(g, s, k, |done|)
            == Expand(g, t.(req := t.req[ReqId(k, |done|) := Req(k, v.to, v.required, goal)]), k, |done| + 1)
  {
    assert Visits(g, k)[|done|] == (done + [v])[|done|] == v;
    VisitStays(g, k, v);
    hide Submit, Visits;
  }

  lemma {:induction false} Expanded(g: Graph, s: Snap, k: Key)
    requires Closed(g) && k.obj in g
    ensures Expand(g, s, k, |Visits(g, k)|) == s
  {
  }

  /** The visits up to and with rule `i` come first. */
  lemma VisitsSoFar(g: Graph, k: Key, i: nat)
    requires k.obj in g && i < |Rules(k.op)|
    ensures RuleVisits(g[k.obj], Rules(k.op)[..i]) + EdgeVisits(g[k.obj], Rules(k.op)[i]) <= Visits(g, k)
  {
    NextRuleVisit(g[k.obj], Rules(k.op), i);
    RuleVisitsGrow(g[k.obj], Rules(k.op), i + 1);
  }

  lemma {:induction false} RuleVisitsGrow(links: seq<Link>, rules: seq<Rule>, i: nat)
    requires i <= |rules|
    ensures RuleVisits(links, rules[..i]) <= RuleVisits(links, rules)
    decreases |rules|
  {
    if i == |rules| {
      assert rules[..i] == rules;
    } else {
      RuleVisitsGrow(links, rules[..|rules| - 1], i);
      assert rules[..|rules| - 1][..i] == rules[..i];
    }
  }

  lemma {:induction false} EdgeVisitsSoFar(vs: seq<Visit>, links: seq<Link>, r: Rule, i: nat, all: seq<Visit>)
    requires i < |links| && vs + EdgeVisits(links, r) <= all
    ensures vs + EdgeVisits(links[..i + 1], r) <= all
  {
    EdgeVisitsGrow(links, r, i + 1);
  }

  lemma {:induction false} EdgeVisitsGrow(links: seq<Link>, r: Rule, i: nat)
    requires i <= |links|
    ensures EdgeVisits(links[..i], r) <= EdgeVisits(links, r)
    decreases |links|
  {
    if i == |links| {
      assert links[..i] == links;
    } else {
      EdgeVisitsGrow(links[..|links| - 1], r, i);
      assert links[..|links| - 1][..i] == links[..i];
    }
  }

  lemma {:induction false} NoRuleVisits(links: seq<Link>, rules: seq<Rule>)
    ensures RuleVisits(links, rules[..0]) == []
  {
  }

  lemma AllVisits(g: Graph, k: Key)
    requires k.obj in g
    ensures RuleVisits(g[k.obj], Rules(k.op)[..|Rules(k.op)|]) == Visits(g, k)
  {
    assert Rules(k.op)[..|Rules(k.op)|] == Rules(k.op);
  }

  lemma {:induction false} NextRuleVisit(links: seq<Link>, rules: seq<Rule>, i: nat)
    requires i < |rules|
    ensures RuleVisits(links, rules[..i + 1]) == RuleVisits(links, rules[..i]) + EdgeVisits(links, rules[i])
  {
    var head := rules[..i + 1];
    assert head[..i] == rules[..i] && head[i] == rules[i];
  }

  lemma VisitingFacts(g: Graph, s: Snap, t: Snap, k: Key, done: seq<Visit>)
    requires Visiting(g, s, t, k, done)
    ensures Consistent(g, t) && Made(t.req, k, done)
    ensures k in Keys(t.jobs) && k !in t.upgraded
    ensures Visiting(g, t, t, k, done)
    ensures Keys(s.jobs) <= Keys(t.jobs)
  {
    StartVisiting(g, t, k, done);
  }

  lemma VisitIsAsked(g: Graph, k: Key, r: Rule, i: nat)
    requires Closed(g) && k.obj in g && r in Rules(k.op) && i < |g[k.obj]| && r.kind in g[k.obj][i].kinds
    ensures g[k.obj][i].to in g
    ensures Visit(Key(g[k.obj][i].to, r.op), r.required) in Visits(g, k)
  {
    VisitsAreMatchingEdges(g, k, Visit(Key(g[k.obj][i].to, r.op), r.required));
    assert Asks(g, k, r, g[k.obj][i], Visit(Key(g[k.obj][i].to, r.op), r.required));
  }

  lemma ReadyToRequire(g: Graph, s: Snap, t: Snap, k: Key, done: seq<Visit>, sub: Key, goal: bool)
    requires Visiting(g, s, s, k, done) && Submitted(g, s, t, sub, goal)
    ensures k in Keys(t.jobs) && sub in Keys(t.jobs) && ReqId(k, |done|) !in t.req
    ensures Visiting(g, s, s, k, done)
  {
    MadeStays(s, t, k, done, {});
  }

  lemma CreatedLists(s: Snap, after: Lists, k: Key, goal: bool)
    requires after == s.jobs[k.obj := if k.obj in s.jobs then s.jobs[k.obj] + [k.op] else [k.op]]
    ensures Created(s, k, goal) == Snap(after, if goal then s.flagged + {k} else s.flagged, s.upgraded, s.req)
  {
    assert [] + [k.op] == [k.op];
  }

  lemma CreatedConsistent(g: Graph, s: Snap, after: Lists, k: Key)
    requires Consistent(g, s) && k.obj in g && k !in Keys(s.jobs)
    requires after == s.jobs[k.obj := if k.obj in s.jobs then s.jobs[k.obj] + [k.op] else [k.op]]
    ensures Keys(after) == Keys(s.jobs) + {k} && NoDuplicates(after)
    ensures after.Keys == s.jobs.Keys + {k.obj} && after.Keys <= g.Keys
    ensures forall o :: o in after ==> after[o] != []
  {
    KeyListed(s.jobs, k.obj, k.op);
    NewKey(s.jobs, after, k.obj, k.op);
    hide Keys, NoDuplicates, GoalBitOk;
  }

  lemma NewKey(before: Lists, after: Lists, obj: Obj, op: JobType)
    requires obj in before ==> op !in before[obj] && after == before[obj := before[obj] + [op]]
    requires obj !in before ==> after == before[obj := [op]]
    requires NoDuplicates(before)
    ensures Keys(after) == Keys(before) + {Key(obj, op)}
    ensures Key(obj, op) !in Keys(before)
    ensures NoDuplicates(after)
  {
  }
}
