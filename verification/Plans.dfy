/** A generated transaction as a value, the deletions made on it, and the pass that breaks ordering cycles. */
module Plans {
  import opened Types
  import opened Jobs
  import opened Walks
  import opened Ordering
  import opened Submission
  import opened Chains

  datatype Plan = Plan(objective: Key, jobs: Lists, flagged: set<Key>, req: Reqs)

  ghost predicate WellFormed(g: Graph, p: Plan) {
    && Closed(g)
    && NoDuplicates(p.jobs)
    && p.jobs.Keys <= g.Keys
    && p.flagged <= Keys(p.jobs)
    && (forall id :: id in p.req ==> p.req[id].from in Keys(p.jobs) && p.req[id].to in Keys(p.jobs))
  }

  /**
    * Every flagged job is the objective or has a goal-required requirement on it, and goal-required
    * requirements connect flagged jobs.
    */
  ghost predicate FlagsBacked(p: Plan) {
    && p.objective in p.flagged
    && (forall k :: k in p.flagged ==> k == p.objective || HasGoalReq(p.req, k))
    && (forall id :: id in p.req && p.req[id].goal ==> p.req[id].from in p.flagged && p.req[id].to in p.flagged)
  }

  function JobsOn(jobs: Lists, o: Obj): set<Key> {
    if o in jobs then set t | t in jobs[o] :: Key(o, t) else {}
  }

  /** The transaction restricted to the lists `jobs`: requirements of and on other jobs go with them. */
  function Restricted(p: Plan, jobs: Lists): Plan {
    Plan(p.objective, jobs, p.flagged * Keys(jobs), ImageOfReqs(p.req, Keeping(Keys(jobs))))
  }

  function DeleteObject(p: Plan, o: Obj): Plan {
    Restricted(p, p.jobs[o := []])
  }

  /** A job on `o` is the objective or has a goal-required requirement on it. */
  ghost predicate Essential(p: Plan, o: Obj) {
    exists k :: k in JobsOn(p.jobs, o) && (k == p.objective || HasGoalReq(p.req, k))
  }

  /** Delete the jobs of the last object of `path` that is not essential, if there is one. */
  ghost function TryRemove(p: Plan, path: seq<Obj>): Option<Plan> {
    if path == [] then
      None
    else if !Essential(p, path[|path| - 1]) then
      Some(DeleteObject(p, path[|path| - 1]))
    else
      TryRemove(p, path[..|path| - 1])
  }

  /** One pass of `verify_acyclic` over the objects in `order`, as the code makes it. */
  ghost function Pass(g: Graph, p: Plan, order: seq<Obj>): (bool, Plan)
    requires Closed(g)
    requires forall o :: o in order ==> o in g
    decreases |order|
  {
    if order == [] then
      (true, p)
    else
      var o := order[0];
      if HasJob(p.jobs, o) && Search(g, p.jobs, o, []).Some? then
        var next := TryRemove(p, Search(g, p.jobs, o, []).value);
        if next.None? then (false, p) else Pass(g, next.value, order[1..])
      else
        Pass(g, p, order[1..])
  }

  lemma KeysOfEmptied(jobs: Lists, o: Obj)
    ensures Keys(jobs[o := []]) == Keys(jobs) - JobsOn(jobs, o)
  {
  }

  /** Deleting an unessential object removes no flagged job and unsettles no flag. */
  lemma DeleteUnessential(g: Graph, p: Plan, o: Obj)
    requires WellFormed(g, p) && FlagsBacked(p)
    requires o in p.jobs && !Essential(p, o)
    ensures WellFormed(g, DeleteObject(p, o)) && FlagsBacked(DeleteObject(p, o))
    ensures DeleteObject(p, o).flagged == p.flagged
    ensures Keys(DeleteObject(p, o).jobs) == Keys(p.jobs) - JobsOn(p.jobs, o)
  {
    var q := DeleteObject(p, o);
    KeysOfEmptied(p.jobs, o);
    forall k | k in p.flagged
      ensures k in Keys(q.jobs)
    {
    }
    assert q.flagged == p.flagged;
    forall k | k in q.flagged && k != q.objective
      ensures HasGoalReq(q.req, k)
    {
      assert HasGoalReq(p.req, k);
      var id :| id in p.req && p.req[id].goal && p.req[id].to == k;
      assert id in q.req && q.req[id].to == k;
    }
  }

  /** The i-th object of the path is not essential, and all after it are. */
  ghost predicate LastUnessential(p: Plan, path: seq<Obj>, i: nat) {
    i < |path| && !Essential(p, path[i]) && forall j :: i < j < |path| ==> Essential(p, path[j])
  }

  /** What a removal does: the last object of the path that is not essential loses its jobs. */
  lemma {:induction false} TryRemoveDeletesLast(p: Plan, path: seq<Obj>)
    ensures TryRemove(p, path).None? <==> forall o :: o in path ==> Essential(p, o)
    ensures TryRemove(p, path).Some? ==>
              exists i: nat :: LastUnessential(p, path, i) && TryRemove(p, path).value == DeleteObject(p, path[i])
  {
    if path != [] {
      var init, last := path[..|path| - 1], path[|path| - 1];
      assert path == init + [last];
      TryRemoveDeletesLast(p, init);
      if TryRemove(p, path).Some? {
        if Essential(p, last) {
          var i: nat :| LastUnessential(p, init, i) && TryRemove(p, init).value == DeleteObject(p, init[i]);
          assert LastUnessential(p, path, i);
        } else {
          assert LastUnessential(p, path, |path| - 1);
        }
      }
    }
  }

  lemma {:induction false} TryRemoveDeletesOne(p: Plan, path: seq<Obj>)
    ensures TryRemove(p, path).None? <==> forall o :: o in path ==> Essential(p, o)
    ensures TryRemove(p, path).Some? ==>
              exists o :: o in path && !Essential(p, o) && TryRemove(p, path).value == DeleteObject(p, o)
  {
    TryRemoveDeletesLast(p, path);
    if TryRemove(p, path).Some? {
      var i: nat :| LastUnessential(p, path, i) && TryRemove(p, path).value == DeleteObject(p, path[i]);
      assert path[i] in path;
    }
  }

  /** The objects of a found path all have jobs. */
  lemma {:induction false} FoundHaveJobs(g: Graph, jobs: Lists, o: Obj)
    requires Closed(g) && o in g && HasJob(jobs, o)
    requires Search(g, jobs, o, []).Some?
    ensures RunsBack(AfterGraph(g, jobs), o, [], Search(g, jobs, o, []).value)
    ensures forall x :: x in Search(g, jobs, o, []).value ==> HasJob(jobs, x)
  {
    SearchExact(g, jobs, o, []);
    var found := Search(g, jobs, o, []).value;
    var ag := AfterGraph(g, jobs);
    assert found[0..] == found;
    forall x | x in found
      ensures HasJob(jobs, x)
    {
      var i :| 0 <= i < |found| && found[i] == x;
      if i < |found| - 1 {
        assert Step(ag, found[i], found[i + 1]);
      }
    }
  }

  // ---------------------------------------------------------------------------------------------------
  // Why jobs are removed

  /** The search from `o`, which has a job, ran into itself along `path`: there is an ordering cycle. */
  ghost predicate FoundCycle(g: Graph, p: Plan, o: Obj, path: seq<Obj>) {
    && Closed(g) && o in g && HasJob(p.jobs, o)
    && Search(g, p.jobs, o, []) == Some(path) && RunsBack(AfterGraph(g, p.jobs), o, [], path)
  }

  lemma FoundCycleIsCycle(g: Graph, p: Plan, o: Obj, path: seq<Obj>)
    requires FoundCycle(g, p, o, path)
    ensures !Acyclic(AfterGraph(g, p.jobs))
  {
    var w := FoundPathHasCycle(AfterGraph(g, p.jobs), o, path);
  }

  /** As the code breaks a cycle that was found: its last unessential object loses its jobs. */
  ghost predicate RemovesForCycle(g: Graph, p: Plan, q: Plan) {
    exists o, path, i: nat :: FoundCycle(g, p, o, path) && LastUnessential(p, path, i) && q == DeleteObject(p, path[i])
  }

  ghost function Removing(g: Graph): (Plan, Plan) -> bool {
    (p, q) => RemovesForCycle(g, p, q)
  }

  /** A pass removes nothing but to break a cycle it has found. */
  lemma {:induction false} PassRemovesForCycles(g: Graph, p: Plan, order: seq<Obj>)
    requires Closed(g) && forall o :: o in order ==> o in g
    ensures Leads(Removing(g), p, Pass(g, p, order).1)
    decreases |order|
  {
    if order == [] {
      LeadsNowhere(Removing(g), p);
    } else {
      var o := order[0];
      if HasJob(p.jobs, o) && Search(g, p.jobs, o, []).Some? {
        FoundHaveJobs(g, p.jobs, o);
        var found := Search(g, p.jobs, o, []).value;
        TryRemoveDeletesLast(p, found);
        var next := TryRemove(p, found);
        if next.None? {
          LeadsNowhere(Removing(g), p);
        } else {
          assert FoundCycle(g, p, o, found);
          assert Removing(g)(p, next.value);
          PassRemovesForCycles(g, next.value, order[1..]);
          StepThenLeads(Removing(g), p, next.value, Pass(g, next.value, order[1..]).1);
        }
      } else {
        PassRemovesForCycles(g, p, order[1..]);
      }
    }
  }

  /** From `p` to `q` only jobs of whole objects were deleted, and none was flagged. */
  ghost predicate Pruned(p: Plan, q: Plan) {
    && q.objective == p.objective
    && q.flagged == p.flagged
    && q.jobs.Keys == p.jobs.Keys
    && (forall o :: o in p.jobs ==> q.jobs[o] == p.jobs[o] || q.jobs[o] == [])
    && q.req == ImageOfReqs(p.req, Keeping(Keys(q.jobs)))
  }

  lemma PrunedKeys(p: Plan, q: Plan)
    requires Pruned(p, q)
    ensures Keys(q.jobs) <= Keys(p.jobs)
    ensures Keys(q.jobs) == Keys(p.jobs) ==> q.jobs == p.jobs
  {
    if Keys(q.jobs) == Keys(p.jobs) {
      forall o | o in p.jobs
        ensures q.jobs[o] == p.jobs[o]
      {
        if p.jobs[o] != [] {
          assert Key(o, p.jobs[o][0]) in Keys(p.jobs);
        }
      }
    }
  }

  lemma PrunedChains(p: Plan, q: Plan, r: Plan)
    requires Pruned(p, q) && Pruned(q, r)
    ensures Pruned(p, r)
  {
    PrunedKeys(q, r);
    var f, h := Keeping(Keys(q.jobs)), Keeping(Keys(r.jobs));
    ImagesCompose(p.req, f, h);
    assert Compose(f, h) == h;
  }

  lemma RemovalPrunes(g: Graph, p: Plan, o: Obj)
    requires WellFormed(g, p) && FlagsBacked(p)
    requires HasJob(p.jobs, o) && !Essential(p, o)
    ensures WellFormed(g, DeleteObject(p, o)) && FlagsBacked(DeleteObject(p, o))
    ensures Pruned(p, DeleteObject(p, o))
    ensures Keys(DeleteObject(p, o).jobs) < Keys(p.jobs)
  {
    DeleteUnessential(g, p, o);
    assert Key(o, p.jobs[o][0]) in JobsOn(p.jobs, o);
    assert p.jobs[o := []].Keys == p.jobs.Keys;
  }

  lemma PrunedSelf(g: Graph, p: Plan)
    requires WellFormed(g, p)
    ensures Pruned(p, p)
  {
    KeepingAllIsIdentity(p.req, p.flagged, Keys(p.jobs));
  }

  /** A pass removes only whole objects, and never a flagged job. */
  lemma {:induction false} PassPrunes(g: Graph, p: Plan, order: seq<Obj>)
    requires WellFormed(g, p) && FlagsBacked(p)
    requires forall o :: o in order ==> o in g
    ensures WellFormed(g, Pass(g, p, order).1) && FlagsBacked(Pass(g, p, order).1)
    ensures Pruned(p, Pass(g, p, order).1)
    decreases |order|
  {
    if order == [] {
      PrunedSelf(g, p);
    } else {
      var o := order[0];
      if HasJob(p.jobs, o) && Search(g, p.jobs, o, []).Some? {
        FoundHaveJobs(g, p.jobs, o);
        var found := Search(g, p.jobs, o, []).value;
        TryRemoveDeletesOne(p, found);
        var next := TryRemove(p, found);
        if next.None? {
          PrunedSelf(g, p);
        } else {
          var x :| x in found && !Essential(p, x) && next.value == DeleteObject(p, x);
          RemovalPrunes(g, p, x);
          PassPrunes(g, next.value, order[1..]);
          PrunedChains(p, next.value, Pass(g, next.value, order[1..]).1);
        }
      } else {
        PassPrunes(g, p, order[1..]);
      }
    }
  }

  /** A pass that fails stops at a cycle all of whose objects are essential to the goal. */
  ghost predicate EssentialCycle(g: Graph, p: Plan) {
    exists w :: ClosedWalk(AfterGraph(g, p.jobs), w) && forall o :: o in w ==> Essential(p, o)
  }

  lemma {:induction false} UnbreakableIsEssential(g: Graph, p: Plan, o: Obj)
    requires Closed(g) && o in g && HasJob(p.jobs, o)
    requires Search(g, p.jobs, o, []).Some? && TryRemove(p, Search(g, p.jobs, o, []).value).None?
    ensures EssentialCycle(g, p)
  {
    FoundHaveJobs(g, p.jobs, o);
    var found := Search(g, p.jobs, o, []).value;
    TryRemoveDeletesOne(p, found);
    hide *;
    var w := FoundPathHasCycle(AfterGraph(g, p.jobs), o, found);
    EssentialWalk(g, p, w);
  }

  lemma EssentialWalk(g: Graph, p: Plan, w: seq<Obj>)
    requires ClosedWalk(AfterGraph(g, p.jobs), w)
    requires forall o :: o in w ==> Essential(p, o)
    ensures EssentialCycle(g, p)
  {
  }

  lemma {:induction false} PassFailsOnEssentialCycle(g: Graph, p: Plan, order: seq<Obj>)
    requires Closed(g)
    requires forall o :: o in order ==> o in g
    requires !Pass(g, p, order).0
    ensures EssentialCycle(g, Pass(g, p, order).1)
    decreases |order|
  {
    var o := order[0];
    if HasJob(p.jobs, o) && Search(g, p.jobs, o, []).Some? {
      var next := TryRemove(p, Search(g, p.jobs, o, []).value);
      if next.None? {
        UnbreakableIsEssential(g, p, o);
      } else {
        PassFailsOnEssentialCycle(g, next.value, order[1..]);
      }
    } else {
      PassFailsOnEssentialCycle(g, p, order[1..]);
    }
  }

  /** A pass that returns true without deleting a job met no object that reaches a cycle. */
  lemma {:induction false} UntouchedPassSawNoLoop(g: Graph, p: Plan, order: seq<Obj>)
    requires WellFormed(g, p) && FlagsBacked(p)
    requires forall o :: o in order ==> o in g
    requires Pass(g, p, order) == (true, p)
    ensures forall o :: o in order && HasJob(p.jobs, o) ==> !Loops(AfterGraph(g, p.jobs), o, [])
    decreases |order|
  {
    if order != [] {
      var o := order[0];
      if HasJob(p.jobs, o) {
        SearchExact(g, p.jobs, o, []);
        if Search(g, p.jobs, o, []).Some? {
          FoundHaveJobs(g, p.jobs, o);
          var found := Search(g, p.jobs, o, []).value;
          TryRemoveDeletesOne(p, found);
          var x :| x in found && !Essential(p, x) && TryRemove(p, found).value == DeleteObject(p, x);
          RemovalPrunes(g, p, x);
          PassPrunes(g, DeleteObject(p, x), order[1..]);
          PrunedKeys(DeleteObject(p, x), p);
          assert false;
        }
      }
      UntouchedPassSawNoLoop(g, p, order[1..]);
    }
  }

  lemma {:induction false} AcyclicPassIsIdle(g: Graph, p: Plan, order: seq<Obj>)
    requires Closed(g)
    requires forall o :: o in order ==> o in g
    requires Acyclic(AfterGraph(g, p.jobs))
    ensures Pass(g, p, order) == (true, p)
    decreases |order|
  {
    if order != [] {
      NoLoopsIffAcyclic(AfterGraph(g, p.jobs));
      if HasJob(p.jobs, order[0]) {
        SearchExact(g, p.jobs, order[0], []);
      }
      AcyclicPassIsIdle(g, p, order[1..]);
    }
  }

  /**
    * A pass over all objects returns true and deletes nothing exactly when the After graph is acyclic.  So a
    * single pass has done its work exactly when another one would be idle.
    */
  lemma {:induction false} PassIdleIffAcyclic(g: Graph, p: Plan, order: seq<Obj>)
    requires WellFormed(g, p) && FlagsBacked(p)
    requires forall o :: o in order <==> o in p.jobs
    ensures Pass(g, p, order) == (true, p) <==> Acyclic(AfterGraph(g, p.jobs))
  {
    var ag := AfterGraph(g, p.jobs);
    if Acyclic(ag) {
      AcyclicPassIsIdle(g, p, order);
    }
    if Pass(g, p, order) == (true, p) {
      UntouchedPassSawNoLoop(g, p, order);
      NoLoopsIffAcyclic(ag);
      forall o
        ensures !Loops(ag, o, [])
      {
        if Loops(ag, o, []) {
          LoopStartsAtNode(ag, o);
        }
      }
    }
  }

  lemma LoopStartsAtNode<T(!new)>(g: Digraph<T>, o: T)
    requires Loops(g, o, [])
    ensures o in g
  {
    LoopsUnfold(g, o, []);
  }

  /** Essential objects are those with a flagged job. */
  lemma EssentialIffFlagged(g: Graph, p: Plan, o: Obj)
    requires WellFormed(g, p) && FlagsBacked(p)
    ensures Essential(p, o) <==> exists k :: k in p.flagged && k.obj == o
  {
    if Essential(p, o) {
      var k :| k in JobsOn(p.jobs, o) && (k == p.objective || HasGoalReq(p.req, k));
      assert k in p.flagged && k.obj == o;
    }
    if k :| k in p.flagged && k.obj == o {
      assert k in JobsOn(p.jobs, o);
    }
  }

  lemma EssentialHasJob(p: Plan, o: Obj)
    requires Essential(p, o)
    ensures HasJob(p.jobs, o)
  {
  }

  lemma EssentialWalkStays(g: Graph, p: Plan, q: Plan, w: seq<Obj>)
    requires ClosedWalk(AfterGraph(g, p.jobs), w) && forall o :: o in w ==> Essential(q, o)
    ensures ClosedWalk(AfterGraph(g, q.jobs), w)
  {
    forall i | 0 <= i < |w| - 1
      ensures Step(AfterGraph(g, q.jobs), w[i], w[i + 1])
    {
      assert Step(AfterGraph(g, p.jobs), w[i], w[i + 1]);
      AfterStep(g, p.jobs, w[i], w[i + 1]);
      AfterStep(g, q.jobs, w[i], w[i + 1]);
      EssentialHasJob(q, w[i]);
      EssentialHasJob(q, w[i + 1]);
    }
  }

  /** Deletions that spare the flagged jobs neither break a cycle of essential objects nor make one. */
  lemma SameEssentialCycles(g: Graph, p: Plan, q: Plan)
    requires WellFormed(g, p) && FlagsBacked(p) && WellFormed(g, q) && FlagsBacked(q) && q.flagged == p.flagged
    requires forall a, b :: Step(AfterGraph(g, q.jobs), a, b) ==> Step(AfterGraph(g, p.jobs), a, b)
    ensures EssentialCycle(g, p) <==> EssentialCycle(g, q)
  {
    forall o
      ensures Essential(p, o) <==> Essential(q, o)
    {
      EssentialIffFlagged(g, p, o);
      EssentialIffFlagged(g, q, o);
    }
    hide WellFormed, FlagsBacked, Essential, AfterGraph, Step;
    if EssentialCycle(g, p) {
      var w :| ClosedWalk(AfterGraph(g, p.jobs), w) && forall o :: o in w ==> Essential(p, o);
      EssentialWalkStays(g, p, q, w);
    }
    if EssentialCycle(g, q) {
      var w :| ClosedWalk(AfterGraph(g, q.jobs), w) && forall o :: o in w ==> Essential(q, o);
      WalkInLargerGraph(AfterGraph(g, q.jobs), AfterGraph(g, p.jobs), w);
      assert ClosedWalk(AfterGraph(g, p.jobs), w);
    }
  }

  /** So a pass that fails was given such a cycle, and one that was given one leaves an ordering cycle. */
  lemma PrunedSameEssentialCycles(g: Graph, p: Plan, q: Plan)
    requires WellFormed(g, p) && FlagsBacked(p) && WellFormed(g, q) && FlagsBacked(q) && Pruned(p, q)
    ensures EssentialCycle(g, p) <==> EssentialCycle(g, q)
    ensures EssentialCycle(g, p) ==> !Acyclic(AfterGraph(g, q.jobs))
  {
    forall a, b | Step(AfterGraph(g, q.jobs), a, b)
      ensures Step(AfterGraph(g, p.jobs), a, b)
    {
      AfterStep(g, q.jobs, a, b);
      AfterStep(g, p.jobs, a, b);
    }
    SameEssentialCycles(g, p, q);
    hide Essential, AfterGraph;
  }

  /** The objects from which the pass finds a cycle, which it then breaks. */
  ghost function Hits(g: Graph, p: Plan, order: seq<Obj>): seq<Obj>
    requires Closed(g)
    requires forall o :: o in order ==> o in g
    ensures forall o :: o in Hits(g, p, order) ==> o in g
    decreases |order|
  {
    if order == [] then
      []
    else
      var o := order[0];
      if HasJob(p.jobs, o) && Search(g, p.jobs, o, []).Some? then
        var next := TryRemove(p, Search(g, p.jobs, o, []).value);
        if next.None? then [] else [o] + Hits(g, next.value, order[1..])
      else
        Hits(g, p, order[1..])
  }

  /** With fewer jobs there are fewer walks. */
  lemma PrunedLoopsLess(g: Graph, p: Plan, q: Plan, o: Obj)
    requires Pruned(p, q) && Loops(AfterGraph(g, q.jobs), o, [])
    ensures Loops(AfterGraph(g, p.jobs), o, [])
  {
    forall a, b | Step(AfterGraph(g, q.jobs), a, b)
      ensures Step(AfterGraph(g, p.jobs), a, b)
    {
      AfterStep(g, q.jobs, a, b);
      AfterStep(g, p.jobs, a, b);
    }
    var w :| Lasso(AfterGraph(g, q.jobs), w, []) && w[0] == o;
    WalkInLargerGraph(AfterGraph(g, q.jobs), AfterGraph(g, p.jobs), w);
    assert Lasso(AfterGraph(g, p.jobs), w, []);
  }

  /** An object from which the pass found no cycle reaches none at the end. */
  lemma {:induction false} OthersLoopNoMore(g: Graph, p: Plan, order: seq<Obj>)
    requires WellFormed(g, p) && FlagsBacked(p)
    requires forall o :: o in order ==> o in g
    requires Pass(g, p, order).0
    ensures forall o :: o in order && o !in Hits(g, p, order) && HasJob(Pass(g, p, order).1.jobs, o) ==>
              !Loops(AfterGraph(g, Pass(g, p, order).1.jobs), o, [])
    decreases |order|
  {
    if order != [] {
      var o, rest := order[0], order[1..];
      assert order == [o] + rest;
      if HasJob(p.jobs, o) && Search(g, p.jobs, o, []).Some? {
        FoundHaveJobs(g, p.jobs, o);
        var found := Search(g, p.jobs, o, []).value;
        TryRemoveDeletesOne(p, found);
        var x :| x in found && !Essential(p, x) && TryRemove(p, found).value == DeleteObject(p, x);
        RemovalPrunes(g, p, x);
        OthersLoopNoMore(g, DeleteObject(p, x), rest);
      } else {
        OthersLoopNoMore(g, p, rest);
        PassPrunes(g, p, rest);
        NoLoopFromHere(g, p, Pass(g, p, rest).1, o);
      }
    }
  }

  lemma {:induction false} NoLoopFromHere(g: Graph, p: Plan, q: Plan, o: Obj)
    requires Closed(g) && o in g && Pruned(p, q) && (HasJob(p.jobs, o) ==> Search(g, p.jobs, o, []).None?)
    ensures HasJob(q.jobs, o) ==> !Loops(AfterGraph(g, q.jobs), o, [])
  {
    if HasJob(q.jobs, o) && Loops(AfterGraph(g, q.jobs), o, []) {
      PrunedLoopsLess(g, p, q, o);
      SearchExact(g, p.jobs, o, []);
    }
  }

  /**
    * When the single pass the code makes returns true, the After graph is acyclic exactly when searching once
    * more from just the objects that led to a removal, if they still have jobs, finds nothing.
    */
  lemma {:induction false} PassLeavesAcyclicIff(g: Graph, p: Plan, order: seq<Obj>)
    requires WellFormed(g, p) && FlagsBacked(p)
    requires forall o :: o in order <==> o in p.jobs
    requires Pass(g, p, order).0
    ensures var q := Pass(g, p, order).1;
            Acyclic(AfterGraph(g, q.jobs)) <==>
            forall o :: o in Hits(g, p, order) && HasJob(q.jobs, o) ==> Search(g, q.jobs, o, []).None?
  {
    var q := Pass(g, p, order).1;
    var ag := AfterGraph(g, q.jobs);
    NoLoopsIffAcyclic(ag);
    OthersLoopNoMore(g, p, order);
    PassPrunes(g, p, order);
    forall o | o in Hits(g, p, order) && HasJob(q.jobs, o)
      ensures Search(g, q.jobs, o, []).None? <==> !Loops(ag, o, [])
    {
      SearchExact(g, q.jobs, o, []);
    }
    if forall o :: o in Hits(g, p, order) && HasJob(q.jobs, o) ==> Search(g, q.jobs, o, []).None? {
      forall o
        ensures !Loops(ag, o, [])
      {
        if Loops(ag, o, []) {
          LoopStartsAtNode(ag, o);
        }
      }
    }
  }

  /** The pass over one more object. */
  lemma {:induction false} PassSnoc(g: Graph, p: Plan, order: seq<Obj>, o: Obj)
    requires Closed(g) && o in g && forall x :: x in order ==> x in g
    requires Pass(g, p, order).0
    ensures Pass(g, p, order + [o]) == Pass(g, Pass(g, p, order).1, [o])
    decreases |order|
  {
    if order == [] {
      assert order + [o] == [o];
    } else {
      var x := order[0];
      assert (order + [o])[1..] == order[1..] + [o];
      if HasJob(p.jobs, x) && Search(g, p.jobs, x, []).Some? {
        PassSnoc(g, TryRemove(p, Search(g, p.jobs, x, []).value).value, order[1..], o);
      } else {
        PassSnoc(g, p, order[1..], o);
      }
    }
  }

  lemma {:induction false} PassOfNone(g: Graph, p: Plan)
    requires Closed(g)
    ensures Pass(g, p, []) == (true, p)
  {
  }

  lemma {:induction false} PassNext(g: Graph, p: Plan, order: seq<Obj>, o: Obj, q: Plan)
    requires Closed(g) && o in g && forall x :: x in order ==> x in g
    requires Pass(g, p, order) == (true, q)
    ensures Pass(g, p, order + [o]) ==
            if HasJob(q.jobs, o) && Search(g, q.jobs, o, []).Some? then
              var next := TryRemove(q, Search(g, q.jobs, o, []).value);
              if next.None? then (false, q) else (true, next.value)
            else
              (true, q)
  {
    PassSnoc(g, p, order, o);
    assert [o][1..] == [];
  }

  /** A removal on a found path prunes and keeps the flags backed. */
  lemma {:induction false} RemovalKeeps(g: Graph, p: Plan, path: seq<Obj>)
    requires WellFormed(g, p) && FlagsBacked(p) && TryRemove(p, path).Some?
    requires forall o :: o in path ==> HasJob(p.jobs, o)
    ensures FlagsBacked(TryRemove(p, path).value) && Pruned(p, TryRemove(p, path).value)
  {
    TryRemoveDeletesOne(p, path);
    var o :| o in path && !Essential(p, o) && TryRemove(p, path).value == DeleteObject(p, o);
    RemovalPrunes(g, p, o);
  }
}
