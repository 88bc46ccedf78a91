/** When the single pass of `verify_acyclic` is enough, seen from the transaction it is given. */
module OneWayRound {
  import opened Types
  import opened Walks
  import opened Ordering
  import opened Plans

  ghost predicate OnCycle<T(!new)>(g: Digraph<T>, o: T) {
    exists w :: ClosedWalk(g, w) && o in w
  }

  /** From an object on a cycle only one step leads to a cycle. */
  ghost predicate OneWay<T(!new)>(g: Digraph<T>) {
    forall o, a, b :: OnCycle(g, o) && LeadsOn(g, o, a) && LeadsOn(g, o, b) ==> a == b
  }

  ghost predicate LeadsOn<T(!new)>(g: Digraph<T>, o: T, a: T) {
    Step(g, o, a) && Loops(g, a, [])
  }

  lemma OneWayInFewer<T(!new)>(g: Digraph<T>, h: Digraph<T>)
    requires OneWay(h) && forall a, b :: Step(g, a, b) ==> Step(h, a, b)
    ensures OneWay(g)
  {
    forall o, a | LeadsOn(g, o, a)
      ensures LeadsOn(h, o, a)
    {
      var w :| Lasso(g, w, []) && w[0] == a;
      WalkInLargerGraph(g, h, w);
      assert Lasso(h, w, []);
    }
    forall o | OnCycle(g, o)
      ensures OnCycle(h, o)
    {
      var w :| ClosedWalk(g, w) && o in w;
      WalkInLargerGraph(g, h, w);
      assert ClosedWalk(h, w);
    }
    hide OnCycle, LeadsOn;
  }

  lemma PartOfWalk<T(!new)>(g: Digraph<T>, w: seq<T>, i: nat, j: nat)
    requires IsWalk(g, w) && i < j <= |w|
    ensures IsWalk(g, w[i..j])
  {
    forall k | 0 <= k < |w[i..j]| - 1
      ensures Step(g, w[i..j][k], w[i..j][k + 1])
    {
      assert Step(g, w[i + k], w[i + k + 1]);
    }
  }

  /** Every object of a closed walk loops, and steps to an object of the walk. */
  lemma MemberLoops<T(!new)>(g: Digraph<T>, w: seq<T>, o: T)
    requires ClosedWalk(g, w) && o in w
    ensures Loops(g, o, []) && exists a :: a in w && LeadsOn(g, o, a)
  {
    LoopsFrom(g, w, o);
    ClosedWalkIsTrap(g, w);
    var s := set x | x in w;
    assert StepsInto(g, s, o);
    var a :| a in s && Step(g, o, a);
    LoopsFrom(g, w, a);
    assert a in w && LeadsOn(g, o, a);
  }

  lemma LassoAt<T(!new)>(g: Digraph<T>, w: seq<T>, i: nat)
    requires IsWalk(g, w) && i < |w| - 1 && w[i] == w[|w| - 1]
    ensures Lasso(g, w, []) && Loops(g, w[0], [])
  {
    assert Lasso(g, w, []);
  }

  lemma LoopsFrom<T(!new)>(g: Digraph<T>, w: seq<T>, o: T)
    requires ClosedWalk(g, w) && o in w
    ensures Loops(g, o, [])
  {
    var i :| 0 <= i < |w| && w[i] == o;
    if i == 0 || i == |w| - 1 {
      LassoAt(g, w, 0);
    } else {
      PartOfWalk(g, w, i, |w|);
      PartOfWalk(g, w, 1, i + 1);
      assert Step(g, w[0], w[0 + 1]);
      JoinWalks(g, w[i..|w|], w[1..i + 1]);
      LassoAt(g, w[i..|w|] + w[1..i + 1], 0);
    }
  }

  /** Every object of a path that runs back into itself loops. */
  lemma FoundLoops<T(!new)>(g: Digraph<T>, found: seq<T>, x: T, i: nat)
    requires IsWalk(g, found) && x in found && Step(g, found[|found| - 1], x) && i < |found|
    ensures Loops(g, found[i], [])
  {
    var j :| 0 <= j < |found| && found[j] == x;
    PartOfWalk(g, found, i, |found|);
    var head := found[i..|found|];
    assert head[|head| - 1] == found[|found| - 1];
    if j < i {
      PartOfWalk(g, found, j, i + 1);
      JoinWalks(g, head, found[j..i + 1]);
      LassoAt(g, head + found[j..i + 1], 0);
    } else {
      assert IsWalk(g, [x]);
      JoinWalks(g, head, [x]);
      LassoAt(g, head + [x], j - i);
    }
  }

  /** Where there is one way only, the path found from an object on a cycle is on that cycle. */
  lemma {:induction false} FoundStaysOnCycle<T(!new)>(g: Digraph<T>, w: seq<T>, found: seq<T>, x: T, i: nat)
    requires OneWay(g) && ClosedWalk(g, w) && IsWalk(g, found) && found[0] in w
    requires x in found && Step(g, found[|found| - 1], x) && i < |found|
    ensures found[i] in w
    decreases i
  {
    if i > 0 {
      FoundStaysOnCycle(g, w, found, x, i - 1);
      var o := found[i - 1];
      MemberLoops(g, w, o);
      var a :| a in w && LeadsOn(g, o, a);
      FoundLoops(g, found, x, i);
      assert Step(g, found[i - 1], found[i - 1 + 1]);
      assert LeadsOn(g, o, found[i]) && OnCycle(g, o);
    }
  }

  lemma PrunedSteps(g: Graph, p: Plan, q: Plan)
    requires Pruned(p, q)
    ensures forall a, b :: Step(AfterGraph(g, q.jobs), a, b) ==> Step(AfterGraph(g, p.jobs), a, b)
  {
    forall a, b | Step(AfterGraph(g, q.jobs), a, b)
      ensures Step(AfterGraph(g, p.jobs), a, b)
    {
      AfterStep(g, q.jobs, a, b);
      AfterStep(g, p.jobs, a, b);
    }
  }

  lemma WalkersHaveJobs(g: Graph, jobs: seq<Obj>, p: Plan)
    requires ClosedWalk(AfterGraph(g, p.jobs), jobs)
    ensures forall o :: o in jobs ==> HasJob(p.jobs, o)
  {
    forall o | o in jobs
      ensures HasJob(p.jobs, o)
    {
      MemberLoops(AfterGraph(g, p.jobs), jobs, o);
      var a :| LeadsOn(AfterGraph(g, p.jobs), o, a);
      AfterStep(g, p.jobs, o, a);
    }
  }

  /** The removal made on behalf of an object on a cycle breaks that cycle. */
  lemma {:induction false} RemovalBreaksCycle(g: Graph, p: Plan, q: Plan, o: Obj, x: Obj, w: seq<Obj>)
    requires Closed(g) && o in g && HasJob(p.jobs, o) && OneWay(AfterGraph(g, p.jobs)) && Pruned(p, q)
    requires Search(g, p.jobs, o, []).Some? && x in Search(g, p.jobs, o, []).value && !HasJob(q.jobs, x)
    ensures !(ClosedWalk(AfterGraph(g, q.jobs), w) && o in w)
  {
    if ClosedWalk(AfterGraph(g, q.jobs), w) && o in w {
      var ag := AfterGraph(g, p.jobs);
      var found := Search(g, p.jobs, o, []).value;
      PrunedSteps(g, p, q);
      WalkInLargerGraph(AfterGraph(g, q.jobs), ag, w);
      WalkersHaveJobs(g, w, q);
      FoundHaveJobs(g, p.jobs, o);
      assert found[0..] == found;
      var y :| y in found && Step(ag, found[|found| - 1], y);
      var i :| 0 <= i < |found| && found[i] == x;
      FoundStaysOnCycle(ag, w, found, y, i);
      assert false;
    }
  }

  lemma {:induction false} NoCycleThrough(g: Graph, p: Plan, order: seq<Obj>, o: Obj, w: seq<Obj>)
    requires WellFormed(g, p) && FlagsBacked(p) && OneWay(AfterGraph(g, p.jobs))
    requires (forall x :: x in order ==> x in g) && o in order && Pass(g, p, order).0
    ensures !(ClosedWalk(AfterGraph(g, Pass(g, p, order).1.jobs), w) && o in w)
    decreases |order|
  {
    var q := Pass(g, p, order).1;
    var c, rest := order[0], order[1..];
    assert order == [c] + rest;
    if HasJob(p.jobs, c) && Search(g, p.jobs, c, []).Some? {
      FoundHaveJobs(g, p.jobs, c);
      var found := Search(g, p.jobs, c, []).value;
      TryRemoveDeletesOne(p, found);
      var x :| x in found && !Essential(p, x) && TryRemove(p, found).value == DeleteObject(p, x);
      var next := DeleteObject(p, x);
      RemovalPrunes(g, p, x);
      PassPrunes(g, next, rest);
      if c == o {
        PrunedChains(p, next, q);
        assert next.jobs[x] == [] && q.jobs[x] == [];
        RemovalBreaksCycle(g, p, q, o, x, w);
      } else {
        PrunedSteps(g, p, next);
        OneWayInFewer(AfterGraph(g, next.jobs), AfterGraph(g, p.jobs));
        NoCycleThrough(g, next, rest, o, w);
      }
    } else if c == o {
      PassPrunes(g, p, rest);
      NotFoundMeansNone(g, p, q, o, w);
    } else {
      NoCycleThrough(g, p, rest, o, w);
    }
  }

  lemma {:induction false} NotFoundMeansNone(g: Graph, p: Plan, q: Plan, o: Obj, w: seq<Obj>)
    requires Closed(g) && o in g && Pruned(p, q) && (HasJob(p.jobs, o) ==> Search(g, p.jobs, o, []).None?)
    ensures !(ClosedWalk(AfterGraph(g, q.jobs), w) && o in w)
  {
    NoLoopFromHere(g, p, q, o);
    if ClosedWalk(AfterGraph(g, q.jobs), w) && o in w {
      WalkersHaveJobs(g, w, q);
      LoopsFrom(AfterGraph(g, q.jobs), w, o);
      assert false;
    }
  }

  /**
    * If every object on an ordering cycle has only one After edge that leads to a cycle, then in whatever order the
    * pass goes over the objects, true means that the After graph is acyclic.
    */
  lemma {:induction false} OnePassIsEnoughIf(g: Graph, p: Plan, order: seq<Obj>)
    requires WellFormed(g, p) && FlagsBacked(p) && OneWay(AfterGraph(g, p.jobs))
    requires (forall o :: o in order <==> o in p.jobs) && Pass(g, p, order).0
    ensures Acyclic(AfterGraph(g, Pass(g, p, order).1.jobs))
  {
    var q := Pass(g, p, order).1;
    PassPrunes(g, p, order);
    forall w | ClosedWalk(AfterGraph(g, q.jobs), w)
      ensures false
    {
      WalkersHaveJobs(g, w, q);
      assert w[0] in w && w[0] in order;
      NoCycleThrough(g, p, order, w[0], w);
    }
  }
}
