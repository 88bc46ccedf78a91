/** Ordering cycles: how the transaction generator finds them and breaks them. */
module Ordering {
  import opened Types
  import opened Jobs
  import opened Walks
  import opened AfterGraphs

  datatype Option<T> = None | Some(value: T)

  predicate HasJob(jobs: Lists, o: Obj) {
    o in jobs && jobs[o] != []
  }

  /** The objects that have jobs. */
  function Working(jobs: Lists): set<Obj> {
    set o | o in jobs && HasJob(jobs, o)
  }

  /** The After edges between objects that have jobs. */
  function AfterGraph(g: Graph, jobs: Lists): Digraph<Obj> {
    AfterAmong(g, Working(jobs))
  }

  lemma AfterStep(g: Graph, jobs: Lists, o: Obj, to: Obj)
    ensures Step(AfterGraph(g, jobs), o, to) <==>
            HasJob(jobs, o) && HasJob(jobs, to) && Follows(g, o, to)
  {
    AmongStep(g, Working(jobs), o, to);
  }

  /** A path of the depth-first search: it repeats no object. */
  ghost predicate Trail(g: Graph, path: seq<Obj>) {
    Distinct(path) && forall i :: 0 <= i < |path| ==> path[i] in g
  }

  lemma LongerTrail(g: Graph, path: seq<Obj>, o: Obj)
    requires Trail(g, path) && o in g && o !in path
    ensures Trail(g, path + [o]) && |path| < |g|
  {
    DistinctFits(path + [o], g.Keys);
  }

  /** The search from `o`: the path that ran into itself, or none. */
  ghost function Search(g: Graph, jobs: Lists, o: Obj, path: seq<Obj>): Option<seq<Obj>>
    requires Closed(g) && o in g && Trail(g, path)
    decreases |g| - |path|, 0
  {
    if o in path then
      Some(path)
    else
      LongerTrail(g, path, o);
      SearchEdges(g, jobs, o, 0, path + [o])
  }

  /** The search over the edges of `o` from the i-th on. */
  ghost function SearchEdges(g: Graph, jobs: Lists, o: Obj, i: nat, path: seq<Obj>): Option<seq<Obj>>
    requires Closed(g) && o in g && i <= |g[o]| && Trail(g, path)
    decreases |g| - |path|, |g[o]| - i + 1
  {
    DistinctFits(path, g.Keys);
    if i == |g[o]| then
      None
    else
      var l := g[o][i];
      if After in l.kinds && HasJob(jobs, l.to) && Search(g, jobs, l.to, path).Some? then
        Search(g, jobs, l.to, path)
      else
        SearchEdges(g, jobs, o, i + 1, path)
  }

  /**
    * The search follows, of the After edges of `o` to objects with jobs, the first in list order from which it finds
    * something; where it comes back to its path it stops with that path.
    */
  lemma {:induction false} SearchTakesFirst(g: Graph, jobs: Lists, o: Obj, path: seq<Obj>)
    requires Closed(g) && o in g && Trail(g, path)
    ensures o in path ==> Search(g, jobs, o, path) == Some(path)
    ensures o !in path ==> Trail(g, path + [o])
    ensures o !in path && Search(g, jobs, o, path).Some? ==>
              exists i :: 0 <= i < |g[o]| && Finds(g, jobs, g[o][i], path + [o])
                          && Search(g, jobs, o, path) == Search(g, jobs, g[o][i].to, path + [o])
                          && forall j :: 0 <= j < i ==> !Finds(g, jobs, g[o][j], path + [o])
    ensures o !in path && Search(g, jobs, o, path).None? ==>
              forall i :: 0 <= i < |g[o]| ==> !Finds(g, jobs, g[o][i], path + [o])
  {
    if o !in path {
      LongerTrail(g, path, o);
      EdgesTakeFirst(g, jobs, o, 0, path + [o]);
    }
  }

  /** The link is an After edge to an object with a job from which the search finds something. */
  ghost predicate Finds(g: Graph, jobs: Lists, l: Link, path: seq<Obj>)
    requires Closed(g) && Trail(g, path)
  {
    After in l.kinds && HasJob(jobs, l.to) && l.to in g && Search(g, jobs, l.to, path).Some?
  }

  lemma {:induction false} EdgesTakeFirst(g: Graph, jobs: Lists, o: Obj, i: nat, path: seq<Obj>)
    requires Closed(g) && o in g && i <= |g[o]| && Trail(g, path)
    ensures SearchEdges(g, jobs, o, i, path).Some? ==>
              exists k :: i <= k < |g[o]| && Finds(g, jobs, g[o][k], path)
                          && SearchEdges(g, jobs, o, i, path) == Search(g, jobs, g[o][k].to, path)
                          && forall j :: i <= j < k ==> !Finds(g, jobs, g[o][j], path)
    ensures SearchEdges(g, jobs, o, i, path).None? ==> forall k :: i <= k < |g[o]| ==> !Finds(g, jobs, g[o][k], path)
    decreases |g[o]| - i
  {
    DistinctFits(path, g.Keys);
    if i < |g[o]| && !Finds(g, jobs, g[o][i], path) {
      EdgesTakeFirst(g, jobs, o, i + 1, path);
    }
  }

  /**
    * `found` extends `path` by a simple walk from `o`, and its last object has an edge back into it; when `o`
    * is in `path` already there is nothing to add.
    */
  ghost predicate RunsBack(ag: Digraph<Obj>, o: Obj, path: seq<Obj>, found: seq<Obj>) {
    && path <= found
    && Distinct(found)
    && if o in path then found == path
       else
         var w := found[|path|..];
         && IsWalk(ag, w) && w[0] == o
         && exists x :: x in found && Step(ag, w[|w| - 1], x)
  }

  /** The search finds a path exactly when some walk from `o` revisits an object. */
  lemma {:induction false} SearchExact(g: Graph, jobs: Lists, o: Obj, path: seq<Obj>)
    requires Closed(g) && o in g && HasJob(jobs, o) && Trail(g, path)
    ensures Search(g, jobs, o, path).Some? <==> Loops(AfterGraph(g, jobs), o, path)
    ensures Search(g, jobs, o, path).Some? ==>
              RunsBack(AfterGraph(g, jobs), o, path, Search(g, jobs, o, path).value)
    decreases |g| - |path|, 0
  {
    var ag := AfterGraph(g, jobs);
    if o in path {
      assert Lasso(ag, [o], path);
    } else {
      LongerTrail(g, path, o);
      SearchEdgesExact(g, jobs, o, 0, path);
      if Loops(ag, o, path) {
        LoopsUnfold(ag, o, path);
        var s :| Step(ag, o, s) && Loops(ag, s, path + [o]);
        AfterStep(g, jobs, o, s);
        var j :| 0 <= j < |g[o]| && After in g[o][j].kinds && g[o][j].to == s;
        assert LoopsAt(g, jobs, o, j, path + [o]);
      }
    }
  }

  /** The j-th edge of `o` leads to an object with a job from which some walk runs back. */
  ghost predicate LoopsAt(g: Graph, jobs: Lists, o: Obj, j: nat, path: seq<Obj>)
    requires o in g && j < |g[o]|
  {
    After in g[o][j].kinds && HasJob(jobs, g[o][j].to) && Loops(AfterGraph(g, jobs), g[o][j].to, path)
  }

  lemma {:induction false} SearchEdgesExact(g: Graph, jobs: Lists, o: Obj, i: nat, path: seq<Obj>)
    requires Closed(g) && o in g && HasJob(jobs, o) && Trail(g, path) && o !in path
    requires Trail(g, path + [o]) && i <= |g[o]|
    ensures SearchEdges(g, jobs, o, i, path + [o]).Some? <==>
            exists j :: i <= j < |g[o]| && LoopsAt(g, jobs, o, j, path + [o])
    ensures SearchEdges(g, jobs, o, i, path + [o]).Some? ==>
              && RunsBack(AfterGraph(g, jobs), o, path, SearchEdges(g, jobs, o, i, path + [o]).value)
              && Loops(AfterGraph(g, jobs), o, path)
    decreases |g| - |path| - 1, |g[o]| - i + 1
  {
    var here := path + [o];
    DistinctFits(here, g.Keys);
    if i < |g[o]| {
      var l := g[o][i];
      SearchEdgesExact(g, jobs, o, i + 1, path);
      if After in l.kinds && HasJob(jobs, l.to) {
        SearchExact(g, jobs, l.to, here);
        if Search(g, jobs, l.to, here).Some? {
          assert LoopsAt(g, jobs, o, i, here);
          AfterStep(g, jobs, o, l.to);
          RunsBackEarlier(AfterGraph(g, jobs), o, l.to, path, Search(g, jobs, l.to, here).value);
        }
      }
    }
  }

  lemma RunsBackEarlier(ag: Digraph<Obj>, o: Obj, s: Obj, path: seq<Obj>, found: seq<Obj>)
    requires o !in path && Step(ag, o, s)
    requires RunsBack(ag, s, path + [o], found)
    ensures RunsBack(ag, o, path, found)
    ensures Loops(ag, o, path)
  {
    var w := found[|path|..];
    assert found[|path|] == o;
    if s in path + [o] {
      assert w == [o];
      assert s in found && Step(ag, w[|w| - 1], s);
    } else {
      var rest := found[|path + [o]|..];
      assert w == [o] + rest;
      JoinWalks(ag, [o], rest);
      assert w[|w| - 1] == rest[|rest| - 1];
    }
    RunsBackLoops(ag, o, path, found);
  }

  lemma RunsBackLoops(ag: Digraph<Obj>, o: Obj, path: seq<Obj>, found: seq<Obj>)
    requires o !in path && RunsBack(ag, o, path, found)
    ensures Loops(ag, o, path)
  {
    var w := found[|path|..];
    var x :| x in found && Step(ag, w[|w| - 1], x);
    assert IsWalk(ag, [x]);
    JoinWalks(ag, w, [x]);
    var u := w + [x];
    if x !in path {
      var i :| 0 <= i < |found| && found[i] == x;
      assert u[i - |path|] == x;
    }
    assert Lasso(ag, u, path) && u[0] == o;
  }

  /** A path found from scratch contains a closed walk. */
  lemma FoundPathHasCycle(ag: Digraph<Obj>, o: Obj, found: seq<Obj>) returns (w: seq<Obj>)
    requires RunsBack(ag, o, [], found)
    ensures ClosedWalk(ag, w) && forall x :: x in w ==> x in found
  {
    assert found[0..] == found;
    var x :| x in found && Step(ag, found[|found| - 1], x);
    var i :| 0 <= i < |found| && found[i] == x;
    BackStepCloses(ag, found, i);
    w := found[i..] + [found[i]];
  }
}
