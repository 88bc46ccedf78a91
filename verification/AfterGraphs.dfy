/** The After edges as a graph. */
module AfterGraphs {
  import opened Types
  import opened Walks

  /** The After edges between the objects in `os`. */
  function AfterAmong(g: Graph, os: set<Obj>): Digraph<Obj> {
    map o | o in g && o in os :: set l | l in g[o] && After in l.kinds && l.to in os :: l.to
  }

  lemma AmongStep(g: Graph, os: set<Obj>, a: Obj, b: Obj)
    ensures Step(AfterAmong(g, os), a, b) <==> a in os && b in os && Follows(g, a, b)
  {
    if Step(AfterAmong(g, os), a, b) {
      var l :| l in g[a] && After in l.kinds && l.to in os && l.to == b;
      var i :| 0 <= i < |g[a]| && g[a][i] == l;
    }
    if a in os && b in os && Follows(g, a, b) {
      var i :| 0 <= i < |g[a]| && After in g[a][i].kinds && g[a][i].to == b;
      assert g[a][i] in g[a];
    }
  }

  lemma FewerStayAcyclic(g: Graph, a: set<Obj>, b: set<Obj>)
    requires a <= b && Acyclic(AfterAmong(g, b))
    ensures Acyclic(AfterAmong(g, a))
  {
    forall x, y | Step(AfterAmong(g, a), x, y)
      ensures Step(AfterAmong(g, b), x, y)
    {
      AmongStep(g, a, x, y);
      AmongStep(g, b, x, y);
    }
    FewerStepsStayAcyclic(AfterAmong(g, a), AfterAmong(g, b));
  }
}
