/** The object graph as the transaction generator and the job engine look at it. */
module Outline {
  import opened Types
  import opened Engine
  import opened ObjectGraph

  /** The main alias of the object a name is bound to. */
  ghost function MainOf(g: State, n: Name): Obj
    requires Wellformed(g) && n in g.bound
    ensures MainOf(g, n) in g.bound && g.bound[MainOf(g, n)] == g.bound[n]
    ensures g.node[g.bound[MainOf(g, n)]].main == MainOf(g, n)
  {
    assert NameOk(g, n);
    g.node[g.bound[n]].main
  }

  ghost function Mains(g: State): set<Obj>
    requires Wellformed(g)
  {
    set n | n in g.bound :: MainOf(g, n)
  }

  /** The edges of a list, each as its bitmask and the object at its other end. */
  ghost function Links(g: State, es: seq<Edge>, fwd: bool): (links: seq<Link>)
    requires Wellformed(g) && forall i :: 0 <= i < |es| ==> EndOf(es[i], !fwd) in g.bound
    ensures |links| == |es|
    ensures forall i :: 0 <= i < |es| ==> links[i] == Link(es[i].value.kinds, MainOf(g, EndOf(es[i], !fwd)))
  {
    seq(|es|, i requires 0 <= i < |es| => Link(es[i].value.kinds, MainOf(g, EndOf(es[i], !fwd))))
  }

  lemma BothEndsBound(g: State)
    requires Wellformed(g)
    ensures forall n, side, e :: n in g.bound && e in ListOf(g.node[g.bound[n]], side) ==>
              e in g.declared && e.value.from in g.bound && e.value.to in g.bound
  {
    assert SideAgrees(g, true) && SideAgrees(g, false);
  }

  /** Objects by main alias, with their edges, or, if not `fwd`, the edges to them. */
  ghost function OutlineOf(g: State, fwd: bool): Graph
    requires Wellformed(g)
  {
    BothEndsBound(g);
    map o | o in Mains(g) :: Links(g, ListOf(g.node[g.bound[o]], fwd), fwd)
  }

  /** An After edge between these objects, seen from the object at the `fwd` end. */
  ghost predicate Joins(g: State, e: Edge, fwd: bool, a: Obj, b: Obj)
    requires Wellformed(g)
  {
    && After in e.value.kinds && e.value.from in g.bound && e.value.to in g.bound
    && MainOf(g, EndOf(e, fwd)) == a && MainOf(g, EndOf(e, !fwd)) == b
  }

  lemma ListedByMain(g: State, fwd: bool, o: Obj, e: Edge)
    requires Wellformed(g) && o in Mains(g)
    ensures e in ListOf(g.node[g.bound[o]], fwd) <==>
            e in g.declared && EndOf(e, fwd) in g.bound && MainOf(g, EndOf(e, fwd)) == o
  {
    assert SideAgrees(g, fwd);
    hide Tidy, ListOf, EndOf;
  }

  lemma OutlineAt(g: State, fwd: bool, o: Obj)
    requires Wellformed(g)
    ensures o in OutlineOf(g, fwd) <==> o in Mains(g)
    ensures o in Mains(g) ==> o in g.bound && g.bound[o] in g.node
    ensures o in Mains(g) ==>
              var es := ListOf(g.node[g.bound[o]], fwd);
              && |OutlineOf(g, fwd)[o]| == |es|
              && forall i :: 0 <= i < |es| ==>
                   && es[i].value.from in g.bound && es[i].value.to in g.bound
                   && OutlineOf(g, fwd)[o][i] == Link(es[i].value.kinds, MainOf(g, EndOf(es[i], !fwd)))
  {
    BothEndsBound(g);
    hide Tidy, Agrees, Mains, MainOf, Links;
  }

  lemma FollowsIsDeclared(g: State, fwd: bool, a: Obj, b: Obj)
    requires Wellformed(g)
    ensures Follows(OutlineOf(g, fwd), a, b) <==> exists e :: e in g.declared && Joins(g, e, fwd, a, b)
  {
    hide Wellformed, OutlineOf, Mains, MainOf, ListOf;
    OutlineAt(g, fwd, a);
    if Follows(OutlineOf(g, fwd), a, b) {
      var es := ListOf(g.node[g.bound[a]], fwd);
      var i :| 0 <= i < |OutlineOf(g, fwd)[a]| && After in OutlineOf(g, fwd)[a][i].kinds && OutlineOf(g, fwd)[a][i].to == b;
      ListedByMain(g, fwd, a, es[i]);
      assert Joins(g, es[i], fwd, a, b);
    }
    if e :| e in g.declared && Joins(g, e, fwd, a, b) {
      InMains(g, EndOf(e, fwd));
      ListedByMain(g, fwd, a, e);
      var es := ListOf(g.node[g.bound[a]], fwd);
      var i :| 0 <= i < |es| && es[i] == e;
      assert OutlineOf(g, fwd)[a][i] == Link(e.value.kinds, b);
    }
  }

  lemma InMains(g: State, n: Name)
    requires Wellformed(g) && n in g.bound
    ensures MainOf(g, n) in Mains(g)
  {
  }

  /**
    * A graph in agreement is what generator and engine rely on: every edge leads to an object of the graph, and
    * the edges to objects mirror those from objects.
    */
  lemma OutlineIsFit(g: State)
    requires Wellformed(g)
    ensures Closed(OutlineOf(g, true)) && Closed(OutlineOf(g, false))
    ensures OutlineOf(g, true).Keys == OutlineOf(g, false).Keys == Mains(g)
    ensures Mirrored(OutlineOf(g, true), OutlineOf(g, false))
  {
    BothEndsBound(g);
    forall a, b
      ensures Follows(OutlineOf(g, true), a, b) <==> Follows(OutlineOf(g, false), b, a)
    {
      FollowsIsDeclared(g, true, a, b);
      FollowsIsDeclared(g, false, b, a);
      assert forall e :: Joins(g, e, true, a, b) <==> Joins(g, e, false, b, a);
    }
    hide Tidy, Agrees;
  }

  /** Looking an object up by its aliases, as transactions do, and by the name index, as the graph does, agree. */
  lemma LookupByAlias(g: State, n: Name, o: Obj)
    requires Wellformed(g) && o in Mains(g)
    ensures o in g.bound && g.bound[o] in g.node
    ensures n in g.node[g.bound[o]].aliases <==> n in g.bound && MainOf(g, n) == o
  {
    assert NameOk(g, o);
    hide Agrees;
  }
}
