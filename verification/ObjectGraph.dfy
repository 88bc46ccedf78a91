/**
  * The object graph: names bound to objects, edges listed at both ends, placeholders made on demand and
  * replaced when an object is loaded.
  */
module ObjectGraph {
  import opened Types
  import opened Walks

  /** What an edge declares; `owner` is the object whose configuration introduced it. */
  datatype Declared = Declared(owner: Name, kinds: set<EdgeType>, from: Name, to: Name)

  /** An edge; no two edges have the same number. */
  datatype Edge = Edge(id: nat, value: Declared)

  /** An object; it is a placeholder until it is loaded. */
  datatype Node = Node(main: Name, aliases: set<Name>, edges: seq<Edge>, edgesTo: seq<Edge>, loaded: bool)

  /**
    * The graph: the name index, the objects by number, all edges ever added, the names ever queued for loading
    * and how many of those have been taken off the queue.
    */
  datatype State = State(bound: map<Name, nat>, node: map<nat, Node>, next: nat, declared: seq<Edge>,
                         queued: seq<Name>, taken: nat)

  const EMPTY := State(map[], map[], 0, [], [], 0)

  /** One entry of a map from names to edge types. */
  datatype Target = Target(name: Name, kinds: set<EdgeType>)

  /** The arguments of `object_load`; the entries of the two maps are listed in key order. */
  datatype Declaration = Declaration(aliases: seq<Name>, edgesFrom: seq<Target>, edgesTo: seq<Target>)

  // ---------------------------------------------------------------------------------------------------
  // Operations

  /** The object a name is bound to; a new placeholder, queued for loading, if there is none. */
  function Get(g: State, n: Name): State {
    if n in g.bound then
      g
    else
      g.(bound := g.bound[n := g.next], node := g.node[g.next := Node(n, {n}, [], [], false)], next := g.next + 1,
         queued := g.queued + [n])
  }

  /** Whether the edges looked at are those from objects or those to objects. */
  function EndOf(e: Edge, fwd: bool): Name {
    if fwd then e.value.from else e.value.to
  }

  function ListOf(n: Node, fwd: bool): seq<Edge> {
    if fwd then n.edges else n.edgesTo
  }

  /** Add an edge to the list of the object its end is bound to. */
  function ListEdge(g: State, e: Edge, fwd: bool): State
    requires EndOf(e, fwd) in g.bound && g.bound[EndOf(e, fwd)] in g.node
  {
    var id := g.bound[EndOf(e, fwd)];
    var n := g.node[id];
    g.(node := g.node[id := if fwd then n.(edges := n.edges + [e]) else n.(edgesTo := n.edgesTo + [e])])
  }

  ghost predicate IdsOk(g: State) {
    && (forall n :: n in g.bound ==> g.bound[n] in g.node)
    && (forall id :: id in g.node ==> id < g.next)
  }

  lemma GetIsOk(g: State, n: Name)
    requires IdsOk(g)
    ensures IdsOk(Get(g, n)) && n in Get(g, n).bound
    ensures g.bound.Keys <= Get(g, n).bound.Keys
  {
  }

  ghost function AddEdge(g: State, d: Declared): State
    requires IdsOk(g)
  {
    GetIsOk(g, d.from);
    GetIsOk(Get(g, d.from), d.to);
    var h := Get(Get(g, d.from), d.to);
    var e := Edge(|g.declared|, d);
    ListEdge(ListEdge(h, e, true), e, false).(declared := g.declared + [e])
  }

  /** The edges of a list owned, or not owned, by an object with these aliases. */
  function Owned(es: seq<Edge>, aliases: set<Name>, yes: bool): seq<Edge> {
    if es == [] then
      []
    else
      var last := es[|es| - 1];
      Owned(es[..|es| - 1], aliases, yes) + (if (last.value.owner in aliases) == yes then [last] else [])
  }

  /** Move the edges an object does not own to another object. */
  function Remap(g: State, a: nat, b: nat): State
    requires a in g.node && b in g.node
  {
    var from, into := g.node[a], g.node[b];
    var rest := from.(edges := Owned(from.edges, from.aliases, true), edgesTo := Owned(from.edgesTo, from.aliases, true));
    g.(node := g.node[a := rest]
                     [b := into.(edges := into.edges + Owned(from.edges, from.aliases, false),
                                 edgesTo := into.edgesTo + Owned(from.edgesTo, from.aliases, false))])
  }

  /** Each alias that is bound gives up its edges to object `id` and is unbound. */
  ghost function Absorb(g: State, id: nat, aliases: seq<Name>): State
    requires IdsOk(g) && id in g.node
    ensures IdsOk(Absorb(g, id, aliases)) && id in Absorb(g, id, aliases).node
  {
    if aliases == [] then
      g
    else
      var h := Absorb(g, id, aliases[..|aliases| - 1]);
      var a := aliases[|aliases| - 1];
      if a in h.bound then
        var r := Remap(h, h.bound[a], id);
        r.(bound := r.bound - {a})
      else
        h
  }

  function AliasSet(aliases: seq<Name>): set<Name> {
    set a | a in aliases
  }

  /** Bind all aliases to object `id`. */
  function Bind(g: State, id: nat, aliases: seq<Name>): State
    requires id in g.node
  {
    g.(bound := map n | n in g.bound.Keys + AliasSet(aliases) :: if n in aliases then id else g.bound[n],
       node := g.node[id := g.node[id].(aliases := g.node[id].aliases + AliasSet(aliases))])
  }

  ghost function AddEdges(g: State, ds: seq<Declared>): State
    requires IdsOk(g)
    ensures IdsOk(AddEdges(g, ds))
  {
    if ds == [] then g
    else
      AddEdgeIsOk(AddEdges(g, ds[..|ds| - 1]), ds[|ds| - 1]);
      AddEdge(AddEdges(g, ds[..|ds| - 1]), ds[|ds| - 1])
  }

  lemma AddEdgeIsOk(g: State, d: Declared)
    requires IdsOk(g)
    ensures IdsOk(AddEdge(g, d))
  {
    GetIsOk(g, d.from);
    GetIsOk(Get(g, d.from), d.to);
  }

  /** The edges a declaration asks for, all owned by the object itself. */
  function EdgesOf(d: Declaration): seq<Declared>
    requires d.aliases != []
  {
    var main := d.aliases[0];
    seq(|d.edgesFrom|, i requires 0 <= i < |d.edgesFrom| => Declared(main, d.edgesFrom[i].kinds, main, d.edgesFrom[i].name))
    + seq(|d.edgesTo|, i requires 0 <= i < |d.edgesTo| => Declared(main, d.edgesTo[i].kinds, d.edgesTo[i].name, main))
  }

  /** A new loaded object, as yet without a name bound to it. */
  function Started(g: State, main: Name): State {
    g.(node := g.node[g.next := Node(main, {main}, [], [], true)], next := g.next + 1)
  }

  /** The new object, bound to its aliases in place of what was bound to them. */
  ghost function Replace(g: State, aliases: seq<Name>): State
    requires IdsOk(g) && aliases != []
    ensures IdsOk(Replace(g, aliases))
  {
    Bind(Absorb(Started(g, aliases[0]), g.next, aliases), g.next, aliases)
  }

  ghost function Load(g: State, d: Declaration): State
    requires IdsOk(g) && d.aliases != []
    ensures IdsOk(Load(g, d))
  {
    AddEdges(Replace(g, d.aliases), EdgesOf(d))
  }

  // ---------------------------------------------------------------------------------------------------
  // Agreement of the indexes

  /**
    * Every edge ever added is listed exactly once, at the object its end is bound to, and nothing else is listed
    * at an object with a name.
    */
  ghost predicate SideAgrees(g: State, fwd: bool)
    requires IdsOk(g)
  {
    && (forall e :: e in g.declared ==> EndOf(e, fwd) in g.bound)
    && (forall n :: n in g.bound ==> Distinct(ListOf(g.node[g.bound[n]], fwd)))
    && (forall n, e :: n in g.bound ==>
          (e in ListOf(g.node[g.bound[n]], fwd) <==>
           e in g.declared && EndOf(e, fwd) in g.bound && g.bound[EndOf(e, fwd)] == g.bound[n]))
  }

  ghost predicate Agrees(g: State)
    requires IdsOk(g)
  {
    SideAgrees(g, true) && SideAgrees(g, false)
  }

  /**
    * Names: the aliases of a named object are the names bound to it, its main alias among them; a placeholder
    * has one; edges are numbered in order.
    */
  ghost predicate Tidy(g: State)
    requires IdsOk(g)
  {
    && (forall n :: n in g.bound ==> NameOk(g, n))
    && (forall i :: 0 <= i < |g.declared| ==> g.declared[i].id == i)
  }

  ghost predicate NameOk(g: State, n: Name)
    requires IdsOk(g) && n in g.bound
  {
    var o := g.node[g.bound[n]];
    && o.main in g.bound && g.bound[o.main] == g.bound[n]
    && (forall m :: m in o.aliases <==> m in g.bound && g.bound[m] == g.bound[n])
    && (!o.loaded ==> o.aliases == {n})
  }

  ghost predicate Wellformed(g: State) {
    IdsOk(g) && Tidy(g) && Agrees(g)
  }

  lemma GetKeeps(g: State, n: Name)
    requires Wellformed(g)
    ensures Wellformed(Get(g, n))
  {
    GetKeepsTidy(g, n);
    GetKeepsSide(g, n, true);
    GetKeepsSide(g, n, false);
    hide SideAgrees;
  }

  lemma GetKeepsSide(g: State, n: Name, fwd: bool)
    requires IdsOk(g) && SideAgrees(g, fwd)
    ensures IdsOk(Get(g, n)) && SideAgrees(Get(g, n), fwd)
  {
  }

  lemma EdgeListed(h: State, t: State, e: Edge, fwd: bool)
    requires IdsOk(h) && IdsOk(t) && SideAgrees(h, fwd)
    requires t.bound == h.bound && t.declared == h.declared + [e] && e !in h.declared && EndOf(e, fwd) in h.bound
    requires forall n :: n in h.bound ==>
               ListOf(t.node[h.bound[n]], fwd)
               == ListOf(h.node[h.bound[n]], fwd) + (if h.bound[n] == h.bound[EndOf(e, fwd)] then [e] else [])
    ensures SideAgrees(t, fwd)
  {
    forall n | n in t.bound
      ensures Distinct(ListOf(t.node[t.bound[n]], fwd))
    {
      var es := ListOf(h.node[h.bound[n]], fwd);
      assert e !in es;
    }
  }

  lemma AddEdgeKeeps(g: State, d: Declared)
    requires Wellformed(g)
    ensures Wellformed(AddEdge(g, d))
    ensures AddEdge(g, d).declared == g.declared + [Edge(|g.declared|, d)]
    ensures AddEdge(g, d).bound == Get(Get(g, d.from), d.to).bound
    ensures var h, t, e := Get(Get(g, d.from), d.to), AddEdge(g, d), Edge(|g.declared|, d);
            forall n :: n in t.bound ==>
              && h.bound[n] in h.node && t.bound[n] in t.node
              && t.node[t.bound[n]].edges == h.node[h.bound[n]].edges + (if t.bound[n] == t.bound[d.from] then [e] else [])
              && t.node[t.bound[n]].edgesTo == h.node[h.bound[n]].edgesTo + (if t.bound[n] == t.bound[d.to] then [e] else [])
  {
    GetKeeps(g, d.from);
    GetKeeps(Get(g, d.from), d.to);
    var h := Get(Get(g, d.from), d.to);
    GetIsOk(g, d.from);
    GetIsOk(Get(g, d.from), d.to);
    AddEdgeIsOk(g, d);
    AddedToBoth(h, Edge(|g.declared|, d));
    ListedAt(h, Edge(|g.declared|, d), true);
    ListedAt(h, Edge(|g.declared|, d), false);
    hide ListEdge, Wellformed;
  }

  lemma AddedToBoth(h: State, e: Edge)
    requires Wellformed(h) && e.id == |h.declared| && e.value.from in h.bound && e.value.to in h.bound
    ensures var t := ListEdge(ListEdge(h, e, true), e, false).(declared := h.declared + [e]);
            Wellformed(t) && t.bound == h.bound
  {
    var t := ListEdge(ListEdge(h, e, true), e, false).(declared := h.declared + [e]);
    NewNumber(h, e);
    ListedTidy(h, e);
    ListedAt(h, e, true);
    ListedAt(h, e, false);
    hide SideAgrees, ListEdge, ListOf;
    EdgeListed(h, t, e, true);
    EdgeListed(h, t, e, false);
  }

  lemma NewNumber(h: State, e: Edge)
    requires IdsOk(h) && Tidy(h) && e.id == |h.declared|
    ensures e !in h.declared
  {
  }

  lemma ListedTidy(h: State, e: Edge)
    requires IdsOk(h) && Tidy(h) && e.id == |h.declared| && e.value.from in h.bound && e.value.to in h.bound
    ensures var t := ListEdge(ListEdge(h, e, true), e, false).(declared := h.declared + [e]);
            IdsOk(t) && Tidy(t) && t.bound == h.bound
  {
    var t := ListEdge(ListEdge(h, e, true), e, false).(declared := h.declared + [e]);
    forall n | n in t.bound
      ensures NameOk(t, n)
    {
      assert NameOk(h, n);
    }
  }

  lemma ListedAt(h: State, e: Edge, fwd: bool)
    requires IdsOk(h) && e.value.from in h.bound && e.value.to in h.bound
    ensures var t := ListEdge(ListEdge(h, e, true), e, false);
            forall n :: n in h.bound ==>
              && h.bound[n] in t.node
              && ListOf(t.node[h.bound[n]], fwd)
                 == ListOf(h.node[h.bound[n]], fwd) + (if h.bound[n] == h.bound[EndOf(e, fwd)] then [e] else [])
  {
  }

  // ---------------------------------------------------------------------------------------------------
  // Loading

  lemma {:induction false} OwnedElements(es: seq<Edge>, aliases: set<Name>, yes: bool)
    ensures forall e :: e in Owned(es, aliases, yes) <==> e in es && (e.value.owner in aliases) == yes
    ensures Distinct(es) ==> Distinct(Owned(es, aliases, yes))
  {
    if es != [] {
      var init, last := es[..|es| - 1], es[|es| - 1];
      assert es == init + [last];
      OwnedElements(init, aliases, yes);
      if Distinct(es) {
        assert forall i :: 0 <= i < |init| ==> init[i] == es[i];
        assert last !in init;
      }
    }
  }

  /** The edges picked stay in order. */
  lemma {:induction false} OwnedInOrder(a: seq<Edge>, b: seq<Edge>, aliases: set<Name>, yes: bool)
    ensures Owned(a + b, aliases, yes) == Owned(a, aliases, yes) + Owned(b, aliases, yes)
    decreases |b|
  {
    if b == [] {
      assert a + b == a;
    } else {
      assert (a + b)[..|a + b| - 1] == a + b[..|b| - 1];
      OwnedInOrder(a, b[..|b| - 1], aliases, yes);
    }
  }

  /** The aliases are not bound, or bound to placeholders. */
  ghost predicate Loadable(g: State, aliases: seq<Name>)
    requires IdsOk(g)
  {
    forall a :: a in aliases && a in g.bound ==> !g.node[g.bound[a]].loaded
  }

  /** No edge listed at a placeholder that is about to be replaced is owned by the placeholder. */
  ghost predicate NothingOwned(g: State, aliases: seq<Name>)
    requires IdsOk(g)
  {
    forall a, fwd, e :: a in aliases && a in g.bound && e in ListOf(g.node[g.bound[a]], fwd) ==> e.value.owner != a
  }

  /** The edge is on the list of the placeholder `a` and will move. */
  ghost predicate Moves(g: State, a: Name, e: Edge, fwd: bool)
    requires IdsOk(g)
  {
    a in g.bound && e in ListOf(g.node[g.bound[a]], fwd) && e.value.owner != a
  }

  /**
    * `h` is `g` once the placeholders for `aliases` have given up their edges to object `id`: other names and
    * their objects are as they were.
    */
  ghost predicate Absorbed(g: State, h: State, id: nat, aliases: seq<Name>)
    requires IdsOk(g) && IdsOk(h)
  {
    && id in h.node && id !in g.node && id < h.next
    && h.declared == g.declared && h.queued == g.queued && h.taken == g.taken
    && h.bound.Keys == g.bound.Keys - AliasSet(aliases)
    && (forall n :: n in h.bound ==> h.bound[n] == g.bound[n] && h.node[h.bound[n]] == g.node[g.bound[n]])
    && h.node[id].loaded
  }

  ghost predicate AbsorbedList(g: State, h: State, id: nat, aliases: seq<Name>, fwd: bool)
    requires IdsOk(g) && IdsOk(h) && id in h.node
  {
    && Distinct(ListOf(h.node[id], fwd))
    && forall e :: e in ListOf(h.node[id], fwd) <==> exists a :: a in aliases && Moves(g, a, e, fwd)
  }

  lemma DistinctJoin<T>(a: seq<T>, b: seq<T>)
    requires Distinct(a) && Distinct(b) && forall x :: x in a ==> x !in b
    ensures Distinct(a + b)
  {
    var c := a + b;
    forall i, j | 0 <= i < j < |c|
      ensures c[i] != c[j]
    {
      if i < |a| && j >= |a| {
        assert c[i] in a && c[j] == b[j - |a|] && c[j] in b;
      }
    }
  }

  /** One placeholder gives up its edges. */
  function Take(h: State, a: Name, id: nat): State
    requires a in h.bound && h.bound[a] in h.node && id in h.node
  {
    var r := Remap(h, h.bound[a], id);
    r.(bound := r.bound - {a})
  }

  lemma TakeNames(g: State, h: State, id: nat, aliases: seq<Name>, a: Name)
    requires Wellformed(g) && IdsOk(h) && Absorbed(g, h, id, aliases)
    requires a in h.bound && !g.node[g.bound[a]].loaded
    ensures IdsOk(Take(h, a, id)) && Absorbed(g, Take(h, a, id), id, aliases + [a])
    ensures Take(h, a, id).node[id].main == h.node[id].main && Take(h, a, id).node[id].aliases == h.node[id].aliases
  {
    var t := Take(h, a, id);
    assert AliasSet(aliases + [a]) == AliasSet(aliases) + {a};
    assert t.bound.Keys == h.bound.Keys - {a};
    hide SideAgrees, Owned;
  }

  lemma TakeList(g: State, h: State, id: nat, aliases: seq<Name>, a: Name, fwd: bool)
    requires Wellformed(g) && IdsOk(h) && Absorbed(g, h, id, aliases) && AbsorbedList(g, h, id, aliases, fwd)
    requires a in h.bound && !g.node[g.bound[a]].loaded && IdsOk(Take(h, a, id))
    ensures AbsorbedList(g, Take(h, a, id), id, aliases + [a], fwd)
  {
    var t := Take(h, a, id);
    var es := ListOf(g.node[g.bound[a]], fwd);
    var mine := ListOf(h.node[id], fwd);
    var moved := Owned(es, {a}, false);
    OwnedElements(es, {a}, false);
    assert h.node[h.bound[a]] == g.node[g.bound[a]] && g.node[g.bound[a]].aliases == {a};
    assert ListOf(t.node[id], fwd) == mine + moved;
    forall e | e in mine
      ensures e !in moved
    {
      var b :| b in aliases && Moves(g, b, e, fwd);
      assert b != a;
      ElsewhereListed(g, a, b, e, fwd);
    }
    assert Distinct(es) by { assert SideAgrees(g, fwd); }
    DistinctJoin(mine, moved);
    hide SideAgrees, Owned, Take;
    forall e
      ensures e in mine + moved <==> exists b :: b in aliases + [a] && Moves(g, b, e, fwd)
    {
      if e in mine {
        var b :| b in aliases && Moves(g, b, e, fwd);
        assert b in aliases + [a];
      }
      if e in moved {
        assert a in aliases + [a] && Moves(g, a, e, fwd);
      }
    }
  }

  /** No edge is listed at two placeholders. */
  lemma ElsewhereListed(g: State, a: Name, b: Name, e: Edge, fwd: bool)
    requires Wellformed(g) && a in g.bound && b in g.bound && a != b && !g.node[g.bound[a]].loaded
    requires e in ListOf(g.node[g.bound[b]], fwd)
    ensures e !in ListOf(g.node[g.bound[a]], fwd)
  {
    assert SideAgrees(g, fwd);
    assert g.bound[EndOf(e, fwd)] == g.bound[b];
    assert g.bound[a] != g.bound[b];
    hide Tidy;
  }

  lemma {:induction false} AbsorbIs(g: State, main: Name, aliases: seq<Name>)
    requires Wellformed(g) && Loadable(g, aliases)
    ensures IdsOk(Started(g, main))
    ensures var h := Absorb(Started(g, main), g.next, aliases);
            && Absorbed(g, h, g.next, aliases)
            && AbsorbedList(g, h, g.next, aliases, true) && AbsorbedList(g, h, g.next, aliases, false)
            && h.node[g.next].main == main && h.node[g.next].aliases == {main}
  {
    hide Wellformed, AbsorbedList, Absorbed, Loadable, Moves;
    StartedIs(g, main);
    if aliases != [] {
      var init, a := aliases[..|aliases| - 1], aliases[|aliases| - 1];
      assert aliases == init + [a];
      LoadableLast(g, init, a);
      AbsorbIs(g, main, init);
      var h := Absorb(Started(g, main), g.next, init);
      if a in h.bound {
        StillPlaceholder(g, h, init, a);
        TakeNames(g, h, g.next, init, a);
        TakeList(g, h, g.next, init, a, true);
        TakeList(g, h, g.next, init, a, false);
      } else {
        SkipAlias(g, h, init, a, true);
        SkipAlias(g, h, init, a, false);
      }
    } else {
      assert aliases == [];
    }
  }

  lemma StartedIs(g: State, main: Name)
    requires Wellformed(g)
    ensures IdsOk(g) && IdsOk(Started(g, main))
    ensures Absorbed(g, Started(g, main), g.next, [])
    ensures AbsorbedList(g, Started(g, main), g.next, [], true)
    ensures AbsorbedList(g, Started(g, main), g.next, [], false)
  {
    assert AliasSet([]) == {};
  }

  lemma LoadableLast(g: State, init: seq<Name>, a: Name)
    requires IdsOk(g) && Loadable(g, init + [a])
    ensures Loadable(g, init)
    ensures a in g.bound ==> !g.node[g.bound[a]].loaded
  {
    assert a in init + [a];
    forall x | x in init
      ensures x in init + [a]
    {
    }
  }

  lemma StillPlaceholder(g: State, h: State, init: seq<Name>, a: Name)
    requires IdsOk(g) && IdsOk(h) && Absorbed(g, h, g.next, init) && a in h.bound
    ensures a in g.bound && h.bound[a] in h.node
  {
  }

  lemma SkipAlias(g: State, h: State, init: seq<Name>, a: Name, fwd: bool)
    requires IdsOk(g) && IdsOk(h) && Absorbed(g, h, g.next, init) && a !in h.bound
    requires AbsorbedList(g, h, g.next, init, fwd)
    ensures Absorbed(g, h, g.next, init + [a]) && AbsorbedList(g, h, g.next, init + [a], fwd)
  {
    assert AliasSet(init + [a]) == AliasSet(init) + {a};
    forall e
      ensures e in ListOf(h.node[g.next], fwd) <==> exists b :: b in init + [a] && Moves(g, b, e, fwd)
    {
      if b :| b in init && Moves(g, b, e, fwd) {
        assert b in init + [a];
      }
    }
  }

  // ---------------------------------------------------------------------------------------------------
  // Giving up edges, whatever the aliases are bound to

  /** The i-th object is bound to one of these aliases. */
  ghost predicate Gives(g: State, aliases: seq<Name>, i: nat) {
    exists a :: a in aliases && a in g.bound && g.bound[a] == i
  }

  /** The edge is listed at the object bound to `a`, which does not own it. */
  ghost predicate Yields(g: State, a: Name, e: Edge, fwd: bool)
    requires IdsOk(g)
  {
    a in g.bound && e in ListOf(g.node[g.bound[a]], fwd) && e.value.owner !in g.node[g.bound[a]].aliases
  }

  ghost predicate Unbound(g: State, h: State, aliases: seq<Name>) {
    && h.node.Keys == g.node.Keys && h.bound.Keys == g.bound.Keys - AliasSet(aliases)
    && (forall n :: n in h.bound ==> h.bound[n] == g.bound[n])
    && (forall i :: i in g.node ==> h.node[i].aliases == g.node[i].aliases)
  }

  /** The object keeps, if it gives up edges, those it owns, and all of them otherwise. */
  ghost predicate KeepsOwn(g: State, h: State, aliases: seq<Name>, fwd: bool, i: nat)
    requires i in g.node && i in h.node
  {
    ListOf(h.node[i], fwd) == if Gives(g, aliases, i) then Owned(ListOf(g.node[i], fwd), g.node[i].aliases, true)
                              else ListOf(g.node[i], fwd)
  }

  ghost predicate Moved(g: State, h: State, id: nat, aliases: seq<Name>, fwd: bool)
    requires IdsOk(g) && id in g.node
  {
    && Unbound(g, h, aliases)
    && (forall i :: i in g.node && i != id ==> KeepsOwn(g, h, aliases, fwd, i))
    && (forall e :: e in ListOf(h.node[id], fwd) <==>
          e in ListOf(g.node[id], fwd) || exists a :: a in aliases && Yields(g, a, e, fwd))
  }

  /**
    * Whatever the aliases are bound to, loaded objects included: each object that loses a name keeps just the edges it
    * owns, the new one gets all others of theirs, and no other object's lists change.
    */
  lemma {:induction false} AbsorbMoves(g: State, id: nat, aliases: seq<Name>, fwd: bool)
    requires IdsOk(g) && id in g.node && forall n :: n in g.bound ==> g.bound[n] != id
    ensures Moved(g, Absorb(g, id, aliases), id, aliases, fwd)
  {
    if aliases == [] {
      assert AliasSet(aliases) == {};
    } else {
      var init, a := aliases[..|aliases| - 1], aliases[|aliases| - 1];
      assert aliases == init + [a];
      AbsorbMoves(g, id, init, fwd);
      OneMoreMoved(g, Absorb(g, id, init), id, init, a, fwd);
    }
  }

  lemma OneMoreMoved(g: State, h: State, id: nat, init: seq<Name>, a: Name, fwd: bool)
    requires IdsOk(g) && IdsOk(h) && id in g.node && forall n :: n in g.bound ==> g.bound[n] != id
    requires Moved(g, h, id, init, fwd)
    ensures a in h.bound ==> h.bound[a] in h.node && id in h.node
    ensures Moved(g, if a in h.bound then Take(h, a, id) else h, id, init + [a], fwd)
  {
    if a in h.bound {
      OneMoreTaken(g, h, id, init, a, fwd);
    } else {
      AlreadyMoved(g, h, id, init, a, fwd);
    }
  }

  lemma AlreadyMoved(g: State, h: State, id: nat, init: seq<Name>, a: Name, fwd: bool)
    requires IdsOk(g) && id in g.node && Moved(g, h, id, init, fwd) && a !in h.bound
    ensures Moved(g, h, id, init + [a], fwd)
  {
    hide Owned, Gives, ListOf, KeepsOwn, IdsOk;
    GivesLast(g, init, a);
    assert forall e :: Yields(g, a, e, fwd) ==> a in init;
    hide Yields;
    forall i | i in g.node && i != id
      ensures KeepsOwn(g, h, init + [a], fwd, i)
    {
      assert KeepsOwn(g, h, init, fwd, i);
      KeepsOwnAlready(g, h, init, a, fwd, i);
    }
  }

  lemma KeepsOwnAlready(g: State, h: State, init: seq<Name>, a: Name, fwd: bool, i: nat)
    requires i in g.node && i in h.node && (a in g.bound ==> a in init) && KeepsOwn(g, h, init, fwd, i)
    ensures KeepsOwn(g, h, init + [a], fwd, i)
  {
    GivesLast(g, init, a);
    hide Owned, ListOf;
  }

  lemma OneMoreTaken(g: State, h: State, id: nat, init: seq<Name>, a: Name, fwd: bool)
    requires IdsOk(g) && IdsOk(h) && id in g.node && forall n :: n in g.bound ==> g.bound[n] != id
    requires Moved(g, h, id, init, fwd) && a in h.bound
    ensures h.bound[a] in h.node && id in h.node
    ensures Moved(g, Take(h, a, id), id, init + [a], fwd)
  {
    hide Owned, Take, Gives, ListOf, KeepsOwn, Yields, IdsOk;
    assert id in h.node && a in g.bound && h.bound[a] == g.bound[a];
    TakeMoves(h, a, id, fwd);
    GivesLast(g, init, a);
    var t := Take(h, a, id);
    assert Unbound(g, t, init + [a]);
    forall i | i in g.node && i != id
      ensures KeepsOwn(g, t, init + [a], fwd, i)
    {
      KeepsOwnStill(g, h, t, init, a, fwd, i);
    }
    OwnedElements(ListOf(h.node[h.bound[a]], fwd), h.node[h.bound[a]].aliases, false);
    YieldsOnce(g, h, id, init, a, fwd);
    hide Unbound;
  }

  lemma GivesLast(g: State, init: seq<Name>, a: Name)
    ensures AliasSet(init + [a]) == AliasSet(init) + {a} && (a in AliasSet(init) <==> a in init)
    ensures forall x :: x in init + [a] <==> x in init || x == a
    ensures forall i :: Gives(g, init + [a], i) <==> Gives(g, init, i) || (a in g.bound && g.bound[a] == i)
  {
    assert forall x :: x in init + [a] <==> x in init || x == a;
  }

  lemma KeepsOwnStill(g: State, h: State, t: State, init: seq<Name>, a: Name, fwd: bool, i: nat)
    requires i in g.node && i in h.node && i in t.node && a in h.bound && a in g.bound && h.bound[a] == g.bound[a]
    requires KeepsOwn(g, h, init, fwd, i) && h.node[i].aliases == g.node[i].aliases
    requires i != h.bound[a] ==> t.node[i] == h.node[i]
    requires i == h.bound[a] ==> ListOf(t.node[i], fwd) == Owned(ListOf(h.node[i], fwd), h.node[i].aliases, true)
    ensures KeepsOwn(g, t, init + [a], fwd, i)
  {
    GivesLast(g, init, a);
    OwnedTwice(ListOf(g.node[i], fwd), g.node[i].aliases);
    hide Owned, Gives, ListOf;
  }

  /** One object gives up its edges to another. */
  lemma TakeMoves(h: State, a: Name, id: nat, fwd: bool)
    requires IdsOk(h) && a in h.bound && id in h.node && h.bound[a] != id
    ensures h.bound[a] in h.node
    ensures var (t, i) := (Take(h, a, id), h.bound[a]);
            && t.node.Keys == h.node.Keys && t.bound == h.bound - {a}
            && (forall k :: k in h.node && k != i && k != id ==> t.node[k] == h.node[k])
            && (forall k :: k in h.node ==> t.node[k].aliases == h.node[k].aliases)
            && ListOf(t.node[i], fwd) == Owned(ListOf(h.node[i], fwd), h.node[i].aliases, true)
            && ListOf(t.node[id], fwd) == ListOf(h.node[id], fwd) + Owned(ListOf(h.node[i], fwd), h.node[i].aliases, false)
  {
    hide Owned;
  }

  /** Of the object bound to `a` what it does not own has gone already, or is still all there. */
  lemma YieldsOnce(g: State, h: State, id: nat, init: seq<Name>, a: Name, fwd: bool)
    requires IdsOk(g) && IdsOk(h) && id in g.node && Moved(g, h, id, init, fwd)
    requires a in h.bound && g.bound[a] != id
    ensures h.bound[a] in h.node
    ensures forall e ::
              (exists b :: b in init + [a] && Yields(g, b, e, fwd)) <==>
              || (exists b :: b in init && Yields(g, b, e, fwd))
              || (e in ListOf(h.node[h.bound[a]], fwd) && e.value.owner !in h.node[h.bound[a]].aliases)
  {
    var i := g.bound[a];
    OwnedElements(ListOf(g.node[i], fwd), g.node[i].aliases, true);
    assert forall x :: x in init + [a] <==> x in init || x == a;
    forall e
      ensures (exists b :: b in init + [a] && Yields(g, b, e, fwd)) <==>
              || (exists b :: b in init && Yields(g, b, e, fwd))
              || (e in ListOf(h.node[i], fwd) && e.value.owner !in h.node[i].aliases)
    {
      if Yields(g, a, e, fwd) {
        assert a in init + [a];
        if Gives(g, init, i) {
          var b :| b in init && b in g.bound && g.bound[b] == i;
          assert Yields(g, b, e, fwd);
        }
      }
      if b :| b in init && Yields(g, b, e, fwd) {
        assert b in init + [a];
      }
      if e in ListOf(h.node[i], fwd) && e.value.owner !in h.node[i].aliases {
        assert Yields(g, a, e, fwd) && a in init + [a];
      }
    }
  }

  lemma {:induction false} OwnedTwice(es: seq<Edge>, aliases: set<Name>)
    ensures Owned(Owned(es, aliases, true), aliases, true) == Owned(es, aliases, true)
    ensures Owned(Owned(es, aliases, true), aliases, false) == []
  {
    if es != [] {
      var init, last := es[..|es| - 1], es[|es| - 1];
      var mine := Owned(init, aliases, true);
      OwnedTwice(init, aliases);
      OwnedInOrder(mine, [last], aliases, true);
      OwnedInOrder(mine, [last], aliases, false);
      OwnedOne(last, aliases, true);
      OwnedOne(last, aliases, false);
      assert Owned(es, aliases, true) == if last.value.owner in aliases then mine + [last] else mine;
    }
  }

  lemma {:induction false} OwnedOne(e: Edge, aliases: set<Name>, yes: bool)
    ensures Owned([e], aliases, yes) == if (e.value.owner in aliases) == yes then [e] else []
  {
    assert [e][..0] == [];
  }

  lemma ReplaceShape(g: State, aliases: seq<Name>)
    requires Wellformed(g) && Loadable(g, aliases) && aliases != []
    ensures var r := Replace(g, aliases);
            && r.declared == g.declared && r.queued == g.queued && r.taken == g.taken
            && r.bound.Keys == g.bound.Keys + AliasSet(aliases)
            && (forall a :: a in aliases ==> r.bound[a] == g.next)
            && (forall n :: n in g.bound && n !in aliases ==>
                  r.bound[n] == g.bound[n] && r.node[r.bound[n]] == g.node[g.bound[n]])
            && r.node[g.next].loaded && r.node[g.next].main == aliases[0]
            && r.node[g.next].aliases == AliasSet(aliases)
            && g.next !in g.node
    ensures forall fwd, e :: e in ListOf(Replace(g, aliases).node[g.next], fwd) <==>
              exists a :: a in aliases && Moves(g, a, e, fwd)
    ensures forall fwd :: Distinct(ListOf(Replace(g, aliases).node[g.next], fwd))
  {
    AbsorbIs(g, aliases[0], aliases);
    StartedIs(g, aliases[0]);
    var h := Absorb(Started(g, aliases[0]), g.next, aliases);
    assert aliases[0] in AliasSet(aliases);
    assert {aliases[0]} + AliasSet(aliases) == AliasSet(aliases);
    assert AbsorbedList(g, h, g.next, aliases, true) && AbsorbedList(g, h, g.next, aliases, false);
    hide Absorb, SideAgrees, Moves, Tidy, Loadable;
  }

  lemma ReplaceTidy(g: State, aliases: seq<Name>)
    requires Wellformed(g) && Loadable(g, aliases) && aliases != []
    ensures Tidy(Replace(g, aliases))
  {
    ReplaceShape(g, aliases);
    var r := Replace(g, aliases);
    assert aliases[0] in aliases;
    hide Replace, SideAgrees, Moves;
    forall n | n in r.bound && n !in aliases
      ensures r.node[r.bound[n]].main !in aliases
    {
      var m := g.node[g.bound[n]].main;
      assert m in g.bound && g.bound[m] == g.bound[n];
      if !g.node[g.bound[m]].loaded {
        assert m == n;
      }
    }
  }

  /** An edge listed at an object that is bound to its end before, and whose end is among the aliases, moves. */
  lemma MovesIff(g: State, aliases: seq<Name>, e: Edge, fwd: bool)
    requires Wellformed(g) && Loadable(g, aliases)
    ensures (exists a :: a in aliases && Moves(g, a, e, fwd)) <==>
            e in g.declared && EndOf(e, fwd) in aliases && e.value.owner != EndOf(e, fwd)
  {
    assert SideAgrees(g, fwd);
    if a :| a in aliases && Moves(g, a, e, fwd) {
      assert g.bound[EndOf(e, fwd)] == g.bound[a];
      assert EndOf(e, fwd) == a;
    }
    if e in g.declared && EndOf(e, fwd) in aliases && e.value.owner != EndOf(e, fwd) {
      assert Moves(g, EndOf(e, fwd), e, fwd);
    }
  }

  /** An edge is missing from the list of the object its end is bound to. */
  ghost predicate Lost(g: State, e: Edge, fwd: bool)
    requires IdsOk(g)
  {
    e in g.declared && EndOf(e, fwd) in g.bound && e !in ListOf(g.node[g.bound[EndOf(e, fwd)]], fwd)
  }

  lemma ReplaceSide(g: State, aliases: seq<Name>, fwd: bool)
    requires Wellformed(g) && Loadable(g, aliases) && aliases != []
    ensures (forall e :: e in g.declared && EndOf(e, fwd) in aliases ==> e.value.owner != EndOf(e, fwd)) ==>
              SideAgrees(Replace(g, aliases), fwd)
    ensures forall e :: e in g.declared && EndOf(e, fwd) in aliases && e.value.owner == EndOf(e, fwd) ==>
              Lost(Replace(g, aliases), e, fwd)
  {
    ReplaceShape(g, aliases);
    forall e
      ensures e in ListOf(Replace(g, aliases).node[g.next], fwd) <==>
              e in g.declared && EndOf(e, fwd) in aliases && e.value.owner != EndOf(e, fwd)
    {
      MovesIff(g, aliases, e, fwd);
    }
    hide Replace, Moves;
    assert SideAgrees(g, fwd);
    if forall e :: e in g.declared && EndOf(e, fwd) in aliases ==> e.value.owner != EndOf(e, fwd) {
      OthersKeepLists(g, Replace(g, aliases), aliases, fwd);
    }
  }

  /** The names that are not replaced keep their objects, and those objects keep their lists. */
  lemma OthersKeepLists(g: State, r: State, aliases: seq<Name>, fwd: bool)
    requires Wellformed(g) && Loadable(g, aliases) && IdsOk(r)
    requires r.declared == g.declared && g.next !in g.node && g.next in r.node
    requires r.bound.Keys == g.bound.Keys + AliasSet(aliases)
    requires forall a :: a in aliases ==> r.bound[a] == g.next
    requires forall n :: n in g.bound && n !in aliases ==>
               r.bound[n] == g.bound[n] && r.node[r.bound[n]] == g.node[g.bound[n]]
    requires Distinct(ListOf(r.node[g.next], fwd))
    requires forall e :: e in ListOf(r.node[g.next], fwd) <==> e in g.declared && EndOf(e, fwd) in aliases
    ensures SideAgrees(r, fwd)
  {
    assert SideAgrees(g, fwd);
    forall n, e | n in r.bound
      ensures e in ListOf(r.node[r.bound[n]], fwd) <==>
              e in r.declared && EndOf(e, fwd) in r.bound && r.bound[EndOf(e, fwd)] == r.bound[n]
    {
      if n !in aliases {
        assert n in g.bound && r.bound[n] != g.next;
        var x := EndOf(e, fwd);
        if e in g.declared && x in aliases {
          assert !g.node[g.bound[x]].loaded;
          assert g.bound[x] == g.bound[n] ==> x == n;
        }
      }
    }
  }

  lemma NothingOwnedIff(g: State, aliases: seq<Name>)
    requires Wellformed(g) && Loadable(g, aliases)
    ensures NothingOwned(g, aliases) <==>
            forall fwd, e :: e in g.declared && EndOf(e, fwd) in aliases ==> e.value.owner != EndOf(e, fwd)
  {
    assert SideAgrees(g, true) && SideAgrees(g, false);
    if NothingOwned(g, aliases) {
      forall fwd, e | e in g.declared && EndOf(e, fwd) in aliases
        ensures e.value.owner != EndOf(e, fwd)
      {
        assert SideAgrees(g, fwd);
        assert e in ListOf(g.node[g.bound[EndOf(e, fwd)]], fwd);
      }
    }
    if forall fwd, e :: e in g.declared && EndOf(e, fwd) in aliases ==> e.value.owner != EndOf(e, fwd) {
      forall a, fwd, e | a in aliases && a in g.bound && e in ListOf(g.node[g.bound[a]], fwd)
        ensures e.value.owner != a
      {
        assert SideAgrees(g, fwd);
        assert g.bound[EndOf(e, fwd)] == g.bound[a];
        assert EndOf(e, fwd) == a;
      }
    }
  }

  lemma GetKeepsTidy(g: State, n: Name)
    requires IdsOk(g) && Tidy(g)
    ensures IdsOk(Get(g, n)) && Tidy(Get(g, n))
  {
    GetIsOk(g, n);
    forall m | m in Get(g, n).bound
      ensures NameOk(Get(g, n), m)
    {
      if m in g.bound {
        assert NameOk(g, m);
      }
    }
  }

  lemma GetKeepsLost(g: State, n: Name, e: Edge, fwd: bool)
    requires IdsOk(g) && Tidy(g) && Lost(g, e, fwd)
    ensures IdsOk(Get(g, n)) && Lost(Get(g, n), e, fwd) && Tidy(Get(g, n))
  {
    GetKeepsTidy(g, n);
    hide Tidy;
  }

  lemma ListEdgeKeepsLost(g: State, f: Edge, side: bool, e: Edge, fwd: bool)
    requires IdsOk(g) && Tidy(g) && Lost(g, e, fwd) && e != f && EndOf(f, side) in g.bound
    ensures IdsOk(ListEdge(g, f, side)) && Lost(ListEdge(g, f, side), e, fwd) && Tidy(ListEdge(g, f, side))
  {
  }

  lemma AddEdgeKeepsLost(g: State, d: Declared, e: Edge, fwd: bool)
    requires IdsOk(g) && Tidy(g) && Lost(g, e, fwd)
    ensures IdsOk(AddEdge(g, d)) && Lost(AddEdge(g, d), e, fwd) && Tidy(AddEdge(g, d))
  {
    GetIsOk(g, d.from);
    GetIsOk(Get(g, d.from), d.to);
    AddEdgeIsOk(g, d);
    KnownNumber(g, e);
    var f := Edge(|g.declared|, d);
    var h := Get(Get(g, d.from), d.to);
    GetKeepsLost(g, d.from, e, fwd);
    GetKeepsLost(Get(g, d.from), d.to, e, fwd);
    assert AddEdge(g, d) == ListEdge(ListEdge(h, f, true), f, false).(declared := g.declared + [f]);
    assert h.declared == g.declared && f.value.from in h.bound && f.value.to in h.bound;
    hide Lost, Tidy, Get, AddEdge;
    ListEdgeKeepsLost(h, f, true, e, fwd);
    ListEdgeKeepsLost(ListEdge(h, f, true), f, false, e, fwd);
    DeclareKeepsLost(ListEdge(ListEdge(h, f, true), f, false), f, e, fwd);
  }

  lemma KnownNumber(g: State, e: Edge)
    requires IdsOk(g) && Tidy(g) && e in g.declared
    ensures e.id < |g.declared|
  {
    var i :| 0 <= i < |g.declared| && g.declared[i] == e;
  }

  lemma DeclareKeepsLost(g: State, f: Edge, e: Edge, fwd: bool)
    requires IdsOk(g) && Tidy(g) && Lost(g, e, fwd) && f.id == |g.declared|
    ensures var t := g.(declared := g.declared + [f]); IdsOk(t) && Tidy(t) && Lost(t, e, fwd)
  {
  }

  lemma {:induction false} AddEdgesKeepLost(g: State, ds: seq<Declared>, e: Edge, fwd: bool)
    requires IdsOk(g) && Tidy(g) && Lost(g, e, fwd)
    ensures Lost(AddEdges(g, ds), e, fwd) && Tidy(AddEdges(g, ds))
  {
    hide Lost, Tidy;
    if ds != [] {
      AddEdgesKeepLost(g, ds[..|ds| - 1], e, fwd);
      AddEdgeKeepsLost(AddEdges(g, ds[..|ds| - 1]), ds[|ds| - 1], e, fwd);
    }
  }

  lemma {:induction false} AddEdgesKeep(g: State, ds: seq<Declared>)
    requires Wellformed(g)
    ensures Wellformed(AddEdges(g, ds))
  {
    hide Tidy, Agrees;
    if ds != [] {
      AddEdgesKeep(g, ds[..|ds| - 1]);
      AddEdgeKeeps(AddEdges(g, ds[..|ds| - 1]), ds[|ds| - 1]);
    }
  }

  /**
    * Loading an object over placeholders keeps the edge lists in agreement with the edges declared exactly when
    * no edge listed at a replaced placeholder is owned by the placeholder's own name: such an edge stays behind.
    */
  lemma LoadKeepsIff(g: State, d: Declaration)
    requires Wellformed(g) && d.aliases != [] && Loadable(g, d.aliases)
    ensures Wellformed(Load(g, d)) <==> NothingOwned(g, d.aliases)
  {
    var r := Replace(g, d.aliases);
    NothingOwnedIff(g, d.aliases);
    ReplaceTidy(g, d.aliases);
    ReplaceSide(g, d.aliases, true);
    ReplaceSide(g, d.aliases, false);
    hide Replace, Tidy, SideAgrees;
    if NothingOwned(g, d.aliases) {
      AddEdgesKeep(r, EdgesOf(d));
    } else {
      var fwd, e :| e in g.declared && EndOf(e, fwd) in d.aliases && e.value.owner == EndOf(e, fwd);
      assert Lost(r, e, fwd);
      AddEdgesKeepLost(r, EdgesOf(d), e, fwd);
      NothingLost(Load(g, d));
    }
  }

  lemma NothingLost(g: State)
    requires IdsOk(g)
    ensures Agrees(g) ==> forall e, fwd :: !Lost(g, e, fwd)
  {
  }
}
