/** Loads in sequence: nothing is lost, the queue is honest, and their order does not matter. */
module LoadOrder {
  import opened Types
  import opened Walks
  import opened ObjectGraph

  // ---------------------------------------------------------------------------------------------------
  // Names

  /**
    * From `g` to `h` names are kept, with their objects; `names` are bound as well, the new ones each to a
    * placeholder of its own.
    */
  ghost predicate Grown(g: State, h: State, names: set<Name>) {
    && IdsOk(g) && IdsOk(h) && g.next <= h.next
    && h.bound.Keys == g.bound.Keys + names
    && (forall n :: n in g.bound ==> h.bound[n] == g.bound[n] && h.node[h.bound[n]].loaded == g.node[g.bound[n]].loaded)
    && (forall n :: n in h.bound && n !in g.bound ==> h.bound[n] >= g.next && !h.node[h.bound[n]].loaded)
    && (forall n, m :: n in h.bound && m in h.bound && n !in g.bound && h.bound[n] == h.bound[m] ==> n == m)
  }

  lemma GrownChains(g: State, h: State, k: State, a: set<Name>, b: set<Name>)
    requires Grown(g, h, a) && Grown(h, k, b)
    ensures Grown(g, k, a + b)
  {
    assert k.bound.Keys == g.bound.Keys + (a + b);
    forall n, m | n in k.bound && m in k.bound && n !in g.bound && k.bound[n] == k.bound[m]
      ensures n == m
    {
      assert forall x :: x in h.bound ==> h.bound[x] < h.next;
    }
  }

  lemma GetGrows(g: State, n: Name)
    requires IdsOk(g)
    ensures Grown(g, Get(g, n), {n})
  {
  }

  lemma AddEdgeGrows(g: State, d: Declared)
    requires IdsOk(g)
    ensures Grown(g, AddEdge(g, d), {d.from, d.to})
  {
    hide *;
    GetGrows(g, d.from);
    var h := Get(g, d.from);
    GetIsOk(g, d.from);
    GetGrows(h, d.to);
    GrownChains(g, h, Get(h, d.to), {d.from}, {d.to});
    assert {d.from} + {d.to} == {d.from, d.to};
    AddEdgeLists(g, d);
    ListingKeepsNames(g, Get(h, d.to), AddEdge(g, d), {d.from, d.to});
  }

  lemma AddEdgeLists(g: State, d: Declared)
    requires IdsOk(g)
    ensures var h, k := Get(Get(g, d.from), d.to), AddEdge(g, d);
            && IdsOk(k) && k.bound == h.bound && k.next == h.next && k.node.Keys == h.node.Keys
            && forall id :: id in h.node ==> k.node[id].loaded == h.node[id].loaded
  {
    AddEdgeIsOk(g, d);
    GetIsOk(g, d.from);
    GetIsOk(Get(g, d.from), d.to);
  }

  lemma AddEdgeDeclares(g: State, d: Declared)
    requires IdsOk(g)
    ensures AddEdge(g, d).declared == g.declared + [Edge(|g.declared|, d)]
  {
    GetIsOk(g, d.from);
  }

  lemma ListingKeepsNames(g: State, h: State, k: State, names: set<Name>)
    requires Grown(g, h, names) && IdsOk(k) && k.bound == h.bound && k.next == h.next && k.node.Keys == h.node.Keys
    requires forall id :: id in h.node ==> k.node[id].loaded == h.node[id].loaded
    ensures Grown(g, k, names)
  {
  }

  /** The names at the ends of the edges. */
  ghost function NamesOf(ds: seq<Declared>): set<Name> {
    if ds == [] then {} else NamesOf(ds[..|ds| - 1]) + {ds[|ds| - 1].from, ds[|ds| - 1].to}
  }

  ghost function Values(g: State): multiset<Declared> {
    ValuesOf(g.declared)
  }

  ghost function ValuesOf(es: seq<Edge>): multiset<Declared> {
    if es == [] then multiset{} else ValuesOf(es[..|es| - 1]) + multiset{es[|es| - 1].value}
  }

  lemma {:induction false} ValuesAppend(es: seq<Edge>, e: Edge)
    ensures ValuesOf(es + [e]) == ValuesOf(es) + multiset{e.value}
  {
    assert (es + [e])[..|es|] == es;
  }

  lemma {:induction false} AddEdgesGrow(g: State, ds: seq<Declared>)
    requires IdsOk(g)
    ensures Grown(g, AddEdges(g, ds), NamesOf(ds))
  {
    if ds == [] {
      assert g.bound.Keys == g.bound.Keys + {};
    } else {
      var init, last := ds[..|ds| - 1], ds[|ds| - 1];
      AddEdgesGrow(g, init);
      AddEdgeGrows(AddEdges(g, init), last);
      GrownChains(g, AddEdges(g, init), AddEdges(g, ds), NamesOf(init), {last.from, last.to});
      hide Grown, AddEdge;
    }
  }

  lemma {:induction false} AddEdgesDeclare(g: State, ds: seq<Declared>)
    requires IdsOk(g)
    ensures Values(AddEdges(g, ds)) == Values(g) + multiset(ds)
    ensures forall e :: e in AddEdges(g, ds).declared ==> e in g.declared || e.value in ds
  {
    if ds != [] {
      var init, last := ds[..|ds| - 1], ds[|ds| - 1];
      assert ds == init + [last];
      AddEdgesDeclare(g, init);
      var h := AddEdges(g, init);
      AddEdgeDeclares(h, last);
      ValuesAppend(h.declared, Edge(|h.declared|, last));
      hide AddEdge;
    }
  }

  /** What absorbing leaves alone, whatever the aliases are bound to. */
  lemma {:induction false} AbsorbNames(g: State, id: nat, aliases: seq<Name>)
    requires IdsOk(g) && id in g.node
    ensures var h := Absorb(g, id, aliases);
            && h.bound.Keys == g.bound.Keys - AliasSet(aliases)
            && h.node.Keys == g.node.Keys && h.next == g.next
            && h.declared == g.declared && h.queued == g.queued && h.taken == g.taken
            && (forall n :: n in h.bound ==> h.bound[n] == g.bound[n])
            && (forall i :: i in g.node ==> h.node[i].loaded == g.node[i].loaded)
  {
    if aliases == [] {
      assert AliasSet(aliases) == {};
    } else {
      var init, a := aliases[..|aliases| - 1], aliases[|aliases| - 1];
      assert aliases == init + [a];
      AbsorbNames(g, id, init);
      assert AliasSet(aliases) == AliasSet(init) + {a};
    }
  }

  /** A load, of whatever aliases: they are bound to one new loaded object, other names are kept. */
  lemma ReplaceNames(g: State, aliases: seq<Name>)
    requires IdsOk(g) && aliases != []
    ensures var r := Replace(g, aliases);
            && r.bound.Keys == g.bound.Keys + AliasSet(aliases)
            && (forall a :: a in aliases ==> r.bound[a] == g.next)
            && (forall n :: n in g.bound && n !in aliases ==>
                  r.bound[n] == g.bound[n] && r.node[r.bound[n]].loaded == g.node[g.bound[n]].loaded)
            && r.node[g.next].loaded
            && r.declared == g.declared && r.queued == g.queued && r.taken == g.taken && r.next == g.next + 1
  {
    AbsorbNames(Started(g, aliases[0]), g.next, aliases);
    hide Absorb;
  }

  // ---------------------------------------------------------------------------------------------------
  // Nothing is lost

  /** Every edge is owned by a loaded object. */
  ghost predicate OwnersLoaded(g: State)
    requires IdsOk(g)
  {
    forall e :: e in g.declared ==> e.value.owner in g.bound && g.node[g.bound[e.value.owner]].loaded
  }

  /** While all edges come from loads, loading over placeholders never loses one. */
  lemma LoadsKeepAgreement(g: State, d: Declaration)
    requires Wellformed(g) && OwnersLoaded(g) && d.aliases != [] && Loadable(g, d.aliases)
    ensures Wellformed(Load(g, d)) && OwnersLoaded(Load(g, d))
  {
    assert NothingOwned(g, d.aliases) by {
      assert SideAgrees(g, true) && SideAgrees(g, false);
      forall a, fwd, e | a in d.aliases && a in g.bound && e in ListOf(g.node[g.bound[a]], fwd)
        ensures e.value.owner != a
      {
        assert SideAgrees(g, fwd);
      }
    }
    LoadKeepsIff(g, d);
    LoadKeepsOwners(g, d);
  }

  lemma LoadKeepsOwners(g: State, d: Declaration)
    requires IdsOk(g) && OwnersLoaded(g) && d.aliases != [] && Loadable(g, d.aliases)
    ensures OwnersLoaded(Load(g, d))
  {
    var r := Replace(g, d.aliases);
    ReplaceNames(g, d.aliases);
    AddEdgesGrow(r, EdgesOf(d));
    AddEdgesDeclare(r, EdgesOf(d));
    hide AddEdges, Replace, NamesOf, Values, Grown, EdgesOf, OwnersLoaded;
    OwnersInReplaced(g, d);
    OwnedByMain(d);
    OwnersStay(r, Load(g, d), NamesOf(EdgesOf(d)), EdgesOf(d), d.aliases[0]);
  }

  lemma OwnedByMain(d: Declaration)
    requires d.aliases != []
    ensures forall e :: e in EdgesOf(d) ==> e.owner == d.aliases[0]
  {
  }

  lemma OwnersInReplaced(g: State, d: Declaration)
    requires IdsOk(g) && OwnersLoaded(g) && d.aliases != [] && Loadable(g, d.aliases)
    ensures OwnersLoaded(Replace(g, d.aliases))
    ensures d.aliases[0] in Replace(g, d.aliases).bound
    ensures Replace(g, d.aliases).node[Replace(g, d.aliases).bound[d.aliases[0]]].loaded
  {
    ReplaceNames(g, d.aliases);
    assert d.aliases[0] in d.aliases;
    hide Replace;
  }

  lemma OwnersStay(r: State, h: State, names: set<Name>, ds: seq<Declared>, main: Name)
    requires IdsOk(r) && OwnersLoaded(r) && Grown(r, h, names)
    requires forall e :: e in h.declared ==> e in r.declared || e.value in ds
    requires forall e :: e in ds ==> e.owner == main
    requires main in r.bound && r.node[r.bound[main]].loaded
    ensures OwnersLoaded(h)
  {
  }

  // ---------------------------------------------------------------------------------------------------
  // The load queue

  /** Each name is queued at most once, when it is bound; every name of a placeholder has been queued. */
  ghost predicate QueueOk(g: State)
    requires IdsOk(g)
  {
    && Distinct(g.queued) && g.taken <= |g.queued|
    && (forall n :: n in g.queued ==> n in g.bound)
    && (forall n :: n in g.bound && !g.node[g.bound[n]].loaded ==> n in g.queued)
  }

  lemma GetKeepsQueue(g: State, n: Name)
    requires IdsOk(g) && QueueOk(g)
    ensures IdsOk(Get(g, n)) && QueueOk(Get(g, n))
    ensures g.queued <= Get(g, n).queued && Get(g, n).taken == g.taken
    ensures Get(g, n).queued == g.queued || Get(g, n).bound.Keys > g.bound.Keys
  {
    GetIsOk(g, n);
  }

  /** The queue grows only as new names are bound, and no name is ever unbound. */
  ghost predicate QueueGrows(g: State, h: State) {
    && g.bound.Keys <= h.bound.Keys
    && g.queued <= h.queued && h.taken == g.taken
    && (h.queued == g.queued || g.bound.Keys < h.bound.Keys)
  }

  lemma AddEdgeKeepsQueue(g: State, d: Declared)
    requires IdsOk(g) && QueueOk(g)
    ensures IdsOk(AddEdge(g, d)) && QueueOk(AddEdge(g, d)) && QueueGrows(g, AddEdge(g, d))
  {
    hide QueueOk, Get;
    GetKeepsQueue(g, d.from);
    var h := Get(g, d.from);
    GetKeepsQueue(h, d.to);
    GetIsOk(g, d.from);
    GetIsOk(h, d.to);
    AddEdgeLists(g, d);
    ListingKeepsQueue(g, d);
  }

  lemma ListingKeepsQueue(g: State, d: Declared)
    requires IdsOk(g) && IdsOk(Get(Get(g, d.from), d.to)) && QueueOk(Get(Get(g, d.from), d.to))
    requires IdsOk(AddEdge(g, d))
    ensures QueueOk(AddEdge(g, d))
    ensures var h, k := Get(Get(g, d.from), d.to), AddEdge(g, d);
            k.queued == h.queued && k.taken == h.taken && k.bound == h.bound
  {
    GetIsOk(g, d.from);
    AddEdgeLists(g, d);
    hide Get;
  }

  lemma {:induction false} AddEdgesKeepQueue(g: State, ds: seq<Declared>)
    requires IdsOk(g) && QueueOk(g)
    ensures QueueOk(AddEdges(g, ds)) && QueueGrows(g, AddEdges(g, ds))
  {
    hide QueueOk;
    if ds != [] {
      AddEdgesKeepQueue(g, ds[..|ds| - 1]);
      AddEdgeKeepsQueue(AddEdges(g, ds[..|ds| - 1]), ds[|ds| - 1]);
    }
  }

  lemma LoadKeepsQueue(g: State, d: Declaration)
    requires IdsOk(g) && QueueOk(g) && d.aliases != []
    ensures QueueOk(Load(g, d)) && QueueGrows(g, Load(g, d))
    ensures Load(g, d).bound.Keys == g.bound.Keys + AliasSet(d.aliases) + NamesOf(EdgesOf(d))
  {
    var r, es := Replace(g, d.aliases), EdgesOf(d);
    assert Load(g, d) == AddEdges(r, es);
    hide Replace, AddEdges, QueueOk, EdgesOf, NamesOf, Load;
    ReplaceKeepsQueue(g, d.aliases);
    AddEdgesKeepQueue(r, es);
    AddEdgesGrow(r, es);
  }

  lemma ReplaceKeepsQueue(g: State, aliases: seq<Name>)
    requires IdsOk(g) && QueueOk(g) && aliases != []
    ensures var r := Replace(g, aliases);
            QueueOk(r) && QueueGrows(g, r) && r.bound.Keys == g.bound.Keys + AliasSet(aliases)
  {
    ReplaceNames(g, aliases);
    hide Replace;
  }

  // ---------------------------------------------------------------------------------------------------
  // Order

  ghost function LoadAll(g: State, ds: seq<Declaration>): State
    requires IdsOk(g) && forall d :: d in ds ==> d.aliases != []
    ensures IdsOk(LoadAll(g, ds))
  {
    if ds == [] then g
    else
      var last := ds[|ds| - 1];
      assert last in ds;
      Load(LoadAll(g, ds[..|ds| - 1]), last)
  }

  /** No two of the declarations share an alias. */
  ghost predicate Disjoint(ds: seq<Declaration>) {
    forall i, j :: 0 <= i < j < |ds| ==> AliasSet(ds[i].aliases) !! AliasSet(ds[j].aliases)
  }

  ghost predicate Mentions(d: Declaration, n: Name) {
    d.aliases != [] && (n in d.aliases || n in NamesOf(EdgesOf(d)))
  }

  ghost function AllEdges(ds: seq<Declaration>): multiset<Declared>
    requires forall d :: d in ds ==> d.aliases != []
  {
    if ds == [] then
      multiset{}
    else
      var last := ds[|ds| - 1];
      assert last in ds;
      AllEdges(ds[..|ds| - 1]) + multiset(EdgesOf(last))
  }

  /** Some declaration lists both names as aliases. */
  ghost predicate Together(ds: seq<Declaration>, n: Name, m: Name) {
    exists d :: d in ds && n in d.aliases && m in d.aliases
  }

  ghost predicate Mentioned(ds: seq<Declaration>, n: Name) {
    exists d :: d in ds && Mentions(d, n)
  }

  ghost predicate IsLoaded(g: State, n: Name)
    requires IdsOk(g)
  {
    n in g.bound && g.node[g.bound[n]].loaded
  }

  /** The declarations share no alias, and no alias of theirs is loaded. */
  ghost predicate Unloaded(g: State, ds: seq<Declaration>)
    requires IdsOk(g)
  {
    Disjoint(ds) && forall n :: Together(ds, n, n) ==> !IsLoaded(g, n)
  }

  /** The two names denoted one object of `g0`, or some declaration makes them do so. */
  ghost predicate Joined(g0: State, ds: seq<Declaration>, n: Name, m: Name) {
    n == m || Together(ds, n, m) || (n in g0.bound && m in g0.bound && g0.bound[n] == g0.bound[m])
  }

  /**
    * The graph is what the declarations make of `g0`: the names of `g0` and those they mention are bound, two names
    * denote one object if they did or one declaration lists both as aliases, loaded objects are those that were and
    * those declared, and the edges are those there were and those declared, no more and no fewer.
    */
  ghost predicate Describes(g0: State, ds: seq<Declaration>, g: State) {
    && IdsOk(g0) && IdsOk(g) && (forall d :: d in ds ==> d.aliases != [])
    && (forall n :: n in g.bound <==> n in g0.bound || Mentioned(ds, n))
    && (forall n, m :: n in g.bound && m in g.bound ==> (g.bound[n] == g.bound[m] <==> Joined(g0, ds, n, m)))
    && (forall n :: n in g.bound ==> (IsLoaded(g, n) <==> IsLoaded(g0, n) || Together(ds, n, n)))
    && Values(g) == Values(g0) + AllEdges(ds)
  }

  lemma TogetherLast(ds: seq<Declaration>, d: Declaration)
    ensures forall n, m :: Together(ds + [d], n, m) <==> Together(ds, n, m) || (n in d.aliases && m in d.aliases)
    ensures forall n :: Mentioned(ds + [d], n) <==> Mentioned(ds, n) || Mentions(d, n)
  {
    assert d in ds + [d];
    assert forall x :: x in ds + [d] <==> x in ds || x == d;
    forall n
      ensures Mentioned(ds + [d], n) <==> Mentioned(ds, n) || Mentions(d, n)
    {
    }
  }

  /** What replacing does to the names, with the edges left out. */
  ghost predicate Replaced(g: State, r: State, aliases: seq<Name>) {
    && IdsOk(g) && IdsOk(r)
    && r.bound.Keys == g.bound.Keys + AliasSet(aliases)
    && (forall a :: a in aliases ==> r.bound[a] == g.next)
    && (forall n :: n in g.bound && n !in aliases ==>
          r.bound[n] == g.bound[n] && r.node[r.bound[n]].loaded == g.node[g.bound[n]].loaded)
    && g.next in r.node && r.node[g.next].loaded
  }

  /** The name is that of a placeholder of `g0`, if any, and of no other object. */
  ghost predicate Single(g0: State, a: Name)
    requires IdsOk(g0)
  {
    !IsLoaded(g0, a) && forall m :: a in g0.bound && m in g0.bound && g0.bound[m] == g0.bound[a] ==> m == a
  }

  lemma UnloadedIsSingle(g0: State, a: Name)
    requires Wellformed(g0) && !IsLoaded(g0, a)
    ensures Single(g0, a)
  {
    if a in g0.bound {
      assert NameOk(g0, a);
    }
    hide Agrees;
  }

  lemma DescribedNames(g0: State, ds: seq<Declaration>, d: Declaration, g: State, r: State, h: State)
    requires Describes(g0, ds, g) && d.aliases != [] && Replaced(g, r, d.aliases) && Grown(r, h, NamesOf(EdgesOf(d)))
    requires forall a :: a in d.aliases ==> !Together(ds, a, a) && Single(g0, a)
    ensures forall n :: n in h.bound <==> n in g0.bound || Mentioned(ds, n) || Mentions(d, n)
    ensures forall n :: n in h.bound ==> (IsLoaded(h, n) <==> IsLoaded(g0, n) || Together(ds, n, n) || n in d.aliases)
    ensures forall n, m :: n in h.bound && m in h.bound ==>
              (h.bound[n] == h.bound[m] <==> Joined(g0, ds, n, m) || (n in d.aliases && m in d.aliases))
  {
    hide AllEdges, Values, NamesOf, EdgesOf, Together, Mentioned;
    forall n, m
      ensures Together(ds, n, m) ==> Together(ds, n, n) && Together(ds, m, m) && Mentioned(ds, n) && Mentioned(ds, m)
    {
      TogetherMentioned(g0, ds, g, n, m);
    }
    NamesJoined(g0, ds, d, g, r, h);
  }

  lemma TogetherMentioned(g0: State, ds: seq<Declaration>, g: State, n: Name, m: Name)
    requires Describes(g0, ds, g)
    ensures Together(ds, n, m) ==> Together(ds, n, n) && Together(ds, m, m) && Mentioned(ds, n) && Mentioned(ds, m)
  {
    if e :| e in ds && n in e.aliases && m in e.aliases {
      assert Mentions(e, n) && Mentions(e, m);
    }
  }

  lemma NamesJoined(g0: State, ds: seq<Declaration>, d: Declaration, g: State, r: State, h: State)
    requires Describes(g0, ds, g) && d.aliases != [] && Replaced(g, r, d.aliases) && Grown(r, h, NamesOf(EdgesOf(d)))
    requires forall a :: a in d.aliases ==> !Together(ds, a, a) && Single(g0, a)
    requires forall n, m :: Together(ds, n, m) ==> Together(ds, n, n) && Together(ds, m, m) && Mentioned(ds, n) && Mentioned(ds, m)
    ensures forall n, m :: n in h.bound && m in h.bound ==>
              (h.bound[n] == h.bound[m] <==> Joined(g0, ds, n, m) || (n in d.aliases && m in d.aliases))
  {
    hide AllEdges, Values, NamesOf, EdgesOf, Together, Mentioned, IsLoaded;
    forall n, m | n in h.bound && m in h.bound
      ensures h.bound[n] == h.bound[m] <==> Joined(g0, ds, n, m) || (n in d.aliases && m in d.aliases)
    {
    }
  }

  /** One more load, of names no earlier declaration has as aliases. */
  lemma LoadDescribes(g0: State, ds: seq<Declaration>, d: Declaration, g: State)
    requires Describes(g0, ds, g) && d.aliases != []
    requires forall a :: a in d.aliases ==> !Together(ds, a, a) && Single(g0, a)
    ensures Describes(g0, ds + [d], Load(g, d))
  {
    var r, h := Replace(g, d.aliases), Load(g, d);
    ReplaceNames(g, d.aliases);
    ReplacedBy(g, d.aliases);
    AddEdgesGrow(r, EdgesOf(d));
    AddEdgesDeclare(r, EdgesOf(d));
    assert IdsOk(r) && IdsOk(h);
    hide *;
    DescribedNames(g0, ds, d, g, r, h);
    DescribesNext(g0, ds, d, g, r, h);
  }

  lemma ReplacedBy(g: State, aliases: seq<Name>)
    requires IdsOk(g) && aliases != []
    ensures Replaced(g, Replace(g, aliases), aliases) && Values(Replace(g, aliases)) == Values(g)
  {
    ReplaceNames(g, aliases);
    assert aliases[0] in aliases;
    hide Replace;
  }

  lemma DescribesNext(g0: State, ds: seq<Declaration>, d: Declaration, g: State, r: State, h: State)
    requires Describes(g0, ds, g) && d.aliases != [] && IdsOk(h)
    requires Values(r) == Values(g) && Values(h) == Values(r) + multiset(EdgesOf(d))
    requires forall n :: n in h.bound <==> n in g0.bound || Mentioned(ds, n) || Mentions(d, n)
    requires forall n :: n in h.bound ==> (IsLoaded(h, n) <==> IsLoaded(g0, n) || Together(ds, n, n) || n in d.aliases)
    requires forall n, m :: n in h.bound && m in h.bound ==>
               (h.bound[n] == h.bound[m] <==> Joined(g0, ds, n, m) || (n in d.aliases && m in d.aliases))
    ensures Describes(g0, ds + [d], h)
  {
    hide Together, Mentioned, Mentions, AllEdges, Values, EdgesOf, IdsOk, IsLoaded;
    TogetherLast(ds, d);
    AllEdgesLast(ds, d);
  }

  lemma {:induction false} AllEdgesLast(ds: seq<Declaration>, d: Declaration)
    requires d.aliases != [] && forall e :: e in ds ==> e.aliases != []
    ensures AllEdges(ds + [d]) == AllEdges(ds) + multiset(EdgesOf(d))
  {
    assert (ds + [d])[..|ds|] == ds;
  }

  lemma LoadLoads(g: State, d: Declaration)
    requires IdsOk(g) && d.aliases != []
    ensures forall n :: IsLoaded(Load(g, d), n) <==> IsLoaded(g, n) || n in d.aliases
  {
    var r := Replace(g, d.aliases);
    ReplacedBy(g, d.aliases);
    AddEdgesGrow(r, EdgesOf(d));
    hide Replace, AddEdges, NamesOf, EdgesOf;
  }

  lemma UnloadedInit(g: State, init: seq<Declaration>, last: Declaration)
    requires IdsOk(g) && Unloaded(g, init + [last])
    ensures Unloaded(g, init) && forall a :: a in last.aliases ==> !Together(init, a, a) && !IsLoaded(g, a)
  {
    TogetherLast(init, last);
    NoneShared(init, last);
    var ds := init + [last];
    assert forall i :: 0 <= i < |init| ==> init[i] == ds[i];
  }

  /** Loads of objects not yet loaded, on a graph in agreement, keep it so. */
  lemma {:induction false} LoadAllKeeps(g: State, ds: seq<Declaration>)
    requires Wellformed(g) && OwnersLoaded(g) && Unloaded(g, ds) && forall d :: d in ds ==> d.aliases != []
    ensures Wellformed(LoadAll(g, ds)) && OwnersLoaded(LoadAll(g, ds))
    ensures forall n :: IsLoaded(LoadAll(g, ds), n) <==> IsLoaded(g, n) || Together(ds, n, n)
  {
    hide Tidy, Agrees, OwnersLoaded, Unloaded, Together, IsLoaded, Load, Loadable;
    if ds == [] {
      TogetherNone();
    } else {
      var init, last := ds[..|ds| - 1], ds[|ds| - 1];
      assert ds == init + [last] && last in ds;
      UnloadedInit(g, init, last);
      LoadAllKeeps(g, init);
      TogetherLast(init, last);
      var h := LoadAll(g, init);
      MayReplace(h, last.aliases);
      LoadsKeepAgreement(h, last);
      LoadLoads(h, last);
    }
  }

  lemma TogetherNone()
    ensures forall n :: !Together([], n, n)
  {
  }

  lemma MayReplace(g: State, aliases: seq<Name>)
    requires IdsOk(g) && forall a :: a in aliases ==> !IsLoaded(g, a)
    ensures Loadable(g, aliases)
  {
  }

  /**
    * Loads, in sequence, of objects that share no alias and are not loaded make of a graph in agreement exactly what
    * their declarations describe.
    */
  lemma {:induction false} LoadAllIs(g0: State, ds: seq<Declaration>)
    requires Wellformed(g0) && OwnersLoaded(g0) && Unloaded(g0, ds) && forall d :: d in ds ==> d.aliases != []
    ensures Wellformed(LoadAll(g0, ds)) && OwnersLoaded(LoadAll(g0, ds))
    ensures Describes(g0, ds, LoadAll(g0, ds)) && (QueueOk(g0) ==> QueueOk(LoadAll(g0, ds)))
  {
    hide Describes, Load, Tidy, Agrees, OwnersLoaded, Together, Unloaded, IsLoaded, QueueOk, Single;
    LoadAllKeeps(g0, ds);
    if ds == [] {
      NothingDescribed(g0);
    } else {
      var init, d := ds[..|ds| - 1], ds[|ds| - 1];
      assert ds == init + [d] && d in ds;
      UnloadedInit(g0, init, d);
      LoadAllIs(g0, init);
      forall a | a in d.aliases
        ensures Single(g0, a)
      {
        UnloadedIsSingle(g0, a);
      }
      assert LoadAll(g0, ds) == Load(LoadAll(g0, init), d);
      hide LoadAll;
      LoadDescribes(g0, init, d, LoadAll(g0, init));
      if QueueOk(g0) {
        LoadKeepsQueue(LoadAll(g0, init), d);
      }
    }
  }

  lemma NothingDescribed(g0: State)
    requires IdsOk(g0)
    ensures Describes(g0, [], g0)
  {
    assert Values(g0) + AllEdges([]) == Values(g0);
  }

  lemma NothingLoaded()
    ensures Wellformed(EMPTY) && OwnersLoaded(EMPTY) && QueueOk(EMPTY)
  {
  }

  /** From nothing, all that is needed is that no two declarations share an alias. */
  lemma UnloadedAtFirst(ds: seq<Declaration>)
    requires Disjoint(ds)
    ensures Wellformed(EMPTY) && OwnersLoaded(EMPTY) && Unloaded(EMPTY, ds)
  {
    NothingLoaded();
  }

  lemma NoneShared(ds: seq<Declaration>, d: Declaration)
    requires Disjoint(ds + [d])
    ensures forall a :: a in d.aliases ==> !Together(ds, a, a)
  {
    forall a | a in d.aliases
      ensures !Together(ds, a, a)
    {
      var all := ds + [d];
      if e :| e in ds && a in e.aliases {
        var i :| 0 <= i < |ds| && ds[i] == e;
        assert all[i] == e && all[|ds|] == d && AliasSet(all[i].aliases) !! AliasSet(all[|ds|].aliases);
        assert a in AliasSet(e.aliases) && a in AliasSet(d.aliases);
      }
    }
  }

  // ---------------------------------------------------------------------------------------------------
  // Permutations

  lemma {:induction false} AllEdgesInsert(a: seq<Declaration>, x: Declaration, b: seq<Declaration>)
    requires forall d :: d in a + [x] + b ==> d.aliases != []
    ensures x in a + [x] + b && (forall d :: d in a + b ==> d in a + [x] + b)
    ensures AllEdges(a + [x] + b) == AllEdges(a + b) + multiset(EdgesOf(x))
    decreases |b|
  {
    hide EdgesOf, AllEdges;
    assert x in a + [x] + b;
    if b == [] {
      assert a + [x] + b == a + [x] && a + b == a;
      AllEdgesLast(a, x);
    } else {
      var init, y := b[..|b| - 1], b[|b| - 1];
      Regroup(a, [x], init, y, b);
      AllEdgesInsert(a, x, init);
      AllEdgesLast(a + init, y);
      AllEdgesLast(a + [x] + init, y);
    }
  }

  lemma Regroup<T>(a: seq<T>, x: seq<T>, init: seq<T>, y: T, b: seq<T>)
    requires b == init + [y]
    ensures a + x + b == (a + x + init) + [y] && a + b == (a + init) + [y]
    ensures forall d :: d in a + x + init || d == y ==> d in a + x + b
  {
  }

  lemma TakeOut<T>(s: seq<T>, a: seq<T>, x: T, b: seq<T>)
    requires multiset(s + [x]) == multiset(a + [x] + b)
    ensures multiset(s) == multiset(a + b)
  {
    assert multiset(s + [x]) == multiset(s) + multiset{x};
    assert multiset(a + [x] + b) == multiset(a + b) + multiset{x};
    assert multiset(s) == multiset(s + [x]) - multiset{x};
  }

  lemma Twice<T>(s: seq<T>, i: nat, j: nat)
    requires i < j < |s|
    ensures multiset(s)[s[j]] >= if s[i] == s[j] then 2 else 1
  {
    assert s == s[..i] + [s[i]] + s[i + 1..j] + [s[j]] + s[j + 1..];
  }

  lemma {:induction false} AllEdgesAnyOrder(ds: seq<Declaration>, es: seq<Declaration>)
    requires multiset(ds) == multiset(es) && forall d :: d in ds ==> d.aliases != []
    ensures forall d :: d in es <==> d in ds
    ensures AllEdges(ds) == AllEdges(es)
    decreases |ds|
  {
    SameElements(ds, es);
    if ds == [] {
      assert es == [];
    } else {
      var init, last := ds[..|ds| - 1], ds[|ds| - 1];
      assert ds == init + [last] && last in ds;
      var i :| 0 <= i < |es| && es[i] == last;
      var left, right := es[..i], es[i + 1..];
      assert es == left + [last] + right;
      TakeOut(init, left, last, right);
      AllEdgesInsert(left, last, right);
      AllEdgesAnyOrder(init, left + right);
    }
  }

  lemma SameElements<T>(a: seq<T>, b: seq<T>)
    requires multiset(a) == multiset(b)
    ensures forall x :: x in a <==> x in b
    ensures |a| == |b|
  {
    assert |multiset(a)| == |a| && |multiset(b)| == |b|;
    assert forall x :: x in a <==> x in multiset(a);
    assert forall x :: x in b <==> x in multiset(b);
  }

  ghost function WithValue(es: seq<Edge>, v: Declared): set<Edge> {
    set e | e in es && e.value == v
  }

  lemma WithValueLast(init: seq<Edge>, last: Edge, v: Declared)
    requires last !in init
    ensures last !in WithValue(init, v)
    ensures WithValue(init + [last], v) == WithValue(init, v) + (if last.value == v then {last} else {})
  {
  }

  lemma {:induction false} CountIs(es: seq<Edge>, v: Declared)
    requires Distinct(es)
    ensures ValuesOf(es)[v] == |WithValue(es, v)|
  {
    if es == [] {
      assert WithValue(es, v) == {};
    } else {
      var init, last := es[..|es| - 1], es[|es| - 1];
      assert es == init + [last];
      assert Distinct(init) && last !in init by {
        assert forall i :: 0 <= i < |init| ==> init[i] == es[i];
      }
      CountIs(init, v);
      WithValueLast(init, last, v);
      hide WithValue, Distinct;
    }
  }

  /** An edge is listed at an object as often as it is declared there, and not at all elsewhere. */
  lemma ListsHoldDeclared(g: State, n: Name, fwd: bool, v: Declared)
    requires Wellformed(g) && n in g.bound
    ensures var end := if fwd then v.from else v.to;
            ValuesOf(ListOf(g.node[g.bound[n]], fwd))[v]
            == if end in g.bound && g.bound[end] == g.bound[n] then Values(g)[v] else 0
  {
    var end := if fwd then v.from else v.to;
    var es := ListOf(g.node[g.bound[n]], fwd);
    ListedFacts(g, n, fwd);
    hide Wellformed, ListOf;
    CountIs(es, v);
    CountIs(g.declared, v);
    if end in g.bound && g.bound[end] == g.bound[n] {
      assert WithValue(es, v) == WithValue(g.declared, v);
    } else {
      forall e | e in es
        ensures e.value != v
      {
        assert EndOf(e, fwd) in g.bound && g.bound[EndOf(e, fwd)] == g.bound[n];
      }
      assert WithValue(es, v) == {};
    }
  }

  lemma ListedFacts(g: State, n: Name, fwd: bool)
    requires Wellformed(g) && n in g.bound
    ensures g.bound[n] in g.node && Distinct(g.declared) && Distinct(ListOf(g.node[g.bound[n]], fwd))
    ensures forall e :: e in ListOf(g.node[g.bound[n]], fwd) <==>
              e in g.declared && EndOf(e, fwd) in g.bound && g.bound[EndOf(e, fwd)] == g.bound[n]
  {
    assert SideAgrees(g, fwd);
  }

  /** The same graph, up to which object is which. */
  ghost predicate Same(g: State, h: State) {
    && IdsOk(g) && IdsOk(h) && g.bound.Keys == h.bound.Keys && Values(g) == Values(h)
    && (forall n, m :: n in g.bound && m in g.bound ==> (g.bound[n] == g.bound[m] <==> h.bound[n] == h.bound[m]))
    && (forall n :: n in g.bound ==> SameObject(g.node[g.bound[n]], h.node[h.bound[n]]))
  }

  ghost predicate SameObject(a: Node, b: Node) {
    a.loaded == b.loaded && ValuesOf(a.edges) == ValuesOf(b.edges) && ValuesOf(a.edgesTo) == ValuesOf(b.edgesTo)
  }

  lemma DescribedAnyOrder(g0: State, ds: seq<Declaration>, es: seq<Declaration>, g: State)
    requires multiset(ds) == multiset(es) && Describes(g0, es, g)
    ensures Describes(g0, ds, g)
  {
    hide Together, Mentioned, AllEdges, Values, IsLoaded;
    SameElements(ds, es);
    SameDeclared(ds, es);
    AllEdgesAnyOrder(es, ds);
  }

  lemma SameDeclared(ds: seq<Declaration>, es: seq<Declaration>)
    requires forall d :: d in ds <==> d in es
    ensures forall n :: Mentioned(ds, n) <==> Mentioned(es, n)
    ensures forall n, m :: Together(ds, n, m) <==> Together(es, n, m)
  {
  }

  lemma DescribedAlike(g0: State, ds: seq<Declaration>, g: State, h: State)
    requires Wellformed(g) && Wellformed(h) && Describes(g0, ds, g) && Describes(g0, ds, h)
    ensures Same(g, h)
  {
    SameNames(g0, ds, g, h);
    hide *;
    forall n | n in g.bound
      ensures IdsOk(g) && IdsOk(h) && n in h.bound && SameObject(g.node[g.bound[n]], h.node[h.bound[n]])
    {
      SameObjects(g, h, n);
    }
    AlikeIsSame(g, h);
  }

  lemma AlikeIsSame(g: State, h: State)
    requires Wellformed(g) && Wellformed(h) && g.bound.Keys == h.bound.Keys && Values(g) == Values(h)
    requires forall n, m :: n in g.bound && m in g.bound ==> (g.bound[n] == g.bound[m] <==> h.bound[n] == h.bound[m])
    requires forall n :: n in g.bound ==> SameObject(g.node[g.bound[n]], h.node[h.bound[n]])
    ensures Same(g, h)
  {
    hide Tidy, Agrees, SameObject, Values;
  }

  lemma SameObjects(g: State, h: State, n: Name)
    requires Wellformed(g) && Wellformed(h) && n in g.bound && g.bound.Keys == h.bound.Keys && Values(g) == Values(h)
    requires forall m :: m in g.bound ==> (g.bound[m] == g.bound[n] <==> h.bound[m] == h.bound[n])
    requires g.node[g.bound[n]].loaded == h.node[h.bound[n]].loaded
    ensures SameObject(g.node[g.bound[n]], h.node[h.bound[n]])
  {
    hide Tidy, Agrees, Values, ValuesOf;
    SameLists(g, h, n, true);
    SameLists(g, h, n, false);
  }

  lemma SameNames(g0: State, ds: seq<Declaration>, g: State, h: State)
    requires Describes(g0, ds, g) && Describes(g0, ds, h)
    ensures g.bound.Keys == h.bound.Keys && Values(g) == Values(h)
    ensures forall n, m :: n in g.bound && m in g.bound ==> (g.bound[n] == g.bound[m] <==> h.bound[n] == h.bound[m])
    ensures forall n :: n in g.bound ==> g.node[g.bound[n]].loaded == h.node[h.bound[n]].loaded
  {
    hide Together, Mentioned, Values, AllEdges, Joined;
    assert forall n :: n in g.bound <==> n in h.bound;
    assert forall n :: n in g.bound ==> (IsLoaded(g, n) <==> IsLoaded(h, n));
  }

  lemma SameLists(g: State, h: State, n: Name, fwd: bool)
    requires Wellformed(g) && Wellformed(h) && n in g.bound && g.bound.Keys == h.bound.Keys && Values(g) == Values(h)
    requires forall m :: m in g.bound ==> (g.bound[m] == g.bound[n] <==> h.bound[m] == h.bound[n])
    ensures ValuesOf(ListOf(g.node[g.bound[n]], fwd)) == ValuesOf(ListOf(h.node[h.bound[n]], fwd))
  {
    hide Values, ValuesOf, ListOf, Tidy, Agrees;
    forall v
      ensures ValuesOf(ListOf(g.node[g.bound[n]], fwd))[v] == ValuesOf(ListOf(h.node[h.bound[n]], fwd))[v]
    {
      ListsHoldDeclared(g, n, fwd, v);
      ListsHoldDeclared(h, n, fwd, v);
    }
  }

  /** Objects that share no alias, and are not loaded yet, may be loaded in any order, whatever there is already. */
  lemma {:induction false} OrderDoesNotMatter(g: State, ds: seq<Declaration>, es: seq<Declaration>)
    requires Wellformed(g) && OwnersLoaded(g) && Unloaded(g, ds) && multiset(ds) == multiset(es)
    requires forall d :: d in ds ==> d.aliases != []
    ensures (forall d :: d in es ==> d.aliases != []) && Same(LoadAll(g, ds), LoadAll(g, es))
  {
    hide Describes, Same, LoadAll, Tidy, Agrees, OwnersLoaded;
    SameElements(ds, es);
    UnloadedAnyOrder(g, ds, es);
    LoadAllIs(g, ds);
    LoadAllIs(g, es);
    DescribedAnyOrder(g, ds, es, LoadAll(g, es));
    DescribedAlike(g, ds, LoadAll(g, ds), LoadAll(g, es));
  }

  lemma UnloadedAnyOrder(g: State, ds: seq<Declaration>, es: seq<Declaration>)
    requires IdsOk(g) && Unloaded(g, ds) && multiset(ds) == multiset(es) && forall d :: d in ds ==> d.aliases != []
    ensures Unloaded(g, es)
  {
    SameElements(ds, es);
    DisjointAnyOrder(ds, es);
    assert forall n :: Together(ds, n, n) <==> Together(es, n, n);
    hide Disjoint, IsLoaded;
  }

  lemma DisjointAnyOrder(ds: seq<Declaration>, es: seq<Declaration>)
    requires Disjoint(ds) && (forall d :: d in ds ==> d.aliases != []) && multiset(ds) == multiset(es)
    ensures Disjoint(es)
  {
    SameElements(ds, es);
    forall i, j | 0 <= i < j < |es|
      ensures AliasSet(es[i].aliases) !! AliasSet(es[j].aliases)
    {
      var a := es[i];
      assert es[i] in es && es[j] in es;
      var k :| 0 <= k < |ds| && ds[k] == a;
      OnceIn(ds, k);
      Twice(es, i, j);
      var l :| 0 <= l < |ds| && ds[l] == es[j];
      assert k < l || l < k;
    }
  }

  lemma OnceIn(ds: seq<Declaration>, k: nat)
    requires Disjoint(ds) && k < |ds| && ds[k].aliases != []
    ensures multiset(ds)[ds[k]] == 1
  {
    var a := ds[k].aliases[0];
    assert a in AliasSet(ds[k].aliases);
    assert forall i :: 0 <= i < |ds| && i != k ==> ds[i] != ds[k];
    assert ds == ds[..k] + [ds[k]] + ds[k + 1..];
    assert ds[k] !in ds[..k];
    assert ds[k] !in ds[k + 1..];
  }

  // ---------------------------------------------------------------------------------------------------
  // Edges and loads interleaved

  datatype Change = Added(edge: Declared) | Loaded(unit: Declaration)

  ghost predicate Named(cs: seq<Change>) {
    forall c :: c in cs && c.Loaded? ==> c.unit.aliases != []
  }

  /** The graph after these changes, in turn. */
  ghost function Changed(g: State, cs: seq<Change>): State
    requires IdsOk(g) && Named(cs)
    ensures IdsOk(Changed(g, cs))
  {
    if cs == [] then g
    else
      var last := cs[|cs| - 1];
      assert last in cs;
      var h := Changed(g, cs[..|cs| - 1]);
      AddedIsOk(h, last);
      if last.Added? then AddEdge(h, last.edge) else Load(h, last.unit)
  }

  lemma AddedIsOk(g: State, c: Change)
    requires IdsOk(g)
    ensures c.Added? ==> IdsOk(AddEdge(g, c.edge))
  {
    if c.Added? {
      AddEdgeIsOk(g, c.edge);
    }
  }

  /** Each load finds its aliases unbound or bound to placeholders at which no edge is owned by the placeholder. */
  ghost predicate Careful(g: State, cs: seq<Change>)
    requires IdsOk(g) && Named(cs)
  {
    cs == []
    || (var init, last := cs[..|cs| - 1], cs[|cs| - 1];
        && Careful(g, init)
        && (last.Loaded? ==>
              Loadable(Changed(g, init), last.unit.aliases) && NothingOwned(Changed(g, init), last.unit.aliases)))
  }

  /** The edges declared by the changes. */
  ghost function DeclaredBy(cs: seq<Change>): multiset<Declared>
    requires Named(cs)
  {
    if cs == [] then
      multiset{}
    else
      var last := cs[|cs| - 1];
      assert last in cs;
      DeclaredBy(cs[..|cs| - 1]) + if last.Added? then multiset{last.edge} else multiset(EdgesOf(last.unit))
  }

  /** Whatever the order of added edges and careful loads, the indexes agree and no edge is lost or made up. */
  lemma {:induction false} ChangesKeep(g: State, cs: seq<Change>)
    requires Wellformed(g) && Named(cs) && Careful(g, cs)
    ensures Wellformed(Changed(g, cs))
    ensures Values(Changed(g, cs)) == Values(g) + DeclaredBy(cs)
  {
    hide Tidy, Agrees, AddEdge, Load, Values, EdgesOf, Loadable, NothingOwned;
    if cs != [] {
      var init, last := cs[..|cs| - 1], cs[|cs| - 1];
      assert last in cs;
      ChangesKeep(g, init);
      var h := Changed(g, init);
      if last.Added? {
        AddEdgeKeeps(h, last.edge);
        AddedValue(h, last.edge);
      } else {
        LoadKeepsIff(h, last.unit);
        LoadedValues(h, last.unit);
      }
    }
  }

  lemma AddedValue(g: State, d: Declared)
    requires IdsOk(g)
    ensures Values(AddEdge(g, d)) == Values(g) + multiset{d}
  {
    AddEdgeDeclares(g, d);
    ValuesAppend(g.declared, Edge(|g.declared|, d));
    hide AddEdge;
  }

  lemma LoadedValues(g: State, d: Declaration)
    requires IdsOk(g) && d.aliases != []
    ensures Values(Load(g, d)) == Values(g) + multiset(EdgesOf(d))
  {
    ReplacedBy(g, d.aliases);
    AddEdgesDeclare(Replace(g, d.aliases), EdgesOf(d));
    hide Replace, AddEdges, EdgesOf, Values;
  }

  /** Edges have been added for these declarations, in order. */
  ghost predicate DeclaredNext(before: seq<Edge>, now: seq<Edge>, ds: seq<Declared>) {
    && before <= now && |now| == |before| + |ds|
    && forall i :: 0 <= i < |ds| ==> now[|before| + i] == Edge(|before| + i, ds[i])
  }

  lemma {:induction false} AddEdgesDeclareInOrder(g: State, ds: seq<Declared>)
    requires IdsOk(g)
    ensures DeclaredNext(g.declared, AddEdges(g, ds).declared, ds)
  {
    if ds != [] {
      hide AddEdge, DeclaredNext, IdsOk;
      var init, last := ds[..|ds| - 1], ds[|ds| - 1];
      assert ds == init + [last];
      AddEdgesDeclareInOrder(g, init);
      AddEdgeDeclares(AddEdges(g, init), last);
      OneMoreDeclared(g.declared, AddEdges(g, init).declared, init, last);
    } else {
      hide AddEdge;
      assert g.declared <= g.declared;
    }
  }

  lemma OneMoreDeclared(before: seq<Edge>, now: seq<Edge>, ds: seq<Declared>, d: Declared)
    requires DeclaredNext(before, now, ds)
    ensures DeclaredNext(before, now + [Edge(|now|, d)], ds + [d])
  {
  }

  /**
    * The edges a load adds, all owned by the object loaded: in order, those from it and then those to it, each with the
    * kinds declared.
    */
  lemma LoadDeclares(g: State, d: Declaration)
    requires IdsOk(g) && d.aliases != []
    ensures var (main, n, now) := (d.aliases[0], |g.declared|, Load(g, d).declared);
            && g.declared <= now && |now| == n + |d.edgesFrom| + |d.edgesTo|
            && (forall i :: 0 <= i < |d.edgesFrom| ==>
                  now[n + i] == Edge(n + i, Declared(main, d.edgesFrom[i].kinds, main, d.edgesFrom[i].name)))
            && (forall i :: 0 <= i < |d.edgesTo| ==>
                  var k := n + |d.edgesFrom| + i;
                  now[k] == Edge(k, Declared(main, d.edgesTo[i].kinds, d.edgesTo[i].name, main)))
  {
    hide Replace, AddEdges, EdgesOf, IdsOk;
    ReplaceNames(g, d.aliases);
    AddEdgesDeclareInOrder(Replace(g, d.aliases), EdgesOf(d));
    EdgesInOrder(d);
    assert DeclaredNext(g.declared, Load(g, d).declared, EdgesOf(d));
  }

  lemma EdgesInOrder(d: Declaration)
    requires d.aliases != []
    ensures var (main, es) := (d.aliases[0], EdgesOf(d));
            && |es| == |d.edgesFrom| + |d.edgesTo|
            && (forall i :: 0 <= i < |d.edgesFrom| ==>
                  es[i] == Declared(main, d.edgesFrom[i].kinds, main, d.edgesFrom[i].name))
            && (forall i :: 0 <= i < |d.edgesTo| ==>
                  es[|d.edgesFrom| + i] == Declared(main, d.edgesTo[i].kinds, d.edgesTo[i].name, main))
  {
  }

  // ---------------------------------------------------------------------------------------------------
  // An edge that is lost

  lemma OwnerIsPlaceholder(e: Declared, g: State)
    requires e == Declared("a", {}, "a", "b") && g == AddEdge(EMPTY, e) && Wellformed(g)
    ensures Loadable(g, ["a"]) && !NothingOwned(g, ["a"])
  {
    var edge := Edge(0, e);
    assert edge in ListOf(g.node[g.bound["a"]], true);
    assert "a" in ["a"];
    hide SideAgrees, Tidy;
  }

  /**
    * An edge added before its owner is loaded stays with the placeholder, which has lost its name: the graph no
    * longer shows it, though both its ends are bound.
    */
  lemma OwnEdgeIsLost()
    ensures exists g: State, d: Declaration :: Wellformed(g) && d.aliases != [] && Loadable(g, d.aliases) && !Wellformed(Load(g, d))
  {
    var e := Declared("a", {}, "a", "b");
    var g := AddEdge(EMPTY, e);
    var d := Declaration(["a"], [], []);
    NothingLoaded();
    AddEdgeKeeps(EMPTY, e);
    OwnerIsPlaceholder(e, g);
    hide Wellformed, AddEdge, Load, NothingOwned, Loadable;
    LoadKeepsIff(g, d);
  }
}
