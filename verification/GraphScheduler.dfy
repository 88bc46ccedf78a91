/** The methods that build the object graph, on objects in memory, against the operations on graph states. */
module GraphScheduler {
  import opened Types
  import opened ObjectGraph
  import opened LoadOrder
  import opened LoadQueue

  class Schedulable {
    const main: Name
    var aliases: set<Name>
    var edges: seq<Edge>
    var edgesTo: seq<Edge>
    /** Whether the object's state is other than uninitialised. */
    var loaded: bool

    constructor (name: Name)
      ensures main == name && aliases == {name} && edges == [] && edgesTo == [] && !loaded
    {
      main, aliases, edges, edgesTo, loaded := name, {name}, [], [], false;
    }

    function AsNode(): Node
      reads this
    {
      Node(main, aliases, edges, edgesTo, loaded)
    }
  }

  /** The indexes are those of the state; each object has one number. */
  ghost predicate Indexed<T>(g: State, objs: map<nat, T>, objects: set<T>, aliases: map<Name, T>,
                             loadQueue: seq<Name>, edgeCount: nat)
  {
    && IdsOk(g) && g.taken <= |g.queued|
    && objs.Keys == g.node.Keys && objects == objs.Values
    && (forall i, j :: i in objs && j in objs && objs[i] == objs[j] ==> i == j)
    && aliases.Keys == g.bound.Keys && (forall n :: n in aliases ==> aliases[n] == objs[g.bound[n]])
    && loadQueue == g.queued[g.taken..]
    && edgeCount == |g.declared|
  }

  lemma NewIndexed<T>(g: State, objs: map<nat, T>, objects: set<T>, aliases: map<Name, T>, loadQueue: seq<Name>,
                      edgeCount: nat, n: Name, o: T)
    requires Indexed(g, objs, objects, aliases, loadQueue, edgeCount)
    requires n !in aliases && o !in objects
    ensures Indexed(Get(g, n), objs[g.next := o], objects + {o}, aliases[n := o], loadQueue + [n], edgeCount)
    ensures Get(g, n).node == g.node[g.next := Node(n, {n}, [], [], false)]
    ensures g.next !in objs && n in Get(g, n).bound && Get(g, n).bound[n] == g.next
  {
    var more := objs[g.next := o];
    forall x | x in objs.Values
      ensures x in more.Values
    {
      var id :| id in objs && objs[id] == x;
      assert more[id] == x;
    }
    assert more[g.next] == o;
    assert more.Values == objs.Values + {o};
  }

  /** No object is forgotten. */
  ghost predicate Extends<T>(a: map<nat, T>, b: map<nat, T>) {
    forall id :: id in a ==> id in b && b[id] == a[id]
  }

  lemma Stays<T>(a: map<nat, T>)
    ensures Extends(a, a)
  {
  }

  lemma ExtendsAt<T>(a: map<nat, T>, b: map<nat, T>, id: nat)
    requires Extends(a, b) && id in a
    ensures id in b && b[id] == a[id]
  {
  }

  lemma ExtendsOn<T>(a: map<nat, T>, b: map<nat, T>, c: map<nat, T>)
    requires Extends(a, b) && Extends(b, c)
    ensures Extends(a, c) && a.Values <= b.Values <= c.Values
  {
  }

  /** The objects are as the state has them. */
  ghost predicate Shown(objs: map<nat, Schedulable>, node: map<nat, Node>)
    reads objs.Values
  {
    objs.Keys == node.Keys && forall id :: id in objs ==> objs[id].AsNode() == node[id]
  }

  lemma ShownMore(objs: map<nat, Schedulable>, node: map<nat, Node>, id: nat, o: Schedulable)
    requires Shown(objs, node) && id !in objs
    ensures Shown(objs[id := o], node[id := o.AsNode()]) && Extends(objs, objs[id := o])
    ensures objs[id := o].Values <= objs.Values + {o}
  {
  }

  lemma ListIndexed<T>(g: State, objs: map<nat, T>, objects: set<T>, aliases: map<Name, T>, loadQueue: seq<Name>,
                       edgeCount: nat, e: Edge, fwd: bool)
    requires Indexed(g, objs, objects, aliases, loadQueue, edgeCount)
    requires EndOf(e, fwd) in g.bound
    ensures g.bound[EndOf(e, fwd)] in g.node
    ensures Indexed(ListEdge(g, e, fwd), objs, objects, aliases, loadQueue, edgeCount)
  {
  }

  lemma GetDeclaresNothing(g: State, n: Name, m: Name)
    ensures Get(Get(g, n), m).declared == g.declared
  {
  }

  lemma AddEdgeSteps(g: State, e: Edge)
    requires IdsOk(g) && e.id == |g.declared|
    ensures var h := Get(Get(g, e.value.from), e.value.to);
            && IdsOk(Get(g, e.value.from)) && e.value.from in Get(g, e.value.from).bound
            && IdsOk(h) && e.value.from in h.bound && e.value.to in h.bound
            && h.bound[e.value.from] == Get(g, e.value.from).bound[e.value.from]
            && AddEdge(g, e.value) == ListEdge(ListEdge(h, e, true), e, false).(declared := g.declared + [e])
  {
    GetIsOk(g, e.value.from);
    GetIsOk(Get(g, e.value.from), e.value.to);
  }

  /**
    * The first `k` edges of `es` have been looked at: those not owned have moved behind `into`, giving `yours`;
    * the `i` owned ones are still in `mine`, ahead of the rest.
    */
  ghost predicate Split(es: seq<Edge>, aliases: set<Name>, into: seq<Edge>, k: nat, i: nat, mine: seq<Edge>, yours: seq<Edge>) {
    && k <= |es| && i == |Owned(es[..k], aliases, true)|
    && mine == Owned(es[..k], aliases, true) + es[k..]
    && yours == into + Owned(es[..k], aliases, false)
  }

  lemma SplitNone(es: seq<Edge>, aliases: set<Name>, into: seq<Edge>)
    ensures Split(es, aliases, into, 0, 0, es, into)
  {
    assert es[..0] == [];
  }

  lemma SplitNext(es: seq<Edge>, aliases: set<Name>, into: seq<Edge>, k: nat, i: nat, mine: seq<Edge>, yours: seq<Edge>)
    requires Split(es, aliases, into, k, i, mine, yours) && i < |mine|
    ensures k < |es|
    ensures if mine[i].value.owner in aliases then
              Split(es, aliases, into, k + 1, i + 1, mine, yours)
            else
              Split(es, aliases, into, k + 1, i, mine[..i] + mine[i + 1..], yours + [mine[i]])
  {
    assert es[..k + 1][..k] == es[..k];
    assert es[k..] == [es[k]] + es[k + 1..];
  }

  lemma {:induction false} SplitAll(es: seq<Edge>, aliases: set<Name>, into: seq<Edge>, k: nat, i: nat, mine: seq<Edge>, yours: seq<Edge>)
    requires Split(es, aliases, into, k, i, mine, yours) && i >= |mine|
    ensures mine == Owned(es, aliases, true) && yours == into + Owned(es, aliases, false)
  {
    assert es[..k] == es;
  }

  lemma StartedIndexed<T>(g: State, objs: map<nat, T>, objects: set<T>, aliases: map<Name, T>, loadQueue: seq<Name>,
                          edgeCount: nat, main: Name, o: T)
    requires Indexed(g, objs, objects, aliases, loadQueue, edgeCount) && o !in objects
    ensures Indexed(Started(g, main), objs[g.next := o], objects + {o}, aliases, loadQueue, edgeCount)
    ensures IdsOk(g) && g.next !in objs && objects == objs.Values
  {
    var more := objs[g.next := o];
    forall x | x in objs.Values
      ensures x in more.Values
    {
      var id :| id in objs && objs[id] == x;
      assert more[id] == x;
    }
    assert more[g.next] == o;
    assert more.Values == objs.Values + {o};
  }

  lemma TakeIndexed<T>(g: State, objs: map<nat, T>, objects: set<T>, aliases: map<Name, T>, loadQueue: seq<Name>,
                       edgeCount: nat, a: Name, id: nat)
    requires Indexed(g, objs, objects, aliases, loadQueue, edgeCount)
    requires a in g.bound && id in g.node && g.bound[a] != id
    ensures Indexed(Take(g, a, id), objs, objects, aliases - {a}, loadQueue, edgeCount)
  {
  }

  lemma TakeRemaps(g: State, a: Name, id: nat)
    requires a in g.bound && g.bound[a] in g.node && id in g.node
    ensures Take(g, a, id).node == Remap(g, g.bound[a], id).node
  {
  }

  lemma {:induction false} AbsorbNext(g: State, id: nat, done: seq<Name>, a: Name)
    requires IdsOk(g) && id in g.node
    ensures var h := Absorb(g, id, done);
            && (a in h.bound ==> h.bound[a] in h.node)
            && Absorb(g, id, done + [a]) == if a in h.bound then Take(h, a, id) else h
  {
    assert (done + [a])[..|done|] == done;
  }

  lemma BindIndexed<T>(g: State, objs: map<nat, T>, objects: set<T>, aliases: map<Name, T>, loadQueue: seq<Name>,
                       edgeCount: nat, a: Name, id: nat)
    requires Indexed(g, objs, objects, aliases, loadQueue, edgeCount) && id in g.node
    ensures Indexed(Rebound(g, id, a), objs, objects, aliases[a := objs[id]], loadQueue, edgeCount)
  {
  }

  /** What the steps of a load start from, and what they amount to. */
  lemma StartedLoads(g: State, d: Declaration)
    requires IdsOk(g) && d.aliases != []
    ensures var t := Started(g, d.aliases[0]);
            && IdsOk(t) && g.next in t.node && Absorb(t, g.next, []) == t && d.aliases[..0] == []
            && (forall n :: n in t.bound ==> t.bound[n] != g.next)
            && Load(g, d) == AddEdges(Bind(Absorb(t, g.next, d.aliases), g.next, d.aliases), EdgesOf(d))
  {
  }

  lemma {:induction false} NoEdges(g: State, d: Declaration)
    requires IdsOk(g) && d.aliases != []
    ensures |EdgesOf(d)| == |d.edgesFrom| + |d.edgesTo| && AddEdges(g, EdgesOf(d)[..0]) == g
    ensures EdgesOf(d)[..|d.edgesFrom| + |d.edgesTo|] == EdgesOf(d)
  {
  }

  lemma {:induction false} MoreEdges(g: State, d: Declaration, i: nat)
    requires IdsOk(g) && d.aliases != [] && i < |EdgesOf(d)|
    ensures |EdgesOf(d)| == |d.edgesFrom| + |d.edgesTo|
    ensures AddEdges(g, EdgesOf(d)[..i + 1]) == AddEdge(AddEdges(g, EdgesOf(d)[..i]), EdgesOf(d)[i])
    ensures i < |d.edgesFrom| ==>
              EdgesOf(d)[i] == Declared(d.aliases[0], d.edgesFrom[i].kinds, d.aliases[0], d.edgesFrom[i].name)
    ensures i >= |d.edgesFrom| ==>
              var t := d.edgesTo[i - |d.edgesFrom|];
              EdgesOf(d)[i] == Declared(d.aliases[0], t.kinds, t.name, d.aliases[0])
  {
    OneMoreEdge(g, EdgesOf(d), i);
    hide AddEdge, AddEdges, IdsOk;
  }

  lemma {:induction false} OneMoreEdge(g: State, ds: seq<Declared>, i: nat)
    requires IdsOk(g) && i < |ds|
    ensures AddEdges(g, ds[..i + 1]) == AddEdge(AddEdges(g, ds[..i]), ds[i])
  {
    hide AddEdge, IdsOk;
    assert ds[..i + 1][..i] == ds[..i];
  }

  lemma GetTwice(g: State, n: Name)
    ensures Get(Get(g, n), n) == Get(g, n)
  {
  }

  lemma BindNothing(g: State, id: nat)
    requires id in g.node
    ensures Bind(g, id, []) == g
  {
    assert Bind(g, id, []).bound == g.bound;
    assert g.node[id].aliases + AliasSet([]) == g.node[id].aliases;
  }

  /** Bind one alias. */
  function Rebound(g: State, id: nat, a: Name): State
    requires id in g.node
  {
    g.(bound := g.bound[a := id], node := g.node[id := g.node[id].(aliases := g.node[id].aliases + {a})])
  }

  lemma BindMore(g: State, id: nat, aliases: seq<Name>, a: Name)
    requires id in g.node
    ensures Bind(g, id, aliases + [a]) == Rebound(Bind(g, id, aliases), id, a)
  {
    var h, k := Bind(g, id, aliases), Bind(g, id, aliases + [a]);
    assert AliasSet(aliases + [a]) == AliasSet(aliases) + {a};
    assert k.bound == h.bound[a := id];
    assert k.node[id].aliases == h.node[id].aliases + {a};
  }

  class Scheduler {
    var objects: set<Schedulable>
    var aliases: map<Name, Schedulable>
    var loadQueue: seq<Name>
    /** How many edges have been allocated. */
    var edgeCount: nat
    ghost var abs: State
    ghost var objs: map<nat, Schedulable>

    constructor ()
      ensures Valid() && abs == EMPTY && objs == map[]
    {
      objects, aliases, loadQueue, edgeCount := {}, map[], [], 0;
      abs, objs := EMPTY, map[];
    }

    ghost predicate Valid()
      reads this, objs.Values
    {
      Indexed(abs, objs, objects, aliases, loadQueue, edgeCount) && Shown(objs, abs.node)
    }

    lemma Bound(n: Name)
      requires Indexed(abs, objs, objects, aliases, loadQueue, edgeCount)
      ensures objs.Keys == abs.node.Keys && objects == objs.Values
      ensures n in aliases <==> n in abs.bound
      ensures n in aliases ==> abs.bound[n] in objs && aliases[n] == objs[abs.bound[n]] && Get(abs, n) == abs
    {
    }

    method ObjectGet(n: Name) returns (o: Schedulable)
      requires Valid()
      modifies this
      ensures Valid() && abs == Get(old(abs), n)
      ensures n in abs.bound && abs.bound[n] in objs && o == objs[abs.bound[n]]
      ensures Extends(old(objs), objs)
      ensures fresh(objs.Values - old(objs.Values))
    {
      hide Indexed, Get, Shown, Extends;
      Bound(n);
      Stays(objs);
      if n in aliases {
        o := aliases[n];
      } else {
        o := new Schedulable(n);
        NewIndexed(abs, objs, objects, aliases, loadQueue, edgeCount, n, o);
        loadQueue := loadQueue + [n];
        objects := objects + {o};
        aliases := aliases[n := o];
        ShownMore(objs, abs.node, abs.next, o);
        objs := objs[abs.next := o];
        abs := Get(abs, n);
      }
    }

    /** Add an edge, making placeholders for the ends that are not bound. */
    method EdgeAdd(kinds: set<EdgeType>, owner: Name, from: Name, to: Name) returns (e: Edge)
      requires Valid()
      modifies this, objs.Values
      ensures Valid() && abs == AddEdge(old(abs), Declared(owner, kinds, from, to))
      ensures e == Edge(|old(abs).declared|, Declared(owner, kinds, from, to))
      ensures Extends(old(objs), objs)
      ensures fresh(objs.Values - old(objs.Values))
    {
      hide Indexed, Get, Shown, Extends, AddEdge, Valid, IdsOk;
      ghost var g := abs;
      ValidIsIndexed();
      var ofrom, oto := EndsGet(from, to);
      ValidIsIndexed();
      e := Edge(edgeCount, Declared(owner, kinds, from, to));
      GetDeclaresNothing(g, from, to);
      AddEdgeSteps(g, e);
      ListAt(ofrom, e, true);
      ListAt(oto, e, false);
      Declare(e);
    }

    /** Look up both ends of an edge, the first of them twice as for the owner. */
    method EndsGet(from: Name, to: Name) returns (ofrom: Schedulable, oto: Schedulable)
      requires Valid()
      modifies this
      ensures Valid() && abs == Get(Get(old(abs), from), to)
      ensures from in Get(old(abs), from).bound && Get(old(abs), from).bound[from] in objs
      ensures ofrom == objs[Get(old(abs), from).bound[from]]
      ensures to in abs.bound && abs.bound[to] in objs && oto == objs[abs.bound[to]]
      ensures Extends(old(objs), objs)
      ensures fresh(objs.Values - old(objs.Values))
    {
      hide Indexed, Get, Shown, Extends, Valid, IdsOk;
      ghost var g, objs0 := abs, objs;
      GetTwice(g, from);
      var _ := ObjectGet(from);
      ghost var objs1 := objs;
      ofrom := ObjectGet(from);
      ghost var objs2, id := objs, abs.bound[from];
      ExtendsOn(objs0, objs1, objs2);
      oto := ObjectGet(to);
      ExtendsOn(objs0, objs2, objs);
      ExtendsAt(objs2, objs, id);
    }

    lemma ValidIsIndexed()
      requires Valid()
      ensures IdsOk(abs) && edgeCount == |abs.declared| && objs.Keys == abs.node.Keys
      ensures forall n :: n in abs.bound ==> abs.bound[n] in objs
    {
    }

    /** Add the edge to the list of the object at one of its ends. */
    method ListAt(o: Schedulable, e: Edge, fwd: bool)
      requires Valid() && EndOf(e, fwd) in abs.bound && abs.bound[EndOf(e, fwd)] in objs
      requires o == objs[abs.bound[EndOf(e, fwd)]]
      modifies this`abs, o`edges, o`edgesTo
      ensures EndOf(e, fwd) in old(abs).bound && old(abs).bound[EndOf(e, fwd)] in old(abs).node
      ensures Valid() && abs == ListEdge(old(abs), e, fwd)
    {
      hide Indexed;
      Alone(o, abs.bound[EndOf(e, fwd)]);
      ListIndexed(abs, objs, objects, aliases, loadQueue, edgeCount, e, fwd);
      abs := ListEdge(abs, e, fwd);
      if fwd {
        o.edges := o.edges + [e];
      } else {
        o.edgesTo := o.edgesTo + [e];
      }
    }

    /** No other number denotes the object. */
    lemma Alone(o: Schedulable, id: nat)
      requires Valid() && id in objs && objs[id] == o
      ensures forall i :: i in objs && objs[i] == o ==> i == id
      ensures id in abs.node && abs.node[id] == o.AsNode()
    {
    }

    method Declare(e: Edge)
      requires Valid()
      modifies this`abs, this`edgeCount
      ensures Valid() && abs == old(abs).(declared := old(abs).declared + [e])
    {
      abs := abs.(declared := abs.declared + [e]);
      edgeCount := edgeCount + 1;
    }

    /** Move the edges `obj` does not own to `newobj`. */
    method ObjectRemapUnownedEdges(obj: Schedulable, newobj: Schedulable)
      requires obj != newobj
      modifies obj`edges, obj`edgesTo, newobj`edges, newobj`edgesTo
      ensures obj.edges == Owned(old(obj.edges), obj.aliases, true)
      ensures obj.edgesTo == Owned(old(obj.edgesTo), obj.aliases, true)
      ensures newobj.edges == old(newobj.edges) + Owned(old(obj.edges), obj.aliases, false)
      ensures newobj.edgesTo == old(newobj.edgesTo) + Owned(old(obj.edgesTo), obj.aliases, false)
    {
      hide Split;
      var i := 0;
      ghost var k, es, into := 0, obj.edges, newobj.edges;
      SplitNone(es, obj.aliases, into);
      while i < |obj.edges|
        invariant Split(es, obj.aliases, into, k, i, obj.edges, newobj.edges)
        invariant obj.edgesTo == old(obj.edgesTo) && newobj.edgesTo == old(newobj.edgesTo)
        decreases |es| - k
      {
        SplitNext(es, obj.aliases, into, k, i, obj.edges, newobj.edges);
        var e := obj.edges[i];
        if e.value.owner !in obj.aliases {
          newobj.edges := newobj.edges + [e];
          obj.edges := obj.edges[..i] + obj.edges[i + 1..];
        } else {
          i := i + 1;
        }
        k := k + 1;
      }
      SplitAll(es, obj.aliases, into, k, i, obj.edges, newobj.edges);
      ghost var mine, yours := obj.edges, newobj.edges;
      i := 0;
      k, es, into := 0, obj.edgesTo, newobj.edgesTo;
      SplitNone(es, obj.aliases, into);
      while i < |obj.edgesTo|
        invariant Split(es, obj.aliases, into, k, i, obj.edgesTo, newobj.edgesTo)
        invariant obj.edges == mine && newobj.edges == yours
        decreases |es| - k
      {
        SplitNext(es, obj.aliases, into, k, i, obj.edgesTo, newobj.edgesTo);
        var e := obj.edgesTo[i];
        if e.value.owner !in obj.aliases {
          newobj.edgesTo := newobj.edgesTo + [e];
          obj.edgesTo := obj.edgesTo[..i] + obj.edgesTo[i + 1..];
        } else {
          i := i + 1;
        }
        k := k + 1;
      }
      SplitAll(es, obj.aliases, into, k, i, obj.edgesTo, newobj.edgesTo);
    }

    /** A new object to be loaded, which no name is bound to yet. */
    method NewLoaded(main: Name) returns (obj: Schedulable)
      requires Valid()
      modifies this`abs, this`objs, this`objects
      ensures IdsOk(old(abs)) && Valid() && abs == Started(old(abs), main)
      ensures old(abs).next in objs && objs[old(abs).next] == obj && obj.main == main
      ensures Extends(old(objs), objs) && fresh(objs.Values - old(objs.Values)) && obj in objs.Values
    {
      hide Shown, Extends, Indexed, IdsOk;
      obj := new Schedulable(main);
      obj.loaded := true;
      ValidIsIndexed();
      StartedIndexed(abs, objs, objects, aliases, loadQueue, edgeCount, main, obj);
      ShownMore(objs, abs.node, abs.next, obj);
      objs := objs[abs.next := obj];
      abs := Started(abs, main);
      objects := objects + {obj};
    }

    /** If the name is bound, its object's edges are remapped and the name is unbound. */
    method GiveUp(alias: Name, obj: Schedulable, ghost id: nat, ghost start: State, ghost done: seq<Name>)
      requires Valid() && id in objs && objs[id] == obj
      requires IdsOk(start) && id in start.node && abs == Absorb(start, id, done)
      requires forall n :: n in abs.bound ==> abs.bound[n] != id
      modifies this`abs, this`aliases, objs.Values
      ensures Valid() && abs == Absorb(start, id, done + [alias])
      ensures forall n :: n in abs.bound ==> abs.bound[n] != id
    {
      AbsorbNext(start, id, done, alias);
      Bound(alias);
      if alias in aliases {
        Yield(aliases[alias], abs.bound[alias], alias, obj, id);
      }
    }

    method Yield(placeholder: Schedulable, ghost a: nat, alias: Name, obj: Schedulable, ghost id: nat)
      requires Valid() && id in objs && objs[id] == obj && a in objs && objs[a] == placeholder && a != id
      requires alias in abs.bound && abs.bound[alias] == a
      modifies this`abs, this`aliases, objs.Values
      ensures old(abs).bound[alias] in old(abs).node && id in old(abs).node && Valid() && abs == Take(old(abs), alias, id)
    {
      hide Indexed, Owned, Remap, Shown, Take;
      Bound(alias);
      TakeIndexed(abs, objs, objects, aliases, loadQueue, edgeCount, alias, id);
      TakeRemaps(abs, alias, id);
      MoveEdges(placeholder, a, obj, id);
      aliases := aliases - {alias};
      abs := Take(abs, alias, id);
    }

    method MoveEdges(placeholder: Schedulable, ghost a: nat, obj: Schedulable, ghost id: nat)
      requires Valid() && id in objs && objs[id] == obj && a in objs && objs[a] == placeholder && a != id
      modifies placeholder`edges, placeholder`edgesTo, obj`edges, obj`edgesTo
      ensures a in abs.node && id in abs.node && Shown(objs, Remap(abs, a, id).node)
    {
      Alone(placeholder, a);
      Alone(obj, id);
      hide Indexed, Owned;
      ObjectRemapUnownedEdges(placeholder, obj);
    }

    method BindAlias(alias: Name, obj: Schedulable, ghost id: nat, ghost start: State, ghost done: seq<Name>)
      requires Valid() && id in objs && objs[id] == obj
      requires id in start.node && abs == Bind(start, id, done)
      modifies this`abs, this`aliases, obj`aliases
      ensures Valid() && abs == Bind(start, id, done + [alias])
    {
      BindMore(start, id, done, alias);
      hide *;
      Rebind(alias, obj, id);
    }

    method Rebind(alias: Name, obj: Schedulable, ghost id: nat)
      requires Valid() && id in objs && objs[id] == obj
      modifies this`abs, this`aliases, obj`aliases
      ensures id in old(abs).node && Valid() && abs == Rebound(old(abs), id, alias)
    {
      BindIndexed(abs, objs, objects, aliases, loadQueue, edgeCount, alias, id);
      Alone(obj, id);
      hide Indexed;
      abs := Rebound(abs, id, alias);
      aliases := aliases[alias := obj];
      obj.aliases := obj.aliases + {alias};
    }

    /**
      * Load an object: its aliases are bound to a new object, which takes over the edges others added at the
      * objects they were bound to; then the declared edges are added.
      */
    method ObjectLoad(d: Declaration)
      requires Valid() && d.aliases != []
      modifies this, objs.Values
      ensures IdsOk(old(abs)) && Valid() && abs == Load(old(abs), d)
      ensures var (main, n) := (d.aliases[0], |old(abs).declared|);
              && old(abs).declared <= abs.declared && |abs.declared| == n + |d.edgesFrom| + |d.edgesTo|
              && (forall i :: 0 <= i < |d.edgesFrom| ==>
                    abs.declared[n + i] == Edge(n + i, Declared(main, d.edgesFrom[i].kinds, main, d.edgesFrom[i].name)))
              && (forall i :: 0 <= i < |d.edgesTo| ==>
                    var k := n + |d.edgesFrom| + i;
                    abs.declared[k] == Edge(k, Declared(main, d.edgesTo[i].kinds, d.edgesTo[i].name, main)))
      ensures Extends(old(objs), objs) && fresh(objs.Values - old(objs.Values))
    {
      hide *;
      ValidIsIndexed();
      ghost var g, objs0 := abs, objs;
      var obj := NewLoaded(d.aliases[0]);
      ghost var id, objs1 := g.next, objs;
      StartedLoads(g, d);
      ExtendsOn(objs0, objs1, objs1);
      for i := 0 to |d.aliases|
        invariant Valid() && id in objs && objs[id] == obj && objs == objs1
        invariant abs == Absorb(Started(g, d.aliases[0]), id, d.aliases[..i])
        invariant forall n :: n in abs.bound ==> abs.bound[n] != id
      {
        assert d.aliases[..i + 1] == d.aliases[..i] + [d.aliases[i]];
        GiveUp(d.aliases[i], obj, id, Started(g, d.aliases[0]), d.aliases[..i]);
      }
      assert d.aliases[..|d.aliases|] == d.aliases;
      ghost var absorbed := abs;
      BindNothing(absorbed, id);
      for i := 0 to |d.aliases|
        invariant Valid() && id in objs && objs[id] == obj && objs == objs1
        invariant abs == Bind(absorbed, id, d.aliases[..i])
      {
        assert d.aliases[..i + 1] == d.aliases[..i] + [d.aliases[i]];
        BindAlias(d.aliases[i], obj, id, absorbed, d.aliases[..i]);
      }
      AddDeclared(d, obj);
      ExtendsOn(objs0, objs1, objs);
      LoadDeclares(g, d);
    }

    method AddDeclared(d: Declaration, obj: Schedulable)
      requires Valid() && d.aliases != [] && obj.main == d.aliases[0]
      modifies this, objs.Values
      ensures IdsOk(old(abs)) && Valid() && abs == AddEdges(old(abs), EdgesOf(d))
      ensures Extends(old(objs), objs) && fresh(objs.Values - old(objs.Values))
    {
      hide *;
      ValidIsIndexed();
      ghost var g, objs0 := abs, objs;
      Stays(objs);
      NoEdges(g, d);
      for i := 0 to |d.edgesFrom|
        invariant Valid() && abs == AddEdges(g, EdgesOf(d)[..i])
        invariant Extends(objs0, objs) && fresh(objs.Values - objs0.Values)
      {
        ghost var objs1 := objs;
        MoreEdges(g, d, i);
        var _ := EdgeAdd(d.edgesFrom[i].kinds, obj.main, obj.main, d.edgesFrom[i].name);
        ExtendsOn(objs0, objs1, objs);
      }
      ghost var m := |d.edgesFrom|;
      for i := 0 to |d.edgesTo|
        invariant Valid() && abs == AddEdges(g, EdgesOf(d)[..m + i])
        invariant Extends(objs0, objs) && fresh(objs.Values - objs0.Values)
      {
        ghost var objs1 := objs;
        MoreEdges(g, d, m + i);
        var _ := EdgeAdd(d.edgesTo[i].kinds, obj.main, d.edgesTo[i].name, obj.main);
        ExtendsOn(objs0, objs1, objs);
      }
    }

    /**
      * Ask the loader for the objects on the load queue until the queue is empty. `asked` are the names it was
      * asked for.
      */
    method DispatchLoadQueue(loader: Name -> seq<Declaration>, ghost universe: set<Name>) returns (ghost asked: seq<Name>)
      requires Valid() && QueueOk(abs) && Answers(loader) && abs.bound.Keys <= universe && StaysWithin(loader, universe)
      modifies this, objs.Values
      ensures IdsOk(old(abs)) && old(abs).taken <= |old(abs).queued|
      ensures Valid() && QueueOk(abs) && loadQueue == []
      ensures abs == Drain(old(abs), loader, asked)
      ensures old(abs).queued <= abs.queued && asked == abs.queued[old(abs).taken..]
      ensures forall n :: n in aliases && !aliases[n].loaded ==> n in old(abs).queued[..old(abs).taken] + asked
      ensures Extends(old(objs), objs) && fresh(objs.Values - old(objs.Values))
    {
      hide *;
      ValidIsIndexed();
      Stays(objs);
      ghost var g, objs0 := abs, objs;
      asked := [];
      Queue();
      NoneDrained(g, loader, universe);
      while loadQueue != []
        invariant Valid() && Drained(g, abs, loader, asked, universe)
        invariant Extends(objs0, objs) && fresh(objs.Values - objs0.Values)
        decreases |universe - abs.bound.Keys|, |loadQueue|
      {
        ghost var objs1 := objs;
        ghost var id := LoadNext(loader, g, asked, universe);
        ExtendsOn(objs0, objs1, objs);
        asked := asked + [id];
      }
      AllDrained(g, abs, loader, asked, universe);
      Queue();
      TakenAll(g, abs, asked);
      Placeholders();
    }

    /** Ask the loader for the first name on the queue, and take the name off. */
    method LoadNext(loader: Name -> seq<Declaration>, ghost g: State, ghost asked: seq<Name>, ghost universe: set<Name>)
      returns (id: Name)
      requires Valid() && Drained(g, abs, loader, asked, universe) && loadQueue != []
      requires Answers(loader) && StaysWithin(loader, universe)
      modifies this, objs.Values
      ensures Valid() && Drained(g, abs, loader, asked + [id], universe)
      ensures Extends(old(objs), objs) && fresh(objs.Values - old(objs.Values))
      ensures |universe - abs.bound.Keys| < |universe - old(abs).bound.Keys|
              || (abs.bound.Keys == old(abs).bound.Keys && |loadQueue| < |old(loadQueue)|)
    {
      hide *;
      AllDrained(g, abs, loader, asked, universe);
      Queue();
      ghost var s := abs;
      id := loadQueue[0];
      MayLoad(loader, id, universe);
      QueueShrinks(s, loader, id, universe);
      LoadObject(loader(id));
      ghost var h := abs;
      Queue();
      OneDrained(g, s, h, loader, asked, id, universe);
      Pop();
    }

    lemma Queue()
      requires Valid() && QueueOk(abs)
      ensures IdsOk(abs) && abs.taken <= |abs.queued| && loadQueue == abs.queued[abs.taken..]
      ensures loadQueue != [] ==> loadQueue[0] == abs.queued[abs.taken] && loadQueue[0] in abs.bound
    {
      hide Shown;
    }

    lemma Placeholders()
      requires Valid() && QueueOk(abs)
      ensures forall n :: n in aliases && !aliases[n].loaded ==> n in abs.queued
    {
    }

    /** The loader declares some objects. */
    method LoadObject(ds: seq<Declaration>)
      requires Valid() && forall d :: d in ds ==> d.aliases != []
      modifies this, objs.Values
      ensures IdsOk(old(abs)) && Valid() && abs == LoadAll(old(abs), ds)
      ensures Extends(old(objs), objs) && fresh(objs.Values - old(objs.Values))
    {
      hide *;
      ValidIsIndexed();
      Stays(objs);
      ghost var g, objs0 := abs, objs;
      LoadNone(g);
      assert ds[..0] == [];
      for i := 0 to |ds|
        invariant Valid() && abs == LoadAll(g, ds[..i])
        invariant Extends(objs0, objs) && fresh(objs.Values - objs0.Values)
      {
        ghost var objs1 := objs;
        LoadOneMore(g, ds, i);
        ObjectLoad(ds[i]);
        ExtendsOn(objs0, objs1, objs);
      }
      assert ds[..|ds|] == ds;
    }

    method Pop()
      requires Valid() && loadQueue != []
      modifies this`loadQueue, this`abs
      ensures Valid() && abs == old(abs).(taken := old(abs).taken + 1) && loadQueue == old(loadQueue)[1..]
    {
      hide Shown;
      loadQueue := loadQueue[1..];
      abs := abs.(taken := abs.taken + 1);
    }
  }
}
