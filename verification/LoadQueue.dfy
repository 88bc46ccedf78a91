/** Loading what is on the load queue, and what that queues, until nothing is left. */
module LoadQueue {
  import opened Types
  import opened ObjectGraph
  import opened LoadOrder

  /** Every declaration the loader makes has an alias. */
  ghost predicate Answers(loader: Name -> seq<Declaration>) {
    forall n, d :: d in loader(n) ==> d.aliases != []
  }

  /** The names a declaration mentions. */
  ghost function NamesIn(d: Declaration): set<Name>
    requires d.aliases != []
  {
    AliasSet(d.aliases) + NamesOf(EdgesOf(d))
  }

  /** Asked for a name of the universe, the loader mentions no name outside it. */
  ghost predicate StaysWithin(loader: Name -> seq<Declaration>, universe: set<Name>)
    requires Answers(loader)
  {
    forall n, d :: n in universe && d in loader(n) ==> NamesIn(d) <= universe
  }

  /** The state after the loader has been asked for these names, in turn, each then taken off the queue. */
  ghost function Drain(g: State, loader: Name -> seq<Declaration>, names: seq<Name>): State
    requires IdsOk(g) && Answers(loader)
    ensures IdsOk(Drain(g, loader, names))
  {
    if names == [] then
      g
    else
      var h := LoadAll(Drain(g, loader, names[..|names| - 1]), loader(names[|names| - 1]));
      h.(taken := h.taken + 1)
  }

  lemma {:induction false} DrainNext(g: State, loader: Name -> seq<Declaration>, names: seq<Name>, n: Name)
    requires IdsOk(g) && Answers(loader)
    ensures forall d :: d in loader(n) ==> d.aliases != []
    ensures var h := LoadAll(Drain(g, loader, names), loader(n));
            Drain(g, loader, names + [n]) == h.(taken := h.taken + 1)
  {
    assert (names + [n])[..|names|] == names;
    hide LoadAll;
  }

  lemma {:induction false} LoadAllKeepsQueue(g: State, ds: seq<Declaration>, universe: set<Name>)
    requires IdsOk(g) && QueueOk(g) && g.bound.Keys <= universe
    requires forall d :: d in ds ==> d.aliases != [] && NamesIn(d) <= universe
    ensures QueueOk(LoadAll(g, ds)) && QueueGrows(g, LoadAll(g, ds)) && LoadAll(g, ds).bound.Keys <= universe
  {
    hide QueueOk, Load, NamesOf, EdgesOf;
    if ds != [] {
      var init, last := ds[..|ds| - 1], ds[|ds| - 1];
      assert last in ds;
      LoadAllKeepsQueue(g, init, universe);
      LoadKeepsQueue(LoadAll(g, init), last);
    }
  }

  /** The next name on the queue has been loaded: fewer names are unknown, or no more are and the queue is as it was. */
  lemma {:induction false} QueueShrinks(g: State, loader: Name -> seq<Declaration>, n: Name, universe: set<Name>)
    requires IdsOk(g) && QueueOk(g) && g.bound.Keys <= universe && n in g.bound
    requires Answers(loader) && StaysWithin(loader, universe)
    ensures var h := LoadAll(g, loader(n));
            && QueueOk(h) && h.bound.Keys <= universe
            && g.queued <= h.queued && h.taken == g.taken
            && (|universe - h.bound.Keys| < |universe - g.bound.Keys| || (h.bound.Keys == g.bound.Keys && h.queued == g.queued))
  {
    LoadAllKeepsQueue(g, loader(n), universe);
    var h := LoadAll(g, loader(n));
    hide LoadAll, QueueOk;
    if g.bound.Keys < h.bound.Keys {
      FewerLeft(universe, g.bound.Keys, h.bound.Keys);
    }
  }

  lemma FewerLeft<T>(u: set<T>, a: set<T>, b: set<T>)
    requires a < b <= u
    ensures |u - b| < |u - a|
  {
    var x :| x in b && x !in a;
    assert x in u - a && u - b <= u - a - {x};
    Smaller(u - b, u - a - {x});
  }

  lemma {:induction false} Smaller<T>(a: set<T>, b: set<T>)
    requires a <= b
    ensures |a| <= |b|
  {
    assert b == a + (b - a);
  }

  lemma {:induction false} LoadNone(g: State)
    requires IdsOk(g)
    ensures LoadAll(g, []) == g
  {
  }

  lemma {:induction false} LoadOneMore(g: State, ds: seq<Declaration>, i: nat)
    requires IdsOk(g) && i < |ds| && forall d :: d in ds ==> d.aliases != []
    ensures ds[i].aliases != []
    ensures LoadAll(g, ds[..i + 1]) == Load(LoadAll(g, ds[..i]), ds[i])
  {
    assert ds[..i + 1][..i] == ds[..i] && ds[i] in ds;
    hide Load;
  }

  lemma MayLoad(loader: Name -> seq<Declaration>, n: Name, universe: set<Name>)
    requires Answers(loader) && StaysWithin(loader, universe) && n in universe
    ensures forall d :: d in loader(n) ==> d.aliases != [] && NamesIn(d) <= universe
  {
  }

  /** From `g` to `h`, the names taken off the queue are these. */
  ghost predicate TakenBetween(g: State, h: State, names: seq<Name>) {
    && g.taken <= h.taken <= |h.queued| && g.queued <= h.queued
    && names == h.queued[g.taken..h.taken]
  }

  lemma TakenNothing(g: State)
    requires g.taken <= |g.queued|
    ensures TakenBetween(g, g, [])
  {
  }

  lemma TakenOne(g: State, s: State, h: State, t: State, names: seq<Name>, n: Name)
    requires TakenBetween(g, s, names) && s.taken < |s.queued| && s.queued[s.taken] == n
    requires s.queued <= h.queued && h.taken == s.taken && t == h.(taken := h.taken + 1)
    ensures TakenBetween(g, t, names + [n])
    ensures t.bound == h.bound && IdsOk(h) ==> IdsOk(t)
    ensures IdsOk(h) && QueueOk(h) ==> QueueOk(t)
  {
  }

  lemma TakenAll(g: State, h: State, names: seq<Name>)
    requires TakenBetween(g, h, names) && h.taken == |h.queued|
    ensures g.taken <= |h.queued| && g.queued <= h.queued && names == h.queued[g.taken..]
    ensures g.taken <= |g.queued| ==> forall n :: n in h.queued ==> n in g.queued[..g.taken] + names
  {
    assert h.queued == h.queued[..g.taken] + h.queued[g.taken..];
  }

  /** From `g` to `h`, the queue has been worked off as far as these names. */
  ghost predicate Drained(g: State, h: State, loader: Name -> seq<Declaration>, names: seq<Name>, universe: set<Name>) {
    && Answers(loader) && IdsOk(g) && IdsOk(h) && QueueOk(h) && h.bound.Keys <= universe
    && h == Drain(g, loader, names)
    && TakenBetween(g, h, names)
  }

  lemma NoneDrained(g: State, loader: Name -> seq<Declaration>, universe: set<Name>)
    requires Answers(loader) && IdsOk(g) && QueueOk(g) && g.bound.Keys <= universe
    ensures Drained(g, g, loader, [], universe)
  {
    TakenNothing(g);
  }

  lemma {:induction false} AllDrained(g: State, h: State, loader: Name -> seq<Declaration>, names: seq<Name>, universe: set<Name>)
    requires Drained(g, h, loader, names, universe)
    ensures IdsOk(g) && IdsOk(h) && QueueOk(h) && h.bound.Keys <= universe && Answers(loader)
    ensures h == Drain(g, loader, names) && TakenBetween(g, h, names)
  {
  }

  lemma {:induction false} OneDrained(g: State, s: State, h: State, loader: Name -> seq<Declaration>, names: seq<Name>, n: Name, universe: set<Name>)
    requires Drained(g, s, loader, names, universe) && s.taken < |s.queued| && s.queued[s.taken] == n
    requires Answers(loader) && IdsOk(s) && h == LoadAll(s, loader(n))
    requires IdsOk(h) && QueueOk(h) && h.bound.Keys <= universe && s.queued <= h.queued && h.taken == s.taken
    ensures Drained(g, h.(taken := h.taken + 1), loader, names + [n], universe)
  {
    DrainNext(g, loader, names, n);
    hide Drain, LoadAll, QueueOk, TakenBetween;
    TakenOne(g, s, h, h.(taken := h.taken + 1), names, n);
  }

  // ---------------------------------------------------------------------------------------------------
  // The graph when the queue is empty

  /** All the declarations the loader makes for these names. */
  ghost function AllAnswers(loader: Name -> seq<Declaration>, names: seq<Name>): seq<Declaration> {
    if names == [] then [] else AllAnswers(loader, names[..|names| - 1]) + loader(names[|names| - 1])
  }

  lemma UnloadedParts(g: State, a: seq<Declaration>, b: seq<Declaration>)
    requires IdsOk(g) && Unloaded(g, a + b)
    ensures Unloaded(g, a) && Disjoint(b)
    ensures forall n :: Together(b, n, n) ==> !Together(a, n, n) && !IsLoaded(g, n)
    ensures forall n :: Together(a + b, n, n) <==> Together(a, n, n) || Together(b, n, n)
  {
    var c := a + b;
    assert forall i :: 0 <= i < |a| ==> a[i] == c[i];
    assert forall i :: 0 <= i < |b| ==> b[i] == c[|a| + i];
    forall i, j | 0 <= i < |a| && 0 <= j < |b|
      ensures AliasSet(a[i].aliases) !! AliasSet(b[j].aliases)
    {
      assert AliasSet(c[i].aliases) !! AliasSet(c[|a| + j].aliases);
    }
    Apart(a, b);
    forall n
      ensures Together(c, n, n) <==> Together(a, n, n) || Together(b, n, n)
    {
      if d :| d in a && n in d.aliases {
        assert d in c;
      }
      if d :| d in b && n in d.aliases {
        assert d in c;
      }
    }
  }

  lemma Apart(a: seq<Declaration>, b: seq<Declaration>)
    requires forall i, j :: 0 <= i < |a| && 0 <= j < |b| ==> AliasSet(a[i].aliases) !! AliasSet(b[j].aliases)
    ensures forall n :: Together(b, n, n) ==> !Together(a, n, n)
  {
    forall d, e, n | d in a && e in b && n in d.aliases
      ensures n !in e.aliases
    {
      var i :| 0 <= i < |a| && a[i] == d;
      var j :| 0 <= j < |b| && b[j] == e;
      assert AliasSet(a[i].aliases) !! AliasSet(b[j].aliases);
      assert n in AliasSet(d.aliases);
      assert n in e.aliases ==> n in AliasSet(e.aliases);
    }
  }

  /**
    * When what the loader declares shares no alias and was not loaded before, then the graph it leaves is in
    * agreement, and the names loaded are those that were and those declared.
    */
  lemma {:induction false} DrainKeeps(g: State, loader: Name -> seq<Declaration>, names: seq<Name>)
    requires Wellformed(g) && OwnersLoaded(g) && Answers(loader) && Unloaded(g, AllAnswers(loader, names))
    ensures Wellformed(Drain(g, loader, names)) && OwnersLoaded(Drain(g, loader, names))
    ensures forall n :: IsLoaded(Drain(g, loader, names), n) <==> IsLoaded(g, n) || Together(AllAnswers(loader, names), n, n)
  {
    hide Tidy, Agrees, OwnersLoaded, Unloaded, Together, IsLoaded, LoadAll, Disjoint;
    if names == [] {
      TogetherNone();
    } else {
      var init, last := names[..|names| - 1], names[|names| - 1];
      UnloadedParts(g, AllAnswers(loader, init), loader(last));
      DrainKeeps(g, loader, init);
      var s := Drain(g, loader, init);
      StillUnloaded(s, loader(last));
      LoadAllKeeps(s, loader(last));
      OnlyTheQueue(LoadAll(s, loader(last)));
    }
  }

  lemma StillUnloaded(g: State, ds: seq<Declaration>)
    requires IdsOk(g) && Disjoint(ds) && forall n :: Together(ds, n, n) ==> !IsLoaded(g, n)
    ensures Unloaded(g, ds)
  {
  }

  /** Taking a name off the queue leaves the graph as it is. */
  lemma OnlyTheQueue(g: State)
    requires Wellformed(g) && OwnersLoaded(g)
    ensures var h := g.(taken := g.taken + 1);
            Wellformed(h) && OwnersLoaded(h) && forall n :: IsLoaded(h, n) <==> IsLoaded(g, n)
  {
  }
}
