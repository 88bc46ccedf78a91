/** The edge rules of `job_submit`, and the closure of a goal job under them. */
module Closure {
  import opened Types
  import opened Jobs
  import opened Walks

  /** One `foreach_edge` sweep: for each edge with this bit, submit a job of this type. */
  datatype Rule = Rule(kind: EdgeType, op: JobType, required: bool)

  /** The sweeps a new job makes, in order. */
  function Rules(op: JobType): seq<Rule> {
    (if op == Start || op == Restart || op == TryRestart then
       [Rule(AddStart, Start, true), Rule(AddStartNonreq, Start, false), Rule(AddVerify, Verify, true),
        Rule(AddStop, Stop, true), Rule(AddStopNonreq, Stop, false)]
     else if op == Stop then
       [Rule(PropagatesStopTo, Stop, true)]
     else if op == Reload || op == TryReload then
       [Rule(PropagatesReloadTo, TryReload, true)]
     else
       [])
    + (if op == Restart || op == TryRestart then [Rule(PropagatesRestartTo, TryRestart, true)] else [])
  }

  /** One matching edge: the job it asks for and whether that job is required. */
  datatype Visit = Visit(to: Key, required: bool)

  function EdgeVisits(links: seq<Link>, r: Rule): seq<Visit> {
    if links == [] then
      []
    else
      var last := links[|links| - 1];
      EdgeVisits(links[..|links| - 1], r)
      + (if r.kind in last.kinds then [Visit(Key(last.to, r.op), r.required)] else [])
  }

  function RuleVisits(links: seq<Link>, rules: seq<Rule>): seq<Visit> {
    if rules == [] then
      []
    else
      RuleVisits(links, rules[..|rules| - 1]) + EdgeVisits(links, rules[|rules| - 1])
  }

  /** All visits a job makes to the edges of its object. */
  function Visits(g: Graph, k: Key): seq<Visit>
    requires k.obj in g
  {
    RuleVisits(g[k.obj], Rules(k.op))
  }

  lemma {:induction false} EdgeVisitsAreMatches(links: seq<Link>, r: Rule, v: Visit)
    ensures v in EdgeVisits(links, r) <==>
            exists l :: l in links && r.kind in l.kinds && v == Visit(Key(l.to, r.op), r.required)
  {
    if links != [] {
      EdgeVisitsAreMatches(links[..|links| - 1], r, v);
      var init, last := links[..|links| - 1], links[|links| - 1];
      assert forall l :: l in links <==> l in init || l == last;
    }
  }

  lemma {:induction false} RuleVisitsAreMatches(links: seq<Link>, rules: seq<Rule>, v: Visit)
    ensures v in RuleVisits(links, rules) <==> exists r :: r in rules && v in EdgeVisits(links, r)
  {
    if rules != [] {
      var init, last := rules[..|rules| - 1], rules[|rules| - 1];
      RuleVisitsAreMatches(links, init, v);
      if v in RuleVisits(links, init) {
        var r :| r in init && v in EdgeVisits(links, r);
        assert r in rules;
      } else if v in EdgeVisits(links, last) {
        assert last in rules;
      }
      if r :| r in rules && v in EdgeVisits(links, r) {
        assert rules == init + [last];
        assert r in init || r == last;
      }
    }
  }

  ghost predicate Asks(g: Graph, k: Key, r: Rule, l: Link, v: Visit)
    requires k.obj in g
  {
    r in Rules(k.op) && l in g[k.obj] && r.kind in l.kinds && v == Visit(Key(l.to, r.op), r.required)
  }

  /** A job visits exactly the edges of its object that one of its rules matches. */
  lemma VisitsAreMatchingEdges(g: Graph, k: Key, v: Visit)
    requires k.obj in g
    ensures v in Visits(g, k) <==> exists r, l :: Asks(g, k, r, l, v)
  {
    RuleVisitsAreMatches(g[k.obj], Rules(k.op), v);
    forall r
      ensures v in EdgeVisits(g[k.obj], r) <==>
              exists l :: l in g[k.obj] && r.kind in l.kinds && v == Visit(Key(l.to, r.op), r.required)
    {
      EdgeVisitsAreMatches(g[k.obj], r, v);
    }
    if v in Visits(g, k) {
      var r :| r in Rules(k.op) && v in EdgeVisits(g[k.obj], r);
      var l :| l in g[k.obj] && r.kind in l.kinds && v == Visit(Key(l.to, r.op), r.required);
      assert Asks(g, k, r, l, v);
    }
    if r, l :| Asks(g, k, r, l, v) {
      assert v in EdgeVisits(g[k.obj], r);
    }
  }

  const ALL_TYPES: set<JobType> :=
    {Start, Verify, Stop, Reload, Restart, TryStart, TryRestart, TryReload, ReloadOrStart, RestartOrStart}

  lemma EveryTypeListed(t: JobType)
    ensures t in ALL_TYPES
  {
  }

  /** Every job there could be. */
  function Universe(g: Graph): set<Key> {
    set o, t | o in g && t in ALL_TYPES :: Key(o, t)
  }

  /** Which jobs a job asks for. */
  function AsksFor(g: Graph): Digraph<Key> {
    map k | k in Universe(g) :: set v | v in Visits(g, k) :: v.to
  }

  /** Which jobs a job requires. */
  function Requires(g: Graph): Digraph<Key> {
    map k | k in Universe(g) :: set v | v in Visits(g, k) && v.required :: v.to
  }

  lemma VisitStays(g: Graph, k: Key, v: Visit)
    requires Closed(g) && k.obj in g && v in Visits(g, k)
    ensures v.to.obj in g
    ensures Step(AsksFor(g), k, v.to)
    ensures v.required ==> Step(Requires(g), k, v.to)
  {
    VisitsAreMatchingEdges(g, k, v);
    var r, l :| Asks(g, k, r, l, v);
    var i :| 0 <= i < |g[k.obj]| && g[k.obj][i] == l;
    assert g[k.obj][i].to in g;
    EveryTypeListed(k.op);
    assert k in Universe(g);
  }

  /** `s` holds the goal and whatever its members ask for, and nothing less does. */
  ghost predicate LeastClosed(g: Graph, goal: Key, s: set<Key>) {
    && ClosedUnder(g, goal, s)
    && forall t :: ClosedUnder(g, goal, t) ==> s <= t
  }

  ghost predicate ClosedUnder(g: Graph, goal: Key, s: set<Key>) {
    && goal in s
    && forall k, v :: k in s && k.obj in g && v in Visits(g, k) ==> v.to in s
  }

  /** A closed set all of whose members are reachable from the goal is the least closed set. */
  lemma ReachableClosedIsLeast(g: Graph, goal: Key, s: set<Key>)
    requires ClosedUnder(g, goal, s)
    requires forall k :: k in s ==> Reaches(AsksFor(g), goal, k)
    ensures LeastClosed(g, goal, s)
  {
    forall t, k | ClosedUnder(g, goal, t) && k in s
      ensures k in t
    {
      var w :| WalkFromTo(AsksFor(g), w, goal, k);
      ClosedSetKeepsWalk(AsksFor(g), t, w);
    }
  }
}
