/** Which visits a job of each type makes, and in which order; the visits along short lists, for witness graphs. */
module VisitLists {
  import opened Types
  import opened Jobs
  import opened Closure

  lemma {:induction false} FiveRules(links: seq<Link>)
    ensures RuleVisits(links, Rules(Start)) ==
            EdgeVisits(links, Rule(AddStart, Start, true)) + EdgeVisits(links, Rule(AddStartNonreq, Start, false))
            + EdgeVisits(links, Rule(AddVerify, Verify, true)) + EdgeVisits(links, Rule(AddStop, Stop, true))
            + EdgeVisits(links, Rule(AddStopNonreq, Stop, false))
  {
    var a, b, c := Rule(AddStart, Start, true), Rule(AddStartNonreq, Start, false), Rule(AddVerify, Verify, true);
    var d, e := Rule(AddStop, Stop, true), Rule(AddStopNonreq, Stop, false);
    hide EdgeVisits, RuleVisits;
    RulesLast(links, [], a);
    RulesLast(links, [a], b);
    RulesLast(links, [a, b], c);
    RulesLast(links, [a, b, c], d);
    RulesLast(links, [a, b, c, d], e);
    assert Rules(Start) == [a, b, c, d] + [e];
    assert [a, b, c, d] == [a, b, c] + [d] && [a, b, c] == [a, b] + [c] && [a, b] == [a] + [b] && [a] == [] + [a];
  }

  lemma {:induction false} RulesLast(links: seq<Link>, rules: seq<Rule>, r: Rule)
    ensures RuleVisits(links, rules + [r]) == RuleVisits(links, rules) + EdgeVisits(links, r)
    ensures RuleVisits(links, []) == []
  {
    assert (rules + [r])[..|rules|] == rules;
  }

  /** A job that starts its object asks for this along an edge of these kinds. */
  predicate StartDemands(kinds: set<EdgeType>, on: JobType, required: bool) {
    || (AddStart in kinds && on == Start && required)
    || (AddStartNonreq in kinds && on == Start && !required)
    || (AddVerify in kinds && on == Verify && required)
    || (AddStop in kinds && on == Stop && required)
    || (AddStopNonreq in kinds && on == Stop && !required)
  }

  /** A job of type `op` asks for this along an edge of these kinds. */
  predicate Demands(op: JobType, kinds: set<EdgeType>, on: JobType, required: bool) {
    match op
    case Start => StartDemands(kinds, on, required)
    case Restart => StartDemands(kinds, on, required) || (PropagatesRestartTo in kinds && on == TryRestart && required)
    case TryRestart => StartDemands(kinds, on, required) || (PropagatesRestartTo in kinds && on == TryRestart && required)
    case Stop => PropagatesStopTo in kinds && on == Stop && required
    case Reload => PropagatesReloadTo in kinds && on == TryReload && required
    case TryReload => PropagatesReloadTo in kinds && on == TryReload && required
    case Verify => false
    case TryStart => false
    case ReloadOrStart => false
    case RestartOrStart => false
  }

  /** The sweeps of each type of job, in order. */
  lemma {:induction false} VisitsInOrder(g: Graph, k: Key)
    requires k.obj in g
    ensures var links := g[k.obj];
            var starts := EdgeVisits(links, Rule(AddStart, Start, true)) + EdgeVisits(links, Rule(AddStartNonreq, Start, false))
                          + EdgeVisits(links, Rule(AddVerify, Verify, true)) + EdgeVisits(links, Rule(AddStop, Stop, true))
                          + EdgeVisits(links, Rule(AddStopNonreq, Stop, false));
            Visits(g, k) ==
            match k.op
            case Start => starts
            case Restart => starts + EdgeVisits(links, Rule(PropagatesRestartTo, TryRestart, true))
            case TryRestart => starts + EdgeVisits(links, Rule(PropagatesRestartTo, TryRestart, true))
            case Stop => EdgeVisits(links, Rule(PropagatesStopTo, Stop, true))
            case Reload => EdgeVisits(links, Rule(PropagatesReloadTo, TryReload, true))
            case TryReload => EdgeVisits(links, Rule(PropagatesReloadTo, TryReload, true))
            case Verify => []
            case TryStart => []
            case ReloadOrStart => []
            case RestartOrStart => []
  {
    var links := g[k.obj];
    FiveRules(links);
    RulesLast(links, Rules(Start), Rule(PropagatesRestartTo, TryRestart, true));
    RulesLast(links, [], Rule(PropagatesStopTo, Stop, true));
    RulesLast(links, [], Rule(PropagatesReloadTo, TryReload, true));
    hide EdgeVisits, RuleVisits;
    RulesOfOthers(k.op);
  }

  lemma RulesOfOthers(op: JobType)
    ensures op == Restart || op == TryRestart ==> Rules(op) == Rules(Start) + [Rule(PropagatesRestartTo, TryRestart, true)]
    ensures op == Stop ==> Rules(op) == [] + [Rule(PropagatesStopTo, Stop, true)]
    ensures op == Reload || op == TryReload ==> Rules(op) == [] + [Rule(PropagatesReloadTo, TryReload, true)]
    ensures op in {Verify, TryStart, ReloadOrStart, RestartOrStart} ==> Rules(op) == []
  {
  }

  /** One sweep goes along the edges in order. */
  lemma {:induction false} SweepJoins(a: seq<Link>, b: seq<Link>, r: Rule)
    ensures EdgeVisits(a + b, r) == EdgeVisits(a, r) + EdgeVisits(b, r)
    decreases |b|
  {
    if b == [] {
      assert a + b == a;
    } else {
      assert (a + b)[..|a + b| - 1] == a + b[..|b| - 1];
      SweepJoins(a, b[..|b| - 1], r);
    }
  }

  /** What a job of each type asks for, as the edges of its object have it. */
  lemma {:induction false} VisitsByType(g: Graph, k: Key, v: Visit)
    requires k.obj in g
    ensures v in Visits(g, k) <==>
            exists l :: l in g[k.obj] && l.to == v.to.obj && Demands(k.op, l.kinds, v.to.op, v.required)
  {
    VisitsInOrder(g, k);
    var links := g[k.obj];
    EdgeVisitsAreMatches(links, Rule(AddStart, Start, true), v);
    EdgeVisitsAreMatches(links, Rule(AddStartNonreq, Start, false), v);
    EdgeVisitsAreMatches(links, Rule(AddVerify, Verify, true), v);
    EdgeVisitsAreMatches(links, Rule(AddStop, Stop, true), v);
    EdgeVisitsAreMatches(links, Rule(AddStopNonreq, Stop, false), v);
    EdgeVisitsAreMatches(links, Rule(PropagatesRestartTo, TryRestart, true), v);
    EdgeVisitsAreMatches(links, Rule(PropagatesStopTo, Stop, true), v);
    EdgeVisitsAreMatches(links, Rule(PropagatesReloadTo, TryReload, true), v);
    hide EdgeVisits, Visits;
  }

  /** So what a transaction is closed under is a matter of edge kinds and job types. */
  lemma {:induction false} ClosedByType(g: Graph, goal: Key, s: set<Key>)
    ensures ClosedUnder(g, goal, s) <==>
            && goal in s
            && forall k, l, on, required {:trigger Demands(k.op, l.kinds, on, required)} ::
                 k in s && k.obj in g && l in g[k.obj] && Demands(k.op, l.kinds, on, required) ==> Key(l.to, on) in s
  {
    hide Visits, Demands;
    if ClosedUnder(g, goal, s) {
      forall k, l, on, required {:trigger Demands(k.op, l.kinds, on, required)}
        | k in s && k.obj in g && l in g[k.obj] && Demands(k.op, l.kinds, on, required)
        ensures Key(l.to, on) in s
      {
        var v := Visit(Key(l.to, on), required);
        VisitsByType(g, k, v);
        assert v in Visits(g, k);
      }
    } else if goal in s {
      var k, v :| k in s && k.obj in g && v in Visits(g, k) && v.to !in s;
      VisitsByType(g, k, v);
      var l :| l in g[k.obj] && l.to == v.to.obj && Demands(k.op, l.kinds, v.to.op, v.required);
      assert v.to == Key(l.to, v.to.op);
    }
  }

  lemma {:induction false} NoMatch(links: seq<Link>, r: Rule)
    requires forall i :: 0 <= i < |links| ==> r.kind !in links[i].kinds
    ensures EdgeVisits(links, r) == []
  {
    if links != [] {
      NoMatch(links[..|links| - 1], r);
    }
  }

  lemma {:induction false} OneLink(l: Link, r: Rule)
    ensures EdgeVisits([l], r) == if r.kind in l.kinds then [Visit(Key(l.to, r.op), r.required)] else []
  {
    assert [l][..0] == [];
  }

  lemma {:induction false} TwoLinks(l: Link, m: Link, r: Rule)
    ensures EdgeVisits([l, m], r) == EdgeVisits([l], r) + EdgeVisits([m], r)
  {
    OneLink(l, r);
    OneLink(m, r);
    assert [l, m][..1] == [l];
  }

  /** A job on an object all of whose edges have the one kind. */
  lemma {:induction false} StartVisits(links: seq<Link>, kind: EdgeType)
    requires kind == AddStart || kind == AddStartNonreq
    requires forall i :: 0 <= i < |links| ==> links[i].kinds == {kind}
    ensures RuleVisits(links, Rules(Start)) == EdgeVisits(links, Rule(kind, Start, kind == AddStart))
  {
    FiveRules(links);
    NoMatch(links, Rule(AddVerify, Verify, true));
    NoMatch(links, Rule(AddStop, Stop, true));
    NoMatch(links, Rule(AddStopNonreq, Stop, false));
    NoMatch(links, if kind == AddStart then Rule(AddStartNonreq, Start, false) else Rule(AddStart, Start, true));
  }
}
