/** Finite directed graphs: walks, reachability and cycles. */
module Walks {

  type Digraph<T(==)> = map<T, set<T>>

  ghost predicate Step<T>(g: Digraph<T>, a: T, b: T) {
    a in g && b in g[a]
  }

  ghost predicate IsWalk<T>(g: Digraph<T>, w: seq<T>) {
    w != [] && forall i :: 0 <= i < |w| - 1 ==> Step(g, w[i], w[i + 1])
  }

  ghost predicate WalkFromTo<T>(g: Digraph<T>, w: seq<T>, a: T, b: T) {
    IsWalk(g, w) && w[0] == a && w[|w| - 1] == b
  }

  ghost predicate Reaches<T(!new)>(g: Digraph<T>, a: T, b: T) {
    exists w :: WalkFromTo(g, w, a, b)
  }

  ghost predicate ClosedWalk<T>(g: Digraph<T>, w: seq<T>) {
    IsWalk(g, w) && |w| >= 2 && w[0] == w[|w| - 1]
  }

  ghost predicate Acyclic<T(!new)>(g: Digraph<T>) {
    forall w :: !ClosedWalk(g, w)
  }

  ghost predicate Distinct<T>(s: seq<T>) {
    forall i, j :: 0 <= i < j < |s| ==> s[i] != s[j]
  }

  lemma ReachesSelf<T(!new)>(g: Digraph<T>, a: T)
    ensures Reaches(g, a, a)
  {
    assert WalkFromTo(g, [a], a, a);
  }

  lemma JoinWalks<T(!new)>(g: Digraph<T>, v: seq<T>, w: seq<T>)
    requires IsWalk(g, v) && IsWalk(g, w)
    requires Step(g, v[|v| - 1], w[0])
    ensures IsWalk(g, v + w)
  {
    var u := v + w;
    forall i | 0 <= i < |u| - 1
      ensures Step(g, u[i], u[i + 1])
    {
      if i < |v| - 1 {
      } else if i == |v| - 1 {
        assert u[i] == v[|v| - 1] && u[i + 1] == w[0];
      } else {
        assert u[i] == w[i - |v|] && u[i + 1] == w[i - |v| + 1];
      }
    }
  }

  lemma ReachesThroughStep<T(!new)>(g: Digraph<T>, a: T, b: T, c: T)
    requires Reaches(g, a, b) && Step(g, b, c)
    ensures Reaches(g, a, c)
  {
    var v :| WalkFromTo(g, v, a, b);
    assert IsWalk(g, [c]);
    JoinWalks(g, v, [c]);
    assert WalkFromTo(g, v + [c], a, c);
  }

  lemma StepThenReaches<T(!new)>(g: Digraph<T>, a: T, b: T, c: T)
    requires Step(g, a, b) && Reaches(g, b, c)
    ensures Reaches(g, a, c)
  {
    var w :| WalkFromTo(g, w, b, c);
    assert IsWalk(g, [a]);
    JoinWalks(g, [a], w);
    assert WalkFromTo(g, [a] + w, a, c);
  }

  lemma WalkTail<T(!new)>(g: Digraph<T>, w: seq<T>)
    requires IsWalk(g, w) && |w| > 1
    ensures Step(g, w[0], w[1]) && IsWalk(g, w[1..])
  {
    var tail := w[1..];
    assert Step(g, w[0], w[0 + 1]);
    forall i | 0 <= i < |tail| - 1
      ensures Step(g, tail[i], tail[i + 1])
    {
      assert Step(g, w[i + 1], w[i + 1 + 1]);
    }
  }

  /**
    * A walk that starts in a set where every step of `g` is a step of `h` that stays in the set is a walk of
    * `h` inside the set.
    */
  lemma {:induction false} WalkTransfers<T(!new)>(g: Digraph<T>, h: Digraph<T>, s: set<T>, w: seq<T>)
    requires IsWalk(g, w) && w[0] in s
    requires forall a, b :: a in s && Step(g, a, b) ==> b in s && Step(h, a, b)
    ensures IsWalk(h, w) && w[|w| - 1] in s
    decreases |w|
  {
    if |w| > 1 {
      WalkTail(g, w);
      WalkTransfers(g, h, s, w[1..]);
      assert IsWalk(h, [w[0]]);
      JoinWalks(h, [w[0]], w[1..]);
      assert [w[0]] + w[1..] == w;
    }
  }

  /** A set that contains the start of a walk and is closed under steps contains its end. */
  lemma ClosedSetKeepsWalk<T(!new)>(g: Digraph<T>, s: set<T>, w: seq<T>)
    requires IsWalk(g, w) && w[0] in s
    requires forall a, b :: a in s && Step(g, a, b) ==> b in s
    ensures w[|w| - 1] in s
  {
    WalkTransfers(g, g, s, w);
  }

  /** A walk of a smaller graph is a walk of any graph that has all its steps. */
  lemma WalkInLargerGraph<T(!new)>(g: Digraph<T>, h: Digraph<T>, w: seq<T>)
    requires IsWalk(g, w)
    requires forall a, b :: Step(g, a, b) ==> Step(h, a, b)
    ensures IsWalk(h, w)
  {
  }

  lemma FewerStepsStayAcyclic<T(!new)>(g: Digraph<T>, h: Digraph<T>)
    requires Acyclic(h)
    requires forall a, b :: Step(g, a, b) ==> Step(h, a, b)
    ensures Acyclic(g)
  {
    forall w | ClosedWalk(g, w)
      ensures ClosedWalk(h, w)
    {
      WalkInLargerGraph(g, h, w);
    }
  }

  function Elements<T>(s: seq<T>): set<T> {
    set x | x in s
  }

  /** A sequence without repetition is no longer than any set that contains it. */
  lemma {:induction false} DistinctFits<T>(p: seq<T>, s: set<T>)
    requires Distinct(p)
    requires forall i :: 0 <= i < |p| ==> p[i] in s
    ensures |p| <= |s|
  {
    if p != [] {
      var last := p[|p| - 1];
      var init := p[..|p| - 1];
      DistinctFits(init, s - {last});
    }
  }

  ghost predicate StepsInto<T(!new)>(g: Digraph<T>, s: set<T>, x: T) {
    exists y :: y in s && Step(g, x, y)
  }

  /** Every member of `s` has a step to a member of `s`. */
  ghost predicate Trap<T(!new)>(g: Digraph<T>, s: set<T>) {
    forall x {:trigger StepsInto(g, s, x)} :: x in s ==> StepsInto(g, s, x)
  }

  /** A graph is acyclic exactly when every set that no walk need ever leave is empty. */
  lemma AcyclicIffNoTrap<T(!new)>(g: Digraph<T>)
    ensures Acyclic(g) <==> forall s :: Trap(g, s) ==> s == {}
  {
    if Acyclic(g) {
      forall s | Trap(g, s)
        ensures s == {}
      {
        if x :| x in s {
          TrapHasCycle(g, s, [x]);
        }
      }
    } else {
      var w :| ClosedWalk(g, w);
      ClosedWalkIsTrap(g, w);
      var s := set x | x in w;
      assert w[0] in s;
      assert Trap(g, s) && s != {};
    }
  }

  lemma ClosedWalkIsTrap<T(!new)>(g: Digraph<T>, w: seq<T>)
    requires ClosedWalk(g, w)
    ensures Trap(g, set x | x in w)
  {
    var s := set x | x in w;
    forall x | x in s
      ensures StepsInto(g, s, x)
    {
      var i :| 0 <= i < |w| && w[i] == x;
      if i == |w| - 1 {
        assert Step(g, w[0], w[0 + 1]);
        assert w[1] in s;
      } else {
        assert Step(g, w[i], w[i + 1]);
        assert w[i + 1] in s;
      }
    }
  }

  /** A simple walk inside a trap can be extended until it closes on itself. */
  lemma {:induction false} TrapHasCycle<T(!new)>(g: Digraph<T>, s: set<T>, p: seq<T>)
    requires Trap(g, s)
    requires IsWalk(g, p) && Distinct(p)
    requires forall i :: 0 <= i < |p| ==> p[i] in s
    ensures !Acyclic(g)
    decreases |s| - |p|
  {
    DistinctFits(p, s);
    assert StepsInto(g, s, p[|p| - 1]);
    var y :| y in s && Step(g, p[|p| - 1], y);
    if y in p {
      var i :| 0 <= i < |p| && p[i] == y;
      BackStepCloses(g, p, i);
    } else {
      ExtendSimpleWalk(g, p, y);
      DistinctFits(p + [y], s);
      TrapHasCycle(g, s, p + [y]);
    }
  }

  lemma ExtendSimpleWalk<T(!new)>(g: Digraph<T>, p: seq<T>, y: T)
    requires IsWalk(g, p) && Distinct(p)
    requires Step(g, p[|p| - 1], y) && y !in p
    ensures IsWalk(g, p + [y]) && Distinct(p + [y])
  {
    assert IsWalk(g, [y]);
    JoinWalks(g, p, [y]);
  }

  /** A walk whose last node steps back to its i-th node contains a closed walk. */
  lemma BackStepCloses<T(!new)>(g: Digraph<T>, p: seq<T>, i: nat)
    requires IsWalk(g, p) && i < |p|
    requires Step(g, p[|p| - 1], p[i])
    ensures ClosedWalk(g, p[i..] + [p[i]])
    ensures !Acyclic(g)
  {
    var loop := p[i..];
    forall k | 0 <= k < |loop| - 1
      ensures Step(g, loop[k], loop[k + 1])
    {
      assert Step(g, p[i + k], p[i + k + 1]);
    }
    assert IsWalk(g, [p[i]]);
    JoinWalks(g, loop, [p[i]]);
    assert ClosedWalk(g, loop + [p[i]]);
  }

  /** The walk `w` ends in `p`, or at a node it has met before. */
  ghost predicate Lasso<T>(g: Digraph<T>, w: seq<T>, p: seq<T>) {
    IsWalk(g, w) && (w[|w| - 1] in p || exists i :: 0 <= i < |w| - 1 && w[i] == w[|w| - 1])
  }

  /** Some walk from `o` runs back into `p` or into itself. */
  ghost predicate Loops<T(!new)>(g: Digraph<T>, o: T, p: seq<T>) {
    exists w :: Lasso(g, w, p) && w[0] == o
  }

  /** One unfolding of `Loops`: the first node is in `p`, or a successor loops with that node added to `p`. */
  lemma LoopsUnfold<T(!new)>(g: Digraph<T>, o: T, p: seq<T>)
    requires Loops(g, o, p) && o !in p
    ensures exists s :: Step(g, o, s) && Loops(g, s, p + [o])
  {
    var w :| Lasso(g, w, p) && w[0] == o;
    assert |w| > 1;
    var tail := w[1..];
    WalkTail(g, w);
    var last := w[|w| - 1];
    assert tail[|tail| - 1] == last;
    if last !in p + [o] {
      var i :| 0 <= i < |w| - 1 && w[i] == last;
      assert tail[i - 1] == last;
    }
    assert Lasso(g, tail, p + [o]) && tail[0] == w[1];
  }

  /** An object reaches a cycle exactly when some walk from it revisits an object. */
  lemma NoLoopsIffAcyclic<T(!new)>(g: Digraph<T>)
    ensures Acyclic(g) <==> forall o :: !Loops(g, o, [])
  {
    if Acyclic(g) {
      forall o
        ensures !Loops(g, o, [])
      {
        if Loops(g, o, []) {
          LoopsGivesCycle(g, o);
        }
      }
    } else {
      var w :| ClosedWalk(g, w);
      assert Lasso(g, w, []);
      assert Loops(g, w[0], []);
    }
  }

  lemma LoopsGivesCycle<T(!new)>(g: Digraph<T>, o: T)
    requires Loops(g, o, [])
    ensures !Acyclic(g)
  {
    var w :| Lasso(g, w, []) && w[0] == o;
    var i :| 0 <= i < |w| - 1 && w[i] == w[|w| - 1];
    var p := w[..|w| - 1];
    forall k | 0 <= k < |p| - 1
      ensures Step(g, p[k], p[k + 1])
    {
      assert Step(g, w[k], w[k + 1]);
    }
    assert Step(g, w[|p| - 1], w[|p| - 1 + 1]);
    BackStepCloses(g, p, i);
  }
}
