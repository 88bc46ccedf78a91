/** What is reached by steps of one kind. */
module Chains {

  /** Each element but the last is followed by one a step away. */
  ghost predicate Chain<S(!new)>(step: (S, S) -> bool, c: seq<S>) {
    c != [] && forall i :: 0 <= i < |c| - 1 ==> step(c[i], c[i + 1])
  }

  ghost predicate Leads<S(!new)>(step: (S, S) -> bool, a: S, b: S) {
    exists c :: Chain(step, c) && c[0] == a && c[|c| - 1] == b
  }

  lemma LeadsNowhere<S(!new)>(step: (S, S) -> bool, a: S)
    ensures Leads(step, a, a)
  {
    assert Chain(step, [a]);
  }

  lemma LeadsJoin<S(!new)>(step: (S, S) -> bool, a: S, b: S, c: S)
    requires Leads(step, a, b) && Leads(step, b, c)
    ensures Leads(step, a, c)
  {
    var u :| Chain(step, u) && u[0] == a && u[|u| - 1] == b;
    var v :| Chain(step, v) && v[0] == b && v[|v| - 1] == c;
    var w := u + v[1..];
    forall i | 0 <= i < |w| - 1
      ensures step(w[i], w[i + 1])
    {
      if i >= |u| - 1 {
        assert w[i] == v[i - |u| + 1] && w[i + 1] == v[i - |u| + 2];
      }
    }
    assert Chain(step, w);
  }

  lemma OneStepLeads<S(!new)>(step: (S, S) -> bool, a: S, b: S)
    requires step(a, b)
    ensures Leads(step, a, b)
  {
    assert Chain(step, [a, b]);
  }

  lemma StepThenLeads<S(!new)>(step: (S, S) -> bool, a: S, b: S, c: S)
    requires step(a, b) && Leads(step, b, c)
    ensures Leads(step, a, c)
  {
    OneStepLeads(step, a, b);
    LeadsJoin(step, a, b, c);
  }

  lemma LeadsThenStep<S(!new)>(step: (S, S) -> bool, a: S, b: S, c: S)
    requires Leads(step, a, b) && step(b, c)
    ensures Leads(step, a, c)
  {
    OneStepLeads(step, b, c);
    LeadsJoin(step, a, b, c);
  }

  lemma LeadsAnyway<S(!new)>(step: (S, S) -> bool, more: (S, S) -> bool, a: S, b: S)
    requires Leads(step, a, b) && forall x, y :: step(x, y) ==> more(x, y)
    ensures Leads(more, a, b)
  {
    var c :| Chain(step, c) && c[0] == a && c[|c| - 1] == b;
    assert Chain(more, c);
  }

  /** What each step keeps is kept. */
  lemma {:induction false} LeadsKeeps<S(!new)>(step: (S, S) -> bool, inv: S -> bool, a: S, b: S)
    requires Leads(step, a, b) && inv(a) && forall x, y :: inv(x) && step(x, y) ==> inv(y)
    ensures inv(b)
  {
    var c :| Chain(step, c) && c[0] == a && c[|c| - 1] == b;
    for i := 0 to |c| - 1
      invariant inv(c[i])
    {
    }
  }

  /** What holds at first and not in the end is lost in some step. */
  lemma {:induction false} LostInSomeStep<S(!new)>(step: (S, S) -> bool, inv: S -> bool, a: S, b: S) returns (x: S, y: S)
    requires Leads(step, a, b) && inv(a) && !inv(b)
    ensures step(x, y) && inv(x) && !inv(y) && Leads(step, a, x) && Leads(step, y, b)
  {
    var c :| Chain(step, c) && c[0] == a && c[|c| - 1] == b;
    var i := 0;
    while inv(c[i + 1])
      invariant 0 <= i < |c| - 1 && inv(c[i])
      decreases |c| - i
    {
      i := i + 1;
    }
    x, y := c[i], c[i + 1];
    assert Chain(step, c[..i + 1]) && c[..i + 1][0] == a;
    var rest := c[i + 1..];
    forall k | 0 <= k < |rest| - 1
      ensures step(rest[k], rest[k + 1])
    {
      assert step(c[i + 1 + k], c[i + 1 + k + 1]);
    }
    assert Chain(step, rest) && rest[|rest| - 1] == b;
  }
}
