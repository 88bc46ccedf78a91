/** Deletion as documented: a deleted job takes every job that requires it along, transitively. */
module Cascading {
  import opened Types
  import opened Jobs
  import opened Walks
  import opened Plans
  import opened Cascade

  /** The jobs of a list that are in `ks`, in order. */
  function Only(list: seq<JobType>, o: Obj, ks: set<Key>): seq<JobType> {
    if list == [] then
      []
    else
      (if Key(o, list[0]) in ks then [list[0]] else []) + Only(list[1..], o, ks)
  }

  function Sublists(jobs: Lists, ks: set<Key>): Lists {
    map o | o in jobs :: Only(jobs[o], o, ks)
  }

  /** The transaction without the jobs `ks` and whatever requires them. */
  ghost function Cascaded(p: Plan, ks: set<Key>): Plan {
    Restricted(p, Sublists(p.jobs, Keys(p.jobs) - Upward(p, ks)))
  }

  /** No flagged job is lost from `p` to `q`, and no job that is left loses one it requires. */
  ghost predicate Trimmed(p: Plan, q: Plan) {
    && q.objective == p.objective && q.flagged == p.flagged
    && p.flagged <= Keys(q.jobs) <= Keys(p.jobs)
    && q.jobs == Sublists(p.jobs, Keys(q.jobs))
    && q.req == ImageOfReqs(p.req, Keeping(Keys(q.jobs)))
    && (forall id :: id in p.req && p.req[id].required && p.req[id].from in Keys(q.jobs) ==> p.req[id].to in Keys(q.jobs))
  }

  lemma {:induction false} OnlyElements(list: seq<JobType>, o: Obj, ks: set<Key>)
    ensures forall t :: t in Only(list, o, ks) <==> t in list && Key(o, t) in ks
    ensures Distinct(list) ==> Distinct(Only(list, o, ks))
  {
    if list != [] {
      OnlyElements(list[1..], o, ks);
      assert list == [list[0]] + list[1..];
      if Distinct(list) {
        assert forall i :: 0 <= i < |list[1..]| ==> list[1..][i] == list[i + 1];
        assert list[0] !in list[1..];
      }
    }
  }

  lemma {:induction false} OnlyConcat(a: seq<JobType>, b: seq<JobType>, o: Obj, ks: set<Key>)
    ensures Only(a + b, o, ks) == Only(a, o, ks) + Only(b, o, ks)
  {
    if a == [] {
      assert a + b == b;
    } else {
      assert (a + b)[1..] == a[1..] + b;
      OnlyConcat(a[1..], b, o, ks);
    }
  }

  /** Which jobs of the list are kept is all that matters. */
  lemma {:induction false} OnlySame(list: seq<JobType>, o: Obj, a: set<Key>, b: set<Key>)
    requires forall t :: t in list ==> (Key(o, t) in a <==> Key(o, t) in b)
    ensures Only(list, o, a) == Only(list, o, b)
  {
    if list != [] {
      assert list == [list[0]] + list[1..];
      OnlySame(list[1..], o, a, b);
    }
  }

  lemma {:induction false} OnlyAll(list: seq<JobType>, o: Obj, ks: set<Key>)
    requires forall t :: t in list ==> Key(o, t) in ks
    ensures Only(list, o, ks) == list
  {
    if list != [] {
      assert list == [list[0]] + list[1..];
      OnlyAll(list[1..], o, ks);
    }
  }

  lemma {:induction false} OnlyTwice(list: seq<JobType>, o: Obj, a: set<Key>, b: set<Key>)
    ensures Only(Only(list, o, a), o, b) == Only(list, o, a * b)
  {
    if list != [] {
      OnlyTwice(list[1..], o, a, b);
      OnlyConcat(if Key(o, list[0]) in a then [list[0]] else [], Only(list[1..], o, a), o, b);
      assert Only([list[0]], o, b) == if Key(o, list[0]) in b then [list[0]] else [] by {
        assert [list[0]][1..] == [];
      }
    }
  }

  lemma SublistsKeys(jobs: Lists, ks: set<Key>)
    ensures Keys(Sublists(jobs, ks)) == Keys(jobs) * ks
    ensures Sublists(jobs, ks).Keys == jobs.Keys
    ensures NoDuplicates(jobs) ==> NoDuplicates(Sublists(jobs, ks))
  {
    forall o | o in jobs
      ensures forall t :: t in Sublists(jobs, ks)[o] <==> t in jobs[o] && Key(o, t) in ks
      ensures Distinct(jobs[o]) ==> Distinct(Sublists(jobs, ks)[o])
    {
      OnlyElements(jobs[o], o, ks);
    }
    hide Sublists;
    if NoDuplicates(jobs) {
      assert forall o :: o in jobs ==> Distinct(jobs[o]);
    }
  }

  lemma SublistsAll(jobs: Lists)
    ensures Sublists(jobs, Keys(jobs)) == jobs
  {
    forall o | o in jobs
      ensures Only(jobs[o], o, Keys(jobs)) == jobs[o]
    {
      OnlyAll(jobs[o], o, Keys(jobs));
    }
  }

  lemma SublistsTwice(jobs: Lists, a: set<Key>, b: set<Key>)
    requires b <= a
    ensures Sublists(Sublists(jobs, a), b) == Sublists(jobs, b)
  {
    assert a * b == b;
    forall o | o in jobs
      ensures Only(Only(jobs[o], o, a), o, b) == Only(jobs[o], o, b)
    {
      OnlyTwice(jobs[o], o, a, b);
    }
  }

  lemma TrimmedSelf(g: Graph, p: Plan)
    requires WellFormed(g, p)
    ensures Trimmed(p, p)
  {
    SublistsAll(p.jobs);
    KeepingAllIsIdentity(p.req, p.flagged, Keys(p.jobs));
  }

  lemma TrimmedChains(p: Plan, q: Plan, r: Plan)
    requires Trimmed(p, q) && Trimmed(q, r)
    ensures Trimmed(p, r)
  {
    SublistsTwice(p.jobs, Keys(q.jobs), Keys(r.jobs));
    ImagesCompose(p.req, Keeping(Keys(q.jobs)), Keeping(Keys(r.jobs)));
    assert Compose(Keeping(Keys(q.jobs)), Keeping(Keys(r.jobs))) == Keeping(Keys(r.jobs));
    forall id | id in p.req && p.req[id].required && p.req[id].from in Keys(r.jobs)
      ensures p.req[id].to in Keys(r.jobs)
    {
      assert p.req[id].from in Keys(q.jobs);
      StillThere(p, q, id);
    }
    hide Keys, Sublists;
  }

  lemma StillThere(p: Plan, q: Plan, id: ReqId)
    requires Trimmed(p, q) && id in p.req && p.req[id].required && p.req[id].from in Keys(q.jobs)
    ensures id in q.req && q.req[id] == p.req[id]
  {
  }

  /** The jobs left by a cascade require none that went. */
  lemma CascadeIsClosed(p: Plan, ks: set<Key>, id: ReqId)
    requires id in p.req && p.req[id].required && p.req[id].from in Keys(p.jobs) && p.req[id].to in Keys(p.jobs)
    ensures p.req[id].to in Upward(p, ks) ==> p.req[id].from in Upward(p, ks)
  {
    var r := p.req[id];
    if r.to in Upward(p, ks) {
      var d :| d in ks && Reaches(Requirers(p), d, r.to);
      RequirerStep(p, r.to, r.from);
      ReachesThroughStep(Requirers(p), d, r.to, r.from);
      assert TakesAlong(p, ks, r.from);
    }
  }

  /** With flags passed on, the cascade from unflagged jobs loses no flagged job and nothing a job left requires. */
  lemma CascadeTrims(g: Graph, p: Plan, ks: set<Key>)
    requires WellFormed(g, p) && FlagsPropagated(p) && ks <= Keys(p.jobs) && ks !! p.flagged
    ensures Trimmed(p, Cascaded(p, ks))
    ensures Keys(Cascaded(p, ks).jobs) == Keys(p.jobs) - Upward(p, ks)
    ensures ks <= Upward(p, ks)
  {
    var q := Cascaded(p, ks);
    var kept := Keys(p.jobs) - Upward(p, ks);
    SublistsKeys(p.jobs, kept);
    assert Keys(p.jobs) * kept == kept;
    CascadeSparesFlagged(p, ks);
    assert p.flagged * kept == p.flagged;
    forall k | k in ks
      ensures k in Upward(p, ks)
    {
      ReachesSelf(Requirers(p), k);
      assert TakesAlong(p, ks, k);
    }
    forall id | id in p.req && p.req[id].required && p.req[id].from in kept
      ensures p.req[id].to in kept
    {
      CascadeIsClosed(p, ks, id);
    }
  }
}
