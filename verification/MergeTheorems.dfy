/** The merging loop computes a quotient of the requirement graph that does not depend on the order of the lists. */
module MergeTheorems {
  import opened Types
  import opened Jobs
  import opened Walks
  import opened Ordering
  import opened Plans
  import opened Merging

  ghost predicate Mergeable(p: Plan) {
    && NoDuplicates(p.jobs)
    && p.flagged <= Keys(p.jobs)
    && (forall id :: id in p.req ==> p.req[id].from in Keys(p.jobs) && p.req[id].to in Keys(p.jobs))
  }

  /** `q` is `p` after one turn of the loop on `o`, with the image `f`: the outcome to come is the same. */
  ghost predicate SameOutcome(p: Plan, q: Plan, o: Obj, f: Image) {
    && o in p.jobs && o in q.jobs && q.objective == p.objective
    && q.flagged == ImageOfFlags(p.flagged, f)
    && q.req == ImageOfReqs(p.req, f)
    && Mergeable(q)
    && |q.jobs[o]| == |p.jobs[o]| - 1
    && (Conflicting(q, o) <==> Conflicting(p, o))
    && MergedLists(q, {o}) == MergedLists(p, {o})
    && MergeImage(p, {o}) == Compose(f, MergeImage(q, {o}))
  }

  lemma ImageIsMergeable(p: Plan, q: Plan, f: Image)
    requires NoDuplicates(q.jobs)
    requires q.flagged == ImageOfFlags(p.flagged, f) && q.req == ImageOfReqs(p.req, f)
    requires forall k :: k in f ==> f[k] in Keys(q.jobs)
    ensures Mergeable(q)
  {
  }

  lemma KeysAfterShortening(jobs: Lists, o: Obj, list: seq<JobType>, gone: JobType)
    requires NoDuplicates(jobs) && o in jobs && gone in jobs[o]
    requires forall i, j :: 0 <= i < j < |list| ==> list[i] != list[j]
    requires forall t :: t in list <==> t in jobs[o] && t != gone
    ensures Keys(jobs[o := list]) == Keys(jobs) - {Key(o, gone)}
    ensures NoDuplicates(jobs[o := list])
  {
  }

  lemma MergedListsAgree(p: Plan, q: Plan, o: Obj)
    requires o in p.jobs && |p.jobs[o]| >= 2 && q.jobs.Keys == p.jobs.Keys
    requires forall x :: x in p.jobs && x != o ==> q.jobs[x] == p.jobs[x]
    requires q.jobs[o] != [] && Survivor(q, o) == Survivor(p, o)
    ensures MergedLists(q, {o}) == MergedLists(p, {o})
  {
  }

  lemma ImagesAgree(p: Plan, q: Plan, o: Obj, f: Image)
    requires o in p.jobs && |p.jobs[o]| >= 2 && q.jobs.Keys == p.jobs.Keys
    requires forall x :: x in p.jobs && x != o ==> q.jobs[x] == p.jobs[x]
    requires q.jobs[o] != [] && Survivor(q, o) == Survivor(p, o)
    requires f.Keys <= Keys(p.jobs)
    requires forall k :: k in Keys(p.jobs) && k.obj != o ==> k in f && f[k] == k
    requires forall k :: k in f && k.obj == o ==> f[k] in Keys(q.jobs) && f[k].obj == o
    requires forall k :: k in Keys(p.jobs) && k.obj == o ==> (Kept(p, k) <==> k in f && Kept(q, f[k]))
    ensures MergeImage(p, {o}) == Compose(f, MergeImage(q, {o}))
  {
    hide Kept, Survivor;
    var l, h := MergeImage(p, {o}), MergeImage(q, {o});
    forall k
      ensures k in l <==> k in Compose(f, h)
      ensures k in l && k in Compose(f, h) ==> l[k] == Compose(f, h)[k]
    {
      if k in Keys(p.jobs) && k.obj != o {
        assert k in Keys(q.jobs);
      }
    }
  }

  /** The first two jobs of `o` are not stops. */
  ghost predicate FrontMerges(p: Plan, o: Obj) {
    && Mergeable(p) && o in p.jobs && |p.jobs[o]| >= 2
    && p.jobs[o][0] != Stop && p.jobs[o][1] != Stop
  }

  lemma MergeTurnFlags(p: Plan, o: Obj)
    requires FrontMerges(p, o)
    ensures var j1, j2 := Key(o, p.jobs[o][0]), Key(o, p.jobs[o][1]);
            MergeFront(p, o).flagged == if j1 in p.flagged then p.flagged - {j1} + {j2} else p.flagged
    ensures Conflicting(MergeFront(p, o), o) <==> Conflicting(p, o)
  {
    var j1, j2 := Key(o, p.jobs[o][0]), Key(o, p.jobs[o][1]);
    var q := MergeFront(p, o);
    assert q.flagged == if j1 in p.flagged then p.flagged - {j1} + {j2} else p.flagged;
    if Conflicting(p, o) {
      var t :| t != Stop && Key(o, t) in p.flagged;
      assert Key(o, if t == j1.op then j2.op else t) in q.flagged;
    }
  }

  lemma MergeTurnSurvivor(p: Plan, o: Obj)
    requires FrontMerges(p, o)
    ensures Survivor(MergeFront(p, o), o) == Survivor(p, o)
    ensures forall t :: t in p.jobs[o] && t != p.jobs[o][0] ==>
              (Kept(MergeFront(p, o), Key(o, t)) <==> Kept(p, Key(o, t)))
    ensures Kept(p, Key(o, p.jobs[o][0])) <==> Kept(p, Key(o, p.jobs[o][1]))
  {
    MergeTurnFlags(p, o);
    var list, rest := p.jobs[o], p.jobs[o][1..];
    assert list == [list[0]] + rest;
    assert Stop in list <==> Stop in rest;
    assert rest != [Stop] && list != [Stop];
  }

  function FrontImage(p: Plan, o: Obj): Image
    requires o in p.jobs && |p.jobs[o]| >= 2
  {
    Keeping(Keys(p.jobs))[Key(o, p.jobs[o][0]) := Key(o, p.jobs[o][1])]
  }

  lemma MergeTurnShape(p: Plan, o: Obj)
    requires FrontMerges(p, o)
    ensures var q := MergeFront(p, o); q.jobs == p.jobs[o := p.jobs[o][1..]] && q.objective == p.objective
    ensures NoDuplicates(MergeFront(p, o).jobs)
    ensures FrontImage(p, o).Keys == Keys(p.jobs)
    ensures forall k :: k in FrontImage(p, o) && k.obj == o ==> FrontImage(p, o)[k].obj == o
    ensures forall k :: k in FrontImage(p, o) && k.obj != o ==> FrontImage(p, o)[k] == k
    ensures forall k :: k in FrontImage(p, o) ==> FrontImage(p, o)[k] in Keys(MergeFront(p, o).jobs)
    ensures forall k :: k in Keys(p.jobs) ==>
              FrontImage(p, o)[k] == if k == Key(o, p.jobs[o][0]) then Key(o, p.jobs[o][1]) else k
    ensures MergeFront(p, o).flagged == ImageOfFlags(p.flagged, FrontImage(p, o))
    ensures MergeFront(p, o).req == ImageOfReqs(p.req, FrontImage(p, o))
  {
    var list := p.jobs[o];
    assert list[0] in list && list[1] in list;
    KeysAfterShortening(p.jobs, o, list[1..], list[0]);
  }

  lemma MergeTurnKept(p: Plan, o: Obj)
    requires FrontMerges(p, o)
    ensures forall k :: k in Keys(p.jobs) && k.obj == o ==>
              (Kept(p, k) <==> k in FrontImage(p, o) && Kept(MergeFront(p, o), FrontImage(p, o)[k]))
  {
    MergeTurnSurvivor(p, o);
    MergeTurnShape(p, o);
    hide Kept, FrontImage, MergeFront;
    assert forall k :: k in Keys(p.jobs) && k.obj == o ==> k == Key(o, k.op) && k.op in p.jobs[o];
  }

  /** Merging two jobs that are not stops. */
  lemma MergeTurn(p: Plan, o: Obj)
    requires o in p.jobs && |p.jobs[o]| >= 2 && FrontMerges(p, o)
    ensures SameOutcome(p, MergeFront(p, o), o, FrontImage(p, o))
  {
    hide *;
    var q := MergeFront(p, o);
    MergeTurnFlags(p, o);
    MergeTurnSurvivor(p, o);
    MergeTurnShape(p, o);
    MergeTurnKept(p, o);
    ImageIsMergeable(p, q, FrontImage(p, o));
    MergedListsAgree(p, q, o);
    ImagesAgree(p, q, o, FrontImage(p, o));
    AssembleOutcome(p, q, o, FrontImage(p, o));
  }

  lemma AssembleOutcome(p: Plan, q: Plan, o: Obj, f: Image)
    requires o in p.jobs && o in q.jobs && q.objective == p.objective
    requires q.flagged == ImageOfFlags(p.flagged, f) && q.req == ImageOfReqs(p.req, f)
    requires Mergeable(q) && |q.jobs[o]| == |p.jobs[o]| - 1
    requires Conflicting(q, o) <==> Conflicting(p, o)
    requires MergedLists(q, {o}) == MergedLists(p, {o})
    requires MergeImage(p, {o}) == Compose(f, MergeImage(q, {o}))
    ensures SameOutcome(p, q, o, f)
  {
  }

  lemma {:induction false} WithoutElements(list: seq<JobType>, t: JobType)
    requires forall i, j :: 0 <= i < j < |list| ==> list[i] != list[j]
    ensures forall x :: x in Without(list, t) <==> x in list && x != t
    ensures forall i, j :: 0 <= i < j < |Without(list, t)| ==> Without(list, t)[i] != Without(list, t)[j]
  {
    if list != [] && list[0] != t {
      WithoutElements(list[1..], t);
      var rest := Without(list[1..], t);
      forall j | 0 <= j < |rest|
        ensures rest[j] != list[0]
      {
        assert rest[j] in rest;
      }
    }
  }

  /** One of the first two jobs of `o` is a stop, and `t` is the one of them to delete. */
  ghost predicate FrontClashes(p: Plan, o: Obj, t: JobType) {
    && Mergeable(p) && o in p.jobs && |p.jobs[o]| >= 2
    && Stop in p.jobs[o][..2] && t in p.jobs[o][..2]
    && Key(o, t) !in p.flagged
    && (t == Stop || Key(o, Stop) in p.flagged)
  }

  lemma {:induction false} DeleteTurnKeys(p: Plan, o: Obj, t: JobType)
    requires FrontClashes(p, o, t)
    ensures |Without(p.jobs[o], t)| == |p.jobs[o]| - 1
    ensures forall x :: x in Without(p.jobs[o], t) <==> x in p.jobs[o] && x != t
    ensures Keys(DeleteJob(p, Key(o, t)).jobs) == Keys(p.jobs) - {Key(o, t)}
    ensures NoDuplicates(DeleteJob(p, Key(o, t)).jobs)
    ensures DeleteJob(p, Key(o, t)).flagged == p.flagged
  {
    WithoutOneOfTwo(p.jobs[o], t);
    WithoutElements(p.jobs[o], t);
    KeysAfterShortening(p.jobs, o, Without(p.jobs[o], t), t);
  }

  lemma DeleteTurnSurvivor(p: Plan, o: Obj, t: JobType)
    requires FrontClashes(p, o, t)
    ensures Survivor(DeleteJob(p, Key(o, t)), o) == Survivor(p, o)
    ensures forall x :: x in p.jobs[o] && x != t ==> (Kept(DeleteJob(p, Key(o, t)), Key(o, x)) <==> Kept(p, Key(o, x)))
    ensures !Kept(p, Key(o, t))
  {
    DeleteTurnKeys(p, o, t);
    WithoutOneOfTwo(p.jobs[o], t);
    var list, rest := p.jobs[o], Without(p.jobs[o], t);
    assert Stop in list;
    assert list != [Stop];
    assert StopWins(p, o) <==> Key(o, Stop) in p.flagged;
    assert StopWins(DeleteJob(p, Key(o, t)), o) <==> StopWins(p, o);
  }

  /** Deleting one of a stop and a job that is not, when not both are goal-required. */
  lemma DeleteTurn(p: Plan, o: Obj, t: JobType)
    requires FrontClashes(p, o, t)
    ensures SameOutcome(p, DeleteJob(p, Key(o, t)), o, Keeping(Keys(p.jobs) - {Key(o, t)}))
  {
    hide *;
    DeleteTurnShape(p, o, t);
    var f := Keeping(Keys(p.jobs) - {Key(o, t)});
    var q := DeleteJob(p, Key(o, t));
    DeleteTurnConflict(p, o, t);
    DeleteTurnSurvivor(p, o, t);
    ImageIsMergeable(p, q, f);
    MergedListsAgree(p, q, o);
    DeleteTurnKept(p, o, t);
    ImagesAgree(p, q, o, f);
    AssembleOutcome(p, q, o, f);
  }

  lemma DeleteTurnShape(p: Plan, o: Obj, t: JobType)
    requires FrontClashes(p, o, t)
    ensures var f, q := Keeping(Keys(p.jobs) - {Key(o, t)}), DeleteJob(p, Key(o, t));
            && o in p.jobs && |p.jobs[o]| >= 2 && q.jobs.Keys == p.jobs.Keys && q.objective == p.objective
            && NoDuplicates(q.jobs) && q.jobs[o] != [] && |q.jobs[o]| == |p.jobs[o]| - 1
            && (forall x :: x in p.jobs && x != o ==> q.jobs[x] == p.jobs[x])
            && q.flagged == ImageOfFlags(p.flagged, f) && q.req == ImageOfReqs(p.req, f)
            && f.Keys == Keys(q.jobs) && f.Keys <= Keys(p.jobs) && (forall k :: k in f ==> f[k] == k)
            && (forall k :: k in Keys(p.jobs) && k.obj != o ==> k in f)
  {
    DeleteTurnKeys(p, o, t);
    hide Without, NoDuplicates;
  }

  lemma DeleteTurnConflict(p: Plan, o: Obj, t: JobType)
    requires FrontClashes(p, o, t)
    ensures Conflicting(DeleteJob(p, Key(o, t)), o) <==> Conflicting(p, o)
  {
    DeleteTurnKeys(p, o, t);
    hide DeleteJob, Without;
  }

  lemma DeleteTurnKept(p: Plan, o: Obj, t: JobType)
    requires FrontClashes(p, o, t) && o in DeleteJob(p, Key(o, t)).jobs
    ensures var f, q := Keeping(Keys(p.jobs) - {Key(o, t)}), DeleteJob(p, Key(o, t));
            forall k :: k in Keys(p.jobs) && k.obj == o ==> (Kept(p, k) <==> k in f && Kept(q, f[k]))
  {
    DeleteTurnSurvivor(p, o, t);
    hide Kept, DeleteJob;
    assert forall k :: k in Keys(p.jobs) && k.obj == o ==> k == Key(o, k.op) && k.op in p.jobs[o];
  }

  lemma MergedOfOne(p: Plan, o: Obj)
    requires Mergeable(p) && o in p.jobs && |p.jobs[o]| <= 1
    ensures Merged(p, {o}) == p && !Conflicting(p, o)
  {
    OneIsKept(p, o);
    KeepingAllIsIdentity(p.req, p.flagged, Keys(p.jobs));
    assert forall t :: Key(o, t) in p.flagged ==> t in p.jobs[o];
    hide ImageOfReqs, ImageOfFlags, MergeImage, MergedLists, Keeping, NoDuplicates;
  }

  lemma OneIsKept(p: Plan, o: Obj)
    requires Mergeable(p) && o in p.jobs && |p.jobs[o]| <= 1
    ensures MergedLists(p, {o}) == p.jobs
    ensures MergeImage(p, {o}) == Keeping(Keys(p.jobs))
  {
    if p.jobs[o] != [] {
      assert p.jobs[o] == [p.jobs[o][0]];
    }
  }

  /**
    * Merging a group fails exactly when a goal-required stop and another goal-required job meet; otherwise it
    * leaves the survivor, into which every kept job has been merged, and nothing else.
    */
  lemma {:induction false} MergeGroupIsQuotient(p: Plan, o: Obj)
    requires Mergeable(p) && o in p.jobs
    ensures MergeGroup(p, o) == if Conflicting(p, o) then None else Some(Merged(p, {o}))
    decreases |p.jobs[o]|
  {
    var list := p.jobs[o];
    if |list| <= 1 {
      MergedOfOne(p, o);
    } else if MergedJobType(list[0], list[1]).None? {
      var victim := Victim(p.flagged, Key(o, list[0]), Key(o, list[1]));
      InvalidIffOneStops(list[0], list[1]);
      if victim.None? {
        assert Conflicting(p, o);
      } else {
        assert list[0] in list[..2] && list[1] in list[..2];
        DeleteTurn(p, o, victim.value.op);
        TurnThenQuotient(p, DeleteJob(p, victim.value), o, Keeping(Keys(p.jobs) - {victim.value}));
        MergeGroupIsQuotient(DeleteJob(p, victim.value), o);
      }
    } else {
      InvalidIffOneStops(list[0], list[1]);
      MergeTurn(p, o);
      TurnThenQuotient(p, MergeFront(p, o), o, FrontImage(p, o));
      MergeGroupIsQuotient(MergeFront(p, o), o);
    }
  }

  lemma TurnThenQuotient(p: Plan, q: Plan, o: Obj, f: Image)
    requires SameOutcome(p, q, o, f)
    ensures Merged(q, {o}) == Merged(p, {o})
  {
    ImagesCompose(p.req, f, MergeImage(q, {o}));
    FlagImagesCompose(p.flagged, f, MergeImage(q, {o}));
  }

  /** The survivor of a group is one of its kept jobs. */
  lemma SurvivorIsKept(p: Plan, o: Obj)
    requires NoDuplicates(p.jobs) && o in p.jobs && p.jobs[o] != []
    ensures Kept(p, Key(o, Survivor(p, o)))
  {
    var list := p.jobs[o];
    if |list| == 1 {
      assert list == [list[0]];
    }
  }

  lemma MergedIsMergeable(p: Plan, os: set<Obj>)
    requires Mergeable(p)
    ensures Mergeable(Merged(p, os))
  {
    var f := MergeImage(p, os);
    forall k | k in f
      ensures f[k] in Keys(MergedLists(p, os))
    {
      if k.obj in os {
        assert Survivor(p, k.obj) in MergedLists(p, os)[k.obj];
      }
    }
    hide Survivor, Kept;
    ImageIsMergeable(p, Merged(p, os), f);
  }

  /** Other groups see nothing of a merged group. */
  lemma GroupUntouched(p: Plan, os: set<Obj>, o: Obj)
    requires Mergeable(p) && o in p.jobs && o !in os
    ensures Merged(p, os).jobs[o] == p.jobs[o]
    ensures forall t :: Key(o, t) in Merged(p, os).flagged <==> Key(o, t) in p.flagged
    ensures Conflicting(Merged(p, os), o) <==> Conflicting(p, o)
    ensures p.jobs[o] == [] || Survivor(Merged(p, os), o) == Survivor(p, o)
    ensures forall k: Key :: k.obj == o ==> (Kept(Merged(p, os), k) <==> Kept(p, k))
  {
    forall t
      ensures Key(o, t) in Merged(p, os).flagged <==> Key(o, t) in p.flagged
    {
      if Key(o, t) in p.flagged {
        assert MergeImage(p, os)[Key(o, t)] == Key(o, t);
      }
    }
  }

  lemma MergeOneMore(p: Plan, os: set<Obj>, o: Obj)
    requires Mergeable(p) && o in p.jobs && o !in os
    ensures Merged(Merged(p, os), {o}) == Merged(p, os + {o})
  {
    var q := Merged(p, os);
    var f, h := MergeImage(p, os), MergeImage(q, {o});
    GroupUntouched(p, os, o);
    ImagesCompose(p.req, f, h);
    FlagImagesCompose(p.flagged, f, h);
    ComposedImage(p, os, o);
    assert MergedLists(q, {o}) == MergedLists(p, os + {o});
  }

  lemma ComposedImage(p: Plan, os: set<Obj>, o: Obj)
    requires Mergeable(p) && o in p.jobs && o !in os
    ensures Compose(MergeImage(p, os), MergeImage(Merged(p, os), {o})) == MergeImage(p, os + {o})
  {
    var q := Merged(p, os);
    var f, h := MergeImage(p, os), MergeImage(q, {o});
    GroupUntouched(p, os, o);
    forall k | k in f
      ensures f[k] in Keys(q.jobs)
    {
      MergedContainsImage(p, os, k);
    }
    assert q.jobs.Keys == p.jobs.Keys;
    hide Survivor, Kept, Merged, Mergeable, Conflicting;
    forall k
      ensures k in Compose(f, h) <==> k in MergeImage(p, os + {o})
      ensures k in Compose(f, h) ==> Compose(f, h)[k] == MergeImage(p, os + {o})[k]
    {
    }
  }

  lemma MergedContainsImage(p: Plan, os: set<Obj>, k: Key)
    requires k in MergeImage(p, os)
    ensures MergeImage(p, os)[k] in Keys(Merged(p, os).jobs)
  {
    if k.obj in os {
      assert Survivor(p, k.obj) in MergedLists(p, os)[k.obj];
    }
  }

  /** One object of the order: the merge fails there, or goes on with that object merged. */
  lemma {:induction false} MergeNext(p: Plan, os: set<Obj>, order: seq<Obj>)
    requires Mergeable(p) && order != []
    requires forall o :: o in order ==> o in p.jobs
    requires order[0] !in os
    ensures MergeAll(Merged(p, os), order)
         == if Conflicting(p, order[0]) then None else MergeAll(Merged(p, os + {order[0]}), order[1..])
  {
    var o := order[0];
    MergedIsMergeable(p, os);
    GroupUntouched(p, os, o);
    MergeGroupIsQuotient(Merged(p, os), o);
    MergeOneMore(p, os, o);
    if |p.jobs[o]| <= 1 {
      MergedOfOne(Merged(p, os), o);
    }
    hide Conflicting, Merged, Mergeable, MergeGroup;
  }

  lemma {:induction false} MergeRest(p: Plan, os: set<Obj>, order: seq<Obj>)
    requires Mergeable(p) && Distinct(order)
    requires forall o :: o in order ==> o in p.jobs && o !in os
    ensures MergeAll(Merged(p, os), order)
         == if exists o :: o in order && Conflicting(p, o) then None else Some(Merged(p, os + Elements(order)))
    decreases |order|
  {
    hide Mergeable, Conflicting, Merged, MergeGroup;
    if order == [] {
      assert os + Elements(order) == os;
    } else {
      var o, rest := order[0], order[1..];
      assert order == [o] + rest;
      MergeNext(p, os, order);
      assert o in order;
      if !Conflicting(p, o) {
        hide MergeAll;
        MergeRest(p, os + {o}, rest);
        assert os + {o} + Elements(rest) == os + Elements(order);
      }
    }
  }

  /**
    * Merging all groups, in whatever order, fails exactly when some object has a goal-required stop and another
    * goal-required job; otherwise it is the quotient that sends each kept job to its object's survivor.
    */
  lemma {:induction false} MergeAllIsQuotient(p: Plan, order: seq<Obj>)
    requires Mergeable(p) && Distinct(order)
    requires forall o :: o in order <==> o in p.jobs
    ensures MergeAll(p, order)
         == if exists o :: o in p.jobs && Conflicting(p, o) then None else Some(Merged(p, p.jobs.Keys))
  {
    NothingMerged(p);
    MergeRest(p, {}, order);
    assert {} + Elements(order) == p.jobs.Keys;
  }

  /**
    * What that quotient holds: exactly the requirements both whose ends are kept, each between its ends' survivors and
    * otherwise as it was.
    */
  lemma MergedRequirements(p: Plan, id: ReqId)
    requires Mergeable(p)
    ensures var q := Merged(p, p.jobs.Keys);
            && (id in q.req <==> id in p.req && Kept(p, p.req[id].from) && Kept(p, p.req[id].to))
            && (id in q.req ==>
                  var r, now := p.req[id], q.req[id];
                  && p.jobs[r.from.obj] != [] && p.jobs[r.to.obj] != []
                  && now.from == Key(r.from.obj, Survivor(p, r.from.obj)) && now.to == Key(r.to.obj, Survivor(p, r.to.obj))
                  && now.required == r.required && now.goal == r.goal)
  {
    hide Survivor, Kept;
    if id in p.req {
      assert p.req[id].from in Keys(p.jobs) && p.req[id].to in Keys(p.jobs);
      KeptIsKey(p, p.req[id].from);
      KeptIsKey(p, p.req[id].to);
    }
  }

  lemma KeptIsKey(p: Plan, k: Key)
    requires k.obj in p.jobs
    ensures Kept(p, k) ==> k in Keys(p.jobs) && p.jobs[k.obj] != []
  {
  }

  lemma NothingMerged(p: Plan)
    requires Mergeable(p)
    ensures Merged(p, {}) == p
  {
    assert MergeImage(p, {}) == Keeping(Keys(p.jobs));
    assert MergedLists(p, {}) == p.jobs;
    KeepingAllIsIdentity(p.req, p.flagged, Keys(p.jobs));
  }

  /** Every object with jobs is left with one, which is flagged exactly when one of its jobs was. */
  lemma OneJobLeft(p: Plan, o: Obj)
    requires Mergeable(p) && o in p.jobs && !Conflicting(p, o)
    ensures var q := Merged(p, p.jobs.Keys);
            && |q.jobs[o]| == (if p.jobs[o] == [] then 0 else 1)
            && (p.jobs[o] != [] ==> (Key(o, q.jobs[o][0]) in q.flagged <==> exists t :: Key(o, t) in p.flagged))
  {
    var q := Merged(p, p.jobs.Keys);
    var f := MergeImage(p, p.jobs.Keys);
    if p.jobs[o] != [] {
      forall t | Key(o, t) in p.flagged
        ensures Key(o, Survivor(p, o)) in q.flagged
      {
        FlaggedIsKept(p, Key(o, t));
        assert f[Key(o, t)] == Key(o, Survivor(p, o));
      }
    }
  }

  /** No goal-required job is deleted by merging. */
  lemma FlaggedIsKept(p: Plan, k: Key)
    requires Mergeable(p) && k in p.flagged && !Conflicting(p, k.obj)
    ensures k.obj in p.jobs && Kept(p, k)
  {
    var list := p.jobs[k.obj];
    assert k.op in list;
  }

  /** A stop mixed with other jobs survives exactly when it is goal-required; whatever the order of the list. */
  lemma StopSurvivesIffFlagged(p: Plan, o: Obj)
    requires Mergeable(p) && o in p.jobs && !Conflicting(p, o)
    requires Stop in p.jobs[o] && exists t :: t != Stop && t in p.jobs[o]
    ensures Merged(p, p.jobs.Keys).jobs[o] == [Stop] <==> Key(o, Stop) in p.flagged
  {
    SurvivorIsKept(p, o);
    var t :| t != Stop && t in p.jobs[o];
    assert p.jobs[o] != [Stop];
  }

  /** What is kept depends on which jobs a group has, not on their order. */
  lemma {:induction false} OrderDoesNotMatter(p: Plan, q: Plan, o: Obj)
    requires Mergeable(p) && Mergeable(q) && o in p.jobs && o in q.jobs
    requires p.flagged == q.flagged && forall t :: t in p.jobs[o] <==> t in q.jobs[o]
    ensures MergeGroup(p, o).None? <==> MergeGroup(q, o).None?
    ensures forall t :: Kept(p, Key(o, t)) <==> Kept(q, Key(o, t))
  {
    MergeGroupIsQuotient(p, o);
    MergeGroupIsQuotient(q, o);
    SameElementsStop(p.jobs[o], q.jobs[o]);
  }

  lemma SameElementsStop(a: seq<JobType>, b: seq<JobType>)
    requires Distinct(a) && Distinct(b)
    requires forall t :: t in a <==> t in b
    ensures a == [Stop] <==> b == [Stop]
  {
    if a == [Stop] {
      OnlyStop(b);
    }
    if b == [Stop] {
      OnlyStop(a);
    }
  }

  lemma OnlyStop(b: seq<JobType>)
    requires Distinct(b) && Stop in b
    requires forall t :: t in b ==> t == Stop
    ensures b == [Stop]
  {
    forall i | 0 <= i < |b|
      ensures b[i] == Stop
    {
      assert b[i] in b;
    }
    DistinctFits(b, {Stop});
  }

  /** Merging leaves the After graph, and so its cycles, as they were. */
  lemma MergingKeepsAfterGraph(g: Graph, p: Plan)
    requires Mergeable(p)
    ensures AfterGraph(g, Merged(p, p.jobs.Keys).jobs) == AfterGraph(g, p.jobs)
  {
    var jobs := Merged(p, p.jobs.Keys).jobs;
    assert forall o :: HasJob(jobs, o) <==> HasJob(p.jobs, o);
    assert forall o :: o in g && HasJob(p.jobs, o) ==> AfterGraph(g, jobs)[o] == AfterGraph(g, p.jobs)[o];
  }

  /**
    * The merged type is computed and dropped: of a restart and a start job, in this order, a start job is left
    * although the matrix says restart.
    */
  lemma {:induction false} MergedTypeIsLost(p: Plan, o: Obj)
    requires Mergeable(p) && o in p.jobs && p.jobs[o] == [Restart, Start]
    ensures MergedJobType(Restart, Start) == Some(Restart)
    ensures MergeGroup(p, o).Some? && o in MergeGroup(p, o).value.jobs
    ensures MergeGroup(p, o).value.jobs[o] == [Start]
  {
    MergeGroupIsQuotient(p, o);
    assert Stop !in p.jobs[o];
  }

  /** The type the documentation asks for: the matrix applied along the jobs that are not stops. */
  function MergedAlong(list: seq<JobType>): JobType
    requires list != []
  {
    if |list| == 1 then list[0]
    else
      var m := MergedJobType(MergedAlong(list[..|list| - 1]), list[|list| - 1]);
      if m.Some? then m.value else Stop
  }

  /** The objective is not redirected: its job is still there exactly when its object's jobs merge into it. */
  lemma ObjectiveStaysIff(p: Plan)
    requires Mergeable(p) && p.objective in Keys(p.jobs)
    ensures p.objective in Keys(Merged(p, p.jobs.Keys).jobs) <==> Survivor(p, p.objective.obj) == p.objective.op
  {
    var o := p.objective.obj;
    var list := Merged(p, p.jobs.Keys).jobs[o];
    assert p.jobs[o] != [] && list == [Survivor(p, o)];
  }

  lemma {:induction false} AlongAvoidsStop(list: seq<JobType>)
    requires list != [] && Stop !in list
    ensures MergedAlong(list) != Stop
  {
    if |list| > 1 {
      var init, last := list[..|list| - 1], list[|list| - 1];
      assert forall t :: t in init ==> t in list;
      AlongAvoidsStop(init);
      InvalidIffOneStops(MergedAlong(init), last);
    }
  }
}
