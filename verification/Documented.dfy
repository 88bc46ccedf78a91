/**
  * The construction of a transaction as the documentation has it: deletions take requiring jobs along, goal flags
  * are passed on at once, a merge stores its type and redirects the objective.  What each step keeps.
  */
module Documented {
  import opened Types
  import opened Jobs
  import opened Walks
  import opened Submission
  import opened Ordering
  import opened Plans
  import opened Cascade
  import opened Merging
  import opened MergeTheorems
  import opened GoalFlags
  import opened Cascading

  /** Flags and goal bits mean what the documentation says: needed by the objective. */
  ghost predicate Sane(g: Graph, p: Plan) {
    WellFormed(g, p) && FlagsSound(p, p.objective) && FlagsPropagated(p) && GoalBitsExact(p)
  }

  /** The last step of the chain that needs a flagged job is a goal-required requirement. */
  lemma SaneIsBacked(g: Graph, p: Plan)
    requires Sane(g, p)
    ensures FlagsBacked(p) && GoalBitsSound(p) && FlagsExact(p, p.objective)
  {
    ExactIffPropagated(g, p, p.objective);
    forall k | k in p.flagged && k != p.objective
      ensures HasGoalReq(p.req, k)
    {
      var w :| WalkFromTo(Needs(p), w, p.objective, k);
      var init := w[..|w| - 1];
      var a := w[|w| - 2];
      assert Step(Needs(p), w[|w| - 2], w[|w| - 2 + 1]);
      forall i | 0 <= i < |init| - 1
        ensures Step(Needs(p), init[i], init[i + 1])
      {
        assert Step(Needs(p), w[i], w[i + 1]);
      }
      assert WalkFromTo(Needs(p), init, p.objective, a);
      NeedStep(p, a, k);
    }
  }

  lemma TrimKeepsSane(g: Graph, p: Plan, q: Plan)
    requires Sane(g, p) && Trimmed(p, q)
    ensures Sane(g, q)
  {
    TrimIsWellFormed(g, p, q);
    DeletionKeepsExact(g, p, q, p.objective);
    assert forall id :: id in q.req ==> id in p.req && q.req[id] == p.req[id];
  }

  lemma TrimIsWellFormed(g: Graph, p: Plan, q: Plan)
    requires WellFormed(g, p) && Trimmed(p, q)
    ensures WellFormed(g, q)
  {
    SublistsKeys(p.jobs, Keys(q.jobs));
  }

  /** Deleting an object without an essential job, with what requires its jobs, is a trim. */
  lemma UnessentialCascadeTrims(g: Graph, p: Plan, o: Obj)
    requires Sane(g, p) && HasJob(p.jobs, o) && !Essential(p, o)
    ensures Trimmed(p, Cascaded(p, JobsOn(p.jobs, o)))
    ensures Keys(Cascaded(p, JobsOn(p.jobs, o)).jobs) < Keys(p.jobs)
  {
    SaneIsBacked(g, p);
    UnessentialDeletionSparesGoal(g, p, o);
    var ks := JobsOn(p.jobs, o);
    assert Key(o, p.jobs[o][0]) in ks;
    forall k | k in p.flagged
      ensures k !in ks
    {
      assert k in ks ==> k == p.objective || HasGoalReq(p.req, k);
    }
    CascadeTrims(g, p, ks);
  }

  lemma TrimShrinksAfter(g: Graph, p: Plan, q: Plan)
    requires Trimmed(p, q)
    ensures forall o :: HasJob(q.jobs, o) ==> HasJob(p.jobs, o)
    ensures forall a, b :: Step(AfterGraph(g, q.jobs), a, b) ==> Step(AfterGraph(g, p.jobs), a, b)
    ensures Acyclic(AfterGraph(g, p.jobs)) ==> Acyclic(AfterGraph(g, q.jobs))
  {
    forall o | HasJob(q.jobs, o)
      ensures HasJob(p.jobs, o)
    {
      OnlyElements(p.jobs[o], o, Keys(q.jobs));
      assert q.jobs[o][0] in q.jobs[o];
    }
    forall a, b | Step(AfterGraph(g, q.jobs), a, b)
      ensures Step(AfterGraph(g, p.jobs), a, b)
    {
      AfterStep(g, q.jobs, a, b);
      AfterStep(g, p.jobs, a, b);
    }
    if Acyclic(AfterGraph(g, p.jobs)) {
      FewerStepsStayAcyclic(AfterGraph(g, q.jobs), AfterGraph(g, p.jobs));
    }
  }

  /** Neither does trimming break a cycle of essential objects, nor does it make one. */
  lemma TrimKeepsEssentialCycles(g: Graph, p: Plan, q: Plan)
    requires Sane(g, p) && Trimmed(p, q)
    ensures EssentialCycle(g, p) <==> EssentialCycle(g, q)
  {
    TrimKeepsSane(g, p, q);
    TrimShrinksAfter(g, p, q);
    SaneIsBacked(g, p);
    SaneIsBacked(g, q);
    SameEssentialCycles(g, p, q);
    hide Trimmed, EssentialCycle;
  }

  // ---------------------------------------------------------------------------------------------------
  // From the submitted jobs to those that are left

  /** The requirements, goal bits left out. */
  function Ends(req: Reqs): Reqs {
    map id | id in req :: req[id].(goal := false)
  }

  lemma EndsOfImage(req: Reqs, f: Image)
    ensures Ends(ImageOfReqs(req, f)) == ImageOfReqs(Ends(req), f)
  {
    var l, r := Ends(ImageOfReqs(req, f)), ImageOfReqs(Ends(req), f);
    forall id
      ensures id in l <==> id in r
      ensures id in l && id in r ==> l[id] == r[id]
    {
      if id in req && Survives(req[id], f) {
        assert ImageOfReqs(req, f)[id] == Moved(req[id], f);
      }
    }
  }

  /**
    * The jobs of `p` are what is left of those of `p0`, `f` saying where each that was not deleted went: to itself
    * or into a job of the same object.  Between jobs that are left, requirements are those of `p0`, no more and no
    * fewer; a job that is left has everything it requires; flagged jobs and the objective are left.
    */
  ghost predicate Carries(p0: Plan, p: Plan, f: Image) {
    && f.Keys <= Keys(p0.jobs) && p.jobs.Keys == p0.jobs.Keys
    && (forall k :: k in f ==> f[k] in Keys(p.jobs) && f[k].obj == k.obj && (f[k].op == Stop <==> k.op == Stop))
    && (forall j :: j in Keys(p.jobs) ==> j in f && f[j] == j)
    && Ends(p.req) == ImageOfReqs(Ends(p0.req), f)
    && (forall id :: id in p0.req && p0.req[id].required && p0.req[id].from in f ==> p0.req[id].to in f)
    && (forall k :: k in p0.flagged ==> k in f && f[k] in p.flagged)
    && p0.objective in f && f[p0.objective] == p.objective
  }

  lemma CarriesSelf(g: Graph, p: Plan)
    requires Sane(g, p)
    ensures Carries(p, p, Keeping(Keys(p.jobs)))
  {
    KeepingAllIsIdentity(Ends(p.req), p.flagged, Keys(p.jobs));
  }

  lemma FlagsCarried(p0: Plan, p: Plan, q: Plan, f: Image)
    requires Carries(p0, p, f) && OnlyFlagged(p, q)
    ensures Carries(p0, q, f)
  {
    assert Ends(q.req) == Ends(p.req);
  }

  lemma TrimCarries(p0: Plan, p: Plan, q: Plan, f: Image)
    requires Carries(p0, p, f) && Trimmed(p, q) && p.objective in p.flagged
    ensures Carries(p0, q, Compose(f, Keeping(Keys(q.jobs))))
  {
    var h := Keeping(Keys(q.jobs));
    EndsOfImage(p.req, h);
    ImagesCompose(Ends(p0.req), f, h);
    forall id | id in p0.req && p0.req[id].required && p0.req[id].from in Compose(f, h)
      ensures p0.req[id].to in Compose(f, h)
    {
      RequirementCarried(p0, p, f, id);
    }
  }

  lemma RequirementCarried(p0: Plan, p: Plan, f: Image, id: ReqId)
    requires Carries(p0, p, f) && id in p0.req && p0.req[id].required && p0.req[id].from in f
    ensures p0.req[id].to in f && id in p.req && p.req[id].required
    ensures p.req[id].from == f[p0.req[id].from] && p.req[id].to == f[p0.req[id].to]
  {
    var e := Ends(p0.req);
    assert id in e && Survives(e[id], f);
    assert ImageOfReqs(e, f)[id] == Moved(e[id], f);
    assert id in Ends(p.req) && id in p.req;
    assert Ends(p.req)[id] == p.req[id].(goal := false);
  }

  // ---------------------------------------------------------------------------------------------------
  // Merging

  /** The first job of `o` merged into the second, as in the code, and the objective redirected. */
  function MergeFirst(p: Plan, o: Obj): Plan
    requires o in p.jobs && |p.jobs[o]| >= 2
  {
    var j1, j2 := Key(o, p.jobs[o][0]), Key(o, p.jobs[o][1]);
    MergeFront(p, o).(objective := if p.objective == j1 then j2 else p.objective)
  }

  /** The two first jobs of `o` are both stops or both not. */
  ghost predicate FrontAgrees(p: Plan, o: Obj) {
    && Mergeable(p) && o in p.jobs && |p.jobs[o]| >= 2
    && (p.jobs[o][0] == Stop <==> p.jobs[o][1] == Stop)
  }

  lemma FrontDiffers(p: Plan, o: Obj)
    requires FrontAgrees(p, o)
    ensures FrontMerges(p, o) && p.jobs[o][0] != p.jobs[o][1]
    ensures Key(o, p.jobs[o][0]) in Keys(p.jobs) && Key(o, p.jobs[o][1]) in Keys(p.jobs)
  {
    assert p.jobs[o][0] in p.jobs[o] && p.jobs[o][1] in p.jobs[o];
  }

  lemma FirstShape(p: Plan, o: Obj)
    requires FrontAgrees(p, o)
    ensures var q, h := MergeFirst(p, o), FrontImage(p, o);
            && q.jobs == p.jobs[o := p.jobs[o][1..]] && Keys(q.jobs) == Keys(p.jobs) - {Key(o, p.jobs[o][0])}
            && Mergeable(q) && h.Keys == Keys(p.jobs)
            && (forall k :: k in h ==> h[k] == (if k == Key(o, p.jobs[o][0]) then Key(o, p.jobs[o][1]) else k))
            && (forall k :: k in h ==> h[k] in Keys(q.jobs))
            && q.flagged == ImageOfFlags(p.flagged, h) && q.req == ImageOfReqs(p.req, h)
            && (p.objective in h ==> q.objective == h[p.objective])
  {
    FrontDiffers(p, o);
    MergeTurnShape(p, o);
    KeysAfterShortening(p.jobs, o, p.jobs[o][1..], p.jobs[o][0]);
    ImageIsMergeable(p, MergeFirst(p, o), FrontImage(p, o));
    hide Keys, ImageOfFlags, ImageOfReqs, NoDuplicates;
  }

  lemma MergeCarries(p0: Plan, p: Plan, f: Image, o: Obj)
    requires Carries(p0, p, f) && FrontAgrees(p, o)
    ensures Carries(p0, MergeFirst(p, o), Compose(f, FrontImage(p, o)))
  {
    FirstImage(p, o);
    hide *;
    CarriedObjects(p0, p, f);
    ImageCarries(p0, p, MergeFirst(p, o), f, FrontImage(p, o));
  }

  lemma FirstImage(p: Plan, o: Obj)
    requires FrontAgrees(p, o)
    ensures var q, h := MergeFirst(p, o), FrontImage(p, o);
            && h.Keys == Keys(p.jobs) && q.jobs.Keys == p.jobs.Keys
            && (forall k :: k in h ==> h[k] in Keys(q.jobs) && h[k].obj == k.obj && (h[k].op == Stop <==> k.op == Stop))
            && (forall j :: j in Keys(q.jobs) ==> j in h && h[j] == j)
            && q.flagged == ImageOfFlags(p.flagged, h) && q.req == ImageOfReqs(p.req, h)
            && (p.objective in h ==> q.objective == h[p.objective])
  {
    FirstShape(p, o);
    hide Keys, ImageOfFlags, ImageOfReqs, Mergeable, FrontImage, MergeFront;
  }

  lemma CarriedObjects(p0: Plan, p: Plan, f: Image)
    requires Carries(p0, p, f)
    ensures p.objective in Keys(p.jobs) && p.jobs.Keys == p0.jobs.Keys
  {
  }

  /** An image that merges jobs of the same object, stops with stops only. */
  lemma ImageCarries(p0: Plan, p: Plan, q: Plan, f: Image, h: Image)
    requires Carries(p0, p, f) && h.Keys == Keys(p.jobs) && q.jobs.Keys == p.jobs.Keys
    requires forall k :: k in h ==> h[k] in Keys(q.jobs) && h[k].obj == k.obj && (h[k].op == Stop <==> k.op == Stop)
    requires forall j :: j in Keys(q.jobs) ==> j in h && h[j] == j
    requires q.flagged == ImageOfFlags(p.flagged, h) && q.req == ImageOfReqs(p.req, h)
    requires p.objective in h && q.objective == h[p.objective]
    ensures Carries(p0, q, Compose(f, h))
  {
    hide Keys;
    assert Ends(q.req) == ImageOfReqs(Ends(p0.req), Compose(f, h)) by {
      EndsOfImage(p.req, h);
      ImagesCompose(Ends(p0.req), f, h);
    }
    forall k | k in p0.flagged
      ensures k in Compose(f, h) && Compose(f, h)[k] in q.flagged
    {
      assert f[k] in p.flagged && f[k] in h;
    }
    hide Ends, ImageOfReqs;
  }

  /** Merging takes each need to a need. */
  lemma {:induction false} FirstWalk(p: Plan, o: Obj, w: seq<Key>)
    requires FrontAgrees(p, o) && IsWalk(Needs(p), w) && w[0] in Keys(p.jobs)
    ensures var h := FrontImage(p, o);
            w[0] in h && w[|w| - 1] in h && Reaches(Needs(MergeFirst(p, o)), h[w[0]], h[w[|w| - 1]])
    decreases |w|
  {
    var h, q := FrontImage(p, o), MergeFirst(p, o);
    FirstShape(p, o);
    hide FrontImage, MergeFirst, Keys, NoDuplicates;
    if |w| == 1 {
      ReachesSelf(Needs(q), h[w[0]]);
    } else {
      WalkTail(Needs(p), w);
      FirstNeed(p, o, w[0], w[1]);
      FirstWalk(p, o, w[1..]);
      StepThenReaches(Needs(q), h[w[0]], h[w[1]], h[w[|w| - 1]]);
    }
  }

  lemma FirstNeed(p: Plan, o: Obj, a: Key, b: Key)
    requires FrontAgrees(p, o) && Step(Needs(p), a, b)
    ensures var h := FrontImage(p, o);
            b in Keys(p.jobs) && a in h && b in h && Step(Needs(MergeFirst(p, o)), h[a], h[b])
  {
    var h, q := FrontImage(p, o), MergeFirst(p, o);
    FirstShape(p, o);
    hide FrontImage, MergeFirst, NoDuplicates;
    NeedStep(p, a, b);
    var id :| id in p.req && p.req[id].required && p.req[id].from == a && p.req[id].to == b;
    assert id in q.req && q.req[id] == Moved(p.req[id], h);
    NeedStep(q, h[a], h[b]);
  }

  lemma MergeKeepsSound(g: Graph, p: Plan, o: Obj)
    requires Sane(g, p) && FrontAgrees(p, o)
    ensures var q := MergeFirst(p, o);
            WellFormed(g, q) && FlagsSound(q, q.objective) && GoalBitsSound(q)
  {
    var h, q := FrontImage(p, o), MergeFirst(p, o);
    FirstShape(p, o);
    forall k | k in q.flagged
      ensures Reaches(Needs(q), q.objective, k)
    {
      var j :| j in p.flagged && j in h && h[j] == k;
      var w :| WalkFromTo(Needs(p), w, p.objective, j);
      FirstWalk(p, o, w);
    }
    forall id | id in q.req && q.req[id].goal
      ensures q.req[id].required && q.req[id].from in q.flagged && q.req[id].to in q.flagged
    {
      assert id in p.req && q.req[id] == Moved(p.req[id], h);
      assert p.req[id].from in p.flagged && p.req[id].to in p.flagged;
    }
    assert p.objective in p.flagged && h[p.objective] in q.flagged;
  }

  // ---------------------------------------------------------------------------------------------------
  // Types

  /** The current type of each job: merging stores the merged type in the job that is left. */
  type Kinds = map<Key, JobType>

  /**
    * Of the jobs of an object as submitted, `live` are those not deleted, in order; the first of them have been
    * merged into the first job of `list`, whose type is the one the matrix gives along them; the others are as
    * submitted.
    */
  ghost predicate Lined(live: seq<JobType>, list: seq<JobType>, o: Obj, f: Image, types: Kinds) {
    if list == [] then
      live == []
    else
      && |list| <= |live| && live[|live| - |list|..] == list
      && (forall i :: 0 <= i <= |live| - |list| ==> Key(o, live[i]) in f && f[Key(o, live[i])] == Key(o, list[0]))
      && (forall i :: 0 < i < |list| ==> Key(o, list[i]) in f && f[Key(o, list[i])] == Key(o, list[i]))
      && (forall i :: 0 <= i < |list| ==> Key(o, list[i]) in types)
      && types[Key(o, list[0])] == MergedAlong(live[..|live| - |list| + 1])
      && (forall i :: 0 < i < |list| ==> types[Key(o, list[i])] == list[i])
  }

  /** The submitted jobs of `o` that are left. */
  function Live(p0: Plan, o: Obj, f: Image): seq<JobType>
    requires o in p0.jobs
  {
    Only(p0.jobs[o], o, f.Keys)
  }

  ghost predicate Typed(p0: Plan, p: Plan, f: Image, types: Kinds) {
    forall o :: o in p0.jobs ==> o in p.jobs && Lined(Live(p0, o, f), p.jobs[o], o, f, types)
  }

  lemma TypedSelf(p: Plan, types: Kinds)
    requires types == map k | k in Keys(p.jobs) :: k.op
    ensures Typed(p, p, Keeping(Keys(p.jobs)), types)
  {
    forall o | o in p.jobs
      ensures Lined(Live(p, o, Keeping(Keys(p.jobs))), p.jobs[o], o, Keeping(Keys(p.jobs)), types)
    {
      var list := p.jobs[o];
      OnlyAll(list, o, Keys(p.jobs));
      assert Keeping(Keys(p.jobs)).Keys == Keys(p.jobs);
      assert forall i :: 0 <= i < |list| ==> list[i] in list;
      assert list != [] ==> MergedAlong(list[..1]) == list[0];
    }
  }

  lemma {:induction false} OnlyNone(list: seq<JobType>, o: Obj, ks: set<Key>)
    requires forall t :: t in list ==> Key(o, t) !in ks
    ensures Only(list, o, ks) == []
  {
    if list != [] {
      assert list == [list[0]] + list[1..];
      OnlyNone(list[1..], o, ks);
    }
  }

  lemma {:induction false} TrimLined(live: seq<JobType>, list: seq<JobType>, o: Obj, f: Image, types: Kinds, kept: set<Key>)
    requires Lined(live, list, o, f, types)
    ensures var h := Compose(f, Keeping(kept));
            Lined(Only(live, o, h.Keys), Only(list, o, kept), o, h, types)
  {
    var h := Compose(f, Keeping(kept));
    if list != [] {
      var n := |live| - |list| + 1;
      var m, rest := live[..n], list[1..];
      LinedParts(live, list, o, f, types);
      OnlyConcat(m, rest, o, h.Keys);
      OnlyConcat([list[0]], rest, o, kept);
      OnlySame(rest, o, h.Keys, kept);
      OnlyElements(rest, o, kept);
      var left := Only(rest, o, kept);
      OnlyOne(list[0], o, kept);
      hide Lined, Only, MergedAlong;
      if Key(o, list[0]) in kept {
        OnlyAll(m, o, h.Keys);
        FrontStaysLined(m, left, list[0], o, h, types);
      } else {
        OnlyNone(m, o, h.Keys);
        SelfLined(left, o, h, types);
        assert [] + left == left;
      }
    }
  }

  lemma {:induction false} OnlyOne(t: JobType, o: Obj, ks: set<Key>)
    ensures Only([t], o, ks) == if Key(o, t) in ks then [t] else []
  {
    assert [t][1..] == [];
  }

  lemma {:induction false} LinedParts(live: seq<JobType>, list: seq<JobType>, o: Obj, f: Image, types: Kinds)
    requires Lined(live, list, o, f, types) && list != []
    ensures |list| <= |live|
    ensures var m, rest := live[..|live| - |list| + 1], list[1..];
            && live == m + rest && list == [list[0]] + rest && m != [] && m[|m| - 1] == list[0]
            && (forall t :: t in m ==> Key(o, t) in f && f[Key(o, t)] == Key(o, list[0]))
            && (forall t :: t in rest ==> Key(o, t) in f && f[Key(o, t)] == Key(o, t))
            && (forall t :: t in rest ==> Key(o, t) in types && types[Key(o, t)] == t)
            && Key(o, list[0]) in types && types[Key(o, list[0])] == MergedAlong(m)
  {
    var n := |live| - |list| + 1;
    assert live[n - 1..] == list;
    assert live == live[..n] + live[n..];
    hide MergedAlong;
  }

  /** Jobs of which none has been merged. */
  lemma SelfLined(list: seq<JobType>, o: Obj, f: Image, types: Kinds)
    requires forall t :: t in list ==> Key(o, t) in f && f[Key(o, t)] == Key(o, t)
    requires forall t :: t in list ==> Key(o, t) in types && types[Key(o, t)] == t
    ensures Lined(list, list, o, f, types)
  {
    assert list != [] ==> MergedAlong(list[..1]) == list[0];
  }

  lemma {:induction false} FrontStaysLined(m: seq<JobType>, left: seq<JobType>, front: JobType, o: Obj, h: Image, types: Kinds)
    requires m != [] && m[|m| - 1] == front && Key(o, front) in types && types[Key(o, front)] == MergedAlong(m)
    requires forall t :: t in m ==> Key(o, t) in h && h[Key(o, t)] == Key(o, front)
    requires forall t :: t in left ==> Key(o, t) in h && h[Key(o, t)] == Key(o, t)
    requires forall t :: t in left ==> Key(o, t) in types && types[Key(o, t)] == t
    ensures Lined(m + left, [front] + left, o, h, types)
  {
    hide MergedAlong;
    assert (m + left)[..|m|] == m;
    assert (m + left)[|m| - 1..] == [front] + left;
  }

  lemma TrimTyped(p0: Plan, p: Plan, q: Plan, f: Image, types: Kinds)
    requires Typed(p0, p, f, types) && Trimmed(p, q)
    ensures Typed(p0, q, Compose(f, Keeping(Keys(q.jobs))), types)
  {
    var h := Compose(f, Keeping(Keys(q.jobs)));
    forall o | o in p0.jobs
      ensures o in q.jobs && Lined(Live(p0, o, h), q.jobs[o], o, h, types)
    {
      assert f.Keys * h.Keys == h.Keys;
      OnlyTwice(p0.jobs[o], o, f.Keys, h.Keys);
      TrimLined(Live(p0, o, f), p.jobs[o], o, f, types, Keys(q.jobs));
    }
  }

  /** The merged type, stored. */
  function Stored(p: Plan, o: Obj, types: Kinds): Kinds
    requires o in p.jobs && |p.jobs[o]| >= 2
    requires Key(o, p.jobs[o][0]) in types && Key(o, p.jobs[o][1]) in types
  {
    var j1, j2 := Key(o, p.jobs[o][0]), Key(o, p.jobs[o][1]);
    var merged := MergedJobType(types[j1], types[j2]);
    if merged.Some? then types[j2 := merged.value] else types
  }

  /** The types of the first two jobs of `o` are both stop or both not, as when they were submitted. */
  lemma FrontTypes(p0: Plan, p: Plan, f: Image, types: Kinds, o: Obj)
    requires Mergeable(p0) && Carries(p0, p, f) && Typed(p0, p, f, types) && o in p.jobs && |p.jobs[o]| >= 2
    ensures Key(o, p.jobs[o][0]) in types && Key(o, p.jobs[o][1]) in types
    ensures types[Key(o, p.jobs[o][0])] == Stop <==> p.jobs[o][0] == Stop
    ensures types[Key(o, p.jobs[o][1])] == p.jobs[o][1]
    ensures MergedJobType(types[Key(o, p.jobs[o][0])], types[Key(o, p.jobs[o][1])]).None? <==>
            (p.jobs[o][0] == Stop) != (p.jobs[o][1] == Stop)
  {
    var list := p.jobs[o];
    var m := Members(p0, p, f, types, o);
    hide *;
    AlongStops(m, list[0]);
    InvalidIffOneStops(types[Key(o, list[0])], types[Key(o, list[1])]);
  }

  /** The submitted jobs that were merged into the first job of `o`, in order. */
  lemma Members(p0: Plan, p: Plan, f: Image, types: Kinds, o: Obj) returns (m: seq<JobType>)
    requires Mergeable(p0) && Carries(p0, p, f) && Typed(p0, p, f, types) && o in p.jobs && |p.jobs[o]| >= 2
    ensures m != [] && Distinct(m) && m[|m| - 1] == p.jobs[o][0]
    ensures forall t :: t in m ==> (t == Stop <==> p.jobs[o][0] == Stop)
    ensures Key(o, p.jobs[o][0]) in types && types[Key(o, p.jobs[o][0])] == MergedAlong(m)
    ensures Key(o, p.jobs[o][1]) in types && types[Key(o, p.jobs[o][1])] == p.jobs[o][1]
  {
    hide Lined, MergedAlong, Carries, Typed, Live, Mergeable;
    var list := p.jobs[o];
    CarriedLists(p0, p, f, o);
    TypedAt(p0, p, f, types, o);
    var live := Live(p0, o, f);
    LinedParts(live, list, o, f, types);
    m := live[..|live| - |list| + 1];
    assert list[1] in list[1..];
    StopsApart(p0, p, f, o, m, list[0]);
    DistinctFront(live, m, list[1..]);
  }

  lemma TypedAt(p0: Plan, p: Plan, f: Image, types: Kinds, o: Obj)
    requires Typed(p0, p, f, types) && o in p0.jobs
    ensures o in p.jobs && Lined(Live(p0, o, f), p.jobs[o], o, f, types)
  {
  }

  lemma CarriedLists(p0: Plan, p: Plan, f: Image, o: Obj)
    requires Mergeable(p0) && Carries(p0, p, f) && o in p.jobs
    ensures o in p0.jobs && Distinct(Live(p0, o, f))
  {
    OnlyElements(p0.jobs[o], o, f.Keys);
  }

  lemma DistinctFront<T>(all: seq<T>, a: seq<T>, b: seq<T>)
    requires all == a + b && Distinct(all)
    ensures Distinct(a)
  {
    assert forall i :: 0 <= i < |a| ==> a[i] == all[i];
  }

  lemma {:induction false} AlongStops(m: seq<JobType>, front: JobType)
    requires m != [] && Distinct(m) && m[|m| - 1] == front && forall t :: t in m ==> (t == Stop <==> front == Stop)
    ensures MergedAlong(m) == Stop <==> front == Stop
  {
    if front == Stop {
      assert |m| == 1 by {
        assert m[0] in m;
      }
    } else {
      AlongAvoidsStop(m);
    }
  }

  lemma StopsApart(p0: Plan, p: Plan, f: Image, o: Obj, m: seq<JobType>, front: JobType)
    requires Carries(p0, p, f) && forall t :: t in m ==> Key(o, t) in f && f[Key(o, t)] == Key(o, front)
    ensures forall t :: t in m ==> (t == Stop <==> front == Stop)
  {
  }

  lemma MergeLined(live: seq<JobType>, list: seq<JobType>, o: Obj, f: Image, h: Image, types: Kinds, merged: JobType)
    requires Lined(live, list, o, f, types) && |list| >= 2 && list[0] != list[1]
    requires MergedJobType(types[Key(o, list[0])], types[Key(o, list[1])]) == Some(merged)
    requires forall i :: 0 <= i < |list| ==> Key(o, list[i]) in h
    requires h[Key(o, list[0])] == Key(o, list[1]) && forall i :: 0 < i < |list| ==> h[Key(o, list[i])] == Key(o, list[i])
    requires forall i :: 1 < i < |list| ==> list[i] != list[1]
    ensures Lined(live, list[1..], o, Compose(f, h), types[Key(o, list[1]) := merged])
  {
    var n := |live| - |list| + 1;
    assert live[n..] == list[1..] && live[n] == list[1];
    assert live[..n + 1][..n] == live[..n];
    assert MergedAlong(live[..n + 1]) == merged;
  }

  lemma MergeTyped(p0: Plan, p: Plan, f: Image, types: Kinds, o: Obj)
    requires Mergeable(p0) && Carries(p0, p, f) && Typed(p0, p, f, types) && FrontAgrees(p, o)
    ensures Key(o, p.jobs[o][0]) in types && Key(o, p.jobs[o][1]) in types
    ensures Typed(p0, MergeFirst(p, o), Compose(f, FrontImage(p, o)), Stored(p, o, types))
  {
    hide Carries, Lined, Keys, FrontAgrees, Live, Mergeable, FrontImage, MergeFirst, Stored, MergedJobType, Compose;
    FrontAgreed(p, o);
    FrontTypes(p0, p, f, types, o);
    CarriedObjects(p0, p, f);
    forall x | x in p0.jobs
      ensures var h := Compose(f, FrontImage(p, o));
              x in MergeFirst(p, o).jobs && Lined(Live(p0, x, h), MergeFirst(p, o).jobs[x], x, h, Stored(p, o, types))
    {
      MergeTypedAt(p0, p, f, types, o, x);
    }
  }

  lemma FrontAgreed(p: Plan, o: Obj)
    requires FrontAgrees(p, o)
    ensures o in p.jobs && |p.jobs[o]| >= 2 && (p.jobs[o][0] == Stop <==> p.jobs[o][1] == Stop)
  {
  }

  lemma MergeTypedAt(p0: Plan, p: Plan, f: Image, types: Kinds, o: Obj, x: Obj)
    requires FrontAgrees(p, o) && Carries(p0, p, f) && x in p0.jobs && x in p.jobs
    requires Lined(Live(p0, x, f), p.jobs[x], x, f, types)
    requires Key(o, p.jobs[o][0]) in types && Key(o, p.jobs[o][1]) in types
    requires MergedJobType(types[Key(o, p.jobs[o][0])], types[Key(o, p.jobs[o][1])]).Some?
    ensures var h := Compose(f, FrontImage(p, o));
            x in MergeFirst(p, o).jobs && Lined(Live(p0, x, h), MergeFirst(p, o).jobs[x], x, h, Stored(p, o, types))
  {
    var h, q := FrontImage(p, o), MergeFirst(p, o);
    FirstFacts(p, o);
    CarriedSpan(p0, p, f, h);
    ListedAreKeys(p, x);
    SameLive(p0, x, f, Compose(f, h));
    var merged := MergedJobType(types[Key(o, p.jobs[o][0])], types[Key(o, p.jobs[o][1])]).value;
    hide FrontImage, MergeFirst, MergedJobType, Carries, Lined, Keys, FrontAgrees, Live;
    if x == o {
      MergeLined(Live(p0, o, f), p.jobs[o], o, f, h, types, merged);
    } else {
      OtherLined(Live(p0, x, f), p.jobs[x], x, f, h, types, Key(o, p.jobs[o][1]), merged);
    }
  }

  lemma FirstFacts(p: Plan, o: Obj)
    requires FrontAgrees(p, o)
    ensures var h, q, list := FrontImage(p, o), MergeFirst(p, o), p.jobs[o];
            && NoDuplicates(p.jobs) && h.Keys == Keys(p.jobs) && q.jobs == p.jobs[o := list[1..]]
            && list[0] != list[1]
            && (forall k :: k in h ==> h[k] == (if k == Key(o, list[0]) then Key(o, list[1]) else k))
  {
    FirstShape(p, o);
    FrontDiffers(p, o);
  }

  lemma CarriedSpan(p0: Plan, p: Plan, f: Image, h: Image)
    requires Carries(p0, p, f) && h.Keys == Keys(p.jobs)
    ensures Compose(f, h).Keys == f.Keys
  {
  }

  lemma SameLive(p0: Plan, o: Obj, f: Image, h: Image)
    requires o in p0.jobs && f.Keys == h.Keys
    ensures Live(p0, o, f) == Live(p0, o, h)
  {
  }

  lemma ListedAreKeys(p: Plan, o: Obj)
    requires NoDuplicates(p.jobs) && o in p.jobs
    ensures forall i :: 0 <= i < |p.jobs[o]| ==> Key(o, p.jobs[o][i]) in Keys(p.jobs)
    ensures Distinct(p.jobs[o])
  {
  }

  lemma OtherLined(live: seq<JobType>, list: seq<JobType>, o: Obj, f: Image, h: Image, types: Kinds, k: Key, t: JobType)
    requires Lined(live, list, o, f, types) && k.obj != o
    requires forall i :: 0 <= i < |list| ==> Key(o, list[i]) in h && h[Key(o, list[i])] == Key(o, list[i])
    ensures Lined(live, list, o, Compose(f, h), types[k := t])
  {
  }
}
