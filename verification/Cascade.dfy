/**
  * Deletion.  The documentation has a deleted job take every job that requires it along, transitively; the
  * code deletes the job alone.  When the two agree, and when the documented cascade spares the goal.
  */
module Cascade {
  import opened Types
  import opened Jobs
  import opened Walks
  import opened Plans

  /** From each job to the jobs with a required requirement on it. */
  function Requirers(p: Plan): Digraph<Key> {
    map k | k in Keys(p.jobs) :: set id | id in p.req && p.req[id].required && p.req[id].to == k :: p.req[id].from
  }

  /** The jobs the documentation deletes along with `ks`. */
  ghost function Upward(p: Plan, ks: set<Key>): set<Key> {
    set k | k in Keys(p.jobs) && TakesAlong(p, ks, k)
  }

  ghost predicate TakesAlong(p: Plan, ks: set<Key>, k: Key) {
    exists d :: d in ks && Reaches(Requirers(p), d, k)
  }

  lemma RequirerStep(p: Plan, d: Key, k: Key)
    ensures Step(Requirers(p), d, k) <==>
            d in Keys(p.jobs)
            && exists id :: id in p.req && p.req[id].required && p.req[id].to == d && p.req[id].from == k
  {
  }

  /** No job outside `ks` has a required requirement on a job in `ks`. */
  ghost predicate NoOutsideRequirer(p: Plan, ks: set<Key>) {
    forall id :: id in p.req && p.req[id].required && p.req[id].to in ks ==> p.req[id].from in ks
  }

  /** The code deletes exactly what the documentation promises when no other job requires what it deletes. */
  lemma CodeMeetsCascadeIff(g: Graph, p: Plan, ks: set<Key>)
    requires WellFormed(g, p) && ks <= Keys(p.jobs)
    ensures Upward(p, ks) == ks <==> NoOutsideRequirer(p, ks)
  {
    var up := Requirers(p);
    forall k | k in ks
      ensures k in Upward(p, ks)
    {
      ReachesSelf(up, k);
    }
    if NoOutsideRequirer(p, ks) {
      forall a, b | a in ks && Step(up, a, b)
        ensures b in ks
      {
        RequirerStep(p, a, b);
      }
      forall k | k in Upward(p, ks)
        ensures k in ks
      {
        var d :| d in ks && Reaches(up, d, k);
        var w :| WalkFromTo(up, w, d, k);
        ClosedSetKeepsWalk(up, ks, w);
      }
    }
    if Upward(p, ks) == ks {
      forall id | id in p.req && p.req[id].required && p.req[id].to in ks
        ensures p.req[id].from in ks
      {
        RequirerInCascade(g, p, ks, id);
      }
    }
  }

  lemma RequirerInCascade(g: Graph, p: Plan, ks: set<Key>, id: ReqId)
    requires WellFormed(g, p)
    requires id in p.req && p.req[id].required && p.req[id].to in ks
    ensures p.req[id].from in Upward(p, ks)
  {
    var r := p.req[id];
    RequirerStep(p, r.to, r.from);
    ReachesSelf(Requirers(p), r.to);
    ReachesThroughStep(Requirers(p), r.to, r.to, r.from);
    assert TakesAlong(p, ks, r.from);
  }

  /** Whatever a flagged job requires is flagged. */
  ghost predicate FlagsPropagated(p: Plan) {
    forall id :: id in p.req && p.req[id].required && p.req[id].from in p.flagged ==> p.req[id].to in p.flagged
  }

  lemma CascadeSparesFlagged(p: Plan, ks: set<Key>)
    requires FlagsPropagated(p) && ks !! p.flagged
    ensures Upward(p, ks) !! p.flagged
  {
    var up := Requirers(p);
    var safe := Keys(p.jobs) - p.flagged + ks + (set id | id in p.req && p.req[id].from !in p.flagged :: p.req[id].from);
    forall a, b | a in safe && Step(up, a, b)
      ensures b in safe
    {
      RequirerStep(p, a, b);
    }
    forall k | k in Upward(p, ks)
      ensures k !in p.flagged
    {
      var d :| d in ks && Reaches(up, d, k);
      var w :| WalkFromTo(up, w, d, k);
      ClosedSetKeepsWalk(up, safe, w);
    }
  }

  /**
    * The documented cascade never reaches a goal-required job from one that is not exactly when the goal flags
    * are closed under required requirements.
    */
  lemma CascadeSparesGoalIff(g: Graph, p: Plan)
    requires WellFormed(g, p)
    ensures (forall k :: k in Keys(p.jobs) && k !in p.flagged ==> Upward(p, {k}) !! p.flagged)
            <==> FlagsPropagated(p)
  {
    if FlagsPropagated(p) {
      forall k | k in Keys(p.jobs) && k !in p.flagged
        ensures Upward(p, {k}) !! p.flagged
      {
        CascadeSparesFlagged(p, {k});
      }
    } else {
      var id :| id in p.req && p.req[id].required && p.req[id].from in p.flagged && p.req[id].to !in p.flagged;
      RequirerInCascade(g, p, {p.req[id].to}, id);
    }
  }

  /** An object without an essential job: neither the code nor the documented cascade loses a flagged job. */
  lemma UnessentialDeletionSparesGoal(g: Graph, p: Plan, o: Obj)
    requires WellFormed(g, p) && FlagsBacked(p) && FlagsPropagated(p)
    requires !Essential(p, o)
    ensures Upward(p, JobsOn(p.jobs, o)) !! p.flagged
  {
    forall k | k in JobsOn(p.jobs, o)
      ensures k !in p.flagged
    {
    }
    CascadeSparesFlagged(p, JobsOn(p.jobs, o));
  }
}
