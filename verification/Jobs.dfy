/**
  * Jobs, requirements and the two ways a transaction's requirement graph is rewired:
  * deleting a job and merging one job into another.  Both are images of the graph under a partial map.
  */
module Jobs {
  import opened Types

  /**
    * A job.  While a transaction is generated neither the object nor the type of a job changes and no two
    * jobs share both, so the pair stands for the job's address.
    */
  datatype Key = Key(obj: Obj, op: JobType)

  /** The address of a requirement: the n-th one allocated by the job that made it. */
  datatype ReqId = ReqId(maker: Key, nth: nat)

  datatype Req = Req(from: Key, to: Key, required: bool, goal: bool)

  /** The job list of every object, front first. */
  type Lists = map<Obj, seq<JobType>>

  type Reqs = map<ReqId, Req>

  type Index = map<Key, set<ReqId>>

  function Keys(jobs: Lists): set<Key> {
    set o, t | o in jobs && t in jobs[o] :: Key(o, t)
  }

  /** No list holds a type twice. */
  ghost predicate NoDuplicates(jobs: Lists) {
    forall o, i, j :: o in jobs && 0 <= i < j < |jobs[o]| ==> jobs[o][i] != jobs[o][j]
  }

  /**
    * The two indexes agree with the requirements: a requirement is in the `reqs` of its `from` job and of no
    * other, in the `reqsOn` of its `to` job and of no other, and both ends are live jobs.
    */
  ghost predicate Indexed(live: set<Key>, req: Reqs, reqs: Index, reqsOn: Index) {
    && reqs.Keys == live
    && reqsOn.Keys == live
    && (forall id :: id in req ==> req[id].from in live && req[id].to in live)
    && (forall k, id :: k in live ==> (id in reqs[k] <==> id in req && req[id].from == k))
    && (forall k, id :: k in live ==> (id in reqsOn[k] <==> id in req && req[id].to == k))
  }

  /** Where each job goes: to itself, into another job, or (not in the domain) out of the transaction. */
  type Image = map<Key, Key>

  function Keeping(ks: set<Key>): Image {
    map k | k in ks :: k
  }

  /** Both ends of the requirement survive. */
  predicate Survives(r: Req, f: Image) {
    r.from in f && r.to in f
  }

  function Moved(r: Req, f: Image): Req
    requires Survives(r, f)
  {
    Req(f[r.from], f[r.to], r.required, r.goal)
  }

  function ImageOfReqs(req: Reqs, f: Image): Reqs {
    map id | id in req && Survives(req[id], f) :: Moved(req[id], f)
  }

  function ImageOfFlags(flagged: set<Key>, f: Image): set<Key> {
    set k | k in flagged && k in f :: f[k]
  }

  function Compose(f: Image, g: Image): Image {
    map k | k in f && f[k] in g :: g[f[k]]
  }

  /** Deleting and merging one after the other is one image under the composed map. */
  lemma ImagesCompose(req: Reqs, f: Image, g: Image)
    ensures ImageOfReqs(ImageOfReqs(req, f), g) == ImageOfReqs(req, Compose(f, g))
  {
    var once := ImageOfReqs(req, f);
    var l, r := ImageOfReqs(once, g), ImageOfReqs(req, Compose(f, g));
    forall id
      ensures id in l <==> id in r
      ensures id in l && id in r ==> l[id] == r[id]
    {
      if id in req && Survives(req[id], f) {
        assert once[id] == Moved(req[id], f);
      }
    }
  }

  lemma FlagImagesCompose(flagged: set<Key>, f: Image, g: Image)
    ensures ImageOfFlags(ImageOfFlags(flagged, f), g) == ImageOfFlags(flagged, Compose(f, g))
  {
    var h := Compose(f, g);
    var once := ImageOfFlags(flagged, f);
    forall i | i in flagged && i in h
      ensures h[i] in ImageOfFlags(once, g)
    {
      assert f[i] in once;
    }
  }

  /** Keeping every end of every requirement changes nothing. */
  lemma KeepingAllIsIdentity(req: Reqs, flagged: set<Key>, ks: set<Key>)
    requires flagged <= ks
    requires forall id :: id in req ==> req[id].from in ks && req[id].to in ks
    ensures ImageOfReqs(req, Keeping(ks)) == req
    ensures ImageOfFlags(flagged, Keeping(ks)) == flagged
  {
  }
}
