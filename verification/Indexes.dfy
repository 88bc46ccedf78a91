/** How the two requirement indexes follow a requirement being added, dropped or redirected. */
module Indexes {
  import opened Jobs

  lemma IndexInsert(live: set<Key>, req: Reqs, reqs: Index, reqsOn: Index, id: ReqId, r: Req)
    requires Indexed(live, req, reqs, reqsOn)
    requires id !in req && r.from in live && r.to in live
    ensures Indexed(live, req[id := r], reqs[r.from := reqs[r.from] + {id}], reqsOn[r.to := reqsOn[r.to] + {id}])
  {
  }

  lemma IndexRemove(live: set<Key>, req: Reqs, reqs: Index, reqsOn: Index, id: ReqId)
    requires Indexed(live, req, reqs, reqsOn) && id in req
    ensures var r := req[id];
            Indexed(live, req - {id}, reqs[r.from := reqs[r.from] - {id}], reqsOn[r.to := reqsOn[r.to] - {id}])
  {
  }

  lemma IndexGrows(live: set<Key>, k: Key, req: Reqs, reqs: Index, reqsOn: Index)
    requires Indexed(live, req, reqs, reqsOn) && k !in live
    ensures Indexed(live + {k}, req, reqs[k := {}], reqsOn[k := {}])
  {
  }

  lemma IndexShrinks(live: set<Key>, k: Key, req: Reqs, reqs: Index, reqsOn: Index)
    requires Indexed(live, req, reqs, reqsOn) && k in live && reqs[k] == {} && reqsOn[k] == {}
    ensures Indexed(live - {k}, req, reqs - {k}, reqsOn - {k})
  {
  }

  /** Some requirements of `before` are gone from `after`, all of them with an end at `k`. */
  ghost predicate OnlyAround(before: Reqs, after: Reqs, k: Key) {
    && (forall id :: id in after ==> id in before && after[id] == before[id])
    && (forall id :: id in before && id !in after ==> before[id].from == k || before[id].to == k)
  }

  lemma AllAroundGone(live: set<Key>, before: Reqs, after: Reqs, reqs: Index, reqsOn: Index, k: Key)
    requires Indexed(live, after, reqs, reqsOn) && k in live && reqs[k] == {} && reqsOn[k] == {}
    requires OnlyAround(before, after, k)
    requires forall id :: id in before ==> before[id].from in live && before[id].to in live
    ensures after == ImageOfReqs(before, Keeping(live - {k}))
  {
    assert forall id :: id in after ==> id !in reqs[k] && id !in reqsOn[k];
    assert forall id :: id in after ==> after[id].from != k && after[id].to != k;
    hide Indexed;
    var image := ImageOfReqs(before, Keeping(live - {k}));
    forall id
      ensures id in after <==> id in image
      ensures id in after && id in image ==> after[id] == image[id]
    {
    }
  }

  /** What the index says of one requirement on `k`, and of one of `k`. */
  lemma IndexEntry(live: set<Key>, req: Reqs, reqs: Index, reqsOn: Index, k: Key, id: ReqId)
    requires Indexed(live, req, reqs, reqsOn) && k in live
    requires id in reqs[k] || id in reqsOn[k]
    ensures id in req && req[id].from in live && req[id].to in live
    ensures id in reqs[req[id].from] && id in reqsOn[req[id].to]
    ensures id in reqs[k] ==> req[id].from == k
    ensures id in reqsOn[k] ==> req[id].to == k
  {
  }

  lemma OnlyAroundLoses(before: Reqs, after: Reqs, k: Key, id: ReqId)
    requires OnlyAround(before, after, k) && id in after && (after[id].from == k || after[id].to == k)
    ensures OnlyAround(before, after - {id}, k)
  {
  }

  /** Keeping fewer and fewer jobs. */
  lemma KeepingTwice(req: Reqs, a: set<Key>, b: set<Key>)
    requires b <= a
    ensures ImageOfReqs(ImageOfReqs(req, Keeping(a)), Keeping(b)) == ImageOfReqs(req, Keeping(b))
  {
    ImagesCompose(req, Keeping(a), Keeping(b));
    assert Compose(Keeping(a), Keeping(b)) == Keeping(b);
  }

  /** The requirements once those in `froms` come from `into` and those in `tos` go to it. */
  function Redirected(req: Reqs, into: Key, froms: set<ReqId>, tos: set<ReqId>): Reqs {
    map id | id in req ::
      Req(if id in froms then into else req[id].from, if id in tos then into else req[id].to,
          req[id].required, req[id].goal)
  }

  lemma NothingRedirected(req: Reqs, into: Key)
    ensures Redirected(req, into, {}, {}) == req
  {
  }

  lemma FromRedirected(req: Reqs, into: Key, all: set<ReqId>, todo: set<ReqId>, id: ReqId)
    requires id in req && id in todo && todo <= all
    ensures var before := Redirected(req, into, all - todo, {});
            && id in before
            && before[id := before[id].(from := into)] == Redirected(req, into, all - (todo - {id}), {})
  {
  }

  lemma ToRedirected(req: Reqs, into: Key, froms: set<ReqId>, all: set<ReqId>, todo: set<ReqId>, id: ReqId)
    requires id in req && id in todo && todo <= all
    ensures var before := Redirected(req, into, froms, all - todo);
            && id in before
            && before[id := before[id].(to := into)] == Redirected(req, into, froms, all - (todo - {id}))
  {
  }

  lemma RedirectedIsImage(live: set<Key>, req: Reqs, reqs: Index, reqsOn: Index, job: Key, into: Key)
    requires Indexed(live, req, reqs, reqsOn) && job in live && into in live && job != into
    ensures Redirected(req, into, reqs[job], reqsOn[job]) == ImageOfReqs(req, Keeping(live)[job := into])
  {
    var l, r := Redirected(req, into, reqs[job], reqsOn[job]), ImageOfReqs(req, Keeping(live)[job := into]);
    hide Indexed, Redirected, ImageOfReqs;
    forall id
      ensures id in l <==> id in r
      ensures id in l && id in r ==> l[id] == r[id]
    {
      RedirectedAt(live, req, reqs, reqsOn, job, into, id);
    }
  }

  lemma RedirectedAt(live: set<Key>, req: Reqs, reqs: Index, reqsOn: Index, job: Key, into: Key, id: ReqId)
    requires Indexed(live, req, reqs, reqsOn) && job in live && into in live && job != into
    ensures var l, r := Redirected(req, into, reqs[job], reqsOn[job]), ImageOfReqs(req, Keeping(live)[job := into]);
            (id in l <==> id in r) && (id in l && id in r ==> l[id] == r[id])
  {
    if id in req {
      assert id in reqs[job] <==> req[id].from == job;
      assert id in reqsOn[job] <==> req[id].to == job;
      assert req[id].from in live && req[id].to in live;
    }
    hide Indexed;
  }

  lemma IndexRedirect(live: set<Key>, req: Reqs, reqs: Index, reqsOn: Index, job: Key, into: Key)
    requires Indexed(live, req, reqs, reqsOn) && job in live && into in live && job != into
    ensures Indexed(live, Redirected(req, into, reqs[job], reqsOn[job]),
                    reqs[into := reqs[into] + reqs[job]][job := {}],
                    reqsOn[into := reqsOn[into] + reqsOn[job]][job := {}])
  {
    var after := Redirected(req, into, reqs[job], reqsOn[job]);
    assert reqs.Keys == live && reqsOn.Keys == live;
    RedirectEnds(live, req, reqs, reqsOn, job, into);
    forall k, id | k in live
      ensures id in reqs[into := reqs[into] + reqs[job]][job := {}][k] <==> id in after && after[id].from == k
      ensures id in reqsOn[into := reqsOn[into] + reqsOn[job]][job := {}][k] <==> id in after && after[id].to == k
    {
      RedirectEntry(live, req, reqs, reqsOn, job, into, k, id);
    }
    hide Redirected;
  }

  lemma RedirectEnds(live: set<Key>, req: Reqs, reqs: Index, reqsOn: Index, job: Key, into: Key)
    requires Indexed(live, req, reqs, reqsOn) && job in live && into in live
    ensures var after := Redirected(req, into, reqs[job], reqsOn[job]);
            forall id :: id in after ==> after[id].from in live && after[id].to in live
  {
  }

  lemma RedirectEntry(live: set<Key>, req: Reqs, reqs: Index, reqsOn: Index, job: Key, into: Key, k: Key, id: ReqId)
    requires Indexed(live, req, reqs, reqsOn) && job in live && into in live && job != into && k in live
    ensures var after := Redirected(req, into, reqs[job], reqsOn[job]);
            && (id in reqs[into := reqs[into] + reqs[job]][job := {}][k] <==> id in after && after[id].from == k)
            && (id in reqsOn[into := reqsOn[into] + reqsOn[job]][job := {}][k] <==> id in after && after[id].to == k)
  {
    assert id in reqs[job] <==> id in req && req[id].from == job;
    assert id in reqs[into] <==> id in req && req[id].from == into;
    assert id in reqs[k] <==> id in req && req[id].from == k;
    assert id in reqsOn[job] <==> id in req && req[id].to == job;
    assert id in reqsOn[into] <==> id in req && req[id].to == into;
    assert id in reqsOn[k] <==> id in req && req[id].to == k;
    hide Indexed;
  }
}
