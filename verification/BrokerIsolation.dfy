/** Non-interference: although instances and bindings share one hash and every binding
    fetch writes into the configuration, what the broker stores and answers for one
    instance id does not depend on requests about other ids or about bindings. */
module BrokerIsolation {
  import opened JsonValues
  import opened BrokerModel

  /** The request is about instance `id`. */
  predicate Addresses(r: Request, id: string) {
    match r
    case Provision(i, _, _) => i == id
    case Poll(i) => i == id
    case Update(i, _, _) => i == id
    case Deprovision(i, _) => i == id
    case FetchInstance(i) => i == id
    case _ => false
  }

  /** What is kept of a run when everything but `id` is erased. */
  predicate Kept(r: Request, id: string) {
    Addresses(r, id) || r.PostConfig? || r.Reset?
  }

  /** The request stores or removes no binding under `id`. */
  predicate SparesId(r: Request, id: string) {
    match r
    case Bind(_, b, _, _) => b != id
    case Unbind(_, b, _) => b != id
    case _ => true
  }

  /** The request removes what is stored under `id`, or puts a new binding there. */
  predicate Disturbs(d: Data, r: Request, id: string) {
    match r
    case Bind(i, b, body, _) => b == id && !(id in d.entries && d.entries[id] == Binding(body, i))
    case Unbind(_, b, _) => b == id && id in d.entries
    case _ => false
  }

  function KeepOnly(rs: seq<Request>, id: string): seq<Request> {
    if rs == [] then []
    else
      var before := KeepOnly(rs[..|rs| - 1], id);
      if Kept(rs[|rs| - 1], id) then before + [rs[|rs| - 1]] else before
  }

  /** The answers a run gives to the requests about `id`, in order. */
  function AnswersFor(file: Data, d: Data, rs: seq<Request>, id: string): seq<Reply> {
    if rs == [] then []
    else
      var before := AnswersFor(file, d, rs[..|rs| - 1], id);
      if Addresses(rs[|rs| - 1], id) then before + [ReplyAt(file, d, rs, |rs| - 1)] else before
  }

  /** The configuration without the table that binding fetches write to. */
  function Scrub(config: Fields): Fields {
    if Get(config, "behaviors").Obj? then
      config["behaviors" := Obj(Get(config, "behaviors").fields - {FETCH_BINDING})]
    else config
  }

  /** Everything that can matter to requests about `id`. */
  function View(d: Data, id: string): (Fields, Option<Entry>) {
    (Scrub(d.config), if id in d.entries then Some(d.entries[id]) else None)
  }

  lemma ScrubFacts(c: Fields, e: Fields)
    requires Scrub(c) == Scrub(e)
    ensures forall k :: k != "behaviors" ==> (k in c <==> k in e) && Get(c, k) == Get(e, k)
    ensures Get(c, "behaviors").Obj? && Get(e, "behaviors").Obj?
      ==> Get(c, "behaviors").fields - {FETCH_BINDING} == Get(e, "behaviors").fields - {FETCH_BINDING}
    ensures !Get(c, "behaviors").Obj? ==> c == e
    ensures Get(c, "behaviors").Obj? <==> Get(e, "behaviors").Obj?
  {
    assert Get(Scrub(c), "behaviors") == Get(Scrub(e), "behaviors");
    forall k | k != "behaviors"
      ensures (k in c <==> k in e) && Get(c, k) == Get(e, k)
    {
      assert k in c <==> k in Scrub(c);
      assert k in e <==> k in Scrub(e);
      assert Get(c, k) == Get(Scrub(c), k) && Get(e, k) == Get(Scrub(e), k);
    }
  }

  lemma SameBehavior(c: Fields, e: Fields, action: string, plan: Json)
    requires Scrub(c) == Scrub(e) && action != FETCH_BINDING
    ensures BehaviorFor(c, action, plan) == BehaviorFor(e, action, plan)
  {
    ScrubFacts(c, e);
    var a, b := Get(c, "behaviors"), Get(e, "behaviors");
    if a.Obj? {
      assert Get(a.fields, action) == Get(a.fields - {FETCH_BINDING}, action);
      assert Get(b.fields, action) == Get(b.fields - {FETCH_BINDING}, action);
    }
  }

  lemma FetchKeepsScrub(config: Fields, table: Fields)
    requires TableOf(config, FETCH_BINDING).Some?
    ensures Scrub(WithTable(config, FETCH_BINDING, table)) == Scrub(config)
  {
    var m := Get(config, "behaviors").fields;
    assert m[FETCH_BINDING := Obj(table)] - {FETCH_BINDING} == m - {FETCH_BINDING};
  }

  /** An erased request leaves the view of `id` alone, unless it stores or removes a binding
      under that very id: instances and bindings share their ids. */
  lemma ErasedKeepsView(file: Data, d: Data, r: Request, id: string)
    requires !Kept(r, id)
    ensures View(Step(file, d, r).0, id) == View(d, id) <==> !Disturbs(d, r, id)
  {
    if r.FetchBinding? {
      var (after, _) := DoFetchBinding(d, r.bindingId);
      if after != d {
        var (slot, behavior) := FetchTarget(d.config, d.entries[r.bindingId].bindingData).value;
        FetchKeepsScrub(d.config, TableOf(after.config, FETCH_BINDING).value);
        assert after.config == WithTable(d.config, FETCH_BINDING, TableOf(after.config, FETCH_BINDING).value);
      }
    }
  }

  lemma ScrubOther(c: Fields, e: Fields, key: string, value: Json)
    requires Scrub(c) == Scrub(e) && key != "behaviors"
    ensures Scrub(c[key := value]) == Scrub(e[key := value])
  {
    ScrubFacts(c, e);
    if Get(c, "behaviors").Obj? {
      assert Scrub(c[key := value]) == Scrub(c)[key := value];
      assert Scrub(e[key := value]) == Scrub(e)[key := value];
    }
  }

  lemma ScrubMerged(c: Fields, value: Fields)
    requires Get(c, "behaviors").Obj?
    ensures Scrub(c["behaviors" := Obj(c["behaviors"].fields + value)])
         == Scrub(c)["behaviors" := Obj(Scrub(c)["behaviors"].fields + (value - {FETCH_BINDING}))]
  {
    var m := c["behaviors"].fields;
    assert (m + value) - {FETCH_BINDING} == (m - {FETCH_BINDING}) + (value - {FETCH_BINDING});
  }

  lemma ScrubMerge(c: Fields, e: Fields, value: Fields)
    requires Scrub(c) == Scrub(e) && Get(c, "behaviors").Obj? && Get(e, "behaviors").Obj?
    ensures Scrub(c["behaviors" := Obj(c["behaviors"].fields + value)])
         == Scrub(e["behaviors" := Obj(e["behaviors"].fields + value)])
  {
    ScrubMerged(c, value);
    ScrubMerged(e, value);
  }

  lemma MemberAgrees(d: Data, e: Data, key: string, value: Json, posted: map<string, Entry>, id: string)
    requires View(d, id) == View(e, id)
    ensures MergePair(d, key, value, posted).Ok? <==> MergePair(e, key, value, posted).Ok?
    ensures MergePair(d, key, value, posted).Ok? ==>
      View(MergePair(d, key, value, posted).value, id) == View(MergePair(e, key, value, posted).value, id)
  {
    ScrubFacts(d.config, e.config);
    if key != INSTANCES && Merges(d.config, key, value) {
      if key != "behaviors" {
        ScrubOther(d.config, e.config, key, Overlay(Get(d.config, key), value));
        ScrubOther(d.config, e.config, key, value);
      } else if Get(d.config, key).Obj? {
        ScrubMerge(d.config, e.config, value.fields);
      }
    }
  }

  lemma {:induction false} PostAgrees(d: Data, e: Data, pairs: seq<(string, Json)>, posted: map<string, Entry>, id: string)
    requires View(d, id) == View(e, id)
    ensures MergePairs(d, pairs, posted).1 == MergePairs(e, pairs, posted).1
    ensures View(MergePairs(d, pairs, posted).0, id) == View(MergePairs(e, pairs, posted).0, id)
    decreases |pairs|
  {
    if pairs != [] {
      var init, last := pairs[..|pairs| - 1], pairs[|pairs| - 1];
      PostAgrees(d, e, init, posted, id);
      MemberAgrees(MergePairs(d, init, posted).0, MergePairs(e, init, posted).0, last.0, last.1, posted, id);
    }
  }

  lemma FetchReplyAgrees(c: Fields, e: Fields, plan: Json, count: real)
    requires Scrub(c) == Scrub(e)
    ensures PollReply(c, plan, count) == PollReply(e, plan, count)
  {
    ScrubFacts(c, e);
    SameBehavior(c, e, "fetch", plan);
  }

  lemma AnswerAgrees(c: Fields, e: Fields, action: string, plan: Ruby<Json>, accepts: bool)
    requires Scrub(c) == Scrub(e) && action != FETCH_BINDING
    ensures Answer(c, action, plan, accepts) == Answer(e, action, plan, accepts)
  {
    if plan.Ok? {
      SameBehavior(c, e, action, plan.value);
    }
  }

  lemma ProvisionAgrees(d: Data, e: Data, id: string, body: Json, accepts: bool)
    requires View(d, id) == View(e, id)
    ensures View(DoProvision(d, id, body, accepts).0, id) == View(DoProvision(e, id, body, accepts).0, id)
    ensures DoProvision(d, id, body, accepts).1 == DoProvision(e, id, body, accepts).1
  {
    AnswerAgrees(d.config, e.config, "provision", Index(body, "plan_id"), accepts);
  }

  lemma PollAgrees(d: Data, e: Data, id: string)
    requires View(d, id) == View(e, id)
    ensures View(DoPoll(d, id).0, id) == View(DoPoll(e, id).0, id) && DoPoll(d, id).1 == DoPoll(e, id).1
  {
    if id in d.entries && d.entries[id].Instance? {
      var Instance(p, count, _) := d.entries[id];
      if Index(p, "plan_id").Ok? && count.Num? {
        FetchReplyAgrees(d.config, e.config, Index(p, "plan_id").value, count.n + 1.0);
      }
    }
  }

  lemma UpdateAgrees(d: Data, e: Data, id: string, body: Json, accepts: bool)
    requires View(d, id) == View(e, id)
    ensures View(DoUpdate(d, id, body, accepts).0, id) == View(DoUpdate(e, id, body, accepts).0, id)
    ensures DoUpdate(d, id, body, accepts).1 == DoUpdate(e, id, body, accepts).1
  {
    if Index(body, "plan_id").Ok? {
      SameBehavior(d.config, e.config, "update", Index(body, "plan_id").value);
    }
    assert UpdateBehavior(d.config, body) == UpdateBehavior(e.config, body);
  }

  lemma DeprovisionAgrees(d: Data, e: Data, id: string, accepts: bool)
    requires View(d, id) == View(e, id)
    ensures View(DoDeprovision(d, id, accepts).0, id) == View(DoDeprovision(e, id, accepts).0, id)
    ensures DoDeprovision(d, id, accepts).1 == DoDeprovision(e, id, accepts).1
  {
    AnswerAgrees(d.config, e.config, "deprovision", Ok(Null), accepts);
    if id in d.entries && d.entries[id].Instance? {
      AnswerAgrees(d.config, e.config, "deprovision", Index(d.entries[id].provisionData, "plan_id"), accepts);
    }
  }

  lemma MergeAgrees(d: Data, e: Data, post: Post, id: string)
    requires View(d, id) == View(e, id)
    ensures View(DoMerge(d, post).0, id) == View(DoMerge(e, post).0, id) && DoMerge(d, post).1 == DoMerge(e, post).1
  {
    if PostedInstancesOf(post).Ok? {
      PostAgrees(d, e, post, PostedInstancesOf(post).value, id);
    }
  }

  lemma AddressedAgrees(file: Data, d: Data, e: Data, r: Request, id: string)
    requires Addresses(r, id) && View(d, id) == View(e, id)
    ensures View(Step(file, d, r).0, id) == View(Step(file, e, r).0, id) && Step(file, d, r).1 == Step(file, e, r).1
  {
    match r {
      case Provision(_, body, accepts) => ProvisionAgrees(d, e, id, body, accepts);
      case Poll(_) => PollAgrees(d, e, id);
      case Update(_, body, accepts) => UpdateAgrees(d, e, id, body, accepts);
      case Deprovision(_, accepts) => DeprovisionAgrees(d, e, id, accepts);
      case FetchInstance(_) =>
    }
  }

  /** A kept request treats states with equal views alike. */
  lemma KeptAgrees(file: Data, d: Data, e: Data, r: Request, id: string)
    requires Kept(r, id) && View(d, id) == View(e, id)
    ensures View(Step(file, d, r).0, id) == View(Step(file, e, r).0, id)
    ensures Addresses(r, id) ==> Step(file, d, r).1 == Step(file, e, r).1
    ensures Step(file, d, r).1.Raised? <==> Step(file, e, r).1.Raised?
  {
    if Addresses(r, id) {
      AddressedAgrees(file, d, e, r, id);
    } else if r.PostConfig? {
      MergeAgrees(d, e, r.post, id);
    }
  }

  /** Erasing every request about other ids or about bindings changes neither what is
      stored for `id` nor any answer about `id`, provided no binding is stored or removed
      under `id` itself. */
  lemma {:induction false} NonInterference(file: Data, d: Data, rs: seq<Request>, id: string)
    requires forall k :: 0 <= k < |rs| ==> !Disturbs(After(file, d, rs[..k]), rs[k], id)
    ensures View(After(file, d, rs), id) == View(After(file, d, KeepOnly(rs, id)), id)
    ensures AnswersFor(file, d, rs, id) == AnswersFor(file, d, KeepOnly(rs, id), id)
    decreases |rs|
  {
    if rs != [] {
      var init, last := rs[..|rs| - 1], rs[|rs| - 1];
      assert forall k :: 0 <= k < |init| ==> init[..k] == rs[..k];
      NonInterference(file, d, init, id);
      var s, t := After(file, d, init), After(file, d, KeepOnly(init, id));
      if Kept(last, id) {
        assert KeepOnly(rs, id)[..|KeepOnly(rs, id)| - 1] == KeepOnly(init, id);
        KeptAgrees(file, s, t, last, id);
      } else {
        ErasedKeepsView(file, s, last, id);
      }
    }
  }
}
