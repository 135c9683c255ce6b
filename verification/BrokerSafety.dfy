/** When no request can end on the error page: an invariant of all runs, although posts
    replace whole behaviour tables while the broker runs. */
module BrokerSafety {
  import opened JsonValues
  import opened BrokerModel
  import opened BrokerConfig

  /** The actions that operations are answered from. */
  predicate Needed(action: string) {
    action in {"provision", "update", "deprovision", "bind", "unbind", "fetch"}
  }

  /** A response that can be waited for and has a number as its status. */
  predicate Usable(response: Json) {
    Sleeps(response) && Get(response.fields, "status").Num?
  }

  /** A usable response of an action; polls need one for each state. */
  predicate GoodResponse(action: string, response: Json) {
    if action == "fetch" then
      response.Obj? && Usable(Get(response.fields, "in_progress")) && Usable(Get(response.fields, "finished"))
    else Usable(response)
  }

  ghost predicate GoodTable(action: string, table: Json) {
    table.Obj? && "default" in table.fields && forall plan :: plan in table.fields ==> GoodResponse(action, table.fields[plan])
  }

  ghost predicate GoodAt(behaviors: Fields, action: string) {
    action in behaviors && GoodTable(action, behaviors[action])
  }

  predicate GoodMax(j: Json) {
    Truthy(j) ==> j.Num?
  }

  ghost predicate GoodConfig(c: Fields) {
    && Get(c, "behaviors").Obj?
    && (forall a :: Needed(a) ==> GoodAt(c["behaviors"].fields, a))
    && GoodMax(Get(c, MAX_FETCH))
  }

  predicate GoodEntry(e: Entry) {
    match e
    case Instance(p, count, _) => p.Obj? && count.Num?
    case Binding(b, _) => b.Obj?
  }

  /** Exactly the ids in `bindingIds` are used for bindings. */
  ghost predicate GoodEntries(entries: map<string, Entry>, bindingIds: set<string>) {
    forall id :: id in entries ==> GoodEntry(entries[id]) && (entries[id].Binding? <==> id in bindingIds)
  }

  ghost predicate Good(d: Data, bindingIds: set<string>) {
    GoodConfig(d.config) && GoodEntries(d.entries, bindingIds) && INSTANCES !in d.config
  }

  /** Every action table the post brings is usable, and so is every instance it brings. */
  ghost predicate GoodPost(fields: Fields, bindingIds: set<string>) {
    && ("behaviors" in fields && fields["behaviors"].Obj? ==>
          forall a :: Needed(a) && a in fields["behaviors"].fields ==> GoodTable(a, fields["behaviors"].fields[a]))
    && GoodMax(Get(fields, MAX_FETCH))
    && (InstancesIn(fields).Ok? ==> GoodEntries(InstancesIn(fields).value, bindingIds))
  }

  ghost predicate GoodRequest(r: Request, bindingIds: set<string>) {
    match r
    case Provision(id, body, _) => id !in bindingIds && body.Obj?
    case Update(id, body, _) => id !in bindingIds && body.Obj?
    case Poll(id) => id !in bindingIds
    case Deprovision(id, _) => id !in bindingIds
    case Bind(_, b, body, _) => b in bindingIds && body.Obj?
    case Unbind(_, b, _) => b in bindingIds
    case PostConfig(post) => GoodPost(PostFields(post), bindingIds)
    case _ => true
  }

  /** The requests of the broker API that must never end on the error page. */
  predicate IsOperation(r: Request) {
    r.Provision? || r.Update? || r.Deprovision? || r.Poll? || r.Bind? || r.Unbind?
  }

  /** Not the error page, neither the broker's own nor one for a status that is no number. */
  predicate Answered(reply: Reply) {
    reply.Reply? && reply.status.Num?
  }

  lemma LookupIsGood(c: Fields, action: string, plan: Json)
    requires Get(c, "behaviors").Obj? && GoodAt(c["behaviors"].fields, action) && action != "catalog"
    ensures BehaviorFor(c, action, plan).Ok? && GoodResponse(action, BehaviorFor(c, action, plan).value)
  {
  }

  lemma AnswerIsGood(c: Fields, action: string, plan: Json, accepts: bool)
    requires GoodConfig(c) && Needed(action) && action != "fetch"
    ensures Answered(Answer(c, action, Ok(plan), accepts))
  {
    assert GoodAt(c["behaviors"].fields, action);
    LookupIsGood(c, action, plan);
  }

  lemma FetchReplyIsGood(c: Fields, plan: Json, state: string)
    requires Get(c, "behaviors").Obj? && GoodAt(c["behaviors"].fields, "fetch")
    requires state == "in_progress" || state == "finished"
    ensures Answered(FetchReply(c, plan, state))
  {
    LookupIsGood(c, "fetch", plan);
  }

  lemma PollReplyIsGood(c: Fields, plan: Json, count: real)
    requires GoodConfig(c)
    ensures Answered(PollReply(c, plan, count))
  {
    assert GoodAt(c["behaviors"].fields, "fetch");
    FetchReplyIsGood(c, plan, PollState(c, count).value);
  }

  lemma PollAnswers(d: Data, id: string, bindingIds: set<string>)
    requires Good(d, bindingIds) && id !in bindingIds
    ensures Answered(DoPoll(d, id).1)
  {
    if id in d.entries {
      assert GoodEntry(d.entries[id]);
      PollReplyIsGood(d.config, Get(d.entries[id].provisionData.fields, "plan_id"), d.entries[id].fetchCount.n + 1.0);
    }
  }

  lemma UpdateBehaviorIsGood(c: Fields, body: Json)
    requires GoodConfig(c) && body.Obj?
    ensures UpdateBehavior(c, body).Ok? && Usable(UpdateBehavior(c, body).value.0)
  {
    assert GoodAt(c["behaviors"].fields, "update");
    LookupIsGood(c, "update", Get(body.fields, "plan_id"));
  }

  lemma UsableUpdateAnswers(d: Data, id: string, body: Json, accepts: bool)
    requires UpdateBehavior(d.config, body).Ok? && Usable(UpdateBehavior(d.config, body).value.0) && body.Obj?
    requires id in d.entries ==> d.entries[id].Instance? && d.entries[id].provisionData.Obj?
    ensures Answered(DoUpdate(d, id, body, accepts).1)
  {
  }

  lemma UpdateAnswers(d: Data, id: string, body: Json, accepts: bool, bindingIds: set<string>)
    requires Good(d, bindingIds) && id !in bindingIds && body.Obj?
    ensures Answered(DoUpdate(d, id, body, accepts).1)
  {
    UpdateBehaviorIsGood(d.config, body);
    assert id in d.entries ==> GoodEntry(d.entries[id]);
    UsableUpdateAnswers(d, id, body, accepts);
  }

  lemma DeprovisionAnswers(d: Data, id: string, accepts: bool, bindingIds: set<string>)
    requires Good(d, bindingIds) && id !in bindingIds
    ensures Answered(DoDeprovision(d, id, accepts).1)
  {
    if id in d.entries {
      assert GoodEntry(d.entries[id]);
      AnswerIsGood(d.config, "deprovision", Get(d.entries[id].provisionData.fields, "plan_id"), accepts);
    } else {
      AnswerIsGood(d.config, "deprovision", Null, accepts);
    }
  }

  lemma UnbindAnswers(d: Data, b: string, accepts: bool, bindingIds: set<string>)
    requires Good(d, bindingIds) && b in bindingIds
    ensures Answered(DoUnbind(d, b, accepts).1)
  {
    if b in d.entries {
      assert GoodEntry(d.entries[b]);
      AnswerIsGood(d.config, "unbind", Get(d.entries[b].bindingData.fields, "plan_id"), accepts);
    } else {
      AnswerIsGood(d.config, "unbind", Null, accepts);
    }
  }

  lemma OperationAnswers(file: Data, d: Data, r: Request, bindingIds: set<string>)
    requires Good(d, bindingIds) && GoodRequest(r, bindingIds) && IsOperation(r)
    ensures Answered(Step(file, d, r).1)
  {
    match r {
      case Provision(_, body, accepts) => AnswerIsGood(d.config, "provision", Get(body.fields, "plan_id"), accepts);
      case Update(id, body, accepts) => UpdateAnswers(d, id, body, accepts, bindingIds);
      case Poll(id) => PollAnswers(d, id, bindingIds);
      case Bind(_, _, body, accepts) => AnswerIsGood(d.config, "bind", Get(body.fields, "plan_id"), accepts);
      case Deprovision(id, accepts) => DeprovisionAnswers(d, id, accepts, bindingIds);
      case Unbind(_, b, accepts) => UnbindAnswers(d, b, accepts, bindingIds);
    }
  }

  lemma MemberStaysGood(d: Data, key: string, value: Json, posted: map<string, Entry>, bindingIds: set<string>)
    requires Good(d, bindingIds) && GoodEntries(posted, bindingIds)
    requires key == "behaviors" && value.Obj? ==>
      forall a :: Needed(a) && a in value.fields ==> GoodTable(a, value.fields[a])
    requires key == MAX_FETCH ==> GoodMax(value)
    ensures MergePair(d, key, value, posted).Ok? ==> Good(MergePair(d, key, value, posted).value, bindingIds)
  {
    if MergePair(d, key, value, posted).Ok? {
      var c := MergePair(d, key, value, posted).value.config;
      if key == "behaviors" {
        assert c[key].fields == d.config[key].fields + value.fields;
        forall a | Needed(a)
          ensures GoodAt(c[key].fields, a)
        {
          assert GoodAt(d.config[key].fields, a);
        }
      } else if key != INSTANCES {
        assert Get(c, "behaviors") == Get(d.config, "behaviors");
        assert key != MAX_FETCH ==> Get(c, MAX_FETCH) == Get(d.config, MAX_FETCH);
      }
    }
  }

  lemma {:induction false} PostStaysGood(d: Data, pairs: seq<(string, Json)>, posted: map<string, Entry>, bindingIds: set<string>)
    requires Good(d, bindingIds) && GoodEntries(posted, bindingIds) && DistinctKeys(pairs)
    requires forall i :: 0 <= i < |pairs| && pairs[i].0 == "behaviors" && pairs[i].1.Obj? ==>
      forall a :: Needed(a) && a in pairs[i].1.fields ==> GoodTable(a, pairs[i].1.fields[a])
    requires forall i :: 0 <= i < |pairs| && pairs[i].0 == MAX_FETCH ==> GoodMax(pairs[i].1)
    ensures Good(MergePairs(d, pairs, posted).0, bindingIds)
    decreases |pairs|
  {
    if pairs != [] {
      var init, last := pairs[..|pairs| - 1], pairs[|pairs| - 1];
      PostStaysGood(d, init, posted, bindingIds);
      MemberStaysGood(MergePairs(d, init, posted).0, last.0, last.1, posted, bindingIds);
    }
  }

  lemma {:induction false} PairAt(pairs: seq<(string, Json)>, i: nat)
    requires DistinctKeys(pairs) && i < |pairs|
    ensures pairs[i].0 in PostFields(pairs) && PostFields(pairs)[pairs[i].0] == pairs[i].1
    decreases |pairs|
  {
    if i < |pairs| - 1 {
      PairAt(pairs[..|pairs| - 1], i);
    }
  }

  lemma TableStaysGood(c: Fields, table: Fields)
    requires GoodConfig(c) && TableOf(c, FETCH_BINDING).Some?
    ensures GoodConfig(WithTable(c, FETCH_BINDING, table))
  {
    var e := WithTable(c, FETCH_BINDING, table);
    forall a | Needed(a)
      ensures GoodAt(e["behaviors"].fields, a)
    {
      assert GoodAt(c["behaviors"].fields, a);
    }
  }

  lemma FetchStaysGood(d: Data, bindingId: string, bindingIds: set<string>)
    requires Good(d, bindingIds)
    ensures Good(DoFetchBinding(d, bindingId).0, bindingIds)
  {
    var e := DoFetchBinding(d, bindingId).0;
    if e.config != d.config {
      var table := FetchWrites(d, bindingId);
      TableStaysGood(d.config, table);
    }
  }

  lemma PostStepStaysGood(d: Data, post: Post, bindingIds: set<string>)
    requires Good(d, bindingIds) && GoodPost(PostFields(post), bindingIds)
    ensures Good(DoMerge(d, post).0, bindingIds)
  {
    if PostedInstancesOf(post).Ok? {
      forall i | 0 <= i < |post|
        ensures post[i].0 in PostFields(post) && PostFields(post)[post[i].0] == post[i].1
      {
        PairAt(post, i);
      }
      PostStaysGood(d, post, PostedInstancesOf(post).value, bindingIds);
    }
  }

  lemma EntryStaysGood(d: Data, id: string, e: Entry, bindingIds: set<string>)
    requires Good(d, bindingIds) && GoodEntry(e) && (e.Binding? <==> id in bindingIds)
    ensures Good(d.(entries := d.entries[id := e]), bindingIds)
  {
  }

  lemma UpdateStaysGood(d: Data, id: string, body: Json, accepts: bool, bindingIds: set<string>)
    requires Good(d, bindingIds) && id !in bindingIds
    ensures Good(DoUpdate(d, id, body, accepts).0, bindingIds)
  {
    if DoUpdate(d, id, body, accepts).0 != d {
      EntryStaysGood(d, id, Instance(Overlay(d.entries[id].provisionData, body), Num(0.0), d.entries[id].deleted), bindingIds);
    }
  }

  lemma PollStaysGood(d: Data, id: string, bindingIds: set<string>)
    requires Good(d, bindingIds) && id !in bindingIds
    ensures Good(DoPoll(d, id).0, bindingIds)
  {
  }

  lemma DeprovisionStaysGood(d: Data, id: string, accepts: bool, bindingIds: set<string>)
    requires Good(d, bindingIds) && id !in bindingIds
    ensures Good(DoDeprovision(d, id, accepts).0, bindingIds)
  {
  }

  lemma UnbindStaysGood(d: Data, b: string, accepts: bool, bindingIds: set<string>)
    requires Good(d, bindingIds)
    ensures Good(DoUnbind(d, b, accepts).0, bindingIds)
  {
  }

  lemma InstanceStepStaysGood(file: Data, d: Data, r: Request, bindingIds: set<string>)
    requires Good(d, bindingIds) && GoodRequest(r, bindingIds)
    requires r.Provision? || r.Update? || r.Deprovision? || r.Poll?
    ensures Good(Step(file, d, r).0, bindingIds)
  {
    match r {
      case Provision(id, body, _) => EntryStaysGood(d, id, NewInstance(body), bindingIds);
      case Update(id, body, accepts) => UpdateStaysGood(d, id, body, accepts, bindingIds);
      case Deprovision(id, accepts) => DeprovisionStaysGood(d, id, accepts, bindingIds);
      case Poll(id) => PollStaysGood(d, id, bindingIds);
    }
  }

  lemma StepStaysGood(file: Data, d: Data, r: Request, bindingIds: set<string>)
    requires Good(file, bindingIds) && Good(d, bindingIds) && GoodRequest(r, bindingIds)
    ensures Good(Step(file, d, r).0, bindingIds)
  {
    if r.Provision? || r.Update? || r.Deprovision? || r.Poll? {
      InstanceStepStaysGood(file, d, r, bindingIds);
    } else if r.PostConfig? {
      PostStepStaysGood(d, r.post, bindingIds);
    } else if r.FetchBinding? {
      FetchStaysGood(d, r.bindingId, bindingIds);
    } else if r.Bind? {
      EntryStaysGood(d, r.bindingId, Binding(r.body, r.id), bindingIds);
    } else if r.Unbind? {
      UnbindStaysGood(d, r.bindingId, r.accepts, bindingIds);
    }
  }

  lemma {:induction false} StaysGood(file: Data, rs: seq<Request>, bindingIds: set<string>)
    requires Good(file, bindingIds) && forall r :: r in rs ==> GoodRequest(r, bindingIds)
    ensures Good(After(file, file, rs), bindingIds)
    decreases |rs|
  {
    if rs != [] {
      StaysGood(file, rs[..|rs| - 1], bindingIds);
      StepStaysGood(file, After(file, file, rs[..|rs| - 1]), rs[|rs| - 1], bindingIds);
    }
  }

  /** With a usable data file, usable posts, object bodies and ids that are either for
      instances or for bindings, every operation of every run is answered, with a number as
      its status. */
  lemma NoOperationRaises(file: Data, rs: seq<Request>, bindingIds: set<string>, k: nat)
    requires Good(file, bindingIds) && forall r :: r in rs ==> GoodRequest(r, bindingIds)
    requires k < |rs| && IsOperation(rs[k])
    ensures Answered(ReplyAt(file, file, rs, k))
  {
    StaysGood(file, rs[..k], bindingIds);
    OperationAnswers(file, After(file, file, rs[..k]), rs[k], bindingIds);
  }

  /** An action finds a response for every plan exactly when its table is an object with a
      `default` that is not null or false. */
  lemma EveryPlanAnswered(c: Fields, action: string)
    requires action != "catalog"
    ensures (forall plan :: BehaviorFor(c, action, plan).Ok?)
       <==> TableOf(c, action).Some? && Truthy(Get(TableOf(c, action).value, "default"))
  {
    if forall plan :: BehaviorFor(c, action, plan).Ok? {
      assert BehaviorFor(c, action, Null).Ok? && BehaviorFor(c, action, Str("")).Ok?;
    }
  }

  /** A post replaces an action's whole table: afterwards a plan is answered exactly when
      the posted table has it or has a default, whatever was configured before. */
  lemma PostedTableReplaces(d: Data, post: Post, action: string, plan: Json)
    requires INSTANCES !in d.config && action != "catalog"
    requires var p := PostFields(post);
      "behaviors" in p && p["behaviors"].Obj? && action in p["behaviors"].fields && p["behaviors"].fields[action].Obj?
    requires DoMerge(d, post).1
    ensures var table := PostFields(post)["behaviors"].fields[action].fields;
      BehaviorFor(DoMerge(d, post).0.config, action, plan).Ok? <==>
        (plan.Str? && plan.s in table) || Truthy(Get(table, "default"))
  {
    PostMeaning(d, post);
    var p := PostFields(post);
    assert Merges(d.config, "behaviors", p["behaviors"]);
    assert Get(DoMerge(d, post).0.config, "behaviors").fields[action] == p["behaviors"].fields[action];
  }
}
