/** What the broker answers, said once more without the functions that compute it: which
    configured response a request is answered from, and when it ends on the error page. */
module BrokerAnswers {
  import opened JsonValues
  import opened BrokerModel
  import opened Text

  // ----- configured responses -----

  /** The response object of an action for a plan: the plan's own, or else the default. */
  function ResponseFor(config: Fields, action: string, plan: Json): Option<Fields> {
    match TableOf(config, action)
    case None => None
    case Some(table) =>
      var slot := SlotOf(table, plan);
      if slot in table && table[slot].Obj? then Some(table[slot].fields) else None
  }

  /** The configured delay is one that can be slept. */
  predicate Waits(response: Fields) {
    Get(response, "sleep_seconds").Num? && Get(response, "sleep_seconds").n >= 0.0
  }

  predicate Marked(response: Fields, key: string) {
    Get(response, key) !in {Null, Bool(false)}
  }

  /** The answer has the configured status and body; without a body it has the raw body. */
  predicate AnsweredWith(reply: Reply, response: Fields) {
    && reply.Reply? && reply.status == Get(response, "status")
    && (Marked(response, "body") ==> reply.body == AsJson(response["body"]))
    && (!Marked(response, "body") ==> reply.body == AsRaw(Get(response, "raw_body")))
  }

  /** The answer to an operation that found this response, if any: the error page without a
      response or a delay that can be slept, and the 422 for a client that would not wait. */
  predicate AnswersFrom(reply: Reply, response: Option<Fields>, accepts: bool) {
    if response.None? || !Waits(response.value) then reply.Raised?
    else if Marked(response.value, "async_only") && !accepts then
      reply == Reply(Num(422.0), AsJson(Obj(map[
        "error" := Str("AsyncRequired"),
        "description" := Str("This service plan requires client support for asynchronous service operations.")])))
    else AnsweredWith(reply, response.value)
  }

  /** A plan finds its own response if the action has one, and otherwise the default, if that
      is usable; the latter also holds for a plan that is no string. Without an object as the
      action's table nothing can be answered at all. */
  lemma LookupMeaning(config: Fields, action: string, plan: Json, response: Json, accepts: bool)
    requires action != "catalog"
    ensures TableOf(config, action).Some? ==>
      var table := TableOf(config, action).value;
      (BehaviorFor(config, action, plan) == Ok(response) <==>
         (plan.Str? && plan.s in table && response == table[plan.s]) ||
         (!(plan.Str? && plan.s in table) && "default" in table && response == table["default"] && Truthy(response)))
    ensures TableOf(config, action).None? ==> Answer(config, action, Ok(plan), accepts) == Raised
  {
  }

  lemma AnswerMeaning(config: Fields, action: string, plan: Json, accepts: bool)
    requires action != "catalog"
    ensures AnswersFrom(Answer(config, action, Ok(plan), accepts), ResponseFor(config, action, plan), accepts)
  {
  }

  // ----- the plan a request is for -----

  /** What `body['plan_id']` reads, unless it raises; text reads as the word itself if it
      contains it. */
  ghost function PlanNamed(body: Json): Option<Json> {
    match body
    case Obj(m) => Some(Get(m, "plan_id"))
    case Str(s) => Some(if exists i: nat :: OccursAt(s, "plan_id", i) then Str("plan_id") else Null)
    case _ => None
  }

  lemma PlanRead(body: Json)
    ensures PlanNamed(body) == match Index(body, "plan_id") case Raise => None case Ok(plan) => Some(plan)
  {
    if body.Str? {
      ContainsMeaning(body.s, "plan_id");
    }
  }

  /** The requests that carry the `accepts_incomplete` parameter. */
  predicate TakesAccepts(r: Request) {
    r.Provision? || r.Update? || r.Deprovision? || r.Bind? || r.Unbind?
  }

  function WithAccepts(r: Request, accepts: bool): Request
    requires TakesAccepts(r)
  {
    r.(accepts := accepts)
  }

  function ActionOf(r: Request): string
    requires TakesAccepts(r)
  {
    match r
    case Provision(_, _, _) => "provision"
    case Update(_, _, _) => "update"
    case Deprovision(_, _) => "deprovision"
    case Bind(_, _, _, _) => "bind"
    case Unbind(_, _, _) => "unbind"
  }

  /** The plan an operation is for: that of its body, or of what is stored under its id
      (none for an unknown id); `None` when it cannot be read. */
  ghost function PlanOf(d: Data, r: Request): Option<Json>
    requires TakesAccepts(r)
  {
    match r
    case Provision(_, body, _) => PlanNamed(body)
    case Update(_, body, _) => PlanNamed(body)
    case Bind(_, _, body, _) => PlanNamed(body)
    case Deprovision(id, _) =>
      if id !in d.entries then Some(Null)
      else if d.entries[id].Instance? then PlanNamed(d.entries[id].provisionData) else None
    case Unbind(_, b, _) =>
      if b !in d.entries then Some(Null)
      else if d.entries[b].Binding? then PlanNamed(d.entries[b].bindingData) else None
  }

  /** An update that is to be applied to something that cannot take it. */
  predicate CannotMerge(d: Data, r: Request, response: Fields) {
    && r.Update? && r.id in d.entries && Get(response, "status") in {Num(200.0), Num(202.0)}
    && !(d.entries[r.id].Instance? && d.entries[r.id].provisionData.Obj? && r.body.Obj?)
  }

  // ----- answers -----

  /** Every operation is answered from the response configured for its action and plan, and
      ends on the error page exactly when its plan cannot be read, there is no such response,
      its delay cannot be slept, or the update cannot be merged. */
  lemma OperationMeaning(file: Data, d: Data, r: Request)
    requires TakesAccepts(r)
    ensures
      var x := Step(file, d, r).1;
      if PlanOf(d, r).None? then x.Raised?
      else
        var response := ResponseFor(d.config, ActionOf(r), PlanOf(d, r).value);
        if response.Some? && CannotMerge(d, r, response.value) then x.Raised? else AnswersFrom(x, response, r.accepts)
  {
    match r {
      case Provision(_, body, accepts) => BodyAnswer(d.config, "provision", body, accepts);
      case Bind(_, _, body, accepts) => BodyAnswer(d.config, "bind", body, accepts);
      case Update(id, body, accepts) => UpdateAnswer(d, id, body, accepts);
      case Deprovision(id, accepts) =>
        AnswerMeaning(d.config, "deprovision", Null, accepts);
        if id in d.entries && d.entries[id].Instance? {
          BodyAnswer(d.config, "deprovision", d.entries[id].provisionData, accepts);
        }
      case Unbind(_, b, accepts) =>
        AnswerMeaning(d.config, "unbind", Null, accepts);
        if b in d.entries && d.entries[b].Binding? {
          BodyAnswer(d.config, "unbind", d.entries[b].bindingData, accepts);
        }
    }
  }

  lemma BodyAnswer(config: Fields, action: string, body: Json, accepts: bool)
    requires action != "catalog"
    ensures
      var x := Answer(config, action, Index(body, "plan_id"), accepts);
      if PlanNamed(body).None? then x.Raised? else AnswersFrom(x, ResponseFor(config, action, PlanNamed(body).value), accepts)
  {
    PlanRead(body);
    if PlanNamed(body).Some? {
      AnswerMeaning(config, action, PlanNamed(body).value, accepts);
    }
  }

  lemma ResponseFound(config: Fields, action: string, plan: Json)
    requires action != "catalog"
    ensures var found := BehaviorFor(config, action, plan);
      if found.Ok? && found.value.Obj? then ResponseFor(config, action, plan) == Some(found.value.fields)
      else ResponseFor(config, action, plan) == None
  {
  }

  lemma FoundUpdateAnswer(d: Data, id: string, body: Json, accepts: bool, response: Json)
    requires UpdateBehavior(d.config, body).Ok? && UpdateBehavior(d.config, body).value.0 == response && response.Obj?
    requires UpdateBehavior(d.config, body).value.1 == Get(response.fields, "status")
    ensures
      var x := DoUpdate(d, id, body, accepts).1;
      if CannotMerge(d, Update(id, body, accepts), response.fields) then x.Raised?
      else AnswersFrom(x, Some(response.fields), accepts)
  {
  }

  lemma LostUpdateAnswer(d: Data, id: string, body: Json, accepts: bool)
    requires UpdateBehavior(d.config, body).Ok? ==> !UpdateBehavior(d.config, body).value.0.Obj?
    ensures DoUpdate(d, id, body, accepts).1.Raised?
  {
  }

  lemma UpdateAnswer(d: Data, id: string, body: Json, accepts: bool)
    ensures
      var x := DoUpdate(d, id, body, accepts).1;
      if PlanNamed(body).None? then x.Raised?
      else
        var response := ResponseFor(d.config, "update", PlanNamed(body).value);
        if response.Some? && CannotMerge(d, Update(id, body, accepts), response.value) then x.Raised?
        else AnswersFrom(x, response, accepts)
  {
    PlanRead(body);
    var found := UpdateBehavior(d.config, body);
    if PlanNamed(body).Some? {
      ResponseFound(d.config, "update", PlanNamed(body).value);
    }
    if found.Ok? && found.value.0.Obj? {
      FoundUpdateAnswer(d, id, body, accepts, found.value.0);
    } else {
      LostUpdateAnswer(d, id, body, accepts);
    }
  }

  lemma AcceptsChangesNoData(file: Data, d: Data, r: Request)
    requires TakesAccepts(r)
    ensures Step(file, d, WithAccepts(r, true)).0 == Step(file, d, WithAccepts(r, false)).0
  {
  }

  /** Whether a client accepts incomplete operations changes nothing that is stored and
      nothing about raising; a client that does gets the configured answer, and one that
      does not gets the 422 instead exactly for the responses marked `async_only`. */
  lemma AcceptsOnlyChangesAnswer(file: Data, d: Data, r: Request)
    requires TakesAccepts(r)
    ensures Step(file, d, WithAccepts(r, true)).0 == Step(file, d, WithAccepts(r, false)).0
    ensures
      var x, y := Step(file, d, WithAccepts(r, true)).1, Step(file, d, WithAccepts(r, false)).1;
      && (x.Raised? <==> y.Raised?)
      && (!x.Raised? ==>
            PlanOf(d, r).Some? && ResponseFor(d.config, ActionOf(r), PlanOf(d, r).value).Some? &&
            var response := ResponseFor(d.config, ActionOf(r), PlanOf(d, r).value).value;
            AnsweredWith(x, response) && y == if Marked(response, "async_only") then ASYNC_REQUIRED else x)
  {
    AcceptsChangesNoData(file, d, r);
    OperationMeaning(file, d, WithAccepts(r, true));
    OperationMeaning(file, d, WithAccepts(r, false));
  }

  /** The catalog is answered from its own response, as by a client that would not wait. */
  lemma CatalogMeaning(file: Data, d: Data)
    ensures Step(file, d, Catalog).0 == d
    ensures AnswersFrom(Step(file, d, Catalog).1, TableOf(d.config, "catalog"), false)
  {
  }

  /** Polling a binding always succeeds. */
  lemma BindingPollMeaning(file: Data, d: Data, id: string, bindingId: string)
    ensures Step(file, d, PollBinding(id, bindingId)) ==
      (d, Reply(Num(200.0), AsJson(Obj(map["state" := Str("succeeded"), "description" := Str("100%")]))))
  {
  }

  /** A stored instance is answered with its data; anything else ends on the error page. */
  lemma InstanceFetchMeaning(file: Data, d: Data, id: string)
    ensures Step(file, d, FetchInstance(id)).0 == d
    ensures Step(file, d, FetchInstance(id)).1 ==
      if id in d.entries && d.entries[id].Instance? then Reply(Num(200.0), AsJson(d.entries[id].provisionData)) else Raised
  {
  }

  // ----- polls -----

  /** The configured maximum, which is one unless a value is set. */
  predicate IsMaximum(config: Fields, m: real) {
    Get(config, MAX_FETCH) == Num(m) || (Get(config, MAX_FETCH) in {Null, Bool(false)} && m == 1.0)
  }

  /** The answer to a poll that reports `state`: from the response that the plan's response
      to fetches, or the default one, has for that state. */
  predicate PolledFrom(reply: Reply, response: Option<Fields>, state: string) {
    if response.Some? && Get(response.value, state).Obj? && Waits(Get(response.value, state).fields) then
      AnsweredWith(reply, Get(response.value, state).fields)
    else reply.Raised?
  }

  /** The answer to the k-th poll: the maximum decides which of the two states it reports; it
      raises when the maximum is no number or the state has no response. */
  ghost predicate PollAnswered(reply: Reply, config: Fields, plan: Json, k: real) {
    && (forall m :: IsMaximum(config, m) ==>
          PolledFrom(reply, ResponseFor(config, "fetch", plan), if k <= m then "in_progress" else "finished"))
    && ((forall m :: !IsMaximum(config, m)) ==> reply.Raised?)
  }

  lemma FetchReplyMeaning(config: Fields, plan: Json, state: string)
    requires state == "in_progress" || state == "finished"
    ensures PolledFrom(FetchReply(config, plan, state), ResponseFor(config, "fetch", plan), state)
  {
  }

  lemma PollReplyMeaning(config: Fields, plan: Json, k: real)
    ensures PollAnswered(PollReply(config, plan, k), config, plan, k)
  {
    FetchReplyMeaning(config, plan, "in_progress");
    FetchReplyMeaning(config, plan, "finished");
    assert MaxFetch(config).Num? ==> IsMaximum(config, MaxFetch(config).n);
  }

  /** A poll of a stored instance counts one more, and is answered for the count it reaches;
      when the plan or the counter cannot be read it raises and counts nothing. */
  lemma PollMeaning(file: Data, d: Data, id: string)
    requires id in d.entries
    ensures
      var (e, x) := Step(file, d, Poll(id));
      match d.entries[id]
      case Binding(_, _) => e == d && x.Raised?
      case Instance(p, count, deleted) =>
        if PlanNamed(p).None? || !count.Num? then e == d && x.Raised?
        else
          e == d.(entries := d.entries[id := Instance(p, Num(count.n + 1.0), deleted)]) &&
          PollAnswered(x, d.config, PlanNamed(p).value, count.n + 1.0)
  {
    if d.entries[id].Instance? {
      var Instance(p, count, _) := d.entries[id];
      PlanRead(p);
      if PlanNamed(p).Some? && count.Num? {
        PollReplyMeaning(d.config, PlanNamed(p).value, count.n + 1.0);
      }
    }
  }

  // ----- dumps -----

  /** The answer shows every top-level key except those of instances and bindings. */
  ghost predicate ShowsConfig(reply: Reply, c: Fields) {
    && reply.Reply? && reply.status == Num(200.0) && reply.body.AsJson? && reply.body.json.Obj?
    && var m := reply.body.json.fields;
       && (forall k :: k in m <==> k in c && k != "service_instances" && k != "service_bindings")
       && (forall k :: k in m ==> m[k] == c[k])
  }

  /** Reading the configuration shows it; a reset starts over on the data file and shows that;
      a post shows what it made of the configuration, or ends on the error page. */
  lemma ConfigurationAnswers(file: Data, d: Data, post: Post)
    ensures Step(file, d, DumpConfig).0 == d && ShowsConfig(Step(file, d, DumpConfig).1, d.config)
    ensures Step(file, d, Reset).0 == file && ShowsConfig(Step(file, d, Reset).1, file.config)
    ensures var x := Step(file, d, PostConfig(post));
      if DoMerge(d, post).1 then ShowsConfig(x.1, x.0.config) else x.1.Raised?
  {
  }

  /** How one entry appears in the dump of everything. */
  ghost predicate ShowsEntry(shown: Json, e: Entry) {
    match e
    case Instance(p, count, deleted) =>
      shown == Obj(map["provision_data" := p, "fetch_count" := count, "deleted" := deleted])
    case Binding(data, instanceId) =>
      shown == Obj(map["binding_data" := data, "instance_id" := Str(instanceId)])
  }

  /** `/config/all` shows every top-level key and, under `service_instances`, every instance
      with its data, counter and flag and every binding with its data and instance. */
  lemma DumpMeaning(file: Data, d: Data)
    ensures
      var (e, x) := Step(file, d, DumpAll);
      && e == d && x.Reply? && x.status == Num(200.0) && x.body.AsJson? && x.body.json.Obj?
      && var m := x.body.json.fields;
         && m.Keys == d.config.Keys + {"service_instances"}
         && (forall k :: k in m && k != "service_instances" ==> m[k] == d.config[k])
         && m["service_instances"].Obj? && m["service_instances"].fields.Keys == d.entries.Keys
         && forall id :: id in d.entries ==> ShowsEntry(m["service_instances"].fields[id], d.entries[id])
  {
  }
}
