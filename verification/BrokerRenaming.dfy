/** Renaming plans: a broker whose behaviour tables are keyed by other plan ids answers
    the renamed requests as the original broker answers the original ones. */
module BrokerRenaming {
  import opened JsonValues
  import opened BrokerModel

  /** A renaming exchanges plan ids; it fixes the two names the broker itself reads. */
  ghost predicate Renaming(rho: string -> string) {
    (forall s :: rho(rho(s)) == s) && rho("default") == "default" && rho("plan_id") == "plan_id"
  }

  function RenPlan(rho: string -> string, plan: Json): Json {
    if plan.Str? then Str(rho(plan.s)) else plan
  }

  /** A body with the plan it names renamed. */
  function RenBody(rho: string -> string, body: Json): Json {
    if body.Obj? && "plan_id" in body.fields then
      Obj(body.fields["plan_id" := RenPlan(rho, body.fields["plan_id"])])
    else body
  }

  function RenTable(rho: string -> string, table: Json): Json {
    if table.Obj? then
      Obj(map k | k in (set q | q in table.fields :: rho(q)) && rho(k) in table.fields :: table.fields[rho(k)])
    else table
  }

  function RenPosted(rho: string -> string, j: Json): Json {
    if IsPostedInstance(j) then Obj(j.fields["provision_data" := RenBody(rho, j.fields["provision_data"])]) else j
  }

  function RenMember(rho: string -> string, key: string, value: Json): Json {
    if !value.Obj? then value
    else if key == "behaviors" then
      Obj(map a | a in value.fields :: if a == "catalog" then value.fields[a] else RenTable(rho, value.fields[a]))
    else if key == INSTANCES then Obj(map id | id in value.fields :: RenPosted(rho, value.fields[id]))
    else value
  }

  function RenPairs(rho: string -> string, pairs: seq<(string, Json)>): seq<(string, Json)> {
    seq(|pairs|, i requires 0 <= i < |pairs| => (pairs[i].0, RenMember(rho, pairs[i].0, pairs[i].1)))
  }

  function RenPost(rho: string -> string, post: Post): Post {
    RenPairs(rho, post)
  }

  function RenRequest(rho: string -> string, r: Request): Request {
    match r
    case Provision(id, body, accepts) => Provision(id, RenBody(rho, body), accepts)
    case Update(id, body, accepts) => Update(id, RenBody(rho, body), accepts)
    case Bind(id, b, body, accepts) => Bind(id, b, RenBody(rho, body), accepts)
    case PostConfig(post) => PostConfig(RenPost(rho, post))
    case _ => r
  }

  function RenRun(rho: string -> string, rs: seq<Request>): seq<Request> {
    seq(|rs|, i requires 0 <= i < |rs| => RenRequest(rho, rs[i]))
  }

  // ----- related data -----

  /** Bodies of binding fetches may differ in the plan id an earlier fetch left there. */
  ghost predicate RelBody(rho: string -> string, b: Json, b': Json) {
    b == b' ||
    (b.Obj? && b'.Obj? && b.fields.Keys == b'.fields.Keys &&
     (forall k :: k in b.fields && k != "plan_id" ==> b'.fields[k] == b.fields[k]) &&
     (var plan, plan' := Get(b.fields, "plan_id"), Get(b'.fields, "plan_id");
      plan' == plan || plan' == RenPlan(rho, plan)))
  }

  ghost predicate RelFields(rho: string -> string, m: Fields, m': Fields) {
    && m.Keys == m'.Keys
    && (forall k :: k in m && k != "body" ==> m'[k] == m[k])
    && ("body" in m ==> RelBody(rho, m["body"], m'["body"]))
  }

  /** Responses are equal, except that a binding fetch may have written into its own. */
  ghost predicate RelResponse(rho: string -> string, action: string, r: Json, r': Json) {
    r == r' || (action == FETCH_BINDING && r.Obj? && r'.Obj? && RelFields(rho, r.fields, r'.fields))
  }

  ghost predicate RelTable(rho: string -> string, action: string, t: Json, t': Json) {
    if t.Obj? then
      && t'.Obj?
      && (forall k :: k in t.fields <==> rho(k) in t'.fields)
      && (forall k :: k in t.fields ==> RelResponse(rho, action, t.fields[k], t'.fields[rho(k)]))
    else t' == t
  }

  /** A plan that was given another id. */
  ghost predicate RelPlan(p: Json, p': Json) {
    p.Obj? && p'.Obj? && p.fields - {"id"} == p'.fields - {"id"}
  }

  /** A service that was given other identifiers: its name and id, those of its dashboard
      client, and its plans' ids. */
  ghost predicate RelService(s: Json, s': Json) {
    && s.Obj? && s'.Obj?
    && s.fields - {"name", "id", "dashboard_client", "plans"} == s'.fields - {"name", "id", "dashboard_client", "plans"}
    && Get(s.fields, "dashboard_client").Obj? && Get(s'.fields, "dashboard_client").Obj?
    && s.fields["dashboard_client"].fields - {"id", "secret"} == s'.fields["dashboard_client"].fields - {"id", "secret"}
    && Get(s.fields, "plans").Arr? && Get(s'.fields, "plans").Arr?
    && var plans, plans' := s.fields["plans"].items, s'.fields["plans"].items;
       |plans| == |plans'| && forall i :: 0 <= i < |plans| ==> RelPlan(plans[i], plans'[i])
  }

  ghost predicate RelServices(services: seq<Json>, services': seq<Json>) {
    |services| == |services'| && forall i :: 0 <= i < |services| ==> RelService(services[i], services'[i])
  }

  ghost predicate RelCatalogBody(b: Json, b': Json) {
    b == b' ||
    (b.Obj? && b'.Obj? && b.fields - {"services"} == b'.fields - {"services"} &&
     Get(b.fields, "services").Arr? && Get(b'.fields, "services").Arr? &&
     RelServices(b.fields["services"].items, b'.fields["services"].items))
  }

  /** Catalog responses are equal, except that one may offer the services under other identifiers. */
  ghost predicate RelCatalog(c: Json, c': Json) {
    c == c' ||
    (c.Obj? && c'.Obj? && c.fields - {"body"} == c'.fields - {"body"} &&
     Get(c.fields, "body").Obj? && RelCatalogBody(Get(c.fields, "body"), Get(c'.fields, "body")))
  }

  ghost predicate RelBehaviors(rho: string -> string, b: Json, b': Json) {
    if b.Obj? then
      && b'.Obj? && b.fields.Keys == b'.fields.Keys
      && ("catalog" in b.fields ==> RelCatalog(b.fields["catalog"], b'.fields["catalog"]))
      && forall a :: a in b.fields && a != "catalog" ==> RelTable(rho, a, b.fields[a], b'.fields[a])
    else b' == b
  }

  ghost predicate RelConfig(rho: string -> string, c: Fields, c': Fields) {
    && c.Keys == c'.Keys
    && (forall k :: k in c && k != "behaviors" ==> c'[k] == c[k])
    && RelBehaviors(rho, Get(c, "behaviors"), Get(c', "behaviors"))
  }

  function RenEntry(rho: string -> string, e: Entry): Entry {
    match e
    case Instance(p, count, deleted) => Instance(RenBody(rho, p), count, deleted)
    case Binding(b, i) => Binding(RenBody(rho, b), i)
  }

  function RenEntries(rho: string -> string, entries: map<string, Entry>): map<string, Entry> {
    map id | id in entries :: RenEntry(rho, entries[id])
  }

  ghost predicate RelData(rho: string -> string, d: Data, d': Data) {
    RelConfig(rho, d.config, d'.config) && d'.entries == RenEntries(rho, d.entries)
  }

  /** Related answers to a request that the original broker received holding `d`: the same
      status, and the same body, except that a catalog may offer other identifiers, stored
      provision data and bindings appear with their plan renamed, and dumps of related
      configurations are related. */
  ghost predicate RelReply(rho: string -> string, d: Data, r: Request, x: Reply, x': Reply) {
    match r
    case Catalog => x == x' || (SameStatus(x, x') && RelCatalogBody(x.body.json, x'.body.json))
    case FetchInstance(_) =>
      if x.Raised? then x'.Raised?
      else x.body.AsJson? && x' == Reply(x.status, AsJson(RenBody(rho, x.body.json)))
    case FetchBinding(_, b) => RelFetch(rho, b in d.entries && NamesPlan(d.entries[b]), x, x')
    case DumpAll => RelDump(rho, x, x')
    case DumpConfig => RelDump(rho, x, x')
    case PostConfig(_) => RelDump(rho, x, x')
    case Reset => RelDump(rho, x, x')
    case _ => x == x'
  }

  /** Both answer with JSON, under the same status. */
  predicate SameStatus(x: Reply, x': Reply) {
    x.Reply? && x'.Reply? && x.status == x'.status && x.body.AsJson? && x'.body.AsJson?
  }

  /** The data of a binding says which plan it is for. */
  predicate NamesPlan(e: Entry) {
    e.Binding? && e.bindingData.Obj? && "plan_id" in e.bindingData.fields
  }

  /** A binding whose data names its plan is answered with that plan renamed; otherwise the
      plan in the answer is whatever an earlier fetch or the configuration left there. */
  ghost predicate RelFetch(rho: string -> string, named: bool, x: Reply, x': Reply) {
    x == ASYNC_REQUIRED == x' || (x.Raised? && x'.Raised?) ||
    (SameStatus(x, x') && RelBody(rho, x.body.json, x'.body.json) && (named ==> x'.body.json == RenBody(rho, x.body.json)))
  }

  ghost predicate RelDump(rho: string -> string, x: Reply, x': Reply) {
    if x.Raised? then x'.Raised?
    else
      && x'.Reply? && x.status == x'.status
      && x.body.AsJson? && x.body.json.Obj? && x'.body.AsJson? && x'.body.json.Obj?
      && var m, m' := x.body.json.fields, x'.body.json.fields;
         && RelConfig(rho, m - {INSTANCES}, m' - {INSTANCES})
         && (INSTANCES in m <==> INSTANCES in m')
         && (INSTANCES in m ==> exists entries :: m[INSTANCES] == EntriesJson(entries) && m'[INSTANCES] == EntriesJson(RenEntries(rho, entries)))
  }

  // ----- lookups -----

  lemma PlanOfRenamed(rho: string -> string, body: Json)
    requires Renaming(rho)
    ensures Index(body, "plan_id").Raise? ==> Index(RenBody(rho, body), "plan_id").Raise?
    ensures Index(body, "plan_id").Ok? ==>
      Index(RenBody(rho, body), "plan_id") == Ok(RenPlan(rho, Index(body, "plan_id").value))
  {
  }

  lemma ForPlanRelated(rho: string -> string, t: Json, t': Json, action: string, plan: Json)
    requires Renaming(rho) && RelTable(rho, action, t, t')
    ensures ForPlan(t, plan).Ok? <==> ForPlan(t', RenPlan(rho, plan)).Ok?
    ensures ForPlan(t, plan).Ok? ==> RelResponse(rho, action, ForPlan(t, plan).value, ForPlan(t', RenPlan(rho, plan)).value)
  {
  }

  lemma LookupRelated(rho: string -> string, c: Fields, c': Fields, action: string, plan: Json)
    requires Renaming(rho) && RelConfig(rho, c, c') && action != "catalog"
    ensures BehaviorFor(c, action, plan).Ok? <==> BehaviorFor(c', action, RenPlan(rho, plan)).Ok?
    ensures BehaviorFor(c, action, plan).Ok? ==>
      RelResponse(rho, action, BehaviorFor(c, action, plan).value, BehaviorFor(c', action, RenPlan(rho, plan)).value)
  {
    var b, b' := Get(c, "behaviors"), Get(c', "behaviors");
    if b.Obj? && action in b.fields {
      ForPlanRelated(rho, b.fields[action], b'.fields[action], action, plan);
    } else if b.Str? {
      ForPlanRelated(rho, Str(action), Str(action), action, plan);
    }
  }

  lemma AnswerRelated(rho: string -> string, c: Fields, c': Fields, action: string, body: Json, accepts: bool)
    requires Renaming(rho) && RelConfig(rho, c, c') && action != "catalog" && action != FETCH_BINDING
    ensures Answer(c, action, Index(body, "plan_id"), accepts) == Answer(c', action, Index(RenBody(rho, body), "plan_id"), accepts)
  {
    PlanOfRenamed(rho, body);
    if Index(body, "plan_id").Ok? {
      LookupRelated(rho, c, c', action, Index(body, "plan_id").value);
    }
  }

  lemma NoPlanRelated(rho: string -> string, c: Fields, c': Fields, action: string, accepts: bool)
    requires Renaming(rho) && RelConfig(rho, c, c') && action != "catalog" && action != FETCH_BINDING
    ensures Answer(c, action, Ok(Null), accepts) == Answer(c', action, Ok(Null), accepts)
  {
  }

  lemma CatalogAnswerRelated(rho: string -> string, c: Fields, c': Fields, x: Reply, x': Reply)
    requires RelConfig(rho, c, c')
    requires x == Answer(c, "catalog", Ok(Null), false) && x' == Answer(c', "catalog", Ok(Null), false)
    ensures x == x' || (SameStatus(x, x') && RelCatalogBody(x.body.json, x'.body.json))
  {
    var b, b' := Get(c, "behaviors"), Get(c', "behaviors");
    if b.Obj? && "catalog" in b.fields {
      CatalogResponseRelated(b.fields["catalog"], b'.fields["catalog"]);
    }
  }

  lemma CatalogResponseRelated(r: Json, r': Json)
    requires RelCatalog(r, r')
    ensures var x, x' := Respond(r, false), Respond(r', false);
      x == x' || (SameStatus(x, x') && RelCatalogBody(x.body.json, x'.body.json))
  {
    if r != r' {
      var m, m' := r.fields, r'.fields;
      forall k | k != "body"
        ensures Get(m, k) == Get(m', k)
      {
        assert Get(m - {"body"}, k) == Get(m' - {"body"}, k);
      }
    }
  }

  // ----- requests about one entry -----

  lemma EntryUpdated(rho: string -> string, entries: map<string, Entry>, id: string, e: Entry)
    ensures RenEntries(rho, entries[id := e]) == RenEntries(rho, entries)[id := RenEntry(rho, e)]
  {
  }

  lemma PollReplyRelated(rho: string -> string, c: Fields, c': Fields, plan: Json, count: real)
    requires Renaming(rho) && RelConfig(rho, c, c')
    ensures PollReply(c, plan, count) == PollReply(c', RenPlan(rho, plan), count)
  {
    LookupRelated(rho, c, c', "fetch", plan);
    assert Get(c, MAX_FETCH) == Get(c', MAX_FETCH);
  }

  /** The poll finds an instance whose plan and counter can be read. */
  predicate Polls(d: Data, id: string) {
    id in d.entries && d.entries[id].Instance? && d.entries[id].fetchCount.Num? && Index(d.entries[id].provisionData, "plan_id").Ok?
  }

  lemma PollCounted(rho: string -> string, d: Data, d': Data, id: string)
    requires Renaming(rho) && d'.entries == RenEntries(rho, d.entries) && Polls(d, id)
    ensures Polls(d', id)
    ensures DoPoll(d', id).0 == Data(d'.config, RenEntries(rho, DoPoll(d, id).0.entries)) && DoPoll(d, id).0.config == d.config
    ensures
      var plan, count := Index(d.entries[id].provisionData, "plan_id").value, d.entries[id].fetchCount.n + 1.0;
      DoPoll(d, id).1 == PollReply(d.config, plan, count) && DoPoll(d', id).1 == PollReply(d'.config, RenPlan(rho, plan), count)
  {
    var Instance(p, count, deleted) := d.entries[id];
    PlanOfRenamed(rho, p);
    EntryUpdated(rho, d.entries, id, Instance(p, Num(count.n + 1.0), deleted));
  }

  lemma PollNotCounted(rho: string -> string, d: Data, d': Data, id: string)
    requires Renaming(rho) && d'.entries == RenEntries(rho, d.entries) && !Polls(d, id)
    ensures DoPoll(d, id).0 == d && DoPoll(d', id).0 == d' && DoPoll(d, id).1 == DoPoll(d', id).1
  {
    if id in d.entries && d.entries[id].Instance? {
      PlanOfRenamed(rho, d.entries[id].provisionData);
    }
  }

  lemma PollRelated(rho: string -> string, d: Data, d': Data, id: string)
    requires Renaming(rho) && RelData(rho, d, d')
    ensures RelData(rho, DoPoll(d, id).0, DoPoll(d', id).0) && DoPoll(d, id).1 == DoPoll(d', id).1
  {
    if Polls(d, id) {
      PollCounted(rho, d, d', id);
      PollReplyRelated(rho, d.config, d'.config,
        Index(d.entries[id].provisionData, "plan_id").value, d.entries[id].fetchCount.n + 1.0);
    } else {
      PollNotCounted(rho, d, d', id);
    }
  }

  lemma ProvisionRelated(rho: string -> string, d: Data, d': Data, id: string, body: Json, accepts: bool)
    requires Renaming(rho) && RelData(rho, d, d')
    ensures
      var x, x' := DoProvision(d, id, body, accepts), DoProvision(d', id, RenBody(rho, body), accepts);
      RelData(rho, x.0, x'.0) && x.1 == x'.1
  {
    AnswerRelated(rho, d.config, d'.config, "provision", body, accepts);
    EntryUpdated(rho, d.entries, id, NewInstance(body));
  }

  lemma BindRelated(rho: string -> string, d: Data, d': Data, id: string, bindingId: string, body: Json, accepts: bool)
    requires Renaming(rho) && RelData(rho, d, d')
    ensures
      var x, x' := DoBind(d, id, bindingId, body, accepts), DoBind(d', id, bindingId, RenBody(rho, body), accepts);
      RelData(rho, x.0, x'.0) && x.1 == x'.1
  {
    AnswerRelated(rho, d.config, d'.config, "bind", body, accepts);
    EntryUpdated(rho, d.entries, bindingId, Binding(body, id));
  }

  lemma OverlayRenamed(rho: string -> string, p: Json, body: Json)
    ensures RenBody(rho, Overlay(p, body)) == Overlay(RenBody(rho, p), RenBody(rho, body))
  {
  }

  lemma UpdateBehaviorRelated(rho: string -> string, c: Fields, c': Fields, body: Json)
    requires Renaming(rho) && RelConfig(rho, c, c')
    ensures UpdateBehavior(c, body) == UpdateBehavior(c', RenBody(rho, body))
  {
    PlanOfRenamed(rho, body);
    if Index(body, "plan_id").Ok? {
      LookupRelated(rho, c, c', "update", Index(body, "plan_id").value);
    }
  }

  lemma UpdateRelated(rho: string -> string, d: Data, d': Data, id: string, body: Json, accepts: bool)
    requires Renaming(rho) && RelData(rho, d, d')
    ensures
      var x, x' := DoUpdate(d, id, body, accepts), DoUpdate(d', id, RenBody(rho, body), accepts);
      RelData(rho, x.0, x'.0) && x.1 == x'.1
  {
    UpdateBehaviorRelated(rho, d.config, d'.config, body);
    if id in d.entries && d.entries[id].Instance? {
      OverlayRenamed(rho, d.entries[id].provisionData, body);
      EntryUpdated(rho, d.entries, id, Instance(Overlay(d.entries[id].provisionData, body), Num(0.0), d.entries[id].deleted));
    }
  }

  lemma DeprovisionRelated(rho: string -> string, d: Data, d': Data, id: string, accepts: bool)
    requires Renaming(rho) && RelData(rho, d, d')
    ensures
      var x, x' := DoDeprovision(d, id, accepts), DoDeprovision(d', id, accepts);
      RelData(rho, x.0, x'.0) && x.1 == x'.1
  {
    NoPlanRelated(rho, d.config, d'.config, "deprovision", accepts);
    if id in d.entries && d.entries[id].Instance? {
      AnswerRelated(rho, d.config, d'.config, "deprovision", d.entries[id].provisionData, accepts);
      EntryUpdated(rho, d.entries, id, Instance(d.entries[id].provisionData, Num(0.0), Bool(true)));
    }
  }

  lemma FetchInstanceRelated(rho: string -> string, d: Data, d': Data, id: string)
    requires RelData(rho, d, d')
    ensures RelReply(rho, d, FetchInstance(id), DoFetchInstance(d, id), DoFetchInstance(d', id))
  {
  }

  lemma UnbindRelated(rho: string -> string, d: Data, d': Data, bindingId: string, accepts: bool)
    requires Renaming(rho) && RelData(rho, d, d')
    ensures
      var x, x' := DoUnbind(d, bindingId, accepts), DoUnbind(d', bindingId, accepts);
      RelData(rho, x.0, x'.0) && x.1 == x'.1
  {
    NoPlanRelated(rho, d.config, d'.config, "unbind", accepts);
    if bindingId in d.entries {
      assert RenEntries(rho, d.entries - {bindingId}) == RenEntries(rho, d.entries) - {bindingId};
      if d.entries[bindingId].Binding? {
        AnswerRelated(rho, d.config, d'.config, "unbind", d.entries[bindingId].bindingData, accepts);
      }
    }
  }

  // ----- binding fetches -----

  lemma TableRelated(rho: string -> string, c: Fields, c': Fields)
    requires RelConfig(rho, c, c')
    ensures TableOf(c, FETCH_BINDING).Some? <==> TableOf(c', FETCH_BINDING).Some?
    ensures TableOf(c, FETCH_BINDING).Some? ==>
      RelTable(rho, FETCH_BINDING, Obj(TableOf(c, FETCH_BINDING).value), Obj(TableOf(c', FETCH_BINDING).value))
  {
  }

  lemma TargetRelated(rho: string -> string, c: Fields, c': Fields, data: Json)
    requires Renaming(rho) && RelConfig(rho, c, c')
    ensures FetchTarget(c, data).Some? <==> FetchTarget(c', RenBody(rho, data)).Some?
    ensures FetchTarget(c, data).Some? ==>
      var t, t' := FetchTarget(c, data).value, FetchTarget(c', RenBody(rho, data)).value;
      t'.0 == rho(t.0) && RelFields(rho, t.1, t'.1)
  {
    PlanOfRenamed(rho, data);
    TableRelated(rho, c, c');
    if Index(data, "plan_id").Ok? {
      LookupRelated(rho, c, c', FETCH_BINDING, Index(data, "plan_id").value);
    }
  }

  lemma MergedBody(rho: string -> string, b: Json, b': Json, data: Json)
    requires b.Obj? && data.Obj? && RelBody(rho, b, b')
    ensures b'.Obj? && RelBody(rho, Overlay(b, data), Overlay(b', RenBody(rho, data)))
    ensures "plan_id" in data.fields ==> Overlay(b', RenBody(rho, data)) == RenBody(rho, Overlay(b, data))
  {
    var x, x' := Overlay(b, data).fields, Overlay(b', RenBody(rho, data)).fields;
    assert x.Keys == x'.Keys;
    assert forall k :: k in x && k != "plan_id" ==> x'[k] == x[k];
    if "plan_id" in data.fields {
      assert x' == x["plan_id" := RenPlan(rho, x["plan_id"])];
    }
  }

  lemma MergedRelated(rho: string -> string, m: Fields, m': Fields, data: Json)
    requires RelFields(rho, m, m') && Get(m, "body").Obj? && data.Obj?
    ensures Get(m', "body").Obj?
    ensures "plan_id" in data.fields ==> Overlay(m'["body"], RenBody(rho, data)) == RenBody(rho, Overlay(m["body"], data))
    ensures RelFields(rho, m["body" := Overlay(m["body"], data)], m'["body" := Overlay(m'["body"], RenBody(rho, data))])
  {
    MergedBody(rho, m["body"], m'["body"], data);
  }

  lemma SlotWritten(rho: string -> string, t: Fields, t': Fields, slot: string, r: Json, r': Json)
    requires Renaming(rho) && RelTable(rho, FETCH_BINDING, Obj(t), Obj(t')) && RelResponse(rho, FETCH_BINDING, r, r')
    ensures RelTable(rho, FETCH_BINDING, Obj(t[slot := r]), Obj(t'[rho(slot) := r']))
  {
    var u, u' := t[slot := r], t'[rho(slot) := r'];
    forall k
      ensures k in u <==> rho(k) in u'
      ensures k in u ==> RelResponse(rho, FETCH_BINDING, u[k], u'[rho(k)])
    {
      assert rho(k) == rho(slot) ==> rho(rho(k)) == rho(rho(slot));
    }
  }

  lemma TableReplaced(rho: string -> string, c: Fields, c': Fields, t: Fields, t': Fields)
    requires RelConfig(rho, c, c') && TableOf(c, FETCH_BINDING).Some? && TableOf(c', FETCH_BINDING).Some?
    requires RelTable(rho, FETCH_BINDING, Obj(t), Obj(t'))
    ensures RelConfig(rho, WithTable(c, FETCH_BINDING, t), WithTable(c', FETCH_BINDING, t'))
  {
  }

  lemma WithTableRelated(rho: string -> string, c: Fields, c': Fields, slot: string, m: Fields, m': Fields)
    requires Renaming(rho) && RelConfig(rho, c, c') && TableOf(c, FETCH_BINDING).Some? && TableOf(c', FETCH_BINDING).Some?
    requires RelFields(rho, m, m')
    ensures RelConfig(rho,
      WithTable(c, FETCH_BINDING, TableOf(c, FETCH_BINDING).value[slot := Obj(m)]),
      WithTable(c', FETCH_BINDING, TableOf(c', FETCH_BINDING).value[rho(slot) := Obj(m')]))
  {
    TableRelated(rho, c, c');
    var t, t' := TableOf(c, FETCH_BINDING).value, TableOf(c', FETCH_BINDING).value;
    SlotWritten(rho, t, t', slot, Obj(m), Obj(m'));
    TableReplaced(rho, c, c', t[slot := Obj(m)], t'[rho(slot) := Obj(m')]);
  }

  /** What a fetch answers from merged responses, `named` telling whether the binding's data
      named its plan. */
  lemma RespondRelated(rho: string -> string, named: bool, m: Fields, m': Fields)
    requires RelFields(rho, m, m') && Get(m, "body").Obj?
    requires named ==> m'["body"] == RenBody(rho, m["body"])
    ensures RelFetch(rho, named, Respond(Obj(m), false), Respond(Obj(m'), false))
  {
  }

  /** A fetch either raises, or writes one merged response and answers with it. */
  lemma FetchCases(d: Data, bindingId: string, m: Fields, slot: string)
    requires bindingId in d.entries && d.entries[bindingId].Binding?
    requires FetchTarget(d.config, d.entries[bindingId].bindingData) == Some((slot, m))
    ensures TableOf(d.config, FETCH_BINDING).Some? && Get(m, "body").Obj? && d.entries[bindingId].bindingData.Obj?
    ensures var merged := m["body" := Overlay(m["body"], d.entries[bindingId].bindingData)];
      DoFetchBinding(d, bindingId) ==
        (d.(config := WithTable(d.config, FETCH_BINDING, TableOf(d.config, FETCH_BINDING).value[slot := Obj(merged)])),
         Respond(Obj(merged), false))
  {
  }

  lemma FetchRelated(rho: string -> string, d: Data, d': Data, bindingId: string)
    requires Renaming(rho) && RelData(rho, d, d')
    ensures RelData(rho, DoFetchBinding(d, bindingId).0, DoFetchBinding(d', bindingId).0)
    ensures RelFetch(rho, bindingId in d.entries && NamesPlan(d.entries[bindingId]),
                     DoFetchBinding(d, bindingId).1, DoFetchBinding(d', bindingId).1)
  {
    if bindingId in d.entries && d.entries[bindingId].Binding? {
      var data := d.entries[bindingId].bindingData;
      TargetRelated(rho, d.config, d'.config, data);
      if FetchTarget(d.config, data).Some? {
        var (slot, m) := FetchTarget(d.config, data).value;
        var (slot', m') := FetchTarget(d'.config, RenBody(rho, data)).value;
        FetchCases(d, bindingId, m, slot);
        FetchCases(d', bindingId, m', slot');
        MergedRelated(rho, m, m', data);
        var x, x' := m["body" := Overlay(m["body"], data)], m'["body" := Overlay(m'["body"], RenBody(rho, data))];
        WithTableRelated(rho, d.config, d'.config, slot, x, x');
        RespondRelated(rho, NamesPlan(d.entries[bindingId]), x, x');
      }
    }
  }

  // ----- configuration posts -----

  lemma {:induction false} PostFieldsRenamed(rho: string -> string, pairs: seq<(string, Json)>)
    ensures PostFields(RenPairs(rho, pairs)).Keys == PostFields(pairs).Keys
    ensures forall k :: k in PostFields(pairs) ==> PostFields(RenPairs(rho, pairs))[k] == RenMember(rho, k, PostFields(pairs)[k])
    decreases |pairs|
  {
    if pairs != [] {
      PostFieldsRenamed(rho, pairs[..|pairs| - 1]);
      assert RenPairs(rho, pairs)[..|pairs| - 1] == RenPairs(rho, pairs[..|pairs| - 1]);
    }
  }

  lemma PostedRenamed(rho: string -> string, j: Json)
    ensures PostedInstances(j).Ok? <==> PostedInstances(RenMember(rho, INSTANCES, j)).Ok?
    ensures PostedInstances(j).Ok? ==> PostedInstances(RenMember(rho, INSTANCES, j)).value == RenEntries(rho, PostedInstances(j).value)
  {
    if j.Obj? {
      var m, m' := j.fields, RenMember(rho, INSTANCES, j).fields;
      assert forall id :: id in m ==> (IsPostedInstance(m'[id]) <==> IsPostedInstance(m[id]));
      if PostedInstances(j).Ok? {
        forall id | id in m
          ensures PostedInstance(m'[id].fields) == RenEntry(rho, PostedInstance(m[id].fields))
        {
        }
      }
    }
  }

  lemma PostedBehaviors(rho: string -> string, value: Json)
    requires Renaming(rho)
    ensures RelBehaviors(rho, value, RenMember(rho, "behaviors", value))
  {
  }

  lemma BehaviorsOverlaid(rho: string -> string, b: Json, b': Json, v: Json, v': Json)
    requires b.Obj? && v.Obj? && RelBehaviors(rho, b, b') && RelBehaviors(rho, v, v')
    ensures RelBehaviors(rho, Overlay(b, v), Overlay(b', v'))
  {
  }

  lemma ConfigMember(rho: string -> string, c: Fields, c': Fields, b: Json, b': Json)
    requires RelConfig(rho, c, c') && RelBehaviors(rho, b, b')
    ensures RelConfig(rho, c["behaviors" := b], c'["behaviors" := b'])
  {
  }

  lemma BehaviorsMember(rho: string -> string, c: Fields, c': Fields, value: Json)
    requires Renaming(rho) && RelConfig(rho, c, c') && Merges(c, "behaviors", value)
    ensures Get(c', "behaviors").Obj? <==> Get(c, "behaviors").Obj?
    ensures Merges(c', "behaviors", RenMember(rho, "behaviors", value))
    ensures RelConfig(rho,
      c["behaviors" := MergeValue(Get(c, "behaviors"), value)],
      c'["behaviors" := MergeValue(Get(c', "behaviors"), RenMember(rho, "behaviors", value))])
  {
    var value' := RenMember(rho, "behaviors", value);
    PostedBehaviors(rho, value);
    if Get(c, "behaviors").Obj? {
      BehaviorsOverlaid(rho, Get(c, "behaviors"), Get(c', "behaviors"), value, value');
    }
    ConfigMember(rho, c, c', MergeValue(Get(c, "behaviors"), value), MergeValue(Get(c', "behaviors"), value'));
  }

  lemma OtherMember(rho: string -> string, c: Fields, c': Fields, key: string, value: Json)
    requires RelConfig(rho, c, c') && key != "behaviors"
    ensures Get(c, key) == Get(c', key) && RelConfig(rho, c[key := value], c'[key := value])
  {
  }

  lemma ConfigMemberRelated(rho: string -> string, c: Fields, c': Fields, key: string, value: Json)
    requires Renaming(rho) && RelConfig(rho, c, c') && key != INSTANCES
    ensures Merges(c, key, value) <==> Merges(c', key, RenMember(rho, key, value))
    ensures Merges(c, key, value) ==>
      RelConfig(rho, c[key := MergeValue(Get(c, key), value)], c'[key := MergeValue(Get(c', key), RenMember(rho, key, value))])
  {
    if key != "behaviors" {
      OtherMember(rho, c, c', key, MergeValue(Get(c, key), value));
    } else if Merges(c, key, value) {
      BehaviorsMember(rho, c, c', value);
    }
  }

  lemma MemberRelated(rho: string -> string, d: Data, d': Data, key: string, value: Json, posted: map<string, Entry>)
    requires Renaming(rho) && RelData(rho, d, d')
    ensures
      var x, x' := MergePair(d, key, value, posted), MergePair(d', key, RenMember(rho, key, value), RenEntries(rho, posted));
      (x.Ok? <==> x'.Ok?) && (x.Ok? ==> RelData(rho, x.value, x'.value))
  {
    if key == INSTANCES {
      assert RenEntries(rho, d.entries + posted) == RenEntries(rho, d.entries) + RenEntries(rho, posted);
    } else {
      ConfigMemberRelated(rho, d.config, d'.config, key, value);
    }
  }

  lemma {:induction false} MergeRelated(rho: string -> string, d: Data, d': Data, pairs: seq<(string, Json)>, posted: map<string, Entry>)
    requires Renaming(rho) && RelData(rho, d, d')
    ensures
      var x, x' := MergePairs(d, pairs, posted), MergePairs(d', RenPairs(rho, pairs), RenEntries(rho, posted));
      RelData(rho, x.0, x'.0) && x.1 == x'.1
    decreases |pairs|
  {
    if pairs != [] {
      var init, last := pairs[..|pairs| - 1], pairs[|pairs| - 1];
      assert RenPairs(rho, pairs)[..|pairs| - 1] == RenPairs(rho, init);
      MergeRelated(rho, d, d', init, posted);
      MemberRelated(rho, MergePairs(d, init, posted).0, MergePairs(d', RenPairs(rho, init), RenEntries(rho, posted)).0,
        last.0, last.1, posted);
    }
  }

  lemma PostRelated(rho: string -> string, d: Data, d': Data, post: Post)
    requires Renaming(rho) && RelData(rho, d, d')
    ensures
      var x, x' := DoMerge(d, post), DoMerge(d', RenPost(rho, post));
      RelData(rho, x.0, x'.0) && x.1 == x'.1
  {
    PostFieldsRenamed(rho, post);
    if INSTANCES in PostFields(post) {
      PostedRenamed(rho, PostFields(post)[INSTANCES]);
    }
    assert RenEntries(rho, map[]) == map[];
    if PostedInstancesOf(post).Ok? {
      MergeRelated(rho, d, d', post, PostedInstancesOf(post).value);
    }
  }

  lemma DumpRelated(rho: string -> string, d: Data, d': Data)
    requires RelData(rho, d, d')
    ensures RelDump(rho, ConfigReply(d), ConfigReply(d'))
    ensures RelDump(rho, Reply(OK_STATUS, AsJson(Obj(AllFields(d)))), Reply(OK_STATUS, AsJson(Obj(AllFields(d')))))
  {
  }

  // ----- one request, and runs -----

  lemma InstanceStepRelated(rho: string -> string, file: Data, file': Data, d: Data, d': Data, r: Request)
    requires Renaming(rho) && RelData(rho, d, d')
    requires r.Provision? || r.Poll? || r.Update? || r.Deprovision? || r.FetchInstance?
    ensures RelData(rho, Step(file, d, r).0, Step(file', d', RenRequest(rho, r)).0)
    ensures RelReply(rho, d, r, Step(file, d, r).1, Step(file', d', RenRequest(rho, r)).1)
  {
    match r {
      case Provision(id, body, accepts) => ProvisionRelated(rho, d, d', id, body, accepts);
      case Poll(id) => PollRelated(rho, d, d', id);
      case Update(id, body, accepts) => UpdateRelated(rho, d, d', id, body, accepts);
      case Deprovision(id, accepts) => DeprovisionRelated(rho, d, d', id, accepts);
      case FetchInstance(id) => FetchInstanceRelated(rho, d, d', id);
    }
  }

  lemma BindingStepRelated(rho: string -> string, file: Data, file': Data, d: Data, d': Data, r: Request)
    requires Renaming(rho) && RelData(rho, d, d')
    requires r.Bind? || r.Unbind? || r.FetchBinding? || r.PollBinding?
    ensures RelData(rho, Step(file, d, r).0, Step(file', d', RenRequest(rho, r)).0)
    ensures RelReply(rho, d, r, Step(file, d, r).1, Step(file', d', RenRequest(rho, r)).1)
  {
    match r {
      case Bind(id, b, body, accepts) => BindRelated(rho, d, d', id, b, body, accepts);
      case Unbind(_, b, accepts) => UnbindRelated(rho, d, d', b, accepts);
      case FetchBinding(_, b) => FetchRelated(rho, d, d', b);
      case PollBinding(_, _) =>
    }
  }

  lemma MergeReplyRelated(rho: string -> string, x: (Data, bool), x': (Data, bool), reply: Reply, reply': Reply)
    requires RelData(rho, x.0, x'.0) && x.1 == x'.1
    requires reply == (if x.1 then ConfigReply(x.0) else Raised) && reply' == if x'.1 then ConfigReply(x'.0) else Raised
    ensures RelDump(rho, reply, reply')
  {
    DumpRelated(rho, x.0, x'.0);
  }

  lemma PostStepRelated(rho: string -> string, file: Data, file': Data, d: Data, d': Data, post: Post)
    requires Renaming(rho) && RelData(rho, d, d')
    ensures RelData(rho, Step(file, d, PostConfig(post)).0, Step(file', d', PostConfig(RenPost(rho, post))).0)
    ensures RelDump(rho, Step(file, d, PostConfig(post)).1, Step(file', d', PostConfig(RenPost(rho, post))).1)
  {
    PostRelated(rho, d, d', post);
    MergeReplyRelated(rho, DoMerge(d, post), DoMerge(d', RenPost(rho, post)),
      Step(file, d, PostConfig(post)).1, Step(file', d', PostConfig(RenPost(rho, post))).1);
  }

  lemma ConfigStepRelated(rho: string -> string, file: Data, file': Data, d: Data, d': Data, r: Request)
    requires Renaming(rho) && RelData(rho, file, file') && RelData(rho, d, d')
    requires r.Catalog? || r.DumpAll? || r.DumpConfig? || r.PostConfig? || r.Reset?
    ensures RelData(rho, Step(file, d, r).0, Step(file', d', RenRequest(rho, r)).0)
    ensures RelReply(rho, d, r, Step(file, d, r).1, Step(file', d', RenRequest(rho, r)).1)
  {
    match r {
      case Catalog =>
        CatalogAnswerRelated(rho, d.config, d'.config, Step(file, d, r).1, Step(file', d', r).1);
      case DumpAll => DumpRelated(rho, d, d');
      case DumpConfig => DumpRelated(rho, d, d');
      case PostConfig(post) => PostStepRelated(rho, file, file', d, d', post);
      case Reset => DumpRelated(rho, file, file');
    }
  }

  lemma StepRelated(rho: string -> string, file: Data, file': Data, d: Data, d': Data, r: Request)
    requires Renaming(rho) && RelData(rho, file, file') && RelData(rho, d, d')
    ensures RelData(rho, Step(file, d, r).0, Step(file', d', RenRequest(rho, r)).0)
    ensures RelReply(rho, d, r, Step(file, d, r).1, Step(file', d', RenRequest(rho, r)).1)
  {
    if r.Provision? || r.Poll? || r.Update? || r.Deprovision? || r.FetchInstance? {
      InstanceStepRelated(rho, file, file', d, d', r);
    } else if r.Bind? || r.Unbind? || r.FetchBinding? || r.PollBinding? {
      BindingStepRelated(rho, file, file', d, d', r);
    } else {
      ConfigStepRelated(rho, file, file', d, d', r);
    }
  }

  /** After every run the two brokers hold related data. */
  lemma {:induction false} RunRelated(rho: string -> string, file: Data, file': Data, d: Data, d': Data, rs: seq<Request>)
    requires Renaming(rho) && RelData(rho, file, file') && RelData(rho, d, d')
    ensures RelData(rho, After(file, d, rs), After(file', d', RenRun(rho, rs)))
    decreases |rs|
  {
    if rs != [] {
      var init, last := rs[..|rs| - 1], rs[|rs| - 1];
      assert RenRun(rho, rs)[..|rs| - 1] == RenRun(rho, init);
      RunRelated(rho, file, file', d, d', init);
      StepRelated(rho, file, file', After(file, d, init), After(file', d', RenRun(rho, init)), last);
    }
  }

  /** Step by step, the renamed run is answered as the original run. */
  lemma Simulation(rho: string -> string, file: Data, file': Data, d: Data, d': Data, rs: seq<Request>, k: nat)
    requires Renaming(rho) && RelData(rho, file, file') && RelData(rho, d, d') && k < |rs|
    ensures RelReply(rho, After(file, d, rs[..k]), rs[k], ReplyAt(file, d, rs, k), ReplyAt(file', d', RenRun(rho, rs), k))
  {
    assert RenRun(rho, rs)[..k] == RenRun(rho, rs[..k]);
    RunRelated(rho, file, file', d, d', rs[..k]);
    StepRelated(rho, file, file', After(file, d, rs[..k]), After(file', d', RenRun(rho, rs[..k])), rs[k]);
  }
}
