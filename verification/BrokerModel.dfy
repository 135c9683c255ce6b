/** What each broker request does to the broker's data and what it answers
    (assets/service_broker/service_broker.rb), as functions on values. The classes in
    module ServiceBroker are proved against these functions, and the theorems about
    runs are proved about them. */
module BrokerModel {
  import opened JsonValues

  const FETCH_BINDING := "fetch_service_binding"
  const INSTANCES := "service_instances"
  const MAX_FETCH := "max_fetch_service_instance_requests"

  /** A value of the `service_instances` hash: an instance, or a binding kept in the same hash. */
  datatype Entry =
    | Instance(provisionData: Json, fetchCount: Json, deleted: Json)
    | Binding(bindingData: Json, instanceId: string)

  /** The broker's whole data: `entries` is the `service_instances` hash, `config` holds
      every other top-level key. */
  datatype Data = Data(config: Fields, entries: map<string, Entry>)

  datatype Body = AsJson(json: Json) | AsRaw(raw: Json)

  /** `Raised` is the error page. `status` is the value handed to the web framework. */
  datatype Reply = Reply(status: Json, body: Body) | Raised

  ghost predicate DistinctKeys(pairs: seq<(string, Json)>) {
    forall i, j :: 0 <= i < j < |pairs| ==> pairs[i].0 != pairs[j].0
  }

  /** A posted JSON object with its members in order. */
  type Post = pairs: seq<(string, Json)> | DistinctKeys(pairs) witness []

  /** `accepts` tells whether the `accepts_incomplete` parameter is present. */
  datatype Request =
    | Catalog
    | Provision(id: string, body: Json, accepts: bool)
    | Poll(id: string)
    | PollBinding(id: string, bindingId: string)
    | Update(id: string, body: Json, accepts: bool)
    | Deprovision(id: string, accepts: bool)
    | Bind(id: string, bindingId: string, body: Json, accepts: bool)
    | Unbind(id: string, bindingId: string, accepts: bool)
    | FetchInstance(id: string)
    | FetchBinding(id: string, bindingId: string)
    | DumpAll
    | DumpConfig
    | PostConfig(post: Post)
    | Reset

  // ----- looking up a behaviour -----

  function BehaviorFor(config: Fields, action: string, plan: Json): Ruby<Json> {
    var table :- Index(Get(config, "behaviors"), action);
    if action == "catalog" then Ok(table)
    else if !Truthy(table) then Raise
    else ForPlan(table, plan)
  }

  function ForPlan(table: Json, plan: Json): Ruby<Json> {
    if Truthy(plan) && !table.Obj? then Raise
    else if plan.Str? && plan.s in table.fields then Ok(table.fields[plan.s])
    else
      var fallback :- Index(table, "default");
      if Truthy(fallback) then Ok(fallback) else Raise
  }

  function MaxFetch(config: Fields): Json {
    if Truthy(Get(config, MAX_FETCH)) then Get(config, MAX_FETCH) else Num(1.0)
  }

  // ----- answering from a behaviour -----

  const OK_STATUS := Num(200.0)

  const ASYNC_REQUIRED :=
    Reply(Num(422.0), AsJson(Obj(map[
      "error" := Str("AsyncRequired"),
      "description" := Str("This service plan requires client support for asynchronous service operations.")])))

  predicate CanSleep(j: Json) {
    j.Num? && j.n >= 0.0
  }

  /** `sleep behavior['sleep_seconds']` succeeds. */
  predicate Sleeps(behavior: Json) {
    behavior.Obj? && CanSleep(Get(behavior.fields, "sleep_seconds"))
  }

  function FromConfig(behavior: Fields): Reply {
    Reply(Get(behavior, "status"),
          if Truthy(Get(behavior, "body")) then AsJson(Get(behavior, "body"))
          else AsRaw(Get(behavior, "raw_body")))
  }

  function Respond(behavior: Json, accepts: bool): Reply {
    if !Sleeps(behavior) then Raised
    else if Truthy(Get(behavior.fields, "async_only")) && !accepts then ASYNC_REQUIRED
    else FromConfig(behavior.fields)
  }

  function Answer(config: Fields, action: string, plan: Ruby<Json>, accepts: bool): Reply {
    if plan.Raise? then Raised
    else
      var behavior := BehaviorFor(config, action, plan.value);
      if behavior.Raise? then Raised else Respond(behavior.value, accepts)
  }

  // ----- requests about an instance -----

  function NewInstance(body: Json): Entry {
    Instance(body, Num(0.0), Bool(false))
  }

  function DoProvision(d: Data, id: string, body: Json, accepts: bool): (Data, Reply) {
    (d.(entries := d.entries[id := NewInstance(body)]),
     Answer(d.config, "provision", Index(body, "plan_id"), accepts))
  }

  function UnknownInstance(id: string): Reply {
    Reply(OK_STATUS, AsJson(Obj(map[
      "state" := Str("failed"),
      "description" := Str("Broker could not find service instance by the given id " + id)])))
  }

  /** The answer to a poll that found the instance and chose `state`. */
  function FetchReply(config: Fields, plan: Json, state: string): Reply {
    match BehaviorFor(config, "fetch", plan)
    case Raise => Raised
    case Ok(states) =>
      match Index(states, state)
      case Raise => Raised
      case Ok(behavior) => if Sleeps(behavior) then FromConfig(behavior.fields) else Raised
  }

  /** The state a poll reports once the counter stands at `count`; a maximum that is not
      a number cannot be compared. */
  function PollState(config: Fields, count: real): Ruby<string> {
    if !MaxFetch(config).Num? then Raise
    else Ok(if count > MaxFetch(config).n then "finished" else "in_progress")
  }

  function PollReply(config: Fields, plan: Json, count: real): Reply {
    match PollState(config, count)
    case Raise => Raised
    case Ok(state) => FetchReply(config, plan, state)
  }

  function DoPoll(d: Data, id: string): (Data, Reply) {
    if id !in d.entries then (d, UnknownInstance(id))
    else match d.entries[id]
      case Binding(_, _) => (d, Raised)
      case Instance(p, count, deleted) =>
        match Index(p, "plan_id")
        case Raise => (d, Raised)
        case Ok(plan) =>
          if !count.Num? then (d, Raised)
          else (d.(entries := d.entries[id := Instance(p, Num(count.n + 1.0), deleted)]),
                PollReply(d.config, plan, count.n + 1.0))
  }

  /** The behaviour configured for an update with this body, and its status. */
  function UpdateBehavior(config: Fields, body: Json): Ruby<(Json, Json)> {
    var plan :- Index(body, "plan_id");
    var behavior :- BehaviorFor(config, "update", plan);
    var status :- Index(behavior, "status");
    Ok((behavior, status))
  }

  predicate IsSuccess(status: Json) {
    status == Num(200.0) || status == Num(202.0)
  }

  function DoUpdate(d: Data, id: string, body: Json, accepts: bool): (Data, Reply) {
    match UpdateBehavior(d.config, body)
    case Raise => (d, Raised)
    case Ok((behavior, status)) =>
      if IsSuccess(status) && id in d.entries then
        match d.entries[id]
        case Binding(_, _) => (d, Raised)
        case Instance(p, _, deleted) =>
          if p.Obj? && body.Obj? then
            (d.(entries := d.entries[id := Instance(Overlay(p, body), Num(0.0), deleted)]), Respond(behavior, accepts))
          else (d, Raised)
      else (d, Respond(behavior, accepts))
  }

  function DoDeprovision(d: Data, id: string, accepts: bool): (Data, Reply) {
    if id !in d.entries then (d, Answer(d.config, "deprovision", Ok(Null), accepts))
    else match d.entries[id]
      case Binding(_, _) => (d, Raised)
      case Instance(p, _, _) =>
        (d.(entries := d.entries[id := Instance(p, Num(0.0), Bool(true))]),
         Answer(d.config, "deprovision", Index(p, "plan_id"), accepts))
  }

  function DoFetchInstance(d: Data, id: string): Reply {
    if id in d.entries && d.entries[id].Instance? then Reply(OK_STATUS, AsJson(d.entries[id].provisionData))
    else Raised
  }

  // ----- requests about a binding -----

  function DoBind(d: Data, id: string, bindingId: string, body: Json, accepts: bool): (Data, Reply) {
    (d.(entries := d.entries[bindingId := Binding(body, id)]),
     Answer(d.config, "bind", Index(body, "plan_id"), accepts))
  }

  function DoUnbind(d: Data, bindingId: string, accepts: bool): (Data, Reply) {
    if bindingId !in d.entries then (d, Answer(d.config, "unbind", Ok(Null), accepts))
    else
      (d.(entries := d.entries - {bindingId}),
       match d.entries[bindingId]
       case Instance(_, _, _) => Raised
       case Binding(b, _) => Answer(d.config, "unbind", Index(b, "plan_id"), accepts))
  }

  /** The key under which a table holds the behaviour it answers for `plan`. */
  function SlotOf(table: Fields, plan: Json): string {
    if plan.Str? && plan.s in table then plan.s else "default"
  }

  /** The behaviour table of an action, if `behaviors` and the table are objects. */
  function TableOf(config: Fields, action: string): Option<Fields> {
    var behaviors := Get(config, "behaviors");
    if behaviors.Obj? && Get(behaviors.fields, action).Obj? then Some(Get(behaviors.fields, action).fields) else None
  }

  function WithTable(config: Fields, action: string, table: Fields): Fields
    requires TableOf(config, action).Some?
  {
    config["behaviors" := Obj(Get(config, "behaviors").fields[action := Obj(table)])]
  }

  /** The slot a binding fetch writes to and the behaviour found there, when the fetch
      reaches its in-place merge: the body under that slot and the binding's data are
      both objects. */
  function FetchTarget(config: Fields, data: Json): Option<(string, Fields)> {
    var plan := Index(data, "plan_id");
    if plan.Raise? then None
    else
      var behavior := BehaviorFor(config, FETCH_BINDING, plan.value);
      var table := TableOf(config, FETCH_BINDING);
      if behavior.Ok? && behavior.value.Obj? && table.Some? && Get(behavior.value.fields, "body").Obj? && data.Obj? then
        Some((SlotOf(table.value, plan.value), behavior.value.fields))
      else None
  }

  function DoFetchBinding(d: Data, bindingId: string): (Data, Reply) {
    if bindingId !in d.entries || d.entries[bindingId].Instance? then (d, Raised)
    else
      var data := d.entries[bindingId].bindingData;
      match FetchTarget(d.config, data)
      case None => (d, Raised)
      case Some((slot, behavior)) =>
        var merged := behavior["body" := Overlay(behavior["body"], data)];
        var table := TableOf(d.config, FETCH_BINDING).value;
        (d.(config := WithTable(d.config, FETCH_BINDING, table[slot := Obj(merged)])), Respond(Obj(merged), false))
  }

  // ----- configuration -----

  function EntryJson(e: Entry): Json {
    match e
    case Instance(p, c, deleted) => Obj(map["provision_data" := p, "fetch_count" := c, "deleted" := deleted])
    case Binding(b, i) => Obj(map["binding_data" := b, "instance_id" := Str(i)])
  }

  function EntriesJson(entries: map<string, Entry>): Json {
    Obj(map id | id in entries :: EntryJson(entries[id]))
  }

  function AllFields(d: Data): Fields {
    d.config[INSTANCES := EntriesJson(d.entries)]
  }

  function ConfigFields(d: Data): Fields {
    d.config - {INSTANCES, "service_bindings"}
  }

  function ConfigReply(d: Data): Reply {
    Reply(OK_STATUS, AsJson(Obj(ConfigFields(d))))
  }

  /** A posted instance has to be an object holding `provision_data`. */
  predicate IsPostedInstance(j: Json) {
    j.Obj? && "provision_data" in j.fields
  }

  function PostedInstance(m: Fields): Entry
    requires "provision_data" in m
  {
    Instance(m["provision_data"],
             if "fetch_count" in m then m["fetch_count"] else Num(0.0),
             if "deleted" in m then m["deleted"] else Bool(false))
  }

  function PostedInstances(j: Json): Ruby<map<string, Entry>> {
    if j.Obj? && forall id :: id in j.fields ==> IsPostedInstance(j.fields[id]) then
      Ok(map id | id in j.fields :: PostedInstance(j.fields[id].fields))
    else Raise
  }

  function PostFields(pairs: seq<(string, Json)>): Fields {
    if pairs == [] then map[] else PostFields(pairs[..|pairs| - 1])[pairs[|pairs| - 1].0 := pairs[|pairs| - 1].1]
  }

  function InstancesIn(fields: Fields): Ruby<map<string, Entry>> {
    if INSTANCES in fields then PostedInstances(fields[INSTANCES]) else Ok(map[])
  }

  function PostedInstancesOf(post: seq<(string, Json)>): Ruby<map<string, Entry>> {
    InstancesIn(PostFields(post))
  }

  /** Whether one posted member can be merged: an object key takes only objects. */
  predicate Merges(config: Fields, key: string, value: Json) {
    Get(config, key).Obj? ==> value.Obj?
  }

  /** The value a key has after a posted member was merged into it. */
  function MergeValue(before: Json, posted: Json): Json {
    if before.Obj? then Overlay(before, posted) else posted
  }

  /** Merges one posted member; `posted` is the converted `service_instances` value. */
  function MergePair(d: Data, key: string, value: Json, posted: map<string, Entry>): Ruby<Data> {
    if key == INSTANCES then Ok(d.(entries := d.entries + posted))
    else if !Merges(d.config, key, value) then Raise
    else Ok(d.(config := d.config[key := MergeValue(Get(d.config, key), value)]))
  }

  /** Merges posted members first to last, stopping at the first that raises; the flag
      tells whether all were merged. */
  function MergePairs(d: Data, pairs: seq<(string, Json)>, posted: map<string, Entry>): (Data, bool)
    decreases |pairs|
  {
    if pairs == [] then (d, true)
    else
      var (before, ok) := MergePairs(d, pairs[..|pairs| - 1], posted);
      if !ok then (before, false)
      else
        match MergePair(before, pairs[|pairs| - 1].0, pairs[|pairs| - 1].1, posted)
        case Raise => (before, false)
        case Ok(after) => (after, true)
  }

  function DoMerge(d: Data, post: seq<(string, Json)>): (Data, bool) {
    match PostedInstancesOf(post)
    case Raise => (d, false)
    case Ok(posted) => MergePairs(d, post, posted)
  }

  // ----- one request, and runs -----

  function Step(file: Data, d: Data, r: Request): (Data, Reply) {
    match r
    case Catalog => (d, Answer(d.config, "catalog", Ok(Null), false))
    case Provision(id, body, accepts) => DoProvision(d, id, body, accepts)
    case Poll(id) => DoPoll(d, id)
    case PollBinding(_, _) =>
      (d, Reply(OK_STATUS, AsJson(Obj(map["state" := Str("succeeded"), "description" := Str("100%")]))))
    case Update(id, body, accepts) => DoUpdate(d, id, body, accepts)
    case Deprovision(id, accepts) => DoDeprovision(d, id, accepts)
    case Bind(id, bindingId, body, accepts) => DoBind(d, id, bindingId, body, accepts)
    case Unbind(_, bindingId, accepts) => DoUnbind(d, bindingId, accepts)
    case FetchInstance(id) => (d, DoFetchInstance(d, id))
    case FetchBinding(_, bindingId) => DoFetchBinding(d, bindingId)
    case DumpAll => (d, Reply(OK_STATUS, AsJson(Obj(AllFields(d)))))
    case DumpConfig => (d, ConfigReply(d))
    case PostConfig(post) =>
      var (after, ok) := DoMerge(d, post);
      (after, if ok then ConfigReply(after) else Raised)
    case Reset => (file, ConfigReply(file))
  }

  /** The data after a run of requests that starts at `d`; `file` is what a reset reloads. */
  function After(file: Data, d: Data, rs: seq<Request>): Data {
    if rs == [] then d else Step(file, After(file, d, rs[..|rs| - 1]), rs[|rs| - 1]).0
  }

  /** The answer to request number `k` of a run. */
  function ReplyAt(file: Data, d: Data, rs: seq<Request>, k: nat): Reply
    requires k < |rs|
  {
    Step(file, After(file, d, rs[..k]), rs[k]).1
  }

  lemma {:induction false} AfterSplit(file: Data, d: Data, a: seq<Request>, b: seq<Request>)
    ensures After(file, d, a + b) == After(file, After(file, d, a), b)
    decreases |b|
  {
    if b == [] {
      assert a + b == a;
    } else {
      assert (a + b)[..|a + b| - 1] == a + b[..|b| - 1];
      AfterSplit(file, d, a, b[..|b| - 1]);
    }
  }

  lemma AfterOneMore(file: Data, d: Data, rs: seq<Request>, r: Request)
    ensures After(file, d, rs + [r]) == Step(file, After(file, d, rs), r).0
    ensures ReplyAt(file, d, rs + [r], |rs|) == Step(file, After(file, d, rs), r).1
  {
  }
}
