/** The broker as it runs: objects updated in place
    (assets/service_broker/service_broker.rb). Every handler is proved to do to the
    objects' state exactly what module BrokerModel says, and to answer the same. */
module ServiceBroker {
  import opened JsonValues
  import opened BrokerModel

  class ServiceInstance {
    var provisionData: Json
    var fetchCount: Json
    var deleted: Json

    constructor (provisionData: Json, fetchCount: Json, deleted: Json)
      ensures Value() == Instance(provisionData, fetchCount, deleted)
    {
      this.provisionData, this.fetchCount, this.deleted := provisionData, fetchCount, deleted;
    }

    function Value(): Entry
      reads this
    {
      Instance(provisionData, fetchCount, deleted)
    }

    /** False when the merge raises; nothing has changed then. */
    method UpdateInPlace(updatedData: Json) returns (ok: bool)
      modifies this
      ensures ok == (old(provisionData).Obj? && updatedData.Obj?)
      ensures Value() ==
        if ok then Instance(Overlay(old(provisionData), updatedData), Num(0.0), old(deleted)) else old(Value())
    {
      if !provisionData.Obj? || !updatedData.Obj? {
        return false;
      }
      provisionData := Obj(provisionData.fields + updatedData.fields);
      fetchCount := Num(0.0);
      ok := true;
    }

    method Delete()
      modifies this
      ensures Value() == Instance(old(provisionData), Num(0.0), Bool(true))
    {
      deleted := Bool(true);
      fetchCount := Num(0.0);
    }

    /** The new count; raises, changing nothing, when the counter is not a number. */
    method IncrementFetchCount() returns (count: Ruby<real>)
      modifies this
      ensures count == if old(fetchCount).Num? then Ok(old(fetchCount).n + 1.0) else Raise
      ensures Value() == if count.Ok? then Instance(old(provisionData), Num(count.value), old(deleted)) else old(Value())
    {
      if !fetchCount.Num? {
        return Raise;
      }
      fetchCount := Num(fetchCount.n + 1.0);
      count := Ok(fetchCount.n);
    }
  }

  /** What the `service_instances` hash holds: instance objects and binding hashes. */
  datatype Slot = Live(instance: ServiceInstance) | BindingHash(bindingData: Json, instanceId: string)

  class DataSource {
    var config: Fields
    var slots: map<string, Slot>

    /** No instance object is stored under two ids. */
    ghost predicate Valid()
      reads this
    {
      forall a, b :: a in slots && b in slots && slots[a].Live? && slots[b].Live? && slots[a].instance == slots[b].instance
        ==> a == b
    }

    ghost function Objects(): set<object>
      reads this
    {
      set id | id in slots && slots[id].Live? :: slots[id].instance
    }

    function EntryAt(id: string): Entry
      requires id in slots
      reads this, Objects()
    {
      match slots[id]
      case Live(instance) => instance.Value()
      case BindingHash(b, i) => Binding(b, i)
    }

    function State(): Data
      reads this, Objects()
    {
      Data(config, map id | id in slots :: EntryAt(id))
    }

    /** A data source freshly read from the data file, which holds no instances. */
    constructor (fileConfig: Fields)
      ensures Valid() && Objects() == {}
      ensures State() == Data(fileConfig, map[])
    {
      config, slots := fileConfig, map[];
    }

    method CreateServiceInstance(id: string, body: Json) returns (instance: ServiceInstance)
      requires Valid()
      modifies this
      ensures Valid() && fresh(Objects() - old(Objects())) && instance in Objects()
      ensures State() == old(State()).(entries := old(State()).entries[id := NewInstance(body)])
      ensures id in slots && slots[id] == Live(instance) && instance.Value() == NewInstance(body)
    {
      instance := new ServiceInstance(body, Num(0.0), Bool(false));
      slots := slots[id := Live(instance)];
      assert slots[id].instance in Objects();
      assert State().entries == old(State()).entries[id := NewInstance(body)];
    }

    method CreateServiceBinding(instanceId: string, bindingId: string, data: Json)
      requires Valid()
      modifies this
      ensures Valid() && Objects() <= old(Objects())
      ensures State() == old(State()).(entries := old(State()).entries[bindingId := Binding(data, instanceId)])
    {
      slots := slots[bindingId := BindingHash(data, instanceId)];
      assert State().entries == old(State()).entries[bindingId := Binding(data, instanceId)];
    }

    method DeleteServiceBinding(bindingId: string) returns (removed: Option<Slot>)
      requires Valid()
      modifies this
      ensures Valid() && Objects() <= old(Objects())
      ensures removed == if bindingId in old(slots) then Some(old(slots)[bindingId]) else None
      ensures State() == old(State()).(entries := old(State()).entries - {bindingId})
    {
      removed := if bindingId in slots then Some(slots[bindingId]) else None;
      slots := slots - {bindingId};
      assert State().entries == old(State()).entries - {bindingId};
    }

    /** Turns posted instances into objects; raises before anything is stored when one of
        them lacks its provision data. */
    method ConvertInstances(post: Post) returns (posted: Ruby<map<string, Slot>>)
      requires Valid()
      ensures posted.Ok? <==> PostedInstancesOf(post).Ok?
      ensures posted.Ok? ==> ConvertedFrom(posted.value, PostedInstancesOf(post).value)
    {
      var fields := PostFields(post);
      if INSTANCES !in fields {
        return Ok(map[]);
      }
      var value := fields[INSTANCES];
      if !value.Obj? {
        return Raise;
      }
      var remaining := value.fields.Keys;
      var done: map<string, Slot> := map[];
      while remaining != {}
        invariant remaining <= value.fields.Keys
        invariant done.Keys == value.fields.Keys - remaining
        invariant forall id :: id in done ==> IsPostedInstance(value.fields[id])
        invariant forall id :: id in done ==> done[id].Live? && fresh(done[id].instance)
        invariant forall id :: id in done ==> done[id].instance.Value() == PostedInstance(value.fields[id].fields)
        invariant forall a, b :: a in done && b in done && done[a].instance == done[b].instance ==> a == b
      {
        var id :| id in remaining;
        if !IsPostedInstance(value.fields[id]) {
          return Raise;
        }
        var e := PostedInstance(value.fields[id].fields);
        var instance := new ServiceInstance(e.provisionData, e.fetchCount, e.deleted);
        done := done[id := Live(instance)];
        remaining := remaining - {id};
      }
      posted := Ok(done);
    }

    twostate predicate ConvertedFrom(new posted: map<string, Slot>, entries: map<string, Entry>)
      reads set id | id in posted && posted[id].Live? :: posted[id].instance
    {
      && posted.Keys == entries.Keys
      && (forall id :: id in posted ==> posted[id].Live? && fresh(posted[id].instance) && posted[id].instance.Value() == entries[id])
      && (forall a, b :: a in posted && b in posted && posted[a].instance == posted[b].instance ==> a == b)
    }

    /** `merge!`: false when it raised part of the way through. */
    method Merge(post: Post) returns (ok: bool)
      requires Valid()
      modifies this
      ensures Valid() && fresh(Objects() - old(Objects()))
      ensures (State(), ok) == DoMerge(old(State()), post)
    {
      var converted := ConvertInstances(post);
      if converted.Raise? {
        return false;
      }
      ghost var posted := PostedInstancesOf(post).value;
      ghost var start := State();
      var i := 0;
      while i < |post|
        invariant 0 <= i <= |post|
        invariant Valid() && fresh(Objects() - old(Objects()))
        invariant CanHold(converted.value, posted)
        invariant forall id :: id in converted.value ==> fresh(converted.value[id].instance)
        invariant (State(), true) == MergePairs(start, post[..i], posted)
      {
        assert post[..i + 1][..i] == post[..i];
        var merged := MergeMember(post[i].0, post[i].1, converted.value, posted);
        if !merged {
          StopsAt(start, post, i, posted);
          return false;
        }
        i := i + 1;
      }
      assert post[..i] == post;
      ok := true;
    }

    /** The slots stand for the entries, and storing them keeps the data source valid. */
    ghost predicate CanHold(converted: map<string, Slot>, posted: map<string, Entry>)
      reads this, set id | id in converted && converted[id].Live? :: converted[id].instance
    {
      && converted.Keys == posted.Keys
      && (forall id :: id in converted ==> converted[id].Live? && converted[id].instance.Value() == posted[id])
      && (forall a, b :: a in converted && b in converted && converted[a].instance == converted[b].instance ==> a == b)
      && (forall a, b :: a in converted && b in slots && slots[b].Live? && slots[b].instance == converted[a].instance ==> a == b)
    }

    /** Stores the converted instances over whatever had their ids. */
    method StoreInstances(converted: map<string, Slot>, ghost posted: map<string, Entry>)
      requires Valid() && CanHold(converted, posted)
      modifies this
      ensures Valid() && CanHold(converted, posted)
      ensures forall o :: o in Objects() ==> o in old(Objects()) || exists id :: id in converted && converted[id].instance == o
      ensures State() == old(State()).(entries := old(State()).entries + posted)
    {
      slots := slots + converted;
      assert State().entries == old(State()).entries + posted;
    }

    /** Merges one posted member; false, with nothing changed, when it raises. */
    method MergeMember(key: string, value: Json, converted: map<string, Slot>, ghost posted: map<string, Entry>)
      returns (ok: bool)
      requires Valid() && CanHold(converted, posted)
      modifies this
      ensures Valid() && CanHold(converted, posted)
      ensures forall o :: o in Objects() ==> o in old(Objects()) || exists id :: id in converted && converted[id].instance == o
      ensures ok == MergePair(old(State()), key, value, posted).Ok?
      ensures State() == if ok then MergePair(old(State()), key, value, posted).value else old(State())
    {
      ok := true;
      if key == INSTANCES {
        StoreInstances(converted, posted);
        return;
      }
      if Get(config, key).Obj? {
        if !value.Obj? {
          return false;
        }
        config := config[key := Obj(config[key].fields + value.fields)];
      } else {
        config := config[key := value];
      }
      assert State().entries == old(State()).entries;
    }
  }

  /** Once a member raises, the members after it change nothing. */
  lemma {:induction false} StopsAt(d: Data, post: seq<(string, Json)>, i: nat, posted: map<string, Entry>)
    requires i < |post|
    requires MergePairs(d, post[..i], posted).1
    requires MergePair(MergePairs(d, post[..i], posted).0, post[i].0, post[i].1, posted).Raise?
    ensures MergePairs(d, post, posted) == (MergePairs(d, post[..i], posted).0, false)
    decreases |post|
  {
    var init := post[..|post| - 1];
    if i < |post| - 1 {
      assert init[..i] == post[..i];
      StopsAt(d, init, i, posted);
    }
  }

  /** The Sinatra application: `fileConfig` is the data file, `datasource` the global. */
  class Broker {
    const fileConfig: Fields
    var datasource: DataSource

    ghost predicate Valid()
      reads this, datasource
    {
      datasource.Valid()
    }

    ghost function State(): Data
      reads this, datasource, datasource.Objects()
    {
      datasource.State()
    }

    ghost function File(): Data {
      Data(fileConfig, map[])
    }

    constructor (fileConfig: Fields)
      ensures Valid() && State() == File() && this.fileConfig == fileConfig
    {
      this.fileConfig := fileConfig;
      datasource := new DataSource(fileConfig);
    }

    /** PUT /v2/service_instances/:id */
    method PutInstance(id: string, body: Json, accepts: bool) returns (reply: Reply)
      requires Valid()
      modifies datasource
      ensures fresh(datasource.Objects() - old(datasource.Objects()))
      ensures Valid() && (State(), reply) == DoProvision(old(State()), id, body, accepts)
    {
      var instance := datasource.CreateServiceInstance(id, body);
      reply := Answer(datasource.config, "provision", Index(instance.provisionData, "plan_id"), accepts);
    }

    /** GET /v2/service_instances/:id/last_operation */
    method GetLastOperation(id: string) returns (reply: Reply)
      requires Valid()
      modifies datasource.Objects()
      ensures Valid() && (State(), reply) == DoPoll(old(State()), id)
    {
      if id !in datasource.slots {
        return UnknownInstance(id);
      }
      if datasource.slots[id].BindingHash? {
        return Raised;
      }
      var instance := datasource.slots[id].instance;
      var plan := Index(instance.provisionData, "plan_id");
      if plan.Raise? {
        return Raised;
      }
      var count := instance.IncrementFetchCount();
      assert State().entries == old(State()).entries[id := instance.Value()];
      if count.Raise? {
        assert State() == old(State());
        return Raised;
      }
      reply := PollReply(datasource.config, plan.value, count.value);
    }

    /** PATCH /v2/service_instances/:id */
    method PatchInstance(id: string, body: Json, accepts: bool) returns (reply: Reply)
      requires Valid()
      modifies datasource.Objects()
      ensures Valid() && (State(), reply) == DoUpdate(old(State()), id, body, accepts)
    {
      var behavior := UpdateBehavior(datasource.config, body);
      if behavior.Raise? {
        return Raised;
      }
      if IsSuccess(behavior.value.1) && id in datasource.slots {
        if datasource.slots[id].BindingHash? {
          return Raised;
        }
        var instance := datasource.slots[id].instance;
        var ok := instance.UpdateInPlace(body);
        assert State().entries == old(State()).entries[id := instance.Value()];
        if !ok {
          assert State() == old(State());
          return Raised;
        }
      }
      reply := Respond(behavior.value.0, accepts);
    }

    /** DELETE /v2/service_instances/:id */
    method DeleteInstance(id: string, accepts: bool) returns (reply: Reply)
      requires Valid()
      modifies datasource.Objects()
      ensures Valid() && (State(), reply) == DoDeprovision(old(State()), id, accepts)
    {
      if id !in datasource.slots {
        return Answer(datasource.config, "deprovision", Ok(Null), accepts);
      }
      if datasource.slots[id].BindingHash? {
        return Raised;
      }
      var instance := datasource.slots[id].instance;
      instance.Delete();
      assert State().entries == old(State()).entries[id := instance.Value()];
      reply := Answer(datasource.config, "deprovision", Index(instance.provisionData, "plan_id"), accepts);
    }

    /** PUT /v2/service_instances/:instance_id/service_bindings/:id */
    method PutBinding(id: string, bindingId: string, body: Json, accepts: bool) returns (reply: Reply)
      requires Valid()
      modifies datasource
      ensures fresh(datasource.Objects() - old(datasource.Objects()))
      ensures Valid() && (State(), reply) == DoBind(old(State()), id, bindingId, body, accepts)
    {
      datasource.CreateServiceBinding(id, bindingId, body);
      reply := Answer(datasource.config, "bind", Index(body, "plan_id"), accepts);
    }

    /** DELETE /v2/service_instances/:instance_id/service_bindings/:id */
    method DeleteBinding(bindingId: string, accepts: bool) returns (reply: Reply)
      requires Valid()
      modifies datasource
      ensures fresh(datasource.Objects() - old(datasource.Objects()))
      ensures Valid() && (State(), reply) == DoUnbind(old(State()), bindingId, accepts)
    {
      var removed := datasource.DeleteServiceBinding(bindingId);
      if removed.None? {
        assert State().entries == old(State()).entries;
        return Answer(datasource.config, "unbind", Ok(Null), accepts);
      }
      if removed.value.Live? {
        return Raised;
      }
      reply := Answer(datasource.config, "unbind", Index(removed.value.bindingData, "plan_id"), accepts);
    }

    /** GET /v2/service_instances/:instance_id/service_bindings/:id, which writes the
        binding's data into the configured body it answers with. */
    method GetBinding(bindingId: string) returns (reply: Reply)
      requires Valid()
      modifies datasource
      ensures fresh(datasource.Objects() - old(datasource.Objects()))
      ensures Valid() && (State(), reply) == DoFetchBinding(old(State()), bindingId)
    {
      if bindingId !in datasource.slots || datasource.slots[bindingId].Live? {
        return Raised;
      }
      var data := datasource.slots[bindingId].bindingData;
      var target := FetchTarget(datasource.config, data);
      if target.None? {
        return Raised;
      }
      var (slot, behavior) := target.value;
      var merged := behavior["body" := Obj(behavior["body"].fields + data.fields)];
      var table := TableOf(datasource.config, FETCH_BINDING).value;
      datasource.config := WithTable(datasource.config, FETCH_BINDING, table[slot := Obj(merged)]);
      assert State().entries == old(State()).entries;
      reply := Respond(Obj(merged), false);
    }

    /** GET /v2/service_instances/:instance_id */
    method GetInstance(id: string) returns (reply: Reply)
      requires Valid()
      ensures reply == DoFetchInstance(State(), id)
    {
      if id !in datasource.slots || datasource.slots[id].BindingHash? {
        return Raised;
      }
      reply := Reply(OK_STATUS, AsJson(datasource.slots[id].instance.provisionData));
    }

    /** POST /config/reset */
    method ResetConfiguration() returns (reply: Reply)
      modifies this
      ensures fresh(datasource) && fresh(datasource.Objects())
      ensures Valid() && (State(), reply) == (File(), ConfigReply(File()))
    {
      datasource := new DataSource(fileConfig);
      reply := ConfigReply(datasource.State());
    }

    /** POST /config */
    method PostConfiguration(post: Post) returns (reply: Reply)
      requires Valid()
      modifies datasource
      ensures fresh(datasource.Objects() - old(datasource.Objects()))
      ensures Valid() && (State(), reply) == Step(File(), old(State()), PostConfig(post))
    {
      var ok := datasource.Merge(post);
      reply := if ok then ConfigReply(datasource.State()) else Raised;
    }

    /** The routes below /v2/service_instances that are about a binding. */
    method HandleBinding(r: Request) returns (reply: Reply)
      requires r.Bind? || r.Unbind? || r.FetchBinding? || r.PollBinding?
      requires Valid()
      modifies this, datasource, datasource.Objects()
      ensures datasource == old(datasource) || fresh(datasource)
      ensures fresh(datasource.Objects() - old(datasource.Objects()))
      ensures Valid() && (State(), reply) == Step(File(), old(State()), r)
    {
      match r {
        case Bind(id, bindingId, body, accepts) => reply := PutBinding(id, bindingId, body, accepts);
        case Unbind(_, bindingId, accepts) => reply := DeleteBinding(bindingId, accepts);
        case FetchBinding(_, bindingId) => reply := GetBinding(bindingId);
        case PollBinding(_, _) =>
          reply := Reply(OK_STATUS, AsJson(Obj(map["state" := Str("succeeded"), "description" := Str("100%")])));
      }
    }

    /** The catalog and the routes below /config. */
    method HandleConfig(r: Request) returns (reply: Reply)
      requires r.Catalog? || r.DumpAll? || r.DumpConfig? || r.PostConfig? || r.Reset?
      requires Valid()
      modifies this, datasource, datasource.Objects()
      ensures datasource == old(datasource) || fresh(datasource)
      ensures fresh(datasource.Objects() - old(datasource.Objects()))
      ensures Valid() && (State(), reply) == Step(File(), old(State()), r)
    {
      match r {
        case Catalog => reply := Answer(datasource.config, "catalog", Ok(Null), false);
        case DumpAll => reply := Reply(OK_STATUS, AsJson(Obj(AllFields(datasource.State()))));
        case DumpConfig => reply := ConfigReply(datasource.State());
        case PostConfig(post) => reply := PostConfiguration(post);
        case Reset => reply := ResetConfiguration();
      }
    }

    /** One request through the router: the objects step exactly as the model does. */
    method Handle(r: Request) returns (reply: Reply)
      requires Valid()
      modifies this, datasource, datasource.Objects()
      ensures datasource == old(datasource) || fresh(datasource)
      ensures fresh(datasource.Objects() - old(datasource.Objects()))
      ensures Valid() && (State(), reply) == Step(File(), old(State()), r)
    {
      if r.Bind? || r.Unbind? || r.FetchBinding? || r.PollBinding? {
        reply := HandleBinding(r);
      } else if r.Catalog? || r.DumpAll? || r.DumpConfig? || r.PostConfig? || r.Reset? {
        reply := HandleConfig(r);
      } else {
        match r {
          case Provision(id, body, accepts) => reply := PutInstance(id, body, accepts);
          case Poll(id) => reply := GetLastOperation(id);
          case Update(id, body, accepts) => reply := PatchInstance(id, body, accepts);
          case Deprovision(id, accepts) => reply := DeleteInstance(id, accepts);
          case FetchInstance(id) => reply := GetInstance(id);
        }
      }
    }

    /** A whole run of requests leaves the objects where the model's run ends, and every
        answer is the model's. */
    method Serve(rs: seq<Request>) returns (replies: seq<Reply>)
      requires Valid()
      modifies this, datasource, datasource.Objects()
      ensures Valid() && State() == After(File(), old(State()), rs)
      ensures |replies| == |rs| && forall k :: 0 <= k < |rs| ==> replies[k] == ReplyAt(File(), old(State()), rs, k)
    {
      replies := [];
      var i := 0;
      ghost var start := State();
      while i < |rs|
        invariant 0 <= i <= |rs| && Valid()
        invariant datasource == old(datasource) || fresh(datasource)
        invariant fresh(datasource.Objects() - old(datasource.Objects()))
        invariant State() == After(File(), start, rs[..i])
        invariant |replies| == i && forall k :: 0 <= k < i ==> replies[k] == ReplyAt(File(), start, rs, k)
        modifies this, datasource, datasource.Objects()
      {
        assert rs[..i + 1][..i] == rs[..i];
        var reply := Handle(rs[i]);
        replies := replies + [reply];
        i := i + 1;
      }
      assert rs[..i] == rs;
    }
  }
}
