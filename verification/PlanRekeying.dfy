/** The bootstrap script that gives every catalog plan a fresh id and re-keys every
    behaviour table (assets/service_broker/setup_new_broker.rb). */
module PlanRekeying {
  import opened JsonValues
  import opened BrokerModel

  /** `uuid(n)` is the n-th identifier the script generates. */
  type Uuids = nat -> string

  /** A plan's original id with the number of the identifier it was given. */
  type Renumbering = seq<(Json, nat)>

  /** Renamed services or plans, the renumbering so far, and the next unused number. */
  datatype Renamed = Renamed(items: seq<Json>, ids: Renumbering, next: nat)

  // ----- the catalog -----

  /** `plan_mapping`, of which only string ids can ever be looked up; the last plan with an id wins. */
  function MappingOf(uuid: Uuids, ids: Renumbering): map<string, string> {
    if ids == [] then map[]
    else
      var before, last := MappingOf(uuid, ids[..|ids| - 1]), ids[|ids| - 1];
      if last.0.Str? then before[last.0.s := uuid(last.1)] else before
  }

  function RenamePlan(uuid: Uuids, plan: Json, r: Renamed): Ruby<Renamed> {
    if !plan.Obj? then Raise
    else
      Ok(Renamed(r.items + [Obj(plan.fields["id" := Str(uuid(r.next))])],
                 r.ids + [(Get(plan.fields, "id"), r.next)], r.next + 1))
  }

  function RenamePlans(uuid: Uuids, plans: seq<Json>, ids: Renumbering, next: nat): Ruby<Renamed> {
    if plans == [] then Ok(Renamed([], ids, next))
    else
      var before :- RenamePlans(uuid, plans[..|plans| - 1], ids, next);
      RenamePlan(uuid, plans[|plans| - 1], before)
  }

  /** Four identifiers go to the service and its dashboard client, then one to each plan. */
  function RenameService(uuid: Uuids, service: Json, r: Renamed): Ruby<Renamed> {
    if !service.Obj? || !Get(service.fields, "dashboard_client").Obj? || !Get(service.fields, "plans").Arr? then Raise
    else
      var plans :- RenamePlans(uuid, service.fields["plans"].items, r.ids, r.next + 4);
      var client := service.fields["dashboard_client"].fields["id" := Str(uuid(r.next + 2))]["secret" := Str(uuid(r.next + 3))];
      var renamed := service.fields
        ["name" := Str("fake-service-" + uuid(r.next))]["id" := Str(uuid(r.next + 1))]
        ["dashboard_client" := Obj(client)]["plans" := Arr(plans.items)];
      Ok(Renamed(r.items + [Obj(renamed)], plans.ids, plans.next))
  }

  function RenameServices(uuid: Uuids, services: seq<Json>): Ruby<Renamed> {
    if services == [] then Ok(Renamed([], [], 0))
    else
      var before :- RenameServices(uuid, services[..|services| - 1]);
      RenameService(uuid, services[|services| - 1], before)
  }

  // ----- one behaviour table -----

  /** A hash of the script: a key may be `nil` after a plan missing from the catalog. */
  type Table = map<Option<string>, Json>

  function OpenTable(table: Fields): Table {
    map o | o in (set k | k in table :: Some(k)) :: table[o.value]
  }

  function NewKey(mapping: map<string, string>, plan: string): Option<string> {
    if plan in mapping then Some(mapping[plan]) else None
  }

  function RekeyOne(table: Table, mapping: map<string, string>, plan: string): Table {
    if plan == "default" then table
    else
      var response := if Some(plan) in table then table[Some(plan)] else Null;
      table[NewKey(mapping, plan) := response] - {Some(plan)}
  }

  function Rekeyed(table: Fields, mapping: map<string, string>, keys: seq<string>): Table {
    if keys == [] then OpenTable(table)
    else RekeyOne(Rekeyed(table, mapping, keys[..|keys| - 1]), mapping, keys[|keys| - 1])
  }

  /** The table as written to the file: a `nil` key becomes the empty string. */
  function Written(table: Table): Fields {
    map k | k in (set o | o in table :: if o.Some? then o.value else "") && (Some(k) in table || None in table) ::
      if Some(k) in table then table[Some(k)] else table[None]
  }

  /** In which order a hash lists its keys. */
  type KeyOrder = Fields -> seq<string>

  ghost predicate Lists(keys: seq<string>, table: Fields) {
    (forall k :: k in keys <==> k in table) && (forall i, j :: 0 <= i < j < |keys| ==> keys[i] != keys[j])
  }

  ghost predicate IsKeyOrder(order: KeyOrder) {
    forall table :: Lists(order(table), table)
  }

  /** The inner loop: over a snapshot of the keys, insert each response under its new key and
      delete it under the old one. */
  method RekeyTable(table: Fields, mapping: map<string, string>, keys: seq<string>) returns (behavior: Table)
    ensures behavior == Rekeyed(table, mapping, keys)
  {
    behavior := OpenTable(table);
    var i := 0;
    while i < |keys|
      invariant 0 <= i <= |keys|
      invariant behavior == Rekeyed(table, mapping, keys[..i])
    {
      assert keys[..i + 1][..i] == keys[..i];
      var plan := keys[i];
      i := i + 1;
      if plan == "default" {
        continue;
      }
      var response := if Some(plan) in behavior then behavior[Some(plan)] else Null;
      behavior := behavior[NewKey(mapping, plan) := response];
      behavior := behavior - {Some(plan)};
    }
    assert keys[..i] == keys;
  }

  // ----- the whole configuration -----

  /** The services of the catalog, if the file has the shape the script walks through. */
  function ServicesOf(config: Fields): Ruby<seq<Json>> {
    var behaviors := Get(config, "behaviors");
    if !behaviors.Obj? || !Get(behaviors.fields, "catalog").Obj? then Raise
    else
      var body := Get(behaviors.fields["catalog"].fields, "body");
      if !body.Obj? || !Get(body.fields, "services").Arr? then Raise else Ok(body.fields["services"].items)
  }

  function WithServices(config: Fields, services: seq<Json>): Json
    requires ServicesOf(config).Ok?
  {
    var catalog := config["behaviors"].fields["catalog"].fields;
    Obj(catalog["body" := Obj(catalog["body"].fields["services" := Arr(services)])])
  }

  predicate AllTables(behaviors: Fields) {
    forall a :: a in behaviors && a != "catalog" ==> behaviors[a].Obj?
  }

  /** What one action's table is written back as. */
  function RekeyedAction(action: string, behavior: Json, mapping: map<string, string>, order: KeyOrder): Json {
    if action == "catalog" || !behavior.Obj? then behavior
    else Obj(Written(Rekeyed(behavior.fields, mapping, order(behavior.fields))))
  }

  function RekeyedBehaviors(behaviors: Fields, mapping: map<string, string>, order: KeyOrder): Ruby<Fields> {
    if AllTables(behaviors) then Ok(map a | a in behaviors :: RekeyedAction(a, behaviors[a], mapping, order)) else Raise
  }

  function Uniquified(uuid: Uuids, order: KeyOrder, config: Fields): Ruby<Fields> {
    var services :- ServicesOf(config);
    var renamed :- RenameServices(uuid, services);
    var behaviors :- RekeyedBehaviors(config["behaviors"].fields["catalog" := WithServices(config, renamed.items)],
                                      MappingOf(uuid, renamed.ids), order);
    Ok(config["behaviors" := Obj(behaviors)])
  }

  method RenameCatalogPlans(uuid: Uuids, plans: seq<Json>, ids: Renumbering, next: nat, mapping: map<string, string>)
    returns (r: Ruby<Renamed>, planMapping: map<string, string>)
    requires mapping == MappingOf(uuid, ids)
    ensures r == RenamePlans(uuid, plans, ids, next)
    ensures r.Ok? ==> planMapping == MappingOf(uuid, r.value.ids)
  {
    planMapping := mapping;
    var done := Renamed([], ids, next);
    for i := 0 to |plans|
      invariant RenamePlans(uuid, plans[..i], ids, next) == Ok(done)
      invariant planMapping == MappingOf(uuid, done.ids)
    {
      assert plans[..i + 1][..i] == plans[..i];
      var plan := plans[i];
      if !plan.Obj? {
        PlansStop(uuid, plans, ids, next, i);
        return Raise, planMapping;
      }
      var originalId := Get(plan.fields, "id");
      plan := Obj(plan.fields["id" := Str(uuid(done.next))]);
      if originalId.Str? {
        planMapping := planMapping[originalId.s := uuid(done.next)];
      }
      assert (done.ids + [(originalId, done.next)])[..|done.ids|] == done.ids;
      done := Renamed(done.items + [plan], done.ids + [(originalId, done.next)], done.next + 1);
    }
    assert plans[..|plans|] == plans;
    r := Ok(done);
  }

  lemma {:induction false} PlansStop(uuid: Uuids, plans: seq<Json>, ids: Renumbering, next: nat, i: nat)
    requires i < |plans| && !plans[i].Obj?
    ensures RenamePlans(uuid, plans, ids, next).Raise?
    decreases |plans|
  {
    if i < |plans| - 1 {
      PlansStop(uuid, plans[..|plans| - 1], ids, next, i);
    }
  }

  lemma {:induction false} ServicesStop(uuid: Uuids, services: seq<Json>, i: nat)
    requires i < |services| && RenameServices(uuid, services[..i + 1]).Raise?
    ensures RenameServices(uuid, services).Raise?
    decreases |services|
  {
    if i < |services| - 1 {
      assert services[..|services| - 1][..i + 1] == services[..i + 1];
      ServicesStop(uuid, services[..|services| - 1], i);
    } else {
      assert services[..i + 1] == services;
    }
  }

  /** The outer block, for one service of the catalog. */
  method RenameCatalogService(uuid: Uuids, original: Json, done: Renamed, mapping: map<string, string>)
    returns (r: Ruby<Renamed>, planMapping: map<string, string>)
    requires mapping == MappingOf(uuid, done.ids)
    ensures r == RenameService(uuid, original, done)
    ensures r.Ok? ==> planMapping == MappingOf(uuid, r.value.ids)
  {
    if !original.Obj? {
      return Raise, mapping;
    }
    var service := original.fields;
    service := service["name" := Str("fake-service-" + uuid(done.next))];
    service := service["id" := Str(uuid(done.next + 1))];
    if !Get(service, "dashboard_client").Obj? {
      return Raise, mapping;
    }
    var client := service["dashboard_client"].fields;
    client := client["id" := Str(uuid(done.next + 2))];
    client := client["secret" := Str(uuid(done.next + 3))];
    service := service["dashboard_client" := Obj(client)];
    if !Get(service, "plans").Arr? {
      return Raise, mapping;
    }
    var plans;
    plans, planMapping := RenameCatalogPlans(uuid, service["plans"].items, done.ids, done.next + 4, mapping);
    if plans.Raise? {
      return Raise, mapping;
    }
    service := service["plans" := Arr(plans.value.items)];
    r := Ok(Renamed(done.items + [Obj(service)], plans.value.ids, plans.value.next));
  }

  method RenameCatalog(uuid: Uuids, services: seq<Json>) returns (r: Ruby<Renamed>, planMapping: map<string, string>)
    ensures r == RenameServices(uuid, services)
    ensures r.Ok? ==> planMapping == MappingOf(uuid, r.value.ids)
  {
    planMapping := map[];
    var done := Renamed([], [], 0);
    for i := 0 to |services|
      invariant RenameServices(uuid, services[..i]) == Ok(done)
      invariant planMapping == MappingOf(uuid, done.ids)
    {
      assert services[..i + 1][..i] == services[..i];
      var service, mapping := RenameCatalogService(uuid, services[i], done, planMapping);
      if service.Raise? {
        ServicesStop(uuid, services, i);
        return Raise, planMapping;
      }
      done, planMapping := service.value, mapping;
    }
    assert services[..|services|] == services;
    r := Ok(done);
  }

  /** The outer loop over the actions. */
  method RekeyBehaviors(behaviors: Fields, mapping: map<string, string>, order: KeyOrder) returns (r: Ruby<Fields>)
    ensures r == RekeyedBehaviors(behaviors, mapping, order)
  {
    var rekeyed := behaviors;
    var remaining := behaviors.Keys;
    while remaining != {}
      invariant remaining <= behaviors.Keys == rekeyed.Keys
      invariant forall a :: a in remaining ==> rekeyed[a] == behaviors[a]
      invariant forall a :: a in behaviors.Keys - remaining ==>
        rekeyed[a] == RekeyedAction(a, behaviors[a], mapping, order) && (a != "catalog" ==> behaviors[a].Obj?)
    {
      var action :| action in remaining;
      remaining := remaining - {action};
      if action == "catalog" {
        continue;
      }
      if !rekeyed[action].Obj? {
        return Raise;
      }
      var behavior := RekeyTable(rekeyed[action].fields, mapping, order(rekeyed[action].fields));
      rekeyed := rekeyed[action := Obj(Written(behavior))];
    }
    assert rekeyed == map a | a in behaviors :: RekeyedAction(a, behaviors[a], mapping, order);
    r := Ok(rekeyed);
  }

  /** `uniquify_config`; on a raise the file is not rewritten. */
  method UniquifyConfig(uuid: Uuids, order: KeyOrder, config: Fields) returns (written: Ruby<Fields>)
    ensures written == Uniquified(uuid, order, config)
  {
    var services := ServicesOf(config);
    if services.Raise? {
      return Raise;
    }
    var catalog, planMapping := RenameCatalog(uuid, services.value);
    if catalog.Raise? {
      return Raise;
    }
    var behaviors := config["behaviors"].fields["catalog" := WithServices(config, catalog.value.items)];
    var rekeyed := RekeyBehaviors(behaviors, planMapping, order);
    if rekeyed.Raise? {
      return Raise;
    }
    written := Ok(config["behaviors" := Obj(rekeyed.value)]);
  }
}
