/** The rewritten data file as a whole: its catalog, and the broker started on it. */
module UniqueConfig {
  import opened JsonValues
  import opened BrokerModel
  import opened BrokerRenaming
  import opened PlanRekeying
  import opened RekeyedBroker

  // ----- the catalog -----

  function PlansOf(service: Json): seq<Json> {
    if service.Obj? && Get(service.fields, "plans").Arr? then service.fields["plans"].items else []
  }

  /** The plans of all services, in catalog order. */
  function AllPlans(services: seq<Json>): seq<Json> {
    if services == [] then [] else AllPlans(services[..|services| - 1]) + PlansOf(services[|services| - 1])
  }

  function IdOf(plan: Json): Json {
    if plan.Obj? then Get(plan.fields, "id") else Null
  }

  /** `renamed` are the plans with new ids, `ids` says which, numbered upwards from `from` to below `next`. */
  ghost predicate Renumbers(uuid: Uuids, plans: seq<Json>, renamed: seq<Json>, ids: Renumbering, from: nat, next: nat) {
    && |plans| == |renamed| == |ids|
    && (forall i :: 0 <= i < |plans| ==>
          plans[i].Obj? && ids[i].0 == IdOf(plans[i]) && from <= ids[i].1 < next &&
          renamed[i] == Obj(plans[i].fields["id" := Str(uuid(ids[i].1))]))
    && (forall i, j :: 0 <= i < j < |ids| ==> ids[i].1 < ids[j].1)
  }

  lemma RenumbersAppend(uuid: Uuids, a: seq<Json>, a': seq<Json>, ids: Renumbering, from: nat, mid: nat,
                        b: seq<Json>, b': seq<Json>, more: Renumbering, mid': nat, next: nat)
    requires Renumbers(uuid, a, a', ids, from, mid) && Renumbers(uuid, b, b', more, mid', next) && from <= mid <= mid' <= next
    ensures Renumbers(uuid, a + b, a' + b', ids + more, from, next)
  {
  }

  lemma {:induction false} PlansRenumbered(uuid: Uuids, plans: seq<Json>, ids: Renumbering, from: nat)
    requires RenamePlans(uuid, plans, ids, from).Ok?
    ensures var r := RenamePlans(uuid, plans, ids, from).value;
      from <= r.next && |r.ids| == |ids| + |plans| && r.ids[..|ids|] == ids &&
      Renumbers(uuid, plans, r.items, r.ids[|ids|..], from, r.next)
    decreases |plans|
  {
    if plans != [] {
      var init, last := plans[..|plans| - 1], plans[|plans| - 1];
      PlansRenumbered(uuid, init, ids, from);
      var r := RenamePlans(uuid, init, ids, from).value;
      var now := RenamePlan(uuid, last, r).value;
      RenumbersAppend(uuid, init, r.items, r.ids[|ids|..], from, r.next,
        [last], [now.items[|r.items|]], [(Get(last.fields, "id"), r.next)], r.next, now.next);
      assert now.ids[|ids|..] == r.ids[|ids|..] + [(Get(last.fields, "id"), r.next)];
      assert plans == init + [last];
    }
  }

  lemma ServiceRenumbered(uuid: Uuids, service: Json, r: Renamed)
    requires RenameService(uuid, service, r).Ok?
    ensures var now := RenameService(uuid, service, r).value;
      r.next + 4 <= now.next && |now.ids| == |r.ids| + |PlansOf(service)| && now.ids[..|r.ids|] == r.ids &&
      now.items[..|r.items|] == r.items && |now.items| == |r.items| + 1 &&
      Renumbers(uuid, PlansOf(service), PlansOf(now.items[|r.items|]), now.ids[|r.ids|..], r.next + 4, now.next)
  {
    PlansRenumbered(uuid, service.fields["plans"].items, r.ids, r.next + 4);
  }

  lemma RenumberedPlans(uuid: Uuids, plans: seq<Json>, renamed: seq<Json>, ids: Renumbering, from: nat, next: nat)
    requires Renumbers(uuid, plans, renamed, ids, from, next)
    ensures |plans| == |renamed| && forall i :: 0 <= i < |plans| ==> RelPlan(plans[i], renamed[i])
  {
    forall i | 0 <= i < |plans|
      ensures RelPlan(plans[i], renamed[i])
    {
      assert plans[i].fields["id" := Str(uuid(ids[i].1))] - {"id"} == plans[i].fields - {"id"};
    }
  }

  lemma ClientRenamed(client: Fields, id: Json, secret: Json)
    ensures client["id" := id]["secret" := secret] - {"id", "secret"} == client - {"id", "secret"}
  {
  }

  lemma ServiceFieldsRenamed(service: Fields, name: Json, id: Json, client: Json, plans: Json)
    ensures var renamed := service["name" := name]["id" := id]["dashboard_client" := client]["plans" := plans];
      renamed - {"name", "id", "dashboard_client", "plans"} == service - {"name", "id", "dashboard_client", "plans"} &&
      renamed["dashboard_client"] == client && renamed["plans"] == plans
  {
  }

  lemma ServiceRelated(uuid: Uuids, service: Json, r: Renamed)
    requires RenameService(uuid, service, r).Ok?
    ensures var now := RenameService(uuid, service, r).value;
      |now.items| == |r.items| + 1 && now.items[..|r.items|] == r.items && RelService(service, now.items[|r.items|])
  {
    var plans := service.fields["plans"].items;
    PlansRenumbered(uuid, plans, r.ids, r.next + 4);
    var done := RenamePlans(uuid, plans, r.ids, r.next + 4).value;
    RenumberedPlans(uuid, plans, done.items, done.ids[|r.ids|..], r.next + 4, done.next);
    var client := service.fields["dashboard_client"].fields;
    ClientRenamed(client, Str(uuid(r.next + 2)), Str(uuid(r.next + 3)));
    ServiceFieldsRenamed(service.fields, Str("fake-service-" + uuid(r.next)), Str(uuid(r.next + 1)),
      Obj(client["id" := Str(uuid(r.next + 2))]["secret" := Str(uuid(r.next + 3))]), Arr(done.items));
  }

  lemma AllPlansOneMore(services: seq<Json>)
    requires services != []
    ensures AllPlans(services) == AllPlans(services[..|services| - 1]) + PlansOf(services[|services| - 1])
  {
  }

  lemma ServiceAppended(uuid: Uuids, plans: seq<Json>, last: Json, r: Renamed)
    requires RenameService(uuid, last, r).Ok? && Renumbers(uuid, plans, AllPlans(r.items), r.ids, 0, r.next)
    ensures var now := RenameService(uuid, last, r).value;
      |now.items| == |r.items| + 1 && Renumbers(uuid, plans + PlansOf(last), AllPlans(now.items), now.ids, 0, now.next)
  {
    ServiceRenumbered(uuid, last, r);
    var now := RenameService(uuid, last, r).value;
    AllPlansOneMore(now.items);
    assert now.items[..|r.items|] == r.items && now.ids == r.ids + now.ids[|r.ids|..];
    RenumbersAppend(uuid, plans, AllPlans(r.items), r.ids, 0, r.next,
      PlansOf(last), PlansOf(now.items[|r.items|]), now.ids[|r.ids|..], r.next + 4, now.next);
  }

  lemma {:induction false} AllPlansRenumbered(uuid: Uuids, services: seq<Json>)
    requires RenameServices(uuid, services).Ok?
    ensures var r := RenameServices(uuid, services).value;
      |r.items| == |services| && Renumbers(uuid, AllPlans(services), AllPlans(r.items), r.ids, 0, r.next)
    decreases |services|
  {
    if services != [] {
      var init, last := services[..|services| - 1], services[|services| - 1];
      AllPlansRenumbered(uuid, init);
      ServiceAppended(uuid, AllPlans(init), last, RenameServices(uuid, init).value);
    }
  }

  lemma ServicesAppend(services: seq<Json>, items: seq<Json>, last: Json, all: seq<Json>)
    requires RelServices(services, items) && |all| == |items| + 1 && all[..|items|] == items && RelService(last, all[|items|])
    ensures RelServices(services + [last], all)
  {
    assert forall i :: 0 <= i < |items| ==> all[i] == all[..|items|][i];
  }

  lemma {:induction false} ServicesRelated(uuid: Uuids, services: seq<Json>)
    requires RenameServices(uuid, services).Ok?
    ensures RelServices(services, RenameServices(uuid, services).value.items)
    decreases |services|
  {
    if services != [] {
      var init, last := services[..|services| - 1], services[|services| - 1];
      ServicesRelated(uuid, init);
      var r := RenameServices(uuid, init).value;
      var now := RenameService(uuid, last, r).value;
      assert RelServices(init + [last], now.items) by {
        ServiceRelated(uuid, last, r);
        ServicesAppend(init, r.items, last, now.items);
      }
      assert services == init + [last];
    }
  }

  /** The rewritten catalog has the same services in the same places, each changed only in its
      own identifiers and in its plans' ids; taken over the whole catalog, every new plan id
      is used once. */
  lemma CatalogRenumbered(uuid: Uuids, services: seq<Json>)
    requires RenameServices(uuid, services).Ok?
    ensures var r := RenameServices(uuid, services).value;
      && RelServices(services, r.items)
      && Renumbers(uuid, AllPlans(services), AllPlans(r.items), r.ids, 0, r.next)
  {
    ServicesRelated(uuid, services);
    AllPlansRenumbered(uuid, services);
  }

  /** The mapping knows exactly the string ids, and sends each to its last new id. */
  lemma {:induction false} MappingMeaning(uuid: Uuids, ids: Renumbering, p: string)
    ensures p in MappingOf(uuid, ids) <==> exists i :: 0 <= i < |ids| && ids[i].0 == Str(p)
    ensures p in MappingOf(uuid, ids) ==>
      exists i :: 0 <= i < |ids| && ids[i].0 == Str(p) && MappingOf(uuid, ids)[p] == uuid(ids[i].1) &&
        forall j :: i < j < |ids| ==> ids[j].0 != Str(p)
    decreases |ids|
  {
    if ids != [] {
      var init, last := ids[..|ids| - 1], ids[|ids| - 1];
      MappingMeaning(uuid, init, p);
      if last.0 == Str(p) {
        assert ids[|ids| - 1].0 == Str(p);
      } else if p in MappingOf(uuid, init) {
        var i :| 0 <= i < |init| && init[i].0 == Str(p) && MappingOf(uuid, init)[p] == uuid(init[i].1) &&
          forall j :: i < j < |init| ==> init[j].0 != Str(p);
        assert ids[i] == init[i];
        assert forall j :: i < j < |ids| ==> ids[j].0 != Str(p);
      }
    }
  }

  /** Identifiers are generated without repetition, and none is a name already in use. */
  ghost predicate FreshUuids(uuid: Uuids, config: Fields) {
    && (forall m, n :: uuid(m) == uuid(n) ==> m == n)
    && (forall n :: uuid(n) !in {"", "default", "plan_id"})
    && (ServicesOf(config).Ok? ==>
          forall n, i :: 0 <= i < |AllPlans(ServicesOf(config).value)| ==> IdOf(AllPlans(ServicesOf(config).value)[i]) != Str(uuid(n)))
    && (Get(config, "behaviors").Obj? ==>
          forall n, a :: a in config["behaviors"].fields && a != "catalog" && config["behaviors"].fields[a].Obj?
            ==> uuid(n) !in config["behaviors"].fields[a].fields)
  }

  /** The script's `plan_mapping` for a file it can rewrite. */
  function PlanMapping(uuid: Uuids, config: Fields): map<string, string>
    requires ServicesOf(config).Ok? && RenameServices(uuid, ServicesOf(config).value).Ok?
  {
    MappingOf(uuid, RenameServices(uuid, ServicesOf(config).value).value.ids)
  }

  lemma NumbersIdentify(ids: Renumbering)
    requires forall i, j :: 0 <= i < j < |ids| ==> ids[i].1 < ids[j].1
    ensures forall i, j :: 0 <= i < |ids| && 0 <= j < |ids| && ids[i].1 == ids[j].1 ==> i == j
  {
  }

  lemma MappedToLast(uuid: Uuids, plans: seq<Json>, renamed: seq<Json>, ids: Renumbering, next: nat, i: nat)
    requires forall m, n :: uuid(m) == uuid(n) ==> m == n
    requires Renumbers(uuid, plans, renamed, ids, 0, next) && i < |plans| && IdOf(plans[i]).Str?
    ensures IdOf(plans[i]).s in MappingOf(uuid, ids)
    ensures IdOf(renamed[i]) == Str(MappingOf(uuid, ids)[IdOf(plans[i]).s])
       <==> (forall j :: i < j < |plans| ==> IdOf(plans[j]) != IdOf(plans[i]))
  {
    var p := IdOf(plans[i]).s;
    MappingMeaning(uuid, ids, p);
    assert ids[i].0 == Str(p);
    NumbersIdentify(ids);
    var last :| 0 <= last < |ids| && ids[last].0 == Str(p) && MappingOf(uuid, ids)[p] == uuid(ids[last].1) &&
      forall j :: last < j < |ids| ==> ids[j].0 != Str(p);
    assert IdOf(plans[last]) == Str(p);
  }

  /** A plan of the catalog gets the id that its old id is mapped to exactly when no later
      plan of the catalog has the same id. */
  lemma CatalogPlanMapped(uuid: Uuids, services: seq<Json>, i: nat)
    requires forall m, n :: uuid(m) == uuid(n) ==> m == n
    requires RenameServices(uuid, services).Ok? && i < |AllPlans(services)| && IdOf(AllPlans(services)[i]).Str?
    ensures
      var plans, r := AllPlans(services), RenameServices(uuid, services).value;
      && |AllPlans(r.items)| == |plans| && IdOf(plans[i]).s in MappingOf(uuid, r.ids)
      && (IdOf(AllPlans(r.items)[i]) == Str(MappingOf(uuid, r.ids)[IdOf(plans[i]).s]) <==>
          forall j :: i < j < |plans| ==> IdOf(plans[j]) != IdOf(plans[i]))
  {
    AllPlansRenumbered(uuid, services);
    var r := RenameServices(uuid, services).value;
    MappedToLast(uuid, AllPlans(services), AllPlans(r.items), r.ids, r.next, i);
  }

  lemma MappingIsInjective(uuid: Uuids, ids: Renumbering, p: string, q: string)
    requires forall m, n :: uuid(m) == uuid(n) ==> m == n
    requires forall i, j :: 0 <= i < j < |ids| ==> ids[i].1 < ids[j].1
    requires p in MappingOf(uuid, ids) && q in MappingOf(uuid, ids) && MappingOf(uuid, ids)[p] == MappingOf(uuid, ids)[q]
    ensures p == q
  {
    MappingMeaning(uuid, ids, p);
    MappingMeaning(uuid, ids, q);
    NumbersIdentify(ids);
  }

  lemma MappingIsFresh(uuid: Uuids, config: Fields)
    requires FreshUuids(uuid, config) && ServicesOf(config).Ok? && RenameServices(uuid, ServicesOf(config).value).Ok?
    ensures FreshIds(PlanMapping(uuid, config))
    ensures forall p :: p in PlanMapping(uuid, config) ==> exists n :: PlanMapping(uuid, config)[p] == uuid(n)
  {
    var services := ServicesOf(config).value;
    var ids := RenameServices(uuid, services).value.ids;
    AllPlansRenumbered(uuid, services);
    var m := MappingOf(uuid, ids);
    forall p | p in m
      ensures (exists n :: m[p] == uuid(n)) && m[p] !in m && m[p] !in {"default", "plan_id", ""}
    {
      MappingMeaning(uuid, ids, p);
      MappingMeaning(uuid, ids, m[p]);
    }
    forall p, q | p in m && q in m && m[p] == m[q]
      ensures p == q
    {
      MappingIsInjective(uuid, ids, p, q);
    }
  }

  // ----- the rewritten file -----

  /** Every plan with a response of its own is in the catalog; a plan called by the empty
      string may be missing. */
  ghost predicate PlansInCatalog(behaviors: Fields, mapping: map<string, string>) {
    forall a :: a in behaviors && a != "catalog" && behaviors[a].Obj? ==> Unmapped(mapping, behaviors[a].fields) <= {""}
  }

  lemma TablesDecide(rho: string -> string, b: Fields, b': Fields, mapping: map<string, string>)
    requires b.Keys == b'.Keys && "catalog" in b && RelCatalog(b["catalog"], b'["catalog"])
    requires forall a :: a in b && a != "catalog" ==>
      b[a].Obj? && (RelTable(rho, a, b[a], b'[a]) <==> Unmapped(mapping, b[a].fields) <= {""})
    ensures RelBehaviors(rho, Obj(b), Obj(b')) <==> PlansInCatalog(b, mapping)
  {
  }

  lemma BehaviorsSurvive(behaviors: Fields, mapping: map<string, string>, order: KeyOrder, catalog: Json)
    requires FreshIds(mapping) && IsKeyOrder(order) && AllTables(behaviors) && "catalog" in behaviors
    requires forall a :: a in behaviors && a != "catalog" ==> FreshFor(mapping, behaviors[a].fields)
    requires RelCatalog(behaviors["catalog"], catalog)
    ensures var rekeyed := RekeyedBehaviors(behaviors["catalog" := catalog], mapping, order);
      rekeyed.Ok? &&
      (RelBehaviors(Exchange(mapping), Obj(behaviors), Obj(rekeyed.value)) <==> PlansInCatalog(behaviors, mapping))
  {
    var rho := Exchange(mapping);
    var rekeyed := RekeyedBehaviors(behaviors["catalog" := catalog], mapping, order).value;
    forall a | a in behaviors && a != "catalog"
      ensures RelTable(rho, a, behaviors[a], rekeyed[a]) <==> Unmapped(mapping, behaviors[a].fields) <= {""}
    {
      TableSurvives(behaviors[a].fields, mapping, order(behaviors[a].fields), a);
    }
    TablesDecide(rho, behaviors, rekeyed, mapping);
  }

  lemma TablesAreFresh(uuid: Uuids, config: Fields)
    requires FreshUuids(uuid, config) && ServicesOf(config).Ok? && RenameServices(uuid, ServicesOf(config).value).Ok?
    requires AllTables(config["behaviors"].fields)
    ensures forall a :: a in config["behaviors"].fields && a != "catalog" ==>
      FreshFor(PlanMapping(uuid, config), config["behaviors"].fields[a].fields)
  {
    MappingIsFresh(uuid, config);
  }

  lemma CatalogRelated(uuid: Uuids, config: Fields)
    requires ServicesOf(config).Ok? && RenameServices(uuid, ServicesOf(config).value).Ok?
    ensures RelCatalog(config["behaviors"].fields["catalog"],
                       WithServices(config, RenameServices(uuid, ServicesOf(config).value).value.items))
  {
    ServicesRelated(uuid, ServicesOf(config).value);
    var renamed := RenameServices(uuid, ServicesOf(config).value).value.items;
    var catalog := config["behaviors"].fields["catalog"].fields;
    var body := catalog["body"].fields;
    assert body["services" := Arr(renamed)] - {"services"} == body - {"services"};
    assert catalog["body" := Obj(body["services" := Arr(renamed)])] - {"body"} == catalog - {"body"};
  }

  lemma OnlyBehaviorsDiffer(rho: string -> string, config: Fields, behaviors: Json)
    requires "behaviors" in config
    ensures RelConfig(rho, config, config["behaviors" := behaviors]) <==> RelBehaviors(rho, config["behaviors"], behaviors)
  {
  }

  lemma TablesWereThere(behaviors: Fields, catalog: Json)
    requires AllTables(behaviors["catalog" := catalog])
    ensures AllTables(behaviors)
  {
    assert forall a :: a in behaviors && a != "catalog" ==> behaviors["catalog" := catalog][a] == behaviors[a];
  }

  /** The rewritten configuration is the original one under renamed plans exactly when every
      plan with a response of its own is in the catalog (or is the empty string). */
  lemma RewrittenFileRelated(uuid: Uuids, order: KeyOrder, config: Fields)
    requires FreshUuids(uuid, config) && IsKeyOrder(order) && Uniquified(uuid, order, config).Ok?
    ensures RelConfig(Exchange(PlanMapping(uuid, config)), config, Uniquified(uuid, order, config).value)
       <==> PlansInCatalog(config["behaviors"].fields, PlanMapping(uuid, config))
  {
    var behaviors, mapping := config["behaviors"].fields, PlanMapping(uuid, config);
    var catalog := WithServices(config, RenameServices(uuid, ServicesOf(config).value).value.items);
    TablesWereThere(behaviors, catalog);
    MappingIsFresh(uuid, config);
    TablesAreFresh(uuid, config);
    CatalogRelated(uuid, config);
    BehaviorsSurvive(behaviors, mapping, order, catalog);
    OnlyBehaviorsDiffer(Exchange(mapping), config, Uniquified(uuid, order, config).value["behaviors"]);
  }

  /** The script rewrites `config` to `written`; no plan of the catalog is called `plan_id`. */
  ghost predicate Rewrites(uuid: Uuids, order: KeyOrder, config: Fields, written: Fields) {
    && FreshUuids(uuid, config) && IsKeyOrder(order) && Uniquified(uuid, order, config) == Ok(written)
    && "plan_id" !in PlanMapping(uuid, config)
  }

  /** The file a broker is started on. */
  function FileOf(config: Fields): Data {
    Data(config, map[])
  }

  /** Whatever requests they are sent, with plans renamed for the second, a broker started on
      each file gives related answers. */
  ghost predicate AnswerAlike(rho: string -> string, file: Data, file': Data) {
    forall rs: seq<Request>, k: nat :: k < |rs| ==>
      RelReply(rho, After(file, file, rs[..k]), rs[k], ReplyAt(file, file, rs, k), ReplyAt(file', file', RenRun(rho, rs), k))
  }

  /** ... and they hold related data after every run. */
  ghost predicate HoldAlike(rho: string -> string, file: Data, file': Data) {
    forall rs :: RelData(rho, After(file, file, rs), After(file', file', RenRun(rho, rs)))
  }

  lemma RelatedFilesSimulate(rho: string -> string, file: Data, file': Data)
    requires Renaming(rho) && RelData(rho, file, file')
    ensures AnswerAlike(rho, file, file') && HoldAlike(rho, file, file')
  {
    forall rs: seq<Request>, k: nat | k < |rs|
      ensures RelReply(rho, After(file, file, rs[..k]), rs[k], ReplyAt(file, file, rs, k), ReplyAt(file', file', RenRun(rho, rs), k))
    {
      Simulation(rho, file, file', file, file', rs, k);
    }
    forall rs
      ensures RelData(rho, After(file, file, rs), After(file', file', RenRun(rho, rs)))
    {
      RunRelated(rho, file, file', file, file', rs);
    }
  }

  /** The answer to `/config` shows every behaviour table. */
  lemma DumpShowsTables(rho: string -> string, config: Fields, behaviors: Json)
    requires RelDump(rho, ConfigReply(FileOf(config)), ConfigReply(FileOf(config["behaviors" := behaviors])))
    ensures RelConfig(rho, config, config["behaviors" := behaviors])
  {
    var m, m' := ConfigFields(FileOf(config)) - {INSTANCES}, ConfigFields(FileOf(config["behaviors" := behaviors])) - {INSTANCES};
    assert RelConfig(rho, m, m');
    assert Get(m, "behaviors") == Get(config, "behaviors") && Get(m', "behaviors") == behaviors;
    assert "behaviors" in m' ==> "behaviors" in m;
  }

  lemma AlikeDumps(rho: string -> string, file: Data, file': Data)
    requires AnswerAlike(rho, file, file')
    ensures RelDump(rho, ConfigReply(file), ConfigReply(file'))
  {
    var rs := [DumpConfig];
    assert RelReply(rho, After(file, file, rs[..0]), rs[0], ReplyAt(file, file, rs, 0), ReplyAt(file', file', RenRun(rho, rs), 0));
  }

  /** Brokers on two files that differ in their behaviours are alike exactly when the files are
      related. */
  lemma AlikeWhenRelated(rho: string -> string, config: Fields, behaviors: Json)
    requires Renaming(rho)
    ensures var file, file' := FileOf(config), FileOf(config["behaviors" := behaviors]);
      && (AnswerAlike(rho, file, file') <==> RelConfig(rho, config, config["behaviors" := behaviors]))
      && (AnswerAlike(rho, file, file') ==> HoldAlike(rho, file, file'))
  {
    var file, file' := FileOf(config), FileOf(config["behaviors" := behaviors]);
    if RelConfig(rho, config, config["behaviors" := behaviors]) {
      RelatedFilesSimulate(rho, file, file');
    } else if AnswerAlike(rho, file, file') {
      AlikeDumps(rho, file, file');
      DumpShowsTables(rho, config, behaviors);
    }
  }

  /** A broker started on the rewritten file, sent any run of requests with its plans
      renamed, answers every request as the original broker answers the original one, exactly
      when every plan with a response of its own is in the catalog (or is the empty string);
      it then also holds related data after every run. */
  lemma RewrittenBrokerSimulates(uuid: Uuids, order: KeyOrder, config: Fields, written: Fields)
    requires Rewrites(uuid, order, config, written)
    ensures AnswerAlike(Exchange(PlanMapping(uuid, config)), FileOf(config), FileOf(written))
       <==> PlansInCatalog(config["behaviors"].fields, PlanMapping(uuid, config))
    ensures PlansInCatalog(config["behaviors"].fields, PlanMapping(uuid, config)) ==>
      HoldAlike(Exchange(PlanMapping(uuid, config)), FileOf(config), FileOf(written))
  {
    RewrittenFileRelated(uuid, order, config);
    MappingIsFresh(uuid, config);
    ExchangeFacts(PlanMapping(uuid, config));
    AlikeWhenRelated(Exchange(PlanMapping(uuid, config)), config, written["behaviors"]);
  }
}
