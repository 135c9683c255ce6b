/** The identifiers a rewritten catalog offers: which files can be rewritten, where every
    fresh identifier ends up, and that none of the old ones survives. */
module CatalogIdentifiers {
  import opened JsonValues
  import opened BrokerModel
  import opened PlanRekeying
  import opened UniqueConfig

  // ----- which files can be rewritten -----

  predicate HasShape(service: Json) {
    && service.Obj? && Get(service.fields, "dashboard_client").Obj? && Get(service.fields, "plans").Arr?
    && forall j :: 0 <= j < |service.fields["plans"].items| ==> service.fields["plans"].items[j].Obj?
  }

  /** A catalog of well-shaped services, and hashes as all other behaviour tables. */
  predicate CanBeRewritten(config: Fields) {
    && Get(config, "behaviors").Obj?
    && var behaviors := config["behaviors"].fields;
       && Get(behaviors, "catalog").Obj? && Get(behaviors["catalog"].fields, "body").Obj?
       && Get(behaviors["catalog"].fields["body"].fields, "services").Arr?
       && (var services := behaviors["catalog"].fields["body"].fields["services"].items;
           forall i :: 0 <= i < |services| ==> HasShape(services[i]))
       && forall a :: a in behaviors && a != "catalog" ==> behaviors[a].Obj?
  }

  lemma {:induction false} PlansRename(uuid: Uuids, plans: seq<Json>, ids: Renumbering, next: nat)
    ensures RenamePlans(uuid, plans, ids, next).Ok? <==> forall j :: 0 <= j < |plans| ==> plans[j].Obj?
    decreases |plans|
  {
    if plans != [] {
      PlansRename(uuid, plans[..|plans| - 1], ids, next);
    }
  }

  lemma ServiceRenames(uuid: Uuids, service: Json, r: Renamed)
    ensures RenameService(uuid, service, r).Ok? <==> HasShape(service)
  {
    if service.Obj? && Get(service.fields, "plans").Arr? {
      PlansRename(uuid, service.fields["plans"].items, r.ids, r.next + 4);
    }
  }

  lemma {:induction false} ServicesRename(uuid: Uuids, services: seq<Json>)
    ensures RenameServices(uuid, services).Ok? <==> forall i :: 0 <= i < |services| ==> HasShape(services[i])
    decreases |services|
  {
    if services != [] {
      var init, last := services[..|services| - 1], services[|services| - 1];
      ServicesRename(uuid, init);
      assert forall i :: 0 <= i < |init| ==> init[i] == services[i];
      if RenameServices(uuid, init).Ok? {
        ServiceRenames(uuid, last, RenameServices(uuid, init).value);
      }
    }
  }

  /** The script rewrites exactly the files that have the shape it walks through. */
  lemma RewritesWhen(uuid: Uuids, order: KeyOrder, config: Fields)
    ensures Uniquified(uuid, order, config).Ok? <==> CanBeRewritten(config)
  {
    if ServicesOf(config).Ok? {
      ServicesRename(uuid, ServicesOf(config).value);
      if RenameServices(uuid, ServicesOf(config).value).Ok? {
        OtherTables(config["behaviors"].fields, WithServices(config, RenameServices(uuid, ServicesOf(config).value).value.items));
      }
    }
  }

  lemma OtherTables(behaviors: Fields, catalog: Json)
    ensures AllTables(behaviors["catalog" := catalog]) <==> forall a :: a in behaviors && a != "catalog" ==> behaviors[a].Obj?
  {
    var b := behaviors["catalog" := catalog];
    assert forall a :: a != "catalog" ==> (a in b <==> a in behaviors) && (a in b ==> b[a] == behaviors[a]);
  }

  // ----- where the fresh identifiers go -----

  /** The service's name, its id, its client's id and secret and its plans' ids are the
      identifiers from number `first` on, in this order. */
  ghost predicate Carries(uuid: Uuids, service: Json, first: nat) {
    && service.Obj?
    && Get(service.fields, "name") == Str("fake-service-" + uuid(first))
    && Get(service.fields, "id") == Str(uuid(first + 1))
    && Get(service.fields, "dashboard_client").Obj?
    && Get(service.fields["dashboard_client"].fields, "id") == Str(uuid(first + 2))
    && Get(service.fields["dashboard_client"].fields, "secret") == Str(uuid(first + 3))
    && forall j :: 0 <= j < |PlansOf(service)| ==> IdOf(PlansOf(service)[j]) == Str(uuid(first + 4 + j))
  }

  /** Every service carries identifiers of its own, those of service `i` from number
      `firsts[i]` on. */
  ghost predicate Numbered(uuid: Uuids, services: seq<Json>, firsts: seq<nat>) {
    && |firsts| == |services|
    && (forall i :: 0 <= i < |services| ==> Carries(uuid, services[i], firsts[i]))
    && forall i, j :: 0 <= i < j < |services| ==> firsts[i] + 4 + |PlansOf(services[i])| <= firsts[j]
  }

  lemma {:induction false} PlansNumbered(uuid: Uuids, plans: seq<Json>, ids: Renumbering, from: nat)
    requires RenamePlans(uuid, plans, ids, from).Ok?
    ensures var r := RenamePlans(uuid, plans, ids, from).value;
      r.next == from + |plans| && |r.items| == |plans| && forall j :: 0 <= j < |plans| ==> IdOf(r.items[j]) == Str(uuid(from + j))
    decreases |plans|
  {
    if plans != [] {
      PlansNumbered(uuid, plans[..|plans| - 1], ids, from);
    }
  }

  lemma AssembledCarries(uuid: Uuids, service: Fields, client: Fields, plans: seq<Json>, n: nat)
    requires forall j :: 0 <= j < |plans| ==> IdOf(plans[j]) == Str(uuid(n + 4 + j))
    ensures
      var newClient := client["id" := Str(uuid(n + 2))]["secret" := Str(uuid(n + 3))];
      var renamed := service["name" := Str("fake-service-" + uuid(n))]["id" := Str(uuid(n + 1))]
                            ["dashboard_client" := Obj(newClient)]["plans" := Arr(plans)];
      Carries(uuid, Obj(renamed), n) && PlansOf(Obj(renamed)) == plans
  {
  }

  lemma ServiceNumbered(uuid: Uuids, service: Json, r: Renamed)
    requires RenameService(uuid, service, r).Ok?
    ensures var now := RenameService(uuid, service, r).value;
      && |now.items| == |r.items| + 1 && now.items[..|r.items|] == r.items
      && Carries(uuid, now.items[|r.items|], r.next) && now.next == r.next + 4 + |PlansOf(now.items[|r.items|])|
  {
    var plans := service.fields["plans"].items;
    PlansNumbered(uuid, plans, r.ids, r.next + 4);
    AssembledCarries(uuid, service.fields, service.fields["dashboard_client"].fields,
      RenamePlans(uuid, plans, r.ids, r.next + 4).value.items, r.next);
  }

  /** ... and all their numbers are below `next`. */
  ghost predicate NumberedBelow(uuid: Uuids, services: seq<Json>, firsts: seq<nat>, next: nat) {
    Numbered(uuid, services, firsts) && forall i :: 0 <= i < |services| ==> firsts[i] + 4 + |PlansOf(services[i])| <= next
  }

  lemma NumberedOneMore(uuid: Uuids, services: seq<Json>, firsts: seq<nat>, next: nat, all: seq<Json>)
    requires NumberedBelow(uuid, services, firsts, next) && |all| == |services| + 1 && all[..|services|] == services
    requires Carries(uuid, all[|services|], next)
    ensures NumberedBelow(uuid, all, firsts + [next], next + 4 + |PlansOf(all[|services|])|)
  {
    assert forall i :: 0 <= i < |services| ==> all[i] == services[i];
  }

  lemma {:induction false} ServicesNumbered(uuid: Uuids, services: seq<Json>) returns (firsts: seq<nat>)
    requires RenameServices(uuid, services).Ok?
    ensures var r := RenameServices(uuid, services).value;
      |r.items| == |services| && NumberedBelow(uuid, r.items, firsts, r.next)
    decreases |services|
  {
    if services == [] {
      firsts := [];
    } else {
      var init, last := services[..|services| - 1], services[|services| - 1];
      var before := ServicesNumbered(uuid, init);
      var r := RenameServices(uuid, init).value;
      ServiceNumbered(uuid, last, r);
      NumberedOneMore(uuid, r.items, before, r.next, RenameService(uuid, last, r).value.items);
      firsts := before + [r.next];
    }
  }

  lemma WrittenServices(uuid: Uuids, order: KeyOrder, config: Fields, written: Fields)
    requires Uniquified(uuid, order, config) == Ok(written)
    ensures ServicesOf(config).Ok? && RenameServices(uuid, ServicesOf(config).value).Ok?
    ensures ServicesOf(written) == Ok(RenameServices(uuid, ServicesOf(config).value).value.items)
  {
    var items := RenameServices(uuid, ServicesOf(config).value).value.items;
    assert written["behaviors"].fields["catalog"] == WithServices(config, items);
  }

  /** Every service of the rewritten file carries new identifiers, no number being used twice. */
  lemma RewrittenIdentifiers(uuid: Uuids, order: KeyOrder, config: Fields, written: Fields) returns (firsts: seq<nat>)
    requires Uniquified(uuid, order, config) == Ok(written)
    ensures ServicesOf(config).Ok? && ServicesOf(written).Ok?
    ensures |ServicesOf(written).value| == |ServicesOf(config).value|
    ensures Numbered(uuid, ServicesOf(written).value, firsts)
  {
    WrittenServices(uuid, order, config, written);
    firsts := ServicesNumbered(uuid, ServicesOf(config).value);
  }

  /** Identifiers of different services, and different identifiers of one, differ. */
  lemma IdentifiersDiffer(uuid: Uuids, services: seq<Json>, firsts: seq<nat>, i: nat, k: nat, j: nat, l: nat)
    requires forall m, n :: uuid(m) == uuid(n) ==> m == n
    requires Numbered(uuid, services, firsts) && i < |services| && j < |services|
    requires k < 4 + |PlansOf(services[i])| && l < 4 + |PlansOf(services[j])|
    ensures uuid(firsts[i] + k) == uuid(firsts[j] + l) ==> i == j && k == l
  {
  }

  // ----- nothing old survives -----

  /** `s` is the name, the id, the client's id or secret, or a plan's id of the service. */
  predicate Offers(service: Json, s: string) {
    && service.Obj?
    && (Get(service.fields, "name") == Str(s) || Get(service.fields, "id") == Str(s)
        || (Get(service.fields, "dashboard_client").Obj? &&
            (Get(service.fields["dashboard_client"].fields, "id") == Str(s) ||
             Get(service.fields["dashboard_client"].fields, "secret") == Str(s)))
        || exists j :: 0 <= j < |PlansOf(service)| && IdOf(PlansOf(service)[j]) == Str(s))
  }

  predicate CatalogOffers(services: seq<Json>, s: string) {
    exists i :: 0 <= i < |services| && Offers(services[i], s)
  }

  /** No generated identifier, alone or in a service name, is in use in the catalog. */
  ghost predicate FreshForCatalog(uuid: Uuids, services: seq<Json>) {
    forall n :: !CatalogOffers(services, uuid(n)) && !CatalogOffers(services, "fake-service-" + uuid(n))
  }

  lemma CarriedOffers(uuid: Uuids, service: Json, first: nat, s: string)
    requires Carries(uuid, service, first) && Offers(service, s)
    ensures exists n :: s == uuid(n) || s == "fake-service-" + uuid(n)
  {
  }

  /** With fresh identifiers, none that the original catalog offers is offered by the rewritten
      one, so a broker set up with the script shares none with one started on the file itself. */
  lemma NoIdentifierSurvives(uuid: Uuids, order: KeyOrder, config: Fields, written: Fields, s: string)
    requires Uniquified(uuid, order, config) == Ok(written)
    requires ServicesOf(config).Ok? && FreshForCatalog(uuid, ServicesOf(config).value)
    ensures ServicesOf(written).Ok? && !(CatalogOffers(ServicesOf(config).value, s) && CatalogOffers(ServicesOf(written).value, s))
  {
    var firsts := RewrittenIdentifiers(uuid, order, config, written);
    var services := ServicesOf(written).value;
    if i :| 0 <= i < |services| && Offers(services[i], s) {
      CarriedOffers(uuid, services[i], firsts[i], s);
    }
  }
}
