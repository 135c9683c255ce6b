/** Fetching a binding writes the binding's data into the configured response body, so
    the configuration remembers every binding fetched before. */
module BrokerBindings {
  import opened JsonValues
  import opened BrokerModel

  /** The slot of the fetch table that a binding fetch writes to, if it gets that far. */
  function WritesTo(d: Data, r: Request): Option<string> {
    if r.FetchBinding? && r.bindingId in d.entries && d.entries[r.bindingId].Binding? then
      match FetchTarget(d.config, d.entries[r.bindingId].bindingData)
      case Some((slot, _)) => Some(slot)
      case None => None
    else None
  }

  /** The binding data that a request writes to `slot`, if it does. */
  function WrittenBy(d: Data, r: Request, slot: string): seq<Json> {
    if WritesTo(d, r) == Some(slot) then [d.entries[r.bindingId].bindingData] else []
  }

  /** The binding data written to `slot` during a run, in order. */
  function Fetched(file: Data, d: Data, rs: seq<Request>, slot: string): seq<Json> {
    if rs == [] then []
    else
      var init := rs[..|rs| - 1];
      Fetched(file, d, init, slot) + WrittenBy(After(file, d, init), rs[|rs| - 1], slot)
  }

  /** The request does not reconfigure the response to binding fetches. */
  ghost predicate KeepsFetchTable(r: Request) {
    && !r.Reset?
    && (r.PostConfig? ==>
          forall i :: 0 <= i < |r.post| && r.post[i].0 == "behaviors" && r.post[i].1.Obj? ==> FETCH_BINDING !in r.post[i].1.fields)
  }

  /** The response configured under `slot` has an object as its body. */
  predicate HasBody(config: Fields, slot: string) {
    && TableOf(config, FETCH_BINDING).Some? && slot in TableOf(config, FETCH_BINDING).value
    && TableOf(config, FETCH_BINDING).value[slot].Obj?
    && Get(TableOf(config, FETCH_BINDING).value[slot].fields, "body").Obj?
  }

  function ResponseAt(config: Fields, slot: string): Fields
    requires HasBody(config, slot)
  {
    TableOf(config, FETCH_BINDING).value[slot].fields
  }

  lemma {:induction false} PostKeepsTable(d: Data, pairs: seq<(string, Json)>, posted: map<string, Entry>)
    requires forall i :: 0 <= i < |pairs| && pairs[i].0 == "behaviors" && pairs[i].1.Obj? ==> FETCH_BINDING !in pairs[i].1.fields
    ensures TableOf(MergePairs(d, pairs, posted).0.config, FETCH_BINDING) == TableOf(d.config, FETCH_BINDING)
    decreases |pairs|
  {
    if pairs != [] {
      PostKeepsTable(d, pairs[..|pairs| - 1], posted);
    }
  }

  /** A binding fetch overlays the binding's data on the body under its slot, and changes no
      other slot. */
  lemma FetchWritesBody(d: Data, bindingId: string, slot: string)
    requires HasBody(d.config, slot)
    ensures HasBody(DoFetchBinding(d, bindingId).0.config, slot)
    ensures ResponseAt(DoFetchBinding(d, bindingId).0.config, slot) ==
      if WritesTo(d, FetchBinding("", bindingId)) == Some(slot) then
        ResponseAt(d.config, slot)["body" := Overlay(ResponseAt(d.config, slot)["body"], d.entries[bindingId].bindingData)]
      else ResponseAt(d.config, slot)
  {
  }

  lemma OverlayOneMore(a: Json, bs: seq<Json>, b: Json)
    ensures OverlayAll(a, bs + [b]) == Overlay(OverlayAll(a, bs), b)
  {
    assert (bs + [b])[..|bs|] == bs;
  }

  lemma OverlayMore(a: Json, bs: seq<Json>, more: seq<Json>)
    requires |more| <= 1
    ensures OverlayAll(a, bs + more) == OverlayAll(OverlayAll(a, bs), more)
  {
    if more == [] {
      assert bs + more == bs;
    } else {
      assert more == [more[0]];
      OverlayOneMore(a, bs, more[0]);
    }
  }

  lemma HistoryOneMore(file: Data, s: Data, r: Request, slot: string, response: Fields, fetched: seq<Json>)
    requires HasBody(s.config, slot) && KeepsFetchTable(r) && "body" in response
    requires ResponseAt(s.config, slot) == response["body" := OverlayAll(response["body"], fetched)]
    ensures HasBody(Step(file, s, r).0.config, slot)
    ensures ResponseAt(Step(file, s, r).0.config, slot)
         == response["body" := OverlayAll(response["body"], fetched + WrittenBy(s, r, slot))]
  {
    StepWritesBody(file, s, r, slot);
    OverlayMore(response["body"], fetched, WrittenBy(s, r, slot));
  }

  /** After any run that leaves the fetch responses configured as they are, the body under a
      slot is the original overlaid by every binding fetched from that slot, in order. */
  lemma {:induction false} FetchHistory(file: Data, d: Data, rs: seq<Request>, slot: string)
    requires HasBody(d.config, slot)
    requires forall r :: r in rs ==> KeepsFetchTable(r)
    ensures HasBody(After(file, d, rs).config, slot)
    ensures ResponseAt(After(file, d, rs).config, slot) ==
      ResponseAt(d.config, slot)["body" := OverlayAll(ResponseAt(d.config, slot)["body"], Fetched(file, d, rs, slot))]
    decreases |rs|
  {
    if rs != [] {
      var init, last := rs[..|rs| - 1], rs[|rs| - 1];
      FetchHistory(file, d, init, slot);
      HistoryOneMore(file, After(file, d, init), last, slot, ResponseAt(d.config, slot), Fetched(file, d, init, slot));
    }
  }

  lemma StepWritesBody(file: Data, d: Data, r: Request, slot: string)
    requires HasBody(d.config, slot) && KeepsFetchTable(r)
    ensures HasBody(Step(file, d, r).0.config, slot)
    ensures ResponseAt(Step(file, d, r).0.config, slot) ==
      ResponseAt(d.config, slot)["body" := OverlayAll(ResponseAt(d.config, slot)["body"], WrittenBy(d, r, slot))]
  {
    if r.FetchBinding? {
      FetchWritesBody(d, r.bindingId, slot);
    } else if r.PostConfig? {
      if PostedInstancesOf(r.post).Ok? {
        PostKeepsTable(d, r.post, PostedInstancesOf(r.post).value);
      }
    }
  }

  /** A binding fetch is answered exactly when the binding is known, its data is an object,
      and the response configured for its plan, or else the default, has an object as its
      body and can be waited for. */
  lemma FetchAnswersWhen(d: Data, bindingId: string)
    ensures !DoFetchBinding(d, bindingId).1.Raised? <==>
      && bindingId in d.entries && d.entries[bindingId].Binding? && d.entries[bindingId].bindingData.Obj?
      && TableOf(d.config, FETCH_BINDING).Some?
      && var slot := SlotOf(TableOf(d.config, FETCH_BINDING).value, Get(d.entries[bindingId].bindingData.fields, "plan_id"));
         HasBody(d.config, slot) && CanSleep(Get(ResponseAt(d.config, slot), "sleep_seconds"))
  {
  }

  /** Whatever was fetched before, a binding fetch that answers from the configuration
      agrees with its own binding's data on every key of that data. */
  lemma FetchAnswersOwnData(d: Data, bindingId: string)
    requires !DoFetchBinding(d, bindingId).1.Raised?
    ensures bindingId in d.entries && d.entries[bindingId].Binding? && d.entries[bindingId].bindingData.Obj?
    ensures
      var own := d.entries[bindingId].bindingData.fields;
      var reply := DoFetchBinding(d, bindingId).1;
      reply == ASYNC_REQUIRED ||
      (reply.body.AsJson? && reply.body.json.Obj? &&
       forall k :: k in own ==> k in reply.body.json.fields && reply.body.json.fields[k] == own[k])
  {
  }

  lemma BodyWasThereBefore(file: Data, d: Data, r: Request, slot: string)
    requires HasBody(Step(file, d, r).0.config, slot) && KeepsFetchTable(r)
    ensures HasBody(d.config, slot)
  {
    if r.PostConfig? {
      if PostedInstancesOf(r.post).Ok? {
        PostKeepsTable(d, r.post, PostedInstancesOf(r.post).value);
      }
    }
  }

  /** A response with an object body has had one ever since it was configured. */
  lemma {:induction false} BodyWasThere(file: Data, d: Data, rs: seq<Request>, slot: string)
    requires HasBody(After(file, d, rs).config, slot)
    requires forall r :: r in rs ==> KeepsFetchTable(r)
    ensures HasBody(d.config, slot)
    decreases |rs|
  {
    if rs != [] {
      var init, last := rs[..|rs| - 1], rs[|rs| - 1];
      BodyWasThereBefore(file, After(file, d, init), last, slot);
      BodyWasThere(file, d, init, slot);
    }
  }

  /** What a binding fetch answers from `response`, `body` being the merged body. */
  function AnswerWith(response: Fields, body: Json): Reply {
    if !CanSleep(Get(response, "sleep_seconds")) then Raised
    else if Truthy(Get(response, "async_only")) then ASYNC_REQUIRED
    else Reply(Get(response, "status"), AsJson(body))
  }

  lemma FetchAnswer(d: Data, bindingId: string, slot: string)
    requires WritesTo(d, FetchBinding("", bindingId)) == Some(slot)
    ensures HasBody(d.config, slot)
    ensures DoFetchBinding(d, bindingId).1 ==
      AnswerWith(ResponseAt(d.config, slot), Overlay(ResponseAt(d.config, slot)["body"], d.entries[bindingId].bindingData))
  {
  }

  lemma FetchAnswerFrom(file: Data, s: Data, instanceId: string, bindingId: string, slot: string, response: Fields, fetched: seq<Json>)
    requires WritesTo(s, FetchBinding(instanceId, bindingId)) == Some(slot) && HasBody(s.config, slot) && "body" in response
    requires ResponseAt(s.config, slot) == response["body" := OverlayAll(response["body"], fetched)]
    ensures Step(file, s, FetchBinding(instanceId, bindingId)).1 ==
      AnswerWith(response, OverlayAll(response["body"], fetched + [s.entries[bindingId].bindingData]))
  {
    FetchAnswer(s, bindingId, slot);
    OverlayOneMore(response["body"], fetched, s.entries[bindingId].bindingData);
  }

  lemma WritesToBody(d: Data, r: Request, slot: string)
    requires WritesTo(d, r) == Some(slot)
    ensures HasBody(d.config, slot)
  {
  }

  /** After any run that leaves the fetch responses configured as they are, a binding fetch
      answers the body that was configured at its start, overlaid by the data of every
      binding fetched from the same response since, in order, and then by its own. */
  lemma FetchAnswersHistory(file: Data, d: Data, rs: seq<Request>, r: Request, slot: string)
    requires forall q :: q in rs ==> KeepsFetchTable(q)
    requires WritesTo(After(file, d, rs), r) == Some(slot)
    ensures HasBody(d.config, slot)
    ensures
      var response, own := ResponseAt(d.config, slot), After(file, d, rs).entries[r.bindingId].bindingData;
      ReplyAt(file, d, rs + [r], |rs|) ==
        AnswerWith(response, OverlayAll(response["body"], Fetched(file, d, rs, slot) + [own]))
  {
    WritesToBody(After(file, d, rs), r, slot);
    BodyWasThere(file, d, rs, slot);
    FetchHistory(file, d, rs, slot);
    FetchAnswerFrom(file, After(file, d, rs), r.id, r.bindingId, slot, ResponseAt(d.config, slot), Fetched(file, d, rs, slot));
    AfterOneMore(file, d, rs, r);
  }
}
