/** Renaming plans and binding fetches: which plan the answer to a fetch names, although
    every fetch before it wrote into the same body. */
module RenamedFetches {
  import opened JsonValues
  import opened BrokerModel
  import opened BrokerBindings
  import opened BrokerRenaming

  function RenBodies(rho: string -> string, bodies: seq<Json>): seq<Json> {
    seq(|bodies|, i requires 0 <= i < |bodies| => RenBody(rho, bodies[i]))
  }

  lemma RenBodiesAppend(rho: string -> string, a: seq<Json>, b: seq<Json>)
    ensures RenBodies(rho, a + b) == RenBodies(rho, a) + RenBodies(rho, b)
  {
  }

  // ----- the bindings fetched during a run -----

  lemma Injective(rho: string -> string, a: string, b: string)
    requires Renaming(rho)
    ensures rho(a) == rho(b) <==> a == b
  {
    assert rho(rho(a)) == a && rho(rho(b)) == b;
  }

  lemma SlotsRelated(rho: string -> string, c: Fields, c': Fields, data: Json, slot: string)
    requires Renaming(rho) && RelConfig(rho, c, c')
    ensures var t, t' := FetchTarget(c, data), FetchTarget(c', RenBody(rho, data));
      t.Some? && t.value.0 == slot <==> t'.Some? && t'.value.0 == rho(slot)
  {
    TargetRelated(rho, c, c', data);
    if FetchTarget(c, data).Some? {
      Injective(rho, FetchTarget(c, data).value.0, slot);
    }
  }

  lemma WritesRelated(rho: string -> string, d: Data, d': Data, r: Request, slot: string)
    requires Renaming(rho) && RelData(rho, d, d')
    ensures WritesTo(d, r) == Some(slot) <==> WritesTo(d', RenRequest(rho, r)) == Some(rho(slot))
    ensures WrittenBy(d', RenRequest(rho, r), rho(slot)) == RenBodies(rho, WrittenBy(d, r, slot))
  {
    if r.FetchBinding? && r.bindingId in d.entries && d.entries[r.bindingId].Binding? {
      SlotsRelated(rho, d.config, d'.config, d.entries[r.bindingId].bindingData, slot);
    }
  }

  /** The renamed run fetches the same bindings, with their plans renamed, under the renamed slot. */
  lemma {:induction false} FetchedRenamed(rho: string -> string, file: Data, file': Data, d: Data, d': Data, rs: seq<Request>, slot: string)
    requires Renaming(rho) && RelData(rho, file, file') && RelData(rho, d, d')
    ensures Fetched(file', d', RenRun(rho, rs), rho(slot)) == RenBodies(rho, Fetched(file, d, rs, slot))
    decreases |rs|
  {
    if rs != [] {
      var init, last := rs[..|rs| - 1], rs[|rs| - 1];
      assert RenRun(rho, rs)[..|rs| - 1] == RenRun(rho, init);
      FetchedRenamed(rho, file, file', d, d', init, slot);
      RunRelated(rho, file, file', d, d', init);
      var s, s' := After(file, d, init), After(file', d', RenRun(rho, init));
      WritesRelated(rho, s, s', last, slot);
      RenBodiesAppend(rho, Fetched(file, d, init, slot), WrittenBy(s, last, slot));
    }
  }

  lemma KeepsRenamed(rho: string -> string, r: Request)
    requires KeepsFetchTable(r)
    ensures KeepsFetchTable(RenRequest(rho, r))
  {
  }

  // ----- the plan in the merged body -----

  predicate NamesSome(bodies: seq<Json>) {
    exists i :: 0 <= i < |bodies| && bodies[i].Obj? && "plan_id" in bodies[i].fields
  }

  lemma NamesOneMore(bodies: seq<Json>, b: Json)
    ensures NamesSome(bodies + [b]) <==> NamesSome(bodies) || (b.Obj? && "plan_id" in b.fields)
  {
    var all := bodies + [b];
    assert all[|bodies|] == b;
    assert forall i :: 0 <= i < |bodies| ==> all[i] == bodies[i];
  }

  lemma NamedOverlay(rho: string -> string, a: Json, b: Json)
    requires a.Obj?
    ensures b.Obj? && "plan_id" in b.fields ==> Overlay(a, RenBody(rho, b)) == RenBody(rho, Overlay(a, b))
    ensures Overlay(RenBody(rho, a), RenBody(rho, b)) == RenBody(rho, Overlay(a, b))
  {
    OverlayRenamed(rho, a, b);
  }

  /** Overlaying renamed bodies renames the plan exactly when one of them names a plan. */
  lemma {:induction false} OverlayAllRenamed(rho: string -> string, a: Json, bodies: seq<Json>)
    requires a.Obj?
    ensures OverlayAll(a, bodies).Obj?
    ensures OverlayAll(a, RenBodies(rho, bodies)) ==
      if NamesSome(bodies) then RenBody(rho, OverlayAll(a, bodies)) else OverlayAll(a, bodies)
    decreases |bodies|
  {
    if bodies != [] {
      var init, last := bodies[..|bodies| - 1], bodies[|bodies| - 1];
      assert bodies == init + [last];
      OverlayAllRenamed(rho, a, init);
      RenBodiesAppend(rho, init, [last]);
      assert RenBodies(rho, [last]) == [RenBody(rho, last)];
      OverlayOneMore(a, init, last);
      OverlayOneMore(a, RenBodies(rho, init), RenBody(rho, last));
      NamesOneMore(init, last);
      NamedOverlay(rho, OverlayAll(a, init), last);
    }
  }

  function RenReply(rho: string -> string, x: Reply): Reply {
    if x.Reply? && x.body.AsJson? then Reply(x.status, AsJson(RenBody(rho, x.body.json))) else x
  }

  lemma AnswersRenamed(rho: string -> string, response: Fields, body: Json, body': Json, named: bool)
    requires body' == if named then RenBody(rho, body) else body
    ensures AnswerWith(response, body') == if named then RenReply(rho, AnswerWith(response, body)) else AnswerWith(response, body)
  {
  }

  /** What a fetch answers in the original run and in the renamed one. */
  lemma BothAnswers(rho: string -> string, file: Data, file': Data, d: Data, d': Data, rs: seq<Request>, r: Request, slot: string)
    requires Renaming(rho) && RelData(rho, file, file') && RelData(rho, d, d')
    requires forall q :: q in rs ==> KeepsFetchTable(q)
    ensures WritesTo(After(file, d, rs), r) == Some(slot) ==> HasBody(d.config, slot) && HasBody(d'.config, rho(slot))
    ensures WritesTo(After(file, d, rs), r) == Some(slot) ==>
      var fetched := Fetched(file, d, rs, slot) + [After(file, d, rs).entries[r.bindingId].bindingData];
      var m, m' := ResponseAt(d.config, slot), ResponseAt(d'.config, rho(slot));
      && ReplyAt(file, d, rs + [r], |rs|) == AnswerWith(m, OverlayAll(m["body"], fetched))
      && ReplyAt(file', d', RenRun(rho, rs) + [RenRequest(rho, r)], |rs|)
           == AnswerWith(m', OverlayAll(m'["body"], RenBodies(rho, fetched)))
  {
    var rs' := RenRun(rho, rs);
    forall q | q in rs'
      ensures KeepsFetchTable(q)
    {
      var i :| 0 <= i < |rs'| && rs'[i] == q;
      KeepsRenamed(rho, rs[i]);
    }
    if WritesTo(After(file, d, rs), r) == Some(slot) {
      RunRelated(rho, file, file', d, d', rs);
      WritesRelated(rho, After(file, d, rs), After(file', d', rs'), r, slot);
      FetchAnswersHistory(file, d, rs, r, slot);
      FetchAnswersHistory(file', d', rs', RenRequest(rho, r), rho(slot));
      FetchedRenamed(rho, file, file', d, d', rs, slot);
      var own := After(file, d, rs).entries[r.bindingId].bindingData;
      RenBodiesAppend(rho, Fetched(file, d, rs, slot), [own]);
      assert RenBodies(rho, [own]) == [RenBody(rho, own)];
    }
  }

  /** After any run that leaves the fetch responses as they are, a fetch that both brokers
      answer from the same configured response is answered with the plan renamed exactly when
      a binding that names its plan has been fetched from that response, now or before. */
  lemma FetchSimulated(rho: string -> string, file: Data, file': Data, d: Data, d': Data, rs: seq<Request>, r: Request, slot: string)
    requires Renaming(rho) && RelData(rho, file, file') && RelData(rho, d, d')
    requires forall q :: q in rs ==> KeepsFetchTable(q)
    ensures WritesTo(After(file, d, rs), r) == Some(slot) ==> HasBody(d.config, slot) && HasBody(d'.config, rho(slot))
    ensures WritesTo(After(file, d, rs), r) == Some(slot) && ResponseAt(d'.config, rho(slot)) == ResponseAt(d.config, slot) ==>
      var fetched := Fetched(file, d, rs, slot) + [After(file, d, rs).entries[r.bindingId].bindingData];
      var x, x' := ReplyAt(file, d, rs + [r], |rs|), ReplyAt(file', d', RenRun(rho, rs) + [RenRequest(rho, r)], |rs|);
      x' == if NamesSome(fetched) then RenReply(rho, x) else x
  {
    if WritesTo(After(file, d, rs), r) == Some(slot) {
      BothAnswers(rho, file, file', d, d', rs, r, slot);
      var m := ResponseAt(d.config, slot);
      var fetched := Fetched(file, d, rs, slot) + [After(file, d, rs).entries[r.bindingId].bindingData];
      OverlayAllRenamed(rho, m["body"], fetched);
      AnswersRenamed(rho, m, OverlayAll(m["body"], fetched), OverlayAll(m["body"], RenBodies(rho, fetched)), NamesSome(fetched));
    }
  }
}
