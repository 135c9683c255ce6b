/** What the broker stores for an instance is a function of the requests it received:
    replay of provisions, updates and deletions, and the polling protocol. */
module BrokerHistory {
  import opened JsonValues
  import opened BrokerModel
  import opened BrokerAnswers
  import opened BrokerIsolation

  /** The post brings no instance called `id` (a post that raises brings none). */
  predicate Brings(post: Post, id: string) {
    PostedInstancesOf(post).Ok? && id in PostedInstancesOf(post).value
  }

  /** The request reaches the entry of `id`, if at all, only by addressing it as an instance. */
  predicate Quiet(r: Request, id: string) {
    SparesId(r, id) && (r.PostConfig? ==> !Brings(r.post, id))
  }

  lemma {:induction false} MergeKeepsEntry(d: Data, pairs: seq<(string, Json)>, posted: map<string, Entry>, id: string)
    requires id !in posted
    ensures id in MergePairs(d, pairs, posted).0.entries <==> id in d.entries
    ensures id in d.entries ==> MergePairs(d, pairs, posted).0.entries[id] == d.entries[id]
    decreases |pairs|
  {
    if pairs != [] {
      MergeKeepsEntry(d, pairs[..|pairs| - 1], posted, id);
    }
  }

  /** A quiet request that does not address `id` keeps its entry. */
  lemma OthersKeepEntry(file: Data, d: Data, r: Request, id: string)
    requires Quiet(r, id) && !Addresses(r, id) && !r.Reset?
    ensures id in Step(file, d, r).0.entries <==> id in d.entries
    ensures id in d.entries ==> Step(file, d, r).0.entries[id] == d.entries[id]
  {
    if r.PostConfig? {
      if PostedInstancesOf(r.post).Ok? {
        MergeKeepsEntry(d, r.post, PostedInstancesOf(r.post).value, id);
      }
    }
  }

  // ----- replay -----

  /** Request number `put` is the last provision of `id` in a run without a later reset. */
  ghost predicate IsLastPut(rs: seq<Request>, id: string, put: nat) {
    && put < |rs| && rs[put].Provision? && rs[put].id == id
    && forall j :: put < j < |rs| ==> !rs[j].Reset? && !(rs[j].Provision? && rs[j].id == id)
  }

  /** The status configured for updates with this body: that of the plan's own response, or
      of the default. */
  function ConfiguredStatus(config: Fields, body: Json): Option<Json> {
    var plan := Index(body, "plan_id");
    if plan.Ok? && BehaviorFor(config, "update", plan.value).Ok? && BehaviorFor(config, "update", plan.value).value.Obj? then
      Some(Get(BehaviorFor(config, "update", plan.value).value.fields, "status"))
    else None
  }

  predicate IsApplied(config: Fields, body: Json) {
    ConfiguredStatus(config, body) in {Some(Num(200.0)), Some(Num(202.0))}
  }

  /** The request is an update of `id` whose configured status is 200 or 202. */
  predicate Applies(d: Data, r: Request, id: string) {
    r.Update? && r.id == id && IsApplied(d.config, r.body)
  }

  /** The bodies of the updates of `id` from request number `from` on whose configured
      status, when they arrived, was 200 or 202, in order. */
  function AcceptedBodies(file: Data, d: Data, rs: seq<Request>, id: string, from: nat): seq<Json> {
    if |rs| <= from then []
    else
      var init, last := rs[..|rs| - 1], rs[|rs| - 1];
      var before := AcceptedBodies(file, d, init, id, from);
      if Applies(After(file, d, init), last, id) then before + [last.body]
      else before
  }

  ghost predicate DeletedSince(rs: seq<Request>, id: string, put: nat) {
    exists j :: put < j < |rs| && rs[j].Deprovision? && rs[j].id == id
  }

  /** An update overlays its body exactly when its configured status is 200 or 202,
      whatever it answers. */
  lemma UpdateReplays(s: Data, id: string, body: Json, accepts: bool)
    requires id in s.entries && s.entries[id].Instance?
    ensures var e := DoUpdate(s, id, body, accepts).0.entries;
      id in e && e[id].Instance? && e[id].deleted == s.entries[id].deleted &&
      e[id].provisionData ==
        if IsApplied(s.config, body) then Overlay(s.entries[id].provisionData, body) else s.entries[id].provisionData
  {
  }

  lemma EntryAfter(file: Data, s: Data, r: Request, id: string)
    requires id in s.entries && s.entries[id].Instance?
    requires Quiet(r, id) && !r.Reset? && !(r.Provision? && r.id == id)
    ensures var e := Step(file, s, r).0.entries;
      && id in e && e[id].Instance?
      && e[id].provisionData == (if Applies(s, r, id) then Overlay(s.entries[id].provisionData, r.body) else s.entries[id].provisionData)
      && e[id].deleted == if r.Deprovision? && r.id == id then Bool(true) else s.entries[id].deleted
  {
    if !Addresses(r, id) {
      OthersKeepEntry(file, s, r, id);
    } else if r.Update? {
      UpdateReplays(s, id, r.body, r.accepts);
    }
  }

  lemma AcceptedOneMore(file: Data, d: Data, rs: seq<Request>, id: string, from: nat, a: Json)
    requires from < |rs|
    ensures var init := rs[..|rs| - 1];
      OverlayAll(a, AcceptedBodies(file, d, rs, id, from)) ==
        if Applies(After(file, d, init), rs[|rs| - 1], id)
        then Overlay(OverlayAll(a, AcceptedBodies(file, d, init, id, from)), rs[|rs| - 1].body)
        else OverlayAll(a, AcceptedBodies(file, d, init, id, from))
  {
    var before := AcceptedBodies(file, d, rs[..|rs| - 1], id, from);
    if Applies(After(file, d, rs[..|rs| - 1]), rs[|rs| - 1], id) {
      assert (before + [rs[|rs| - 1].body])[..|before|] == before;
    }
  }

  lemma DeletedOneMore(rs: seq<Request>, id: string, put: nat)
    requires put < |rs| - 1
    ensures DeletedSince(rs, id, put) <==>
      DeletedSince(rs[..|rs| - 1], id, put) || (rs[|rs| - 1].Deprovision? && rs[|rs| - 1].id == id)
  {
    var init := rs[..|rs| - 1];
    if DeletedSince(rs, id, put) {
      var j :| put < j < |rs| && rs[j].Deprovision? && rs[j].id == id;
      assert j < |init| ==> init[j] == rs[j];
    }
    if DeletedSince(init, id, put) {
      var j :| put < j < |init| && init[j].Deprovision? && init[j].id == id;
      assert rs[j] == init[j];
    }
  }

  lemma {:induction false} Replay(file: Data, d: Data, rs: seq<Request>, id: string, put: nat)
    requires IsLastPut(rs, id, put)
    requires forall j :: put < j < |rs| ==> Quiet(rs[j], id)
    ensures id in After(file, d, rs).entries && After(file, d, rs).entries[id].Instance?
    ensures After(file, d, rs).entries[id].provisionData
         == OverlayAll(rs[put].body, AcceptedBodies(file, d, rs, id, put + 1))
    ensures After(file, d, rs).entries[id].deleted == Bool(DeletedSince(rs, id, put))
    decreases |rs|
  {
    var init, last := rs[..|rs| - 1], rs[|rs| - 1];
    if put < |rs| - 1 {
      Replay(file, d, init, id, put);
      EntryAfter(file, After(file, d, init), last, id);
      AcceptedOneMore(file, d, rs, id, put + 1, rs[put].body);
      DeletedOneMore(rs, id, put);
    } else {
      assert AcceptedBodies(file, d, rs, id, put + 1) == [];
    }
  }

  /** Fetching an instance after any run answers its last PUT body overlaid by the later
      applied PATCH bodies. */
  lemma FetchAnswersReplay(file: Data, d: Data, rs: seq<Request>, id: string, put: nat)
    requires IsLastPut(rs, id, put)
    requires forall j :: put < j < |rs| ==> Quiet(rs[j], id)
    ensures ReplyAt(file, d, rs + [FetchInstance(id)], |rs|)
         == Reply(Num(200.0), AsJson(OverlayAll(rs[put].body, AcceptedBodies(file, d, rs, id, put + 1))))
  {
    Replay(file, d, rs, id, put);
    AfterOneMore(file, d, rs, FetchInstance(id));
  }

  ghost predicate HasLastPut(rs: seq<Request>, id: string) {
    exists put :: IsLastPut(rs, id, put)
  }

  lemma LastPutStays(rs: seq<Request>, id: string)
    requires rs != [] && !rs[|rs| - 1].Reset? && !(rs[|rs| - 1].Provision? && rs[|rs| - 1].id == id)
    ensures HasLastPut(rs, id) <==> HasLastPut(rs[..|rs| - 1], id)
  {
    var init := rs[..|rs| - 1];
    forall put | IsLastPut(init, id, put)
      ensures IsLastPut(rs, id, put)
    {
    }
    forall put | IsLastPut(rs, id, put)
      ensures IsLastPut(init, id, put)
    {
    }
  }

  lemma NoPutAfterReset(rs: seq<Request>, id: string)
    requires rs != [] && rs[|rs| - 1].Reset?
    ensures !HasLastPut(rs, id)
  {
    forall put: nat | put < |rs|
      ensures !IsLastPut(rs, id, put)
    {
      assert put < |rs| - 1 ==> rs[|rs| - 1].Reset?;
    }
  }

  lemma AddressedKeepsEntry(file: Data, d: Data, r: Request, id: string)
    requires Addresses(r, id) && !r.Provision?
    ensures id in Step(file, d, r).0.entries <==> id in d.entries
  {
  }

  /** An instance exists exactly when a provision of it was not followed by a reset. */
  lemma {:induction false} ExistsWhenPut(file: Data, rs: seq<Request>, id: string)
    requires id !in file.entries
    requires forall r :: r in rs ==> Quiet(r, id)
    ensures id in After(file, file, rs).entries <==> HasLastPut(rs, id)
    decreases |rs|
  {
    if rs != [] {
      var init, last := rs[..|rs| - 1], rs[|rs| - 1];
      ExistsWhenPut(file, init, id);
      if last.Provision? && last.id == id {
        assert IsLastPut(rs, id, |rs| - 1);
      } else if last.Reset? {
        NoPutAfterReset(rs, id);
      } else {
        LastPutStays(rs, id);
        if Addresses(last, id) {
          AddressedKeepsEntry(file, After(file, file, init), last, id);
        } else {
          OthersKeepEntry(file, After(file, file, init), last, id);
        }
      }
    }
  }

  /** Polling an id that was not provisioned since the last reset answers `failed`. */
  lemma PollOfUnknown(file: Data, rs: seq<Request>, id: string)
    requires id !in file.entries && forall r :: r in rs ==> Quiet(r, id)
    requires !HasLastPut(rs, id)
    ensures var reply := ReplyAt(file, file, rs + [Poll(id)], |rs|);
      reply == Reply(Num(200.0), AsJson(Obj(map[
        "state" := Str("failed"),
        "description" := Str("Broker could not find service instance by the given id " + id)])))
  {
    ExistsWhenPut(file, rs, id);
    AfterOneMore(file, file, rs, Poll(id));
  }

  // ----- polling -----

  function PollsOf(rs: seq<Request>, id: string): nat {
    if rs == [] then 0
    else PollsOf(rs[..|rs| - 1], id) + if rs[|rs| - 1] == Poll(id) then 1 else 0
  }

  /** The request is an operation on `id`: a provision, an update that is applied, or a delete. */
  predicate Operates(d: Data, r: Request, id: string) {
    match r
    case Provision(i, _, _) => i == id
    case Deprovision(i, _) => i == id && id in d.entries && d.entries[id].Instance?
    case Update(i, body, _) =>
      i == id && id in d.entries && d.entries[id].Instance? && IsApplied(d.config, body) &&
      d.entries[id].provisionData.Obj? && body.Obj?
    case _ => false
  }

  lemma OperationRestartsPolling(file: Data, d: Data, r: Request, id: string)
    requires Operates(d, r, id)
    ensures id in Step(file, d, r).0.entries && Step(file, d, r).0.entries[id].Instance?
    ensures Step(file, d, r).0.entries[id].fetchCount == Num(0.0)
  {
  }

  /** During the run nothing but polls touches `id`. */
  ghost predicate OnlyPolled(file: Data, d: Data, rs: seq<Request>, id: string) {
    forall j :: 0 <= j < |rs| ==> Quiet(rs[j], id) && !rs[j].Reset? && !Operates(After(file, d, rs[..j]), rs[j], id)
  }

  /** The counter of an instance whose provision data names a plan or not, after `polls` polls. */
  function Polled(e: Entry, polls: nat): Entry
    requires e.Instance?
  {
    e.(fetchCount := Num(if Index(e.provisionData, "plan_id").Ok? then polls as real else 0.0))
  }

  lemma PollAddsOne(file: Data, d: Data, r: Request, id: string, start: Entry, polls: nat)
    requires start.Instance? && id in d.entries && d.entries[id] == Polled(start, polls)
    requires Quiet(r, id) && !r.Reset? && !Operates(d, r, id)
    ensures id in Step(file, d, r).0.entries
    ensures Step(file, d, r).0.entries[id] == Polled(start, if r == Poll(id) then polls + 1 else polls)
  {
    if !Addresses(r, id) {
      OthersKeepEntry(file, d, r, id);
    }
  }

  /** Since the last operation on an instance its counter has counted the polls, and its
      data has not moved; polls that cannot read the plan are not counted. */
  lemma {:induction false} CountsPolls(file: Data, d: Data, rs: seq<Request>, id: string)
    requires id in d.entries && d.entries[id].Instance? && d.entries[id].fetchCount == Num(0.0)
    requires OnlyPolled(file, d, rs, id)
    ensures id in After(file, d, rs).entries
    ensures After(file, d, rs).entries[id] == Polled(d.entries[id], PollsOf(rs, id))
    decreases |rs|
  {
    if rs != [] {
      var init, last := rs[..|rs| - 1], rs[|rs| - 1];
      assert forall j :: 0 <= j < |init| ==> init[..j] == rs[..j];
      CountsPolls(file, d, init, id);
      PollAddsOne(file, After(file, d, init), last, id, d.entries[id], PollsOf(init, id));
    }
  }

  /** After any run `before`, an operation `op` on the instance, and any run `between` in
      which nothing else operates on it, the next poll is the k-th since that operation: from
      the response to fetches configured for its plan it is answered with what stands under
      `in_progress` exactly when k is at most the configured maximum, and with what stands
      under `finished` after that. */
  lemma PollingProtocol(file: Data, d: Data, before: seq<Request>, op: Request, between: seq<Request>, id: string)
    requires Operates(After(file, d, before), op, id)
    requires OnlyPolled(file, After(file, d, before + [op]), between, id)
    ensures
      var start := After(file, d, before + [op]);
      var rs := before + [op] + between + [Poll(id)];
      && id in start.entries && start.entries[id].Instance?
      && var plan := PlanNamed(start.entries[id].provisionData);
         if plan.None? then ReplyAt(file, d, rs, |rs| - 1).Raised?
         else PollAnswered(ReplyAt(file, d, rs, |rs| - 1), After(file, d, rs[..|rs| - 1]).config, plan.value,
                           (PollsOf(between, id) + 1) as real)
  {
    var rs := before + [op] + between + [Poll(id)];
    assert (before + [op])[..|before|] == before && rs[..|rs| - 1] == before + [op] + between;
    OperationRestartsPolling(file, After(file, d, before), op, id);
    CountsPolls(file, After(file, d, before + [op]), between, id);
    AfterSplit(file, d, before + [op], between);
    PlanRead(After(file, d, before + [op]).entries[id].provisionData);
    PollMeaning(file, After(file, d, before + [op] + between), id);
  }
}
