/** What the bootstrap script does to one behaviour table: which re-keyings lose nothing, and
    the renaming of plans behind them. */
module RekeyedBroker {
  import opened JsonValues
  import opened BrokerModel
  import opened BrokerRenaming
  import opened PlanRekeying

  // ----- one table -----

  /** The new ids are distinct and collide with nothing in the table. */
  ghost predicate FreshFor(mapping: map<string, string>, table: Fields) {
    && (forall p :: p in mapping ==> mapping[p] !in table && mapping[p] != "default" && mapping[p] != "")
    && (forall p, q :: p in mapping && q in mapping && mapping[p] == mapping[q] ==> p == q)
  }

  /** The plans of a table that the catalog does not know. */
  function Unmapped(mapping: map<string, string>, table: Fields): set<string> {
    set k | k in table && k != "default" && k !in mapping
  }

  function LastUnmapped(mapping: map<string, string>, keys: seq<string>): Option<string> {
    if keys == [] then None
    else
      var last := keys[|keys| - 1];
      if last != "default" && last !in mapping then Some(last) else LastUnmapped(mapping, keys[..|keys| - 1])
  }

  /** The state of the re-keying loop when `keys` are behind it. */
  ghost predicate LoopState(table: Fields, mapping: map<string, string>, keys: seq<string>, t: Table) {
    && (forall k :: k in table && (k == "default" || k !in keys) ==> Some(k) in t && t[Some(k)] == table[k])
    && (forall k :: k in table && k in keys && k != "default" && k in mapping ==>
          Some(mapping[k]) in t && t[Some(mapping[k])] == table[k])
    && (forall k :: Some(k) in t ==>
          (k in table && (k == "default" || k !in keys)) || exists p :: p in keys && p != "default" && p in mapping && mapping[p] == k)
    && (None in t <==> LastUnmapped(mapping, keys).Some?)
    && (None in t ==> LastUnmapped(mapping, keys).value in table && t[None] == table[LastUnmapped(mapping, keys).value])
  }

  lemma LoopStarts(table: Fields, mapping: map<string, string>)
    ensures LoopState(table, mapping, [], OpenTable(table))
  {
    assert forall k :: k in table <==> Some(k) in OpenTable(table);
  }

  ghost predicate DistinctPlans(keys: seq<string>, table: Fields) {
    (forall k :: k in keys ==> k in table) && forall i, j :: 0 <= i < j < |keys| ==> keys[i] != keys[j]
  }

  lemma LastIsNew(keys: seq<string>, table: Fields)
    requires DistinctPlans(keys, table) && keys != []
    ensures var init, last := keys[..|keys| - 1], keys[|keys| - 1];
      keys == init + [last] && last in table && last !in init && DistinctPlans(init, table)
  {
  }

  lemma {:induction false} LoopReaches(table: Fields, mapping: map<string, string>, keys: seq<string>)
    requires FreshFor(mapping, table) && DistinctPlans(keys, table)
    ensures LoopState(table, mapping, keys, Rekeyed(table, mapping, keys))
    decreases |keys|
  {
    if keys == [] {
      LoopStarts(table, mapping);
    } else {
      var init, last := keys[..|keys| - 1], keys[|keys| - 1];
      LastIsNew(keys, table);
      LoopReaches(table, mapping, init);
      LoopStep(table, mapping, init, last, Rekeyed(table, mapping, init));
    }
  }

  lemma LoopStep(table: Fields, mapping: map<string, string>, keys: seq<string>, plan: string, t: Table)
    requires FreshFor(mapping, table) && LoopState(table, mapping, keys, t)
    requires plan in table && plan !in keys && forall k :: k in keys ==> k in table
    ensures LoopState(table, mapping, keys + [plan], RekeyOne(t, mapping, plan))
  {
  }

  /** Where the response of a plan ends up in the file. */
  function FinalKey(mapping: map<string, string>, plan: string): string {
    if plan == "default" then "default" else if plan in mapping then mapping[plan] else ""
  }

  function FinalTable(table: Fields, mapping: map<string, string>, keys: seq<string>): Fields {
    Written(Rekeyed(table, mapping, keys))
  }

  /** `default` keeps its response, every catalog plan's response sits under its new id, and
      nothing else does; plans outside the catalog collapse into one entry, keyed by the
      empty string. */
  ghost predicate IsFinal(table: Fields, mapping: map<string, string>, w: Fields) {
    && (forall k :: k in table ==> FinalKey(mapping, k) in w)
    && (forall k :: k in w ==> exists p :: p in table && FinalKey(mapping, p) == k)
    && (forall k :: k in table && (k == "default" || k in mapping) ==> w[FinalKey(mapping, k)] == table[k])
    && (Unmapped(mapping, table) != {} ==> exists u :: u in Unmapped(mapping, table) && w[""] == table[u])
  }

  lemma WrittenIsFinal(table: Fields, mapping: map<string, string>, keys: seq<string>, t: Table)
    requires FreshFor(mapping, table) && Lists(keys, table) && LoopState(table, mapping, keys, t)
    ensures IsFinal(table, mapping, Written(t))
    ensures None in t ==> Written(t)[""] == table[LastUnmapped(mapping, keys).value]
  {
    LastUnmappedMeaning(mapping, keys);
    var w := Written(t);
    assert forall k :: Some(k) in t ==> k in w && w[k] == t[Some(k)];
    assert Some("") !in t;
    forall k | k in table
      ensures FinalKey(mapping, k) in w && (k == "default" || k in mapping ==> w[FinalKey(mapping, k)] == table[k])
    {
      if k == "default" || k in mapping {
        assert Some(FinalKey(mapping, k)) in t && t[Some(FinalKey(mapping, k))] == table[k];
      } else {
        assert k in keys && None in t;
      }
    }
    forall k | k in w
      ensures exists p :: p in table && FinalKey(mapping, p) == k
    {
      if Some(k) in t {
        if !(k in table && k == "default") {
          var p :| p in keys && p != "default" && p in mapping && mapping[p] == k;
          assert FinalKey(mapping, p) == k;
        } else {
          assert FinalKey(mapping, k) == k;
        }
      } else {
        assert FinalKey(mapping, LastUnmapped(mapping, keys).value) == k;
      }
    }
    if None in t {
      assert LastUnmapped(mapping, keys).value in Unmapped(mapping, table);
    } else {
      assert Unmapped(mapping, table) == {};
    }
  }

  /** The re-keyed table is final, and its entry for lost plans holds the last of them. */
  lemma RekeyedMeaning(table: Fields, mapping: map<string, string>, keys: seq<string>)
    requires FreshFor(mapping, table) && Lists(keys, table)
    ensures IsFinal(table, mapping, FinalTable(table, mapping, keys))
    ensures LastUnmapped(mapping, keys).Some? <==> Unmapped(mapping, table) != {}
    ensures Unmapped(mapping, table) != {} ==>
      LastUnmapped(mapping, keys).value in table && "" in FinalTable(table, mapping, keys) &&
      FinalTable(table, mapping, keys)[""] == table[LastUnmapped(mapping, keys).value]
  {
    LoopReaches(table, mapping, keys);
    WrittenIsFinal(table, mapping, keys, Rekeyed(table, mapping, keys));
    LastUnmappedMeaning(mapping, keys);
    if u :| u in Unmapped(mapping, table) {
      assert u in keys;
    }
    assert forall u :: u in keys && u != "default" && u !in mapping ==> u in Unmapped(mapping, table);
  }

  lemma {:induction false} LastUnmappedMeaning(mapping: map<string, string>, keys: seq<string>)
    ensures LastUnmapped(mapping, keys).Some? <==> exists k :: k in keys && k != "default" && k !in mapping
    ensures LastUnmapped(mapping, keys).Some? ==>
      var k := LastUnmapped(mapping, keys).value; k in keys && k != "default" && k !in mapping
    decreases |keys|
  {
    if keys != [] {
      LastUnmappedMeaning(mapping, keys[..|keys| - 1]);
      assert keys[|keys| - 1] in keys;
    }
  }

  lemma {:induction false} InjectiveImage(s: set<string>, mapping: map<string, string>)
    requires forall p, q :: p in s && q in s && FinalKey(mapping, p) == FinalKey(mapping, q) ==> p == q
    ensures |Image(mapping, s)| == |s|
    decreases |s|
  {
    if s == {} {
      assert Image(mapping, s) == {};
    } else {
      var x :| x in s;
      InjectiveImage(s - {x}, mapping);
      assert Image(mapping, s) == Image(mapping, s - {x}) + {FinalKey(mapping, x)};
      assert FinalKey(mapping, x) !in Image(mapping, s - {x});
    }
  }

  function KeptPlans(mapping: map<string, string>, table: Fields): set<string> {
    table.Keys - Unmapped(mapping, table)
  }

  function Image(mapping: map<string, string>, plans: set<string>): set<string> {
    set k | k in plans :: FinalKey(mapping, k)
  }

  lemma FinalKeys(table: Fields, mapping: map<string, string>, w: Fields)
    requires FreshFor(mapping, table) && IsFinal(table, mapping, w)
    ensures "" !in Image(mapping, KeptPlans(mapping, table))
    ensures w.Keys == Image(mapping, KeptPlans(mapping, table)) + if Unmapped(mapping, table) == {} then {} else {""}
  {
  }

  lemma SizesAgree(all: set<string>, lost: set<string>, image: set<string>, final: set<string>)
    requires lost <= all && |image| == |all - lost| && "" !in image
    requires final == image + if lost == {} then {} else {""}
    ensures |final| == |all| <==> |lost| <= 1
  {
  }

  lemma KeptStayApart(table: Fields, mapping: map<string, string>)
    requires FreshFor(mapping, table)
    ensures |Image(mapping, KeptPlans(mapping, table))| == |KeptPlans(mapping, table)|
  {
    InjectiveImage(KeptPlans(mapping, table), mapping);
  }

  /** The table keeps its size exactly when at most one of its plans is not in the catalog. */
  lemma RekeyedSize(table: Fields, mapping: map<string, string>, keys: seq<string>)
    requires FreshFor(mapping, table) && Lists(keys, table)
    ensures |FinalTable(table, mapping, keys).Keys| == |table.Keys| <==> |Unmapped(mapping, table)| <= 1
  {
    RekeyedMeaning(table, mapping, keys);
    var w := FinalTable(table, mapping, keys);
    FinalKeys(table, mapping, w);
    KeptStayApart(table, mapping);
    SizesAgree(table.Keys, Unmapped(mapping, table), Image(mapping, KeptPlans(mapping, table)), w.Keys);
  }

  // ----- the renaming behind a mapping -----

  /** Exchanges every catalog plan id with its new id. */
  ghost function Exchange(mapping: map<string, string>): string -> string {
    s =>
      if s in mapping && s != "default" then mapping[s]
      else if exists p :: p in mapping && p != "default" && mapping[p] == s then
        var p :| p in mapping && p != "default" && mapping[p] == s; p
      else s
  }

  /** New ids are distinct and are neither old ids nor names with a meaning of their own. */
  ghost predicate FreshIds(mapping: map<string, string>) {
    && (forall p :: p in mapping ==> mapping[p] !in mapping && mapping[p] !in {"default", "plan_id", ""})
    && (forall p, q :: p in mapping && q in mapping && mapping[p] == mapping[q] ==> p == q)
  }

  lemma ExchangeFacts(mapping: map<string, string>)
    requires FreshIds(mapping)
    ensures forall s :: Exchange(mapping)(Exchange(mapping)(s)) == s
    ensures forall p :: p in mapping && p != "default" ==> Exchange(mapping)(p) == mapping[p]
    ensures forall s :: s !in mapping && (forall p :: p in mapping ==> mapping[p] != s) ==> Exchange(mapping)(s) == s
    ensures Exchange(mapping)("default") == "default"
    ensures "plan_id" !in mapping ==> Renaming(Exchange(mapping))
  {
    var rho := Exchange(mapping);
    forall s
      ensures rho(rho(s)) == s
    {
      if s in mapping && s != "default" {
        assert mapping[s] !in mapping;
        assert exists p :: p in mapping && p != "default" && mapping[p] == mapping[s];
      } else if exists p :: p in mapping && p != "default" && mapping[p] == s {
        assert rho(s) in mapping && rho(s) != "default" && mapping[rho(s)] == s;
      }
    }
  }

  lemma ExchangeIsFinal(table: Fields, mapping: map<string, string>, plan: string)
    requires FreshFor(mapping, table) && FreshIds(mapping) && Unmapped(mapping, table) <= {""} && plan in table
    ensures Exchange(mapping)(plan) == FinalKey(mapping, plan)
  {
    ExchangeFacts(mapping);
    if plan in Unmapped(mapping, table) {
      assert plan == "";
    }
  }

  lemma ResponseIsKept(table: Fields, mapping: map<string, string>, w: Fields, plan: string)
    requires IsFinal(table, mapping, w) && Unmapped(mapping, table) <= {""} && plan in table
    ensures FinalKey(mapping, plan) in w && w[FinalKey(mapping, plan)] == table[plan]
  {
    if plan in Unmapped(mapping, table) {
      assert plan == "";
    }
  }

  lemma OldPlanOf(table: Fields, mapping: map<string, string>, w: Fields, plan: string)
    requires FreshFor(mapping, table) && FreshIds(mapping) && IsFinal(table, mapping, w)
    requires Unmapped(mapping, table) <= {""} && Exchange(mapping)(plan) in w
    ensures plan in table
  {
    var rho := Exchange(mapping);
    var p :| p in table && FinalKey(mapping, p) == rho(plan);
    ExchangeIsFinal(table, mapping, p);
    ExchangeFacts(mapping);
    assert rho(rho(p)) == p && rho(rho(plan)) == plan;
  }

  lemma TableAlike(rho: string -> string, action: string, table: Fields, w: Fields)
    requires forall k :: k in table ==> rho(k) in w && w[rho(k)] == table[k]
    requires forall k :: rho(k) in w ==> k in table
    ensures RelTable(rho, action, Obj(table), Obj(w))
  {
  }

  lemma FinalSurvives(table: Fields, mapping: map<string, string>, w: Fields, action: string)
    requires FreshFor(mapping, table) && FreshIds(mapping) && IsFinal(table, mapping, w)
    requires Unmapped(mapping, table) <= {""}
    ensures RelTable(Exchange(mapping), action, Obj(table), Obj(w))
  {
    var rho := Exchange(mapping);
    forall k | k in table
      ensures rho(k) in w && w[rho(k)] == table[k]
    {
      ExchangeIsFinal(table, mapping, k);
      ResponseIsKept(table, mapping, w, k);
    }
    forall k | rho(k) in w
      ensures k in table
    {
      OldPlanOf(table, mapping, w, k);
    }
    TableAlike(rho, action, table, w);
  }

  lemma LostPlanIsGone(table: Fields, mapping: map<string, string>, w: Fields, plan: string)
    requires FreshFor(mapping, table) && IsFinal(table, mapping, w)
    requires plan in Unmapped(mapping, table) && plan != ""
    ensures plan !in w
  {
  }

  /** A re-keyed table is the original under renamed plans exactly when the only plan of the
      table that may be missing from the catalog is the empty string. */
  lemma TableSurvives(table: Fields, mapping: map<string, string>, keys: seq<string>, action: string)
    requires FreshFor(mapping, table) && FreshIds(mapping) && Lists(keys, table)
    ensures RelTable(Exchange(mapping), action, Obj(table), Obj(FinalTable(table, mapping, keys)))
       <==> Unmapped(mapping, table) <= {""}
  {
    RekeyedMeaning(table, mapping, keys);
    var w := FinalTable(table, mapping, keys);
    if Unmapped(mapping, table) <= {""} {
      FinalSurvives(table, mapping, w, action);
    } else {
      var u :| u in Unmapped(mapping, table) && u != "";
      LostPlanBreaks(table, mapping, w, action, u);
    }
  }

  lemma LostPlanBreaks(table: Fields, mapping: map<string, string>, w: Fields, action: string, plan: string)
    requires FreshFor(mapping, table) && FreshIds(mapping) && IsFinal(table, mapping, w)
    requires plan in Unmapped(mapping, table) && plan != ""
    ensures !RelTable(Exchange(mapping), action, Obj(table), Obj(w))
  {
    LostPlanIsGone(table, mapping, w, plan);
    ExchangeFacts(mapping);
    assert Exchange(mapping)(plan) == plan;
  }

  /** A plan of the table that is lost is answered with the default afterwards. */
  lemma LostPlanGetsDefault(table: Fields, mapping: map<string, string>, keys: seq<string>, plan: string)
    requires FreshFor(mapping, table) && Lists(keys, table)
    requires plan in Unmapped(mapping, table) && plan != ""
    ensures ForPlan(Obj(table), Str(plan)) == Ok(table[plan])
    ensures ForPlan(Obj(FinalTable(table, mapping, keys)), Str(plan)) ==
      if Truthy(Get(table, "default")) then Ok(Get(table, "default")) else Raise
  {
    RekeyedMeaning(table, mapping, keys);
    var w := FinalTable(table, mapping, keys);
    LostPlanIsGone(table, mapping, w, plan);
    FinalDefault(table, mapping, w);
    FallsBack(table, w, plan);
  }

  lemma FallsBack(table: Fields, w: Fields, plan: string)
    requires plan in table && plan !in w && Get(w, "default") == Get(table, "default")
    ensures ForPlan(Obj(table), Str(plan)) == Ok(table[plan])
    ensures ForPlan(Obj(w), Str(plan)) == if Truthy(Get(table, "default")) then Ok(Get(table, "default")) else Raise
  {
  }

  lemma FinalDefault(table: Fields, mapping: map<string, string>, w: Fields)
    requires FreshFor(mapping, table) && IsFinal(table, mapping, w)
    ensures Get(w, "default") == Get(table, "default")
  {
  }
}
