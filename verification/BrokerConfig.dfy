/** The algebra of configuration posts, saving and restoring. */
module BrokerConfig {
  import opened JsonValues
  import opened BrokerModel
  import opened BrokerAnswers

  // ----- a post, independently of the order of its members -----

  function MergedConfig(config: Fields, fields: Fields): Fields {
    map k | k in config.Keys + (fields.Keys - {INSTANCES}) ::
      if k in fields && k != INSTANCES then MergeValue(Get(config, k), fields[k]) else config[k]
  }

  /** Every posted member can be merged into the configuration. */
  ghost predicate Fits(config: Fields, fields: Fields) {
    forall k :: k in fields && k != INSTANCES ==> Merges(config, k, fields[k])
  }

  /** None of the posted members raises. */
  ghost predicate Clean(d: Data, fields: Fields) {
    InstancesIn(fields).Ok? && Fits(d.config, fields)
  }

  function Merged(d: Data, fields: Fields): Data
    requires InstancesIn(fields).Ok?
  {
    Data(MergedConfig(d.config, fields), d.entries + InstancesIn(fields).value)
  }

  lemma {:induction false} FieldsOfPairs(pairs: seq<(string, Json)>, key: string)
    ensures key in PostFields(pairs) ==> exists i :: 0 <= i < |pairs| && pairs[i].0 == key
    ensures forall i :: 0 <= i < |pairs| ==> pairs[i].0 in PostFields(pairs)
    decreases |pairs|
  {
    if pairs != [] {
      FieldsOfPairs(pairs[..|pairs| - 1], key);
    }
  }

  lemma FitsOneMore(config: Fields, fields: Fields, key: string, value: Json)
    requires key !in fields
    ensures Fits(config, fields[key := value]) <==> Fits(config, fields) && (key != INSTANCES ==> Merges(config, key, value))
  {
    var more := fields[key := value];
    if Fits(config, more) {
      assert key in more;
      forall k | k in fields && k != INSTANCES
        ensures Merges(config, k, fields[k])
      {
        assert k in more;
      }
    }
  }

  lemma MergedOneMore(config: Fields, fields: Fields, key: string, value: Json)
    requires key !in fields && INSTANCES !in config
    ensures Get(MergedConfig(config, fields), key) == if key == INSTANCES then Null else Get(config, key)
    ensures MergedConfig(config, fields[key := value])
         == if key == INSTANCES then MergedConfig(config, fields)
            else MergedConfig(config, fields)[key := MergeValue(Get(config, key), value)]
  {
  }

  lemma {:induction false} PairsMeaning(d: Data, pairs: seq<(string, Json)>, posted: map<string, Entry>)
    requires DistinctKeys(pairs) && INSTANCES !in d.config
    ensures MergePairs(d, pairs, posted).1 <==> Fits(d.config, PostFields(pairs))
    ensures MergePairs(d, pairs, posted).1 ==>
      MergePairs(d, pairs, posted).0 ==
        Data(MergedConfig(d.config, PostFields(pairs)), if INSTANCES in PostFields(pairs) then d.entries + posted else d.entries)
    decreases |pairs|
  {
    if pairs == [] {
      assert MergedConfig(d.config, map[]) == d.config;
    } else {
      var init, last := pairs[..|pairs| - 1], pairs[|pairs| - 1];
      PairsMeaning(d, init, posted);
      FieldsOfPairs(init, last.0);
      FitsOneMore(d.config, PostFields(init), last.0, last.1);
      MergedOneMore(d.config, PostFields(init), last.0, last.1);
    }
  }

  /** Posting succeeds exactly when the post is clean, and then merges it one level deep:
      the order of its members does not matter. */
  lemma PostMeaning(d: Data, post: Post)
    requires INSTANCES !in d.config
    ensures DoMerge(d, post).1 <==> Clean(d, PostFields(post))
    ensures DoMerge(d, post).1 ==> DoMerge(d, post).0 == Merged(d, PostFields(post))
  {
    if PostedInstancesOf(post).Ok? {
      PairsMeaning(d, post, PostedInstancesOf(post).value);
      assert d.entries + map[] == d.entries;
    }
  }

  /** A posted `service_instances` value that can be taken over: an object of objects that hold
      provision data. */
  ghost predicate TakesInstances(j: Json) {
    j.Obj? && forall id :: id in j.fields ==> j.fields[id].Obj? && "provision_data" in j.fields[id].fields
  }

  /** A posted instance has the posted data; its counter and flag are those posted, or 0 and
      false. */
  predicate TakenOver(e: Entry, posted: Fields) {
    && e.Instance? && "provision_data" in posted && e.provisionData == posted["provision_data"]
    && e.fetchCount == (if "fetch_count" in posted then posted["fetch_count"] else Num(0.0))
    && e.deleted == if "deleted" in posted then posted["deleted"] else Bool(false)
  }

  /** A post raises exactly when its instances cannot be taken over or a key that holds an
      object gets something else. */
  lemma PostRaisesWhen(file: Data, d: Data, post: Post)
    requires INSTANCES !in d.config
    ensures var fields := PostFields(post);
      Step(file, d, PostConfig(post)).1.Raised? <==>
        ("service_instances" in fields && !TakesInstances(fields["service_instances"])) ||
        exists k :: k in fields && k in d.config && d.config[k].Obj? && !fields[k].Obj?
  {
    PostMeaning(d, post);
    var fields := PostFields(post);
    if k :| k in fields && k in d.config && d.config[k].Obj? && !fields[k].Obj? {
      assert !Merges(d.config, k, fields[k]);
    }
  }

  /** A post that succeeds changes the posted keys only: an object key gets the posted members
      over its own, any other key the posted value, and posted instances replace whatever had
      their ids. */
  lemma PostEffect(file: Data, d: Data, post: Post)
    requires INSTANCES !in d.config && !Step(file, d, PostConfig(post)).1.Raised?
    ensures
      var fields, e := PostFields(post), Step(file, d, PostConfig(post)).0;
      && e.config.Keys == d.config.Keys + (fields.Keys - {"service_instances"})
      && (forall k :: k in e.config ==>
            e.config[k] == if k !in fields then d.config[k]
                           else if k in d.config && d.config[k].Obj? && fields[k].Obj? then Obj(d.config[k].fields + fields[k].fields)
                           else fields[k])
      && var posted := if "service_instances" in fields && fields["service_instances"].Obj? then fields["service_instances"].fields else map[];
         && e.entries.Keys == d.entries.Keys + posted.Keys
         && (forall id :: id in posted ==> posted[id].Obj? && TakenOver(e.entries[id], posted[id].fields))
         && (forall id :: id in d.entries && id !in posted ==> e.entries[id] == d.entries[id])
  {
    PostMeaning(d, post);
    EffectOnConfig(d.config, PostFields(post));
    EffectOnEntries(d.entries, PostFields(post));
  }

  /** The first poll of a posted instance goes on from the posted counter, or from 0 if none was
      posted. */
  lemma PostedInstanceIsPolled(file: Data, d: Data, post: Post, id: string, posted: Fields)
    requires INSTANCES !in d.config && !Step(file, d, PostConfig(post)).1.Raised?
    requires var fields := PostFields(post);
      INSTANCES in fields && fields[INSTANCES].Obj? && id in fields[INSTANCES].fields && fields[INSTANCES].fields[id] == Obj(posted)
    ensures "provision_data" in posted
    ensures
      var e := Step(file, d, PostConfig(post)).0;
      var plan, count := PlanNamed(posted["provision_data"]), if "fetch_count" in posted then posted["fetch_count"] else Num(0.0);
      if plan.None? || !count.Num? then Step(file, e, Poll(id)).1.Raised?
      else PollAnswered(Step(file, e, Poll(id)).1, e.config, plan.value, count.n + 1.0)
  {
    PostEffect(file, d, post);
    var e := Step(file, d, PostConfig(post)).0;
    assert TakenOver(e.entries[id], posted);
    PollMeaning(file, e, id);
  }

  lemma EffectOnConfig(c: Fields, fields: Fields)
    requires INSTANCES !in c && Fits(c, fields)
    ensures var e := MergedConfig(c, fields);
      && e.Keys == c.Keys + (fields.Keys - {"service_instances"})
      && forall k :: k in e ==>
           e[k] == if k !in fields then c[k]
                   else if k in c && c[k].Obj? && fields[k].Obj? then Obj(c[k].fields + fields[k].fields)
                   else fields[k]
  {
    forall k | k in fields && k != INSTANCES
      ensures Merges(c, k, fields[k])
    {
    }
  }

  lemma EffectOnEntries(entries: map<string, Entry>, fields: Fields)
    requires InstancesIn(fields).Ok?
    ensures
      var e := entries + InstancesIn(fields).value;
      var posted := if "service_instances" in fields && fields["service_instances"].Obj? then fields["service_instances"].fields else map[];
      && e.Keys == entries.Keys + posted.Keys
      && (forall id :: id in posted ==> posted[id].Obj? && TakenOver(e[id], posted[id].fields))
      && (forall id :: id in entries && id !in posted ==> e[id] == entries[id])
  {
  }

  /** Every object can be posted, with its members in some order. */
  lemma {:induction false} SomePost(fields: Fields) returns (post: Post)
    ensures PostFields(post) == fields
    decreases |fields|
  {
    if fields == map[] {
      post := [];
    } else {
      var key :| key in fields;
      var init := SomePost(fields - {key});
      forall i | 0 <= i < |init|
        ensures init[i].0 != key
      {
        FieldsOfPairs(init, key);
      }
      post := init + [(key, fields[key])];
      assert post[..|post| - 1] == init;
    }
  }

  // ----- posts compose -----

  function CombineValue(x: Json, y: Json): Json {
    if x.Obj? && y.Obj? then Obj(x.fields + y.fields) else y
  }

  /** `b` over `a`, one level deep. */
  function Combine(a: Fields, b: Fields): Fields {
    map k | k in a.Keys + b.Keys ::
      if k in a && k in b then CombineValue(a[k], b[k]) else if k in b then b[k] else a[k]
  }

  lemma CombinedMember(before: Json, x: Json, y: Json)
    requires before.Obj? ==> x.Obj?
    requires MergeValue(before, x).Obj? ==> y.Obj?
    ensures before.Obj? ==> CombineValue(x, y).Obj?
    ensures MergeValue(MergeValue(before, x), y) == MergeValue(before, CombineValue(x, y))
  {
  }

  lemma CombinedInstances(a: Fields, b: Fields)
    requires InstancesIn(a).Ok? && InstancesIn(b).Ok?
    ensures InstancesIn(Combine(a, b)).Ok?
    ensures InstancesIn(Combine(a, b)).value == InstancesIn(a).value + InstancesIn(b).value
  {
  }

  lemma MergedAt(c: Fields, fields: Fields, k: string)
    ensures Get(MergedConfig(c, fields), k) == if k in fields && k != INSTANCES then MergeValue(Get(c, k), fields[k]) else Get(c, k)
  {
  }

  lemma CombinedAt(c: Fields, a: Fields, b: Fields, k: string)
    requires Fits(c, a) && Fits(MergedConfig(c, a), b)
    ensures k in Combine(a, b) && k != INSTANCES ==> Merges(c, k, Combine(a, b)[k])
    ensures Get(MergedConfig(MergedConfig(c, a), b), k) == Get(MergedConfig(c, Combine(a, b)), k)
  {
    var once := MergedConfig(c, a);
    MergedAt(c, a, k);
    MergedAt(once, b, k);
    MergedAt(c, Combine(a, b), k);
    assert k in a && k != INSTANCES ==> Merges(c, k, a[k]);
    assert k in b && k != INSTANCES ==> Merges(once, k, b[k]);
    if k in a && k in b && k != INSTANCES {
      CombinedMember(Get(c, k), a[k], b[k]);
    }
  }

  lemma CombinedKeys(c: Fields, a: Fields, b: Fields)
    ensures MergedConfig(MergedConfig(c, a), b).Keys == MergedConfig(c, Combine(a, b)).Keys
  {
  }

  lemma SameFields(x: Fields, y: Fields)
    requires x.Keys == y.Keys && forall k :: Get(x, k) == Get(y, k)
    ensures x == y
  {
    assert forall k :: k in x ==> x[k] == Get(x, k) && y[k] == Get(y, k);
  }

  lemma CombinedConfig(c: Fields, a: Fields, b: Fields)
    requires Fits(c, a) && Fits(MergedConfig(c, a), b)
    ensures Fits(c, Combine(a, b))
    ensures MergedConfig(MergedConfig(c, a), b) == MergedConfig(c, Combine(a, b))
  {
    var both := Combine(a, b);
    var x, y := MergedConfig(MergedConfig(c, a), b), MergedConfig(c, both);
    forall k
      ensures k in both && k != INSTANCES ==> Merges(c, k, both[k])
      ensures Get(x, k) == Get(y, k)
    {
      CombinedAt(c, a, b, k);
    }
    CombinedKeys(c, a, b);
    SameFields(x, y);
  }

  /** Two successful posts are one post of their one-level combination. */
  lemma PostsCompose(d: Data, a: Fields, b: Fields)
    requires Clean(d, a) && Clean(Merged(d, a), b)
    ensures Clean(d, Combine(a, b))
    ensures Merged(Merged(d, a), b) == Merged(d, Combine(a, b))
  {
    CombinedInstances(a, b);
    CombinedConfig(d.config, a, b);
    EntriesAssociate(d.entries, InstancesIn(a).value, InstancesIn(b).value);
  }

  lemma EntriesAssociate(m: map<string, Entry>, a: map<string, Entry>, b: map<string, Entry>)
    ensures (m + a) + b == m + (a + b)
  {
  }

  lemma RepeatedMember(before: Json, posted: Json)
    requires before.Obj? ==> posted.Obj?
    ensures var once := MergeValue(before, posted); (once.Obj? ==> posted.Obj?) && MergeValue(once, posted) == once
  {
    if before.Obj? {
      assert before.fields + posted.fields + posted.fields == before.fields + posted.fields;
    } else if posted.Obj? {
      assert posted.fields + posted.fields == posted.fields;
    }
  }

  lemma RepeatedConfig(c: Fields, a: Fields)
    requires Fits(c, a)
    ensures Fits(MergedConfig(c, a), a) && MergedConfig(MergedConfig(c, a), a) == MergedConfig(c, a)
  {
    var e := MergedConfig(c, a);
    forall k | k in a && k != INSTANCES
      ensures k in e && Merges(e, k, a[k]) && MergeValue(Get(e, k), a[k]) == e[k]
    {
      assert Merges(c, k, a[k]);
      RepeatedMember(Get(c, k), a[k]);
    }
    assert MergedConfig(e, a) == e;
  }

  /** Repeating a successful post succeeds and changes nothing. */
  lemma PostIsIdempotent(d: Data, a: Fields)
    requires Clean(d, a)
    ensures Clean(Merged(d, a), a) && Merged(Merged(d, a), a) == Merged(d, a)
  {
    RepeatedConfig(d.config, a);
    assert Merged(d, a).entries + InstancesIn(a).value == Merged(d, a).entries;
  }

  function CombineAll(posts: seq<Post>): Fields {
    if posts == [] then map[] else Combine(CombineAll(posts[..|posts| - 1]), PostFields(posts[|posts| - 1]))
  }

  function PostAll(posts: seq<Post>): (rs: seq<Request>)
    ensures |rs| == |posts|
  {
    if posts == [] then [] else PostAll(posts[..|posts| - 1]) + [PostConfig(posts[|posts| - 1])]
  }

  /** Any run of posts that all succeed does what one post of their combination does. */
  lemma {:induction false} PostsFold(file: Data, d: Data, posts: seq<Post>, one: Post)
    requires INSTANCES !in d.config
    requires forall k :: 0 <= k < |posts| ==> !ReplyAt(file, d, PostAll(posts), k).Raised?
    requires PostFields(one) == CombineAll(posts)
    ensures After(file, d, PostAll(posts)) == Step(file, d, PostConfig(one)).0
    ensures !Step(file, d, PostConfig(one)).1.Raised?
  {
    FoldIsClean(file, d, posts);
    PostMeaning(d, one);
  }

  lemma {:induction false} FoldIsClean(file: Data, d: Data, posts: seq<Post>)
    requires INSTANCES !in d.config
    requires forall k :: 0 <= k < |posts| ==> !ReplyAt(file, d, PostAll(posts), k).Raised?
    ensures Clean(d, CombineAll(posts)) && After(file, d, PostAll(posts)) == Merged(d, CombineAll(posts))
    decreases |posts|
  {
    if posts == [] {
      assert MergedConfig(d.config, map[]) == d.config && d.entries + map[] == d.entries;
    } else {
      var init, last := posts[..|posts| - 1], posts[|posts| - 1];
      var all := PostAll(posts);
      assert all == PostAll(init) + [PostConfig(last)];
      assert all[..|init|] == PostAll(init);
      forall k | 0 <= k < |init|
        ensures !ReplyAt(file, d, PostAll(init), k).Raised?
      {
        assert all[..k] == PostAll(init)[..k] && all[k] == PostAll(init)[k];
        assert !ReplyAt(file, d, all, k).Raised?;
      }
      FoldIsClean(file, d, init);
      var s := Merged(d, CombineAll(init));
      assert !ReplyAt(file, d, all, |init|).Raised?;
      PostMeaning(s, last);
      PostsCompose(d, CombineAll(init), PostFields(last));
    }
  }

  // ----- keys are never removed -----

  /** `e` has every top-level key of `c`, and every key inside those that are objects in `c`. */
  ghost predicate Grows(c: Fields, e: Fields) {
    forall k :: k in c ==> k in e && (c[k].Obj? ==> e[k].Obj? && c[k].fields.Keys <= e[k].fields.Keys)
  }

  lemma GrowsTransitive(c: Fields, d: Fields, e: Fields)
    requires Grows(c, d) && Grows(d, e)
    ensures Grows(c, e)
  {
  }

  lemma {:induction false} MergeGrows(d: Data, pairs: seq<(string, Json)>, posted: map<string, Entry>)
    requires INSTANCES !in d.config
    ensures Grows(d.config, MergePairs(d, pairs, posted).0.config)
    ensures INSTANCES !in MergePairs(d, pairs, posted).0.config
    decreases |pairs|
  {
    if pairs != [] {
      MergeGrows(d, pairs[..|pairs| - 1], posted);
      var before := MergePairs(d, pairs[..|pairs| - 1], posted).0;
      GrowsTransitive(d.config, before.config, MergePairs(d, pairs, posted).0.config);
    }
  }

  /** A fetched binding is written inside a behaviour table: no key of the configuration or
      of `behaviors` appears or disappears. */
  lemma FetchKeepsKeys(d: Data, bindingId: string)
    ensures var e := DoFetchBinding(d, bindingId).0.config;
      e.Keys == d.config.Keys && forall k :: k in e ==>
        (k != "behaviors" ==> e[k] == d.config[k]) && (e[k].Obj? <==> d.config[k].Obj?) &&
        (e[k].Obj? ==> e[k].fields.Keys == d.config[k].fields.Keys)
  {
  }

  /** If a binding fetch changes the configuration, it writes one behaviour table. */
  lemma FetchWrites(d: Data, bindingId: string) returns (table: Fields)
    requires DoFetchBinding(d, bindingId).0.config != d.config
    ensures TableOf(d.config, FETCH_BINDING).Some?
    ensures DoFetchBinding(d, bindingId).0 == d.(config := WithTable(d.config, FETCH_BINDING, table))
  {
    var (slot, behavior) := FetchTarget(d.config, d.entries[bindingId].bindingData).value;
    var merged := behavior["body" := Overlay(behavior["body"], d.entries[bindingId].bindingData)];
    table := TableOf(d.config, FETCH_BINDING).value[slot := Obj(merged)];
  }

  lemma StepGrows(file: Data, d: Data, r: Request)
    requires Grows(file.config, d.config) && INSTANCES !in d.config && INSTANCES !in file.config
    ensures Grows(file.config, Step(file, d, r).0.config) && INSTANCES !in Step(file, d, r).0.config
  {
    if r.FetchBinding? {
      FetchKeepsKeys(d, r.bindingId);
      GrowsTransitive(file.config, d.config, Step(file, d, r).0.config);
    } else if r.PostConfig? {
      if PostedInstancesOf(r.post).Ok? {
        MergeGrows(d, r.post, PostedInstancesOf(r.post).value);
        GrowsTransitive(file.config, d.config, Step(file, d, r).0.config);
      }
    }
  }

  /** No run ever loses a top-level key of the data file or a key inside one of its objects. */
  lemma {:induction false} NoKeyIsRemoved(file: Data, rs: seq<Request>)
    requires INSTANCES !in file.config
    ensures Grows(file.config, After(file, file, rs).config) && INSTANCES !in After(file, file, rs).config
    decreases |rs|
  {
    if rs != [] {
      NoKeyIsRemoved(file, rs[..|rs| - 1]);
      StepGrows(file, After(file, file, rs[..|rs| - 1]), rs[|rs| - 1]);
    }
  }

  // ----- snapshot and restore -----

  ghost predicate NoBindings(d: Data) {
    forall id :: id in d.entries ==> d.entries[id].Instance?
  }

  lemma DumpedInstances(d: Data)
    ensures InstancesIn(AllFields(d)).Ok? <==> NoBindings(d)
    ensures NoBindings(d) ==> InstancesIn(AllFields(d)).value == d.entries
  {
    var dump := EntriesJson(d.entries).fields;
    assert AllFields(d)[INSTANCES] == Obj(dump);
    forall id | id in d.entries
      ensures IsPostedInstance(dump[id]) <==> d.entries[id].Instance?
      ensures d.entries[id].Instance? ==> PostedInstance(dump[id].fields) == d.entries[id]
    {
    }
    if NoBindings(d) {
      assert InstancesIn(AllFields(d)).value == d.entries;
    } else {
      var id :| id in d.entries && d.entries[id].Binding?;
      assert id in dump && !IsPostedInstance(dump[id]);
    }
  }

  lemma DumpOverFile(file: Data, saved: Data)
    requires INSTANCES !in saved.config && file.entries == map[]
    requires Grows(file.config, saved.config)
    ensures Clean(file, AllFields(saved)) <==> NoBindings(saved)
    ensures NoBindings(saved) ==> Merged(file, AllFields(saved)) == saved
    ensures !NoBindings(saved) ==> saved != file
  {
    var dump := AllFields(saved);
    DumpedInstances(saved);
    forall k | k in dump && k != INSTANCES
      ensures Merges(file.config, k, dump[k]) && MergeValue(Get(file.config, k), dump[k]) == saved.config[k]
    {
      if Get(file.config, k).Obj? {
        assert k in file.config && file.config[k].fields + saved.config[k].fields == saved.config[k].fields;
      }
    }
    assert MergedConfig(file.config, dump).Keys == saved.config.Keys;
    assert MergedConfig(file.config, dump) == saved.config;
    assert map[] + saved.entries == saved.entries;
  }

  /** Resetting the broker and posting the `/config/all` dump of a state. */
  function Restored(file: Data, saved: Data, dump: Post): (Data, Reply) {
    Step(file, Step(file, saved, Reset).0, PostConfig(dump))
  }

  lemma RestoredMeaning(file: Data, saved: Data, dump: Post)
    requires INSTANCES !in file.config && INSTANCES !in saved.config && file.entries == map[]
    requires Grows(file.config, saved.config) && PostFields(dump) == AllFields(saved)
    ensures Restored(file, saved, dump).0 == saved <==> NoBindings(saved)
    ensures Restored(file, saved, dump).1.Raised? <==> !NoBindings(saved)
  {
    PostMeaning(file, dump);
    DumpOverFile(file, saved);
  }

  /** Whatever the broker holds, its two dumps can be posted. */
  lemma DumpsCanBePosted(file: Data, d: Data) returns (all: Post, saved: Post)
    ensures Step(file, d, DumpAll).1 == Reply(Num(200.0), AsJson(Obj(PostFields(all))))
    ensures Step(file, d, DumpConfig).1 == Reply(Num(200.0), AsJson(Obj(PostFields(saved))))
  {
    all := SomePost(AllFields(d));
    saved := SomePost(ConfigFields(d));
  }

  /** For every state a run can reach, posting what `/config/all` answers rebuilds exactly
      that state in a freshly reset broker, unless it holds a binding: then the post is refused. */
  lemma SnapshotRestores(file: Data, rs: seq<Request>, dump: Post)
    requires INSTANCES !in file.config && file.entries == map[]
    requires ReplyAt(file, file, rs + [DumpAll], |rs|) == Reply(Num(200.0), AsJson(Obj(PostFields(dump))))
    ensures Restored(file, After(file, file, rs), dump).0 == After(file, file, rs) <==> NoBindings(After(file, file, rs))
    ensures Restored(file, After(file, file, rs), dump).1.Raised? <==> !NoBindings(After(file, file, rs))
  {
    AfterOneMore(file, file, rs, DumpAll);
    NoKeyIsRemoved(file, rs);
    RestoredMeaning(file, After(file, file, rs), dump);
  }

  // ----- restoring a saved configuration -----

  /** What `/config` saved about `c` can be put back over `e`: `e` has no extra key, no
      scalar of `c` has become an object, and `service_bindings`, which `/config` leaves
      out, is as it was. */
  ghost predicate Restorable(c: Fields, e: Fields) {
    && e.Keys <= c.Keys
    && (forall k :: k in e && k != "service_bindings" && e[k].Obj? ==> c[k].Obj? && e[k].fields.Keys <= c[k].fields.Keys)
    && ("service_bindings" in c ==> "service_bindings" in e && e["service_bindings"] == c["service_bindings"])
  }

  /** Re-posting a saved `/config` over any later state puts the configuration back exactly
      when it is restorable, and never touches the instances. */
  lemma SavedConfigRestores(d: Data, e: Data)
    requires INSTANCES !in d.config && INSTANCES !in e.config
    ensures Clean(e, ConfigFields(d)) && Merged(e, ConfigFields(d)).config == d.config <==> Restorable(d.config, e.config)
    ensures Clean(e, ConfigFields(d)) ==> Merged(e, ConfigFields(d)).entries == e.entries
  {
    var saved, c := ConfigFields(d), e.config;
    assert e.entries + map[] == e.entries;
    var m := MergedConfig(c, saved);
    if Restorable(d.config, c) {
      forall k | k in d.config
        ensures k in m && m[k] == d.config[k]
      {
        if k in saved && Get(c, k).Obj? {
          assert c[k].fields + saved[k].fields == saved[k].fields;
        }
      }
      assert m == d.config;
    }
    if Clean(e, saved) && m == d.config {
      assert c.Keys <= m.Keys;
      forall k | k in c && k != "service_bindings" && c[k].Obj?
        ensures d.config[k].Obj? && c[k].fields.Keys <= d.config[k].fields.Keys
      {
        assert k in saved && Merges(c, k, saved[k]);
        assert m[k] == Overlay(c[k], saved[k]);
      }
      if "service_bindings" in d.config {
        assert "service_bindings" !in saved && "service_bindings" in m;
      }
    }
  }

  /** The post adds no key, turns no scalar into an object, and leaves `service_bindings` out. */
  ghost predicate AddsNoKey(c: Fields, fields: Fields) {
    forall k :: k in fields && k != INSTANCES ==>
      k in c && k != "service_bindings" && (fields[k].Obj? ==> c[k].Obj? && fields[k].fields.Keys <= c[k].fields.Keys)
  }

  lemma {:induction false} MergeStaysRestorable(c: Fields, d: Data, pairs: seq<(string, Json)>, posted: map<string, Entry>)
    requires Restorable(c, d.config) && Grows(c, d.config)
    requires AddsNoKey(c, PostFields(pairs)) && DistinctKeys(pairs)
    ensures Restorable(c, MergePairs(d, pairs, posted).0.config) && Grows(c, MergePairs(d, pairs, posted).0.config)
    decreases |pairs|
  {
    if pairs != [] {
      var init, last := pairs[..|pairs| - 1], pairs[|pairs| - 1];
      FieldsOfPairs(init, last.0);
      assert PostFields(pairs) == PostFields(init)[last.0 := last.1];
      assert AddsNoKey(c, PostFields(init)) by {
        forall k | k in PostFields(init) && k != INSTANCES
          ensures k in c && k != "service_bindings"
          ensures PostFields(init)[k].Obj? ==> c[k].Obj? && PostFields(init)[k].fields.Keys <= c[k].fields.Keys
        {
          assert k != last.0 && k in PostFields(pairs);
        }
      }
      MergeStaysRestorable(c, d, init, posted);
      var before := MergePairs(d, init, posted).0;
      var after := MergePairs(d, pairs, posted).0;
      assert last.0 in PostFields(pairs);
      if after != before && last.0 != INSTANCES {
        assert after.config == before.config[last.0 := MergeValue(Get(before.config, last.0), last.1)];
      }
    }
  }

  lemma StepStaysRestorable(file: Data, c: Fields, s: Data, r: Request)
    requires Restorable(c, s.config) && Grows(c, s.config)
    requires !r.Reset? && (r.PostConfig? ==> AddsNoKey(c, PostFields(r.post)))
    ensures Restorable(c, Step(file, s, r).0.config) && Grows(c, Step(file, s, r).0.config)
  {
    if r.FetchBinding? {
      FetchKeepsKeys(s, r.bindingId);
    } else if r.PostConfig? {
      if PostedInstancesOf(r.post).Ok? {
        MergeStaysRestorable(c, s, r.post, PostedInstancesOf(r.post).value);
      }
    }
  }

  lemma {:induction false} RunStaysRestorable(file: Data, d: Data, rs: seq<Request>)
    requires INSTANCES !in d.config
    requires forall r :: r in rs ==> !r.Reset? && (r.PostConfig? ==> AddsNoKey(d.config, PostFields(r.post)))
    ensures Restorable(d.config, After(file, d, rs).config) && Grows(d.config, After(file, d, rs).config)
    decreases |rs|
  {
    if rs != [] {
      var init, last := rs[..|rs| - 1], rs[|rs| - 1];
      RunStaysRestorable(file, d, init);
      StepStaysRestorable(file, d.config, After(file, d, init), last);
    }
  }

  lemma PutBack(d: Data, e: Data, saved: Post)
    requires INSTANCES !in d.config && INSTANCES !in e.config && Restorable(d.config, e.config)
    requires PostFields(saved) == ConfigFields(d)
    ensures DoMerge(e, saved) == (Data(d.config, e.entries), true)
  {
    SavedConfigRestores(d, e);
    PostMeaning(e, saved);
  }

  /** Whatever a run without resets does, if its posts add no key, re-posting what `/config`
      answered before it restores the configuration exactly, and answers with it. */
  lemma SavedConfigSurvives(file: Data, d: Data, rs: seq<Request>, saved: Post)
    requires INSTANCES !in d.config
    requires Step(file, d, DumpConfig).1 == Reply(Num(200.0), AsJson(Obj(PostFields(saved))))
    requires forall r :: r in rs ==> !r.Reset? && (r.PostConfig? ==> AddsNoKey(d.config, PostFields(r.post)))
    ensures var restored := Step(file, After(file, d, rs), PostConfig(saved));
      restored.0 == Data(d.config, After(file, d, rs).entries) && restored.1 == Step(file, d, DumpConfig).1
  {
    RunStaysRestorable(file, d, rs);
    PutBack(d, After(file, d, rs), saved);
  }
}
