/** What a loaded configuration holds and when loading fails, in terms of the file and the
    tables of the suite alone. */
module ConfigMeaning {
  import opened JsonValues
  import opened Text
  import opened ConfigDecoding

  // ----- which files can be read -----

  predicate AbsentOr(m: Fields, key: string, ok: bool) {
    key !in m || m[key] == Null || ok
  }

  /** A member that a field of the kind takes; null is taken by every field. */
  predicate Takes(kind: Kind, j: Json) {
    j == Null ||
    match kind
    case KString => j.Str?
    case KBool => j.Bool?
    case KFloat => j.Num?
    case KInt =>
      j.Num? && j.n.Floor as real == j.n && -0x8000_0000_0000_0000 <= j.n.Floor <= 0x7fff_ffff_ffff_ffff
    case KReporter =>
      && j.Obj?
      && AbsentOr(j.fields, "custom_tags", Get(j.fields, "custom_tags").Obj?)
      && AbsentOr(j.fields, "honeycomb_write_key", Get(j.fields, "honeycomb_write_key").Str?)
      && AbsentOr(j.fields, "honeycomb_dataset", Get(j.fields, "honeycomb_dataset").Str?)
  }

  /** The file holds null, or an object whose members of the suite's names have the right types. */
  ghost predicate Readable(schema: Schema, file: File) {
    && file.Document?
    && (file.json == Null ||
        (file.json.Obj? &&
         forall name :: name in schema.kinds && name in file.json.fields ==> Takes(schema.kinds[name], file.json.fields[name])))
  }

  // ----- what the fields hold -----

  /** The value of the last assignment to a field among the defaults; nil if there is none. */
  ghost predicate IsDefault(schema: Schema, name: string, v: Json) {
    || (v == Null && forall n :: 0 <= n < |schema.defaults| ==> schema.defaults[n].0 != name)
    || exists n :: 0 <= n < |schema.defaults| && schema.defaults[n] == (name, v) &&
         forall m :: n < m < |schema.defaults| ==> schema.defaults[m].0 != name
  }

  /** A text of the reporter: that of the file, or what was there before. */
  predicate TextRead(before: Json, m: Fields, key: string, v: Json) {
    v == if key in m && m[key] != Null then m[key] else before
  }

  /** The tags of the reporter: those of the file over those that were there; null clears them. */
  predicate TagsRead(before: Json, m: Fields, v: Json) {
    if "custom_tags" !in m then v == before
    else if m["custom_tags"].Obj? then
      v == Obj((if before.Obj? then before.fields else map[]) + m["custom_tags"].fields)
    else v == Null
  }

  /** The reporter read from the file's member over the default one. */
  predicate ReporterRead(before: Json, m: Fields, v: Json) {
    && v.Obj? && v.fields.Keys == {"custom_tags", "honeycomb_write_key", "honeycomb_dataset"}
    && var b := if before.Obj? then before.fields
                else map["custom_tags" := Null, "honeycomb_write_key" := Str(""), "honeycomb_dataset" := Str("")];
       && TagsRead(Get(b, "custom_tags"), m, v.fields["custom_tags"])
       && TextRead(Get(b, "honeycomb_write_key"), m, "honeycomb_write_key", v.fields["honeycomb_write_key"])
       && TextRead(Get(b, "honeycomb_dataset"), m, "honeycomb_dataset", v.fields["honeycomb_dataset"])
  }

  /** A scale that is not positive becomes one. */
  function Rescaled(name: string, v: Json): Json {
    if name == "timeout_scale" && v.Num? && v.n <= 0.0 then Num(1.0) else v
  }

  /** What a loaded field holds: the file's member, nothing for a null member, and the default
      for an absent one; the reporter is merged member by member. */
  ghost predicate Holds(schema: Schema, doc: Fields, name: string, v: Json)
    requires name in schema.kinds
  {
    if name !in doc then exists w :: IsDefault(schema, name, w) && v == Rescaled(name, w)
    else if doc[name] == Null then v == Null
    else if schema.kinds[name] != KReporter then v == Rescaled(name, doc[name])
    else doc[name].Obj? && exists w :: IsDefault(schema, name, w) && ReporterRead(w, doc[name].fields, v)
  }

  ghost predicate Reflects(schema: Schema, doc: Fields, contents: Fields) {
    contents.Keys == schema.kinds.Keys && forall name :: name in schema.kinds ==> Holds(schema, doc, name, contents[name])
  }

  // ----- which fields pass -----

  predicate GivenText(c: Fields, name: string) {
    Get(c, name).Str? && Get(c, name).s != ""
  }

  /** The URL whose host is checked: an endpoint without a scheme is read as an https one. */
  ghost function ApiAddress(endpoint: string): string {
    if exists i: nat :: OccursAt(endpoint, "://", i) then endpoint else "https://" + endpoint
  }

  /** The endpoint's URL has a host that is an address or can be looked up. */
  ghost predicate ApiReachable(net: Net, c: Fields) {
    && GivenText(c, "api")
    && var host := net.host(ApiAddress(Get(c, "api").s));
       host.Some? && host.value != "" && (net.isAddress(host.value) || net.lookup(host.value).None?)
  }

  /** A made-up host name of the domain is a URL and can be looked up. */
  predicate DomainReachable(net: Net, c: Fields) {
    && Get(c, "apps_domain").Str?
    && var madeUp := "made-up-app-host-name." + Get(c, "apps_domain").s;
       net.host(madeUp).Some? && net.lookup(madeUp).None?
  }

  ghost predicate Passes(schema: Schema, net: Net, c: Fields) {
    && GivenText(c, "admin_user") && GivenText(c, "admin_password")
    && ApiReachable(net, c) && DomainReachable(net, c)
    && forall name :: name in schema.required ==> Get(c, name) != Null
  }

  predicate TextOrNil(c: Fields, name: string) {
    Get(c, name).Str? || Get(c, name) == Null
  }

  /** The four fields with checks of their own are texts or nil. */
  predicate Typed(c: Fields) {
    TextOrNil(c, "admin_user") && TextOrNil(c, "admin_password") && TextOrNil(c, "api") && TextOrNil(c, "apps_domain")
  }

  /** The message about a field that is missing or blank, if it is. */
  function Complaint(c: Fields, name: string, blank: string): Option<string> {
    if Get(c, name) == Null then Some("* '" + name + "' must not be null")
    else if Get(c, name) == Str("") then Some(blank)
    else None
  }

  lemma PresentMeaning(c: Fields, name: string, blank: string)
    requires TextOrNil(c, name)
    ensures CheckPresent(c, name, blank) == Complaint(c, name, blank)
    ensures Complaint(c, name, blank).None? <==> GivenText(c, name)
  {
  }

  lemma ApiUrlMeaning(endpoint: string)
    ensures ApiUrl(endpoint) == ApiAddress(endpoint)
  {
    ContainsMeaning(endpoint, "://");
  }

  /** What the check of the endpoint says about one that was given. */
  ghost predicate ApiVerdict(net: Net, endpoint: string, verdict: Option<string>) {
    var host := net.host(ApiAddress(endpoint));
    if host == None || host == Some("") then
      verdict == Some("* Invalid configuration: 'api' must be a valid URL but was set to '" + endpoint + "'")
    else if net.isAddress(host.value) || net.lookup(host.value) == None then verdict == None
    else verdict == Some("* Invalid configuration for 'api' <" + endpoint + ">: " + net.lookup(host.value).value)
  }

  lemma ApiNotGiven(net: Net, c: Fields)
    ensures Get(c, "api") == Null ==> CheckApi(net, c) == Some("* 'api' must not be null")
    ensures Get(c, "api") == Str("") ==>
      CheckApi(net, c) == Some("* Invalid configuration: 'api' must be a valid Cloud Controller endpoint but was blank")
  {
  }

  lemma ApiGiven(net: Net, c: Fields)
    requires GivenText(c, "api")
    ensures ApiVerdict(net, c["api"].s, CheckApi(net, c))
  {
    ApiUrlMeaning(c["api"].s);
  }

  lemma ApiReachableWhen(net: Net, c: Fields, verdict: Option<string>)
    requires GivenText(c, "api") && ApiVerdict(net, c["api"].s, verdict)
    ensures verdict.None? <==> ApiReachable(net, c)
  {
  }

  lemma ApiMeaning(net: Net, c: Fields)
    requires TextOrNil(c, "api")
    ensures CheckApi(net, c).None? <==> ApiReachable(net, c)
  {
    ApiNotGiven(net, c);
    if GivenText(c, "api") {
      ApiGiven(net, c);
      ApiReachableWhen(net, c, CheckApi(net, c));
    }
  }

  /** What the check of the domain says about one that was given. */
  predicate DomainVerdict(net: Net, domain: string, verdict: Option<string>) {
    var madeUp := "made-up-app-host-name." + domain;
    if net.host(madeUp) == None then
      verdict == Some("* Invalid configuration: 'apps_domain' must be a valid URL but was set to '" + domain + "'")
    else if net.lookup(madeUp) == None then verdict == None
    else verdict == Some("* Invalid configuration for 'apps_domain' <" + domain + ">: " + net.lookup(madeUp).value)
  }

  lemma DomainNotGiven(net: Net, c: Fields)
    ensures Get(c, "apps_domain") == Null ==> CheckAppsDomain(net, c) == Some("* 'apps_domain' must not be null")
  {
  }

  lemma DomainGiven(net: Net, c: Fields)
    requires Get(c, "apps_domain").Str?
    ensures DomainVerdict(net, c["apps_domain"].s, CheckAppsDomain(net, c))
  {
  }

  lemma DomainMeaning(net: Net, c: Fields)
    requires TextOrNil(c, "apps_domain")
    ensures CheckAppsDomain(net, c).None? <==> DomainReachable(net, c)
  {
    DomainNotGiven(net, c);
    if Get(c, "apps_domain").Str? {
      DomainGiven(net, c);
    }
  }

  lemma FourAndRest<T>(four: seq<T>, rest: seq<T>)
    requires |four| == 4
    ensures |four + rest| == 4 + |rest| && forall i :: 0 <= i < 4 ==> (four + rest)[i] == four[i]
    ensures forall k :: 0 <= k < |rest| ==> (four + rest)[4 + k] == rest[k]
  {
  }

  /** The report starts with the four checks that fields have of their own; those for nil follow. */
  lemma ChecksInOrder(schema: Schema, net: Net, c: Fields)
    ensures |OwnChecks(net, c)| == 4 && |Checks(schema, net, c)| == 4 + |schema.required|
    ensures forall i :: 0 <= i < 4 ==> Checks(schema, net, c)[i] == OwnChecks(net, c)[i]
    ensures forall k :: 0 <= k < |schema.required| ==> Checks(schema, net, c)[4 + k] == NilChecks(schema, c)[k]
  {
    FourAndRest(OwnChecks(net, c), NilChecks(schema, c));
  }

  /** The first two checks complain about a missing or blank user and password. */
  lemma UserChecks(net: Net, c: Fields)
    requires TextOrNil(c, "admin_user") && TextOrNil(c, "admin_password")
    ensures OwnChecks(net, c)[0] == Complaint(c, "admin_user", "* Invalid configuration: 'admin_user' must be provided")
    ensures OwnChecks(net, c)[1] == Complaint(c, "admin_password", "* Invalid configuration: 'admin_password' must be provided")
  {
    PresentMeaning(c, "admin_user", "* Invalid configuration: 'admin_user' must be provided");
    PresentMeaning(c, "admin_password", "* Invalid configuration: 'admin_password' must be provided");
  }

  /** The next two fail exactly when the endpoint or the domain cannot be reached. */
  lemma NetChecks(net: Net, c: Fields)
    requires TextOrNil(c, "api") && TextOrNil(c, "apps_domain")
    ensures OwnChecks(net, c)[2].None? <==> ApiReachable(net, c)
    ensures OwnChecks(net, c)[3].None? <==> DomainReachable(net, c)
  {
    ApiMeaning(net, c);
    DomainMeaning(net, c);
  }

  /** The others complain about the required fields that are nil, in their order. */
  lemma NilMeaning(schema: Schema, c: Fields)
    ensures |NilChecks(schema, c)| == |schema.required|
    ensures forall k :: 0 <= k < |schema.required| ==>
      NilChecks(schema, c)[k] ==
        if Get(c, schema.required[k]) == Null then Some("* '" + schema.required[k] + "' must not be null") else None
  {
  }

  lemma OwnPass(net: Net, c: Fields)
    requires Typed(c)
    ensures |OwnChecks(net, c)| == 4
    ensures (forall i :: 0 <= i < 4 ==> OwnChecks(net, c)[i].None?) <==>
      GivenText(c, "admin_user") && GivenText(c, "admin_password") && ApiReachable(net, c) && DomainReachable(net, c)
  {
    UserChecks(net, c);
    NetChecks(net, c);
    PresentMeaning(c, "admin_user", "* Invalid configuration: 'admin_user' must be provided");
    PresentMeaning(c, "admin_password", "* Invalid configuration: 'admin_password' must be provided");
    FourPass(OwnChecks(net, c));
  }

  lemma FourPass(checks: seq<Option<string>>)
    requires |checks| == 4
    ensures (forall i :: 0 <= i < 4 ==> checks[i].None?) <==>
      checks[0].None? && checks[1].None? && checks[2].None? && checks[3].None?
  {
  }

  lemma NilPass(schema: Schema, c: Fields)
    ensures (forall k :: 0 <= k < |schema.required| ==> NilChecks(schema, c)[k].None?) <==>
      forall name :: name in schema.required ==> Get(c, name) != Null
  {
    if forall k :: 0 <= k < |schema.required| ==> NilChecks(schema, c)[k].None? {
      forall name | name in schema.required
        ensures Get(c, name) != Null
      {
        var k :| 0 <= k < |schema.required| && schema.required[k] == name;
        assert NilChecks(schema, c)[k].None?;
      }
    }
  }

  lemma {:induction false} SilentWhen(checks: seq<Option<string>>)
    ensures Failures(checks) == [] <==> forall i :: 0 <= i < |checks| ==> checks[i].None?
    decreases |checks|
  {
    if checks != [] {
      SilentWhen(checks[..|checks| - 1]);
    }
  }

  lemma AllPass(four: seq<Option<string>>, rest: seq<Option<string>>)
    requires |four| == 4
    ensures (forall i :: 0 <= i < |four + rest| ==> (four + rest)[i].None?) <==>
      (forall i :: 0 <= i < 4 ==> four[i].None?) && forall k :: 0 <= k < |rest| ==> rest[k].None?
  {
    FourAndRest(four, rest);
  }

  /** Nothing is reported exactly when every field passes. */
  lemma PassesWhen(schema: Schema, net: Net, c: Fields)
    requires Typed(c)
    ensures Failures(Checks(schema, net, c)) == [] <==> Passes(schema, net, c)
  {
    SilentWhen(Checks(schema, net, c));
    OwnPass(net, c);
    NilPass(schema, c);
    AllPass(OwnChecks(net, c), NilChecks(schema, c));
  }

  // ----- what decoding comes to -----

  lemma {:induction false} DefaultIsLast(schema: Schema, n: nat, name: string)
    requires n <= |schema.defaults|
    requires forall k :: 0 <= k < n ==> schema.defaults[k].1 != Null
    ensures
      var v := DefaultAfter(schema, n, name);
      || (v == Null && forall k :: 0 <= k < n ==> schema.defaults[k].0 != name)
      || exists k :: 0 <= k < n && schema.defaults[k] == (name, v) && forall m :: k < m < n ==> schema.defaults[m].0 != name
    decreases n
  {
    if n > 0 {
      if schema.defaults[n - 1].0 == name {
        assert schema.defaults[n - 1] == (name, DefaultAfter(schema, n, name));
      } else {
        DefaultIsLast(schema, n - 1, name);
      }
    }
  }

  lemma DefaultMeaning(schema: Schema, name: string)
    requires DefaultsFit(schema)
    ensures IsDefault(schema, name, DefaultOf(schema, name))
  {
    assert forall k :: 0 <= k < |schema.defaults| ==> schema.defaults[k].1 != Null;
    DefaultIsLast(schema, |schema.defaults|, name);
  }

  lemma MemberFits(kind: Kind, prev: Json, j: Json)
    ensures DecodeField(kind, prev, j).1 <==> Takes(kind, j)
  {
  }

  lemma ReporterMeaning(before: Json, m: Fields)
    requires Takes(KReporter, Obj(m))
    ensures ReporterRead(before, m, DecodeField(KReporter, before, Obj(m)).0)
  {
  }

  lemma FieldMeaning(schema: Schema, doc: Fields, name: string)
    requires DefaultsFit(schema) && name in schema.kinds && (name in doc ==> Takes(schema.kinds[name], doc[name]))
    ensures Holds(schema, doc, name, Rescaled(name, DecodedField(schema, doc, name, DefaultOf(schema, name))))
  {
    DefaultMeaning(schema, name);
    if name in doc && doc[name] != Null && schema.kinds[name] == KReporter {
      ReporterMeaning(DefaultOf(schema, name), doc[name].fields);
    }
  }

  lemma ReadableMeaning(schema: Schema, file: File)
    ensures Decodes(schema, file) <==> Readable(schema, file)
  {
    if file.Document? && file.json.Obj? {
      forall name | name in schema.kinds && name in file.json.fields
        ensures DecodeField(schema.kinds[name], DefaultOf(schema, name), file.json.fields[name]).1
           <==> Takes(schema.kinds[name], file.json.fields[name])
      {
        MemberFits(schema.kinds[name], DefaultOf(schema, name), file.json.fields[name]);
      }
    }
  }

  lemma NormalisedAt(c: Fields, name: string)
    requires name in c
    ensures Normalised(c).Keys == c.Keys && Normalised(c)[name] == Rescaled(name, c[name])
  {
  }

  lemma ContentsReflect(schema: Schema, file: File)
    requires DefaultsFit(schema) && Readable(schema, file)
    ensures Reflects(schema, MembersOf(file), Normalised(Overlaid(schema, file)))
  {
    var c := Overlaid(schema, file);
    assert Normalised(c).Keys == schema.kinds.Keys;
    forall name | name in schema.kinds
      ensures Holds(schema, MembersOf(file), name, Normalised(c)[name])
    {
      FieldMeaning(schema, MembersOf(file), name);
      NormalisedAt(c, name);
    }
  }

  lemma TextsAreTyped(schema: Schema, doc: Fields, contents: Fields, name: string)
    requires DefaultsFit(schema) && HasKind(schema, name, KString) && Reflects(schema, doc, contents)
    requires name in doc ==> Takes(KString, doc[name])
    ensures TextOrNil(contents, name)
  {
    assert Holds(schema, doc, name, contents[name]);
  }

  lemma ContentsAreTyped(schema: Schema, file: File, contents: Fields)
    requires WellFormed(schema) && Readable(schema, file) && Reflects(schema, MembersOf(file), contents)
    ensures Typed(contents)
  {
    TextsAreTyped(schema, MembersOf(file), contents, "admin_user");
    TextsAreTyped(schema, MembersOf(file), contents, "admin_password");
    TextsAreTyped(schema, MembersOf(file), contents, "api");
    TextsAreTyped(schema, MembersOf(file), contents, "apps_domain");
  }

  lemma PresentAlike(c: Fields, e: Fields, name: string, blank: string)
    requires Get(e, name) == Get(c, name)
    ensures CheckPresent(e, name, blank) == CheckPresent(c, name, blank)
  {
  }

  lemma ApiAlike(net: Net, c: Fields, e: Fields)
    requires Get(e, "api") == Get(c, "api")
    ensures CheckApi(net, e) == CheckApi(net, c)
  {
  }

  lemma DomainAlike(net: Net, c: Fields, e: Fields)
    requires Get(e, "apps_domain") == Get(c, "apps_domain")
    ensures CheckAppsDomain(net, e) == CheckAppsDomain(net, c)
  {
  }

  lemma OwnChecksAlike(net: Net, c: Fields, e: Fields)
    requires Get(e, "admin_user") == Get(c, "admin_user") && Get(e, "admin_password") == Get(c, "admin_password")
    requires Get(e, "api") == Get(c, "api") && Get(e, "apps_domain") == Get(c, "apps_domain")
    ensures OwnChecks(net, e) == OwnChecks(net, c)
  {
    PresentAlike(c, e, "admin_user", "* Invalid configuration: 'admin_user' must be provided");
    PresentAlike(c, e, "admin_password", "* Invalid configuration: 'admin_password' must be provided");
    ApiAlike(net, c, e);
    DomainAlike(net, c, e);
  }

  lemma NilChecksAlike(schema: Schema, c: Fields, e: Fields)
    requires forall name :: Get(e, name) == Null <==> Get(c, name) == Null
    ensures NilChecks(schema, e) == NilChecks(schema, c)
  {
    forall k | 0 <= k < |schema.required|
      ensures NilChecks(schema, e)[k] == NilChecks(schema, c)[k]
    {
    }
  }

  lemma OthersUnscaled(c: Fields, name: string)
    requires name != "timeout_scale"
    ensures Get(Normalised(c), name) == Get(c, name)
  {
  }

  lemma NilUnscaled(c: Fields)
    ensures forall name :: Get(Normalised(c), name) == Null <==> Get(c, name) == Null
  {
  }

  lemma SameOwnChecks(net: Net, c: Fields)
    ensures OwnChecks(net, Normalised(c)) == OwnChecks(net, c)
  {
    OthersUnscaled(c, "admin_user");
    OthersUnscaled(c, "admin_password");
    OthersUnscaled(c, "api");
    OthersUnscaled(c, "apps_domain");
    OwnChecksAlike(net, c, Normalised(c));
  }

  lemma SameChecks(schema: Schema, net: Net, c: Fields)
    ensures Checks(schema, net, Normalised(c)) == Checks(schema, net, c)
  {
    SameOwnChecks(net, c);
    NilUnscaled(c);
    NilChecksAlike(schema, c, Normalised(c));
  }

  /** A file loads exactly when it can be read and all its fields pass; its fields then hold
      what the file and the defaults say, with a scale that is positive. */
  lemma LoadMeaning(schema: Schema, net: Net, file: File)
    requires WellFormed(schema)
    ensures Decodes(schema, file) <==> Readable(schema, file)
    ensures Readable(schema, file) ==>
      var contents := Normalised(Overlaid(schema, file));
      && Reflects(schema, MembersOf(file), contents)
      && (Loads(schema, net, file) <==> Passes(schema, net, contents))
      && Failures(Checks(schema, net, Overlaid(schema, file))) == Failures(Checks(schema, net, contents))
  {
    ReadableMeaning(schema, file);
    if Readable(schema, file) {
      var contents := Normalised(Overlaid(schema, file));
      ContentsReflect(schema, file);
      ContentsAreTyped(schema, file, contents);
      PassesWhen(schema, net, contents);
      SameChecks(schema, net, Overlaid(schema, file));
    }
  }

  /** A configuration that passes has a positive scale. */
  lemma ScaleIsPositive(schema: Schema, net: Net, file: File, contents: Fields)
    requires WellFormed(schema) && Readable(schema, file) && Reflects(schema, MembersOf(file), contents)
    requires Passes(schema, net, contents)
    ensures contents["timeout_scale"].Num? && contents["timeout_scale"].n > 0.0
  {
    assert Holds(schema, MembersOf(file), "timeout_scale", contents["timeout_scale"]);
    assert Get(contents, "timeout_scale") != Null;
  }
}
