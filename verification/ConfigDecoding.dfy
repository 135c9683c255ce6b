/** What the suite's configuration says (helpers/config/config_struct.go): decoding a JSON
    document over default values, checking the fields, and what a load amounts to. */
module ConfigDecoding {
  import opened JsonValues
  import opened Text

  // ----- the fields of the struct -----

  datatype Kind = KString | KInt | KBool | KFloat | KReporter

  /** What the functions of the package are written for, field by field: the type of every
      field by its JSON name, the values getDefaults assigns, in its order, and the fields
      that must not be nil, in the order they are checked. */
  datatype Schema = Schema(kinds: map<string, Kind>, defaults: seq<(string, Json)>, required: seq<string>)

  const NO_REPORTER := Obj(map["custom_tags" := Null, "honeycomb_write_key" := Str(""), "honeycomb_dataset" := Str("")])

  /** The value a field points to after the first `n` assignments of getDefaults; `Null` is a nil pointer. */
  function DefaultAfter(schema: Schema, n: nat, name: string): Json
    requires n <= |schema.defaults|
  {
    if n == 0 then Null
    else if schema.defaults[n - 1].0 == name then schema.defaults[n - 1].1
    else DefaultAfter(schema, n - 1, name)
  }

  function DefaultOf(schema: Schema, name: string): Json {
    DefaultAfter(schema, |schema.defaults|, name)
  }

  /** What a fresh default struct points to. */
  function AllDefaults(schema: Schema): Fields {
    map name | name in schema.kinds :: DefaultOf(schema, name)
  }

  // ----- decoding one field -----

  /** One member of the reporter struct; strings ignore null, the tag map is merged into. */
  function DecodeTags(prev: Json, j: Json): (Json, bool) {
    match j
    case Null => (Null, true)
    case Obj(m) => (Obj((if prev.Obj? then prev.fields else map[]) + m), true)
    case _ => (prev, false)
  }

  function DecodeText(prev: Json, j: Json): (Json, bool) {
    match j
    case Null => (prev, true)
    case Str(_) => (j, true)
    case _ => (prev, false)
  }

  function DecodeReporter(prev: Fields, m: Fields): (Json, bool) {
    var (tags, ok1) := if "custom_tags" in m then DecodeTags(Get(prev, "custom_tags"), m["custom_tags"]) else (Get(prev, "custom_tags"), true);
    var (key, ok2) := if "honeycomb_write_key" in m then DecodeText(Get(prev, "honeycomb_write_key"), m["honeycomb_write_key"])
                      else (Get(prev, "honeycomb_write_key"), true);
    var (dataset, ok3) := if "honeycomb_dataset" in m then DecodeText(Get(prev, "honeycomb_dataset"), m["honeycomb_dataset"])
                          else (Get(prev, "honeycomb_dataset"), true);
    (Obj(map["custom_tags" := tags, "honeycomb_write_key" := key, "honeycomb_dataset" := dataset]), ok1 && ok2 && ok3)
  }

  /** The range of Go's int. */
  predicate InIntRange(n: int) {
    -MAX_INT - 1 <= n <= MAX_INT
  }

  /** A value of this type can be stored in a field of this kind. */
  predicate Fits(kind: Kind, j: Json) {
    match kind
    case KString => j.Str?
    case KInt => j.Num? && j.n.Floor as real == j.n && InIntRange(j.n.Floor)
    case KBool => j.Bool?
    case KFloat => j.Num?
    case KReporter => j.Obj?
  }

  /** What the methods of the package rely on. */
  ghost predicate Usable(schema: Schema) {
    && (forall n :: 0 <= n < |schema.defaults| ==> schema.defaults[n].0 in schema.kinds && schema.defaults[n].1 != Null)
    && "timeout_scale" in schema.required
  }

  predicate HasKind(schema: Schema, name: string, kind: Kind) {
    name in schema.kinds && schema.kinds[name] == kind
  }

  /** Go's types keep the defaults of the right kind. */
  ghost predicate DefaultsFit(schema: Schema) {
    forall n :: 0 <= n < |schema.defaults| ==>
      schema.defaults[n].0 in schema.kinds && Fits(schema.kinds[schema.defaults[n].0], schema.defaults[n].1)
  }

  /** The fields that the functions name themselves, and defaults of the right kinds. */
  ghost predicate WellFormed(schema: Schema) {
    && HasKind(schema, "admin_user", KString) && HasKind(schema, "admin_password", KString)
    && HasKind(schema, "api", KString) && HasKind(schema, "apps_domain", KString)
    && HasKind(schema, "timeout_scale", KFloat) && "timeout_scale" in schema.required
    && DefaultsFit(schema)
  }

  /** The value a pointer field has after decoding `j` into it, `prev` (`Null` for nil) being
      its value before, and whether `j` had the right type. */
  function DecodeField(kind: Kind, prev: Json, j: Json): (Json, bool) {
    if j == Null then (Null, true)
    else if !Fits(kind, j) then (prev, false)
    else if kind == KReporter then DecodeReporter(if prev.Obj? then prev.fields else NO_REPORTER.fields, j.fields)
    else (j, true)
  }

  /** What a document does to a field: members of other names are ignored. */
  function DecodedField(schema: Schema, doc: Fields, name: string, prev: Json): Json
    requires name in schema.kinds
  {
    if name in doc then DecodeField(schema.kinds[name], prev, doc[name]).0 else prev
  }

  predicate TypesFit(schema: Schema, doc: Fields) {
    forall name :: name in schema.kinds && name in doc ==> DecodeField(schema.kinds[name], DefaultOf(schema, name), doc[name]).1
  }

  // ----- checking -----

  /** Name resolution and URL parsing, as far as the checks consult them: `host` gives the
      host of a URL (`None` when it does not parse), `lookup` the error of a failed lookup. */
  datatype Net = Net(host: string -> Option<string>, isAddress: string -> bool, lookup: string -> Option<string>)

  function StringAt(c: Fields, name: string): string {
    if Get(c, name).Str? then Get(c, name).s else ""
  }

  function CheckPresent(c: Fields, name: string, blank: string): Option<string> {
    if Get(c, name) == Null then Some("* '" + name + "' must not be null")
    else if StringAt(c, name) == "" then Some(blank)
    else None
  }

  function ApiUrl(endpoint: string): string {
    if Contains(endpoint, "://") then endpoint else "https://" + endpoint
  }

  function CheckApi(net: Net, c: Fields): Option<string> {
    var endpoint := StringAt(c, "api");
    var invalid := Some("* Invalid configuration: 'api' must be a valid URL but was set to '" + endpoint + "'");
    if Get(c, "api") == Null then Some("* 'api' must not be null")
    else if endpoint == "" then Some("* Invalid configuration: 'api' must be a valid Cloud Controller endpoint but was blank")
    else
      match net.host(ApiUrl(endpoint))
      case None => invalid
      case Some(host) =>
        if host == "" then invalid
        else if net.isAddress(host) then None
        else match net.lookup(host)
          case None => None
          case Some(err) => Some("* Invalid configuration for 'api' <" + endpoint + ">: " + err)
  }

  function CheckAppsDomain(net: Net, c: Fields): Option<string> {
    var domain := StringAt(c, "apps_domain");
    var madeUp := "made-up-app-host-name." + domain;
    if Get(c, "apps_domain") == Null then Some("* 'apps_domain' must not be null")
    else if net.host(madeUp).None? then
      Some("* Invalid configuration: 'apps_domain' must be a valid URL but was set to '" + domain + "'")
    else match net.lookup(madeUp)
      case None => None
      case Some(err) => Some("* Invalid configuration for 'apps_domain' <" + domain + ">: " + err)
  }

  function CheckNotNull(c: Fields, name: string): Option<string> {
    if Get(c, name) == Null then Some("* '" + name + "' must not be null") else None
  }

  /** The outcomes of the checks that fields have of their own, in order. */
  function OwnChecks(net: Net, c: Fields): seq<Option<string>> {
    [CheckPresent(c, "admin_user", "* Invalid configuration: 'admin_user' must be provided"),
     CheckPresent(c, "admin_password", "* Invalid configuration: 'admin_password' must be provided"),
     CheckApi(net, c), CheckAppsDomain(net, c)]
  }

  function NilChecks(schema: Schema, c: Fields): seq<Option<string>> {
    seq(|schema.required|, i requires 0 <= i < |schema.required| => CheckNotNull(c, schema.required[i]))
  }

  /** The outcome of every check, in order. */
  function Checks(schema: Schema, net: Net, c: Fields): seq<Option<string>> {
    OwnChecks(net, c) + NilChecks(schema, c)
  }

  function Failures(checks: seq<Option<string>>): seq<string> {
    if checks == [] then []
    else
      var before, last := Failures(checks[..|checks| - 1]), checks[|checks| - 1];
      if last.Some? then before + [last.value] else before
  }

  lemma FailuresOneMore(checks: seq<Option<string>>, i: nat)
    requires i < |checks|
    ensures Failures(checks[..i + 1]) == Failures(checks[..i]) + if checks[i].Some? then [checks[i].value] else []
  {
    assert checks[..i + 1][..i] == checks[..i];
  }

  /** Every failing check is reported exactly once: its message stands right behind those of
      the failing checks before it, and there are no other messages. */
  lemma {:induction false} EachFailureReportedOnce(checks: seq<Option<string>>, i: nat)
    requires i < |checks| && checks[i].Some?
    ensures |Failures(checks[..i])| < |Failures(checks)| && Failures(checks)[|Failures(checks[..i])|] == checks[i].value
    decreases |checks|
  {
    if i < |checks| - 1 {
      assert checks[..|checks| - 1][..i] == checks[..i];
      EachFailureReportedOnce(checks[..|checks| - 1], i);
    }
  }

  lemma {:induction false} NoOtherMessages(checks: seq<Option<string>>, k: nat) returns (i: nat)
    requires k < |Failures(checks)|
    ensures i < |checks| && checks[i] == Some(Failures(checks)[k]) && |Failures(checks[..i])| == k
    decreases |checks|
  {
    var init := checks[..|checks| - 1];
    if k < |Failures(init)| {
      i := NoOtherMessages(init, k);
      assert init[..i] == checks[..i];
    } else {
      i := |checks| - 1;
    }
  }

  // ----- loading -----

  /** What opening and parsing the file yields: a failure, or one JSON value (with the
      decoder's words for a member of the wrong type). */
  datatype File = Unreadable(err: string) | Document(json: Json, mismatch: string)

  /** Decoding reports an error for an unreadable file, a value that is neither an object
      nor null, and a member of the wrong type. */
  predicate Decodes(schema: Schema, file: File) {
    file.Document? && (file.json == Null || (file.json.Obj? && TypesFit(schema, file.json.fields)))
  }

  function DecodeError(file: File): string {
    if file.Unreadable? then file.err else file.mismatch
  }

  function UnmarshalMessage(file: File): string {
    "* Failed to unmarshal: " + DecodeError(file)
  }

  function MembersOf(file: File): Fields {
    if file.Document? && file.json.Obj? then file.json.fields else map[]
  }

  /** The defaults overlaid with the file. */
  function Overlaid(schema: Schema, file: File): Fields {
    map name | name in schema.kinds :: DecodedField(schema, MembersOf(file), name, DefaultOf(schema, name))
  }

  /** A scale that is not positive becomes one. */
  function Normalised(c: Fields): Fields {
    if Get(c, "timeout_scale").Num? && c["timeout_scale"].n <= 0.0 then c["timeout_scale" := Num(1.0)] else c
  }

  predicate Loads(schema: Schema, net: Net, file: File) {
    Decodes(schema, file) && Failures(Checks(schema, net, Overlaid(schema, file))) == []
  }

  /** What a load of this file reports. */
  function Messages(schema: Schema, net: Net, file: File): seq<string> {
    if Decodes(schema, file) then Failures(Checks(schema, net, Overlaid(schema, file))) else [UnmarshalMessage(file)]
  }

  lemma ScalePresent(schema: Schema, net: Net, c: Fields)
    requires "timeout_scale" in schema.required && Failures(Checks(schema, net, c)) == []
    ensures Get(c, "timeout_scale") != Null
  {
    var i :| 0 <= i < |schema.required| && schema.required[i] == "timeout_scale";
    if Get(c, "timeout_scale") == Null {
      assert Checks(schema, net, c)[4 + i] == CheckNotNull(c, schema.required[i]);
      EachFailureReportedOnce(Checks(schema, net, c), 4 + i);
    }
  }

  // ----- the suite's struct -----

  const KINDS: map<string, Kind> := map[
    "api" := KString, "apps_domain" := KString, "admin_password" := KString, "admin_user" := KString,
    "skip_ssl_validation" := KBool, "local_blobstore" := KBool, "artifacts_directory" := KString,
    "async_service_operation_timeout" := KInt, "broker_start_timeout" := KInt, "cf_push_timeout" := KInt,
    "default_timeout" := KInt, "detect_timeout" := KInt, "long_curl_timeout" := KInt, "sleep_timeout" := KInt,
    "cc_clock_cycle" := KInt, "timeout_scale" := KFloat,
    "binary_buildpack_name" := KString, "go_buildpack_name" := KString, "hwc_buildpack_name" := KString,
    "nodejs_buildpack_name" := KString, "php_buildpack_name" := KString, "python_buildpack_name" := KString,
    "ruby_buildpack_name" := KString, "staticfile_buildpack_name" := KString,
    "infrastructure" := KString, "gcloud_project_name" := KString, "cluster_zone" := KString, "cluster_name" := KString,
    "name_prefix" := KString, "reporter_config" := KReporter]

  const DEFAULTS: seq<(string, Json)> := [
    ("binary_buildpack_name", Str("binary_buildpack")), ("go_buildpack_name", Str("go_buildpack")),
    ("hwc_buildpack_name", Str("hwc_buildpack")), ("nodejs_buildpack_name", Str("nodejs_buildpack")),
    ("php_buildpack_name", Str("php_buildpack")), ("python_buildpack_name", Str("python_buildpack")),
    ("ruby_buildpack_name", Str("ruby_buildpack")), ("staticfile_buildpack_name", Str("staticfile_buildpack")),
    ("reporter_config", NO_REPORTER), ("local_blobstore", Bool(false)),
    ("async_service_operation_timeout", Num(120.0)), ("broker_start_timeout", Num(300.0)), ("cf_push_timeout", Num(120.0)),
    ("default_timeout", Num(30.0)), ("detect_timeout", Num(300.0)), ("long_curl_timeout", Num(120.0)),
    ("sleep_timeout", Num(30.0)), ("cc_clock_cycle", Num(30.0)), ("timeout_scale", Num(2.0)),
    ("infrastructure", Str("vms")), ("gcloud_project_name", Str("")), ("cluster_zone", Str("")), ("cluster_name", Str("")),
    ("artifacts_directory", Str("../results")), ("name_prefix", Str("BARA"))]

  const REQUIRED: seq<string> := [
    "skip_ssl_validation", "artifacts_directory", "async_service_operation_timeout", "broker_start_timeout",
    "cf_push_timeout", "default_timeout", "detect_timeout", "long_curl_timeout", "sleep_timeout", "cc_clock_cycle",
    "timeout_scale", "binary_buildpack_name", "go_buildpack_name", "hwc_buildpack_name", "nodejs_buildpack_name",
    "php_buildpack_name", "python_buildpack_name", "ruby_buildpack_name", "staticfile_buildpack_name", "name_prefix"]

  const SUITE := Schema(KINDS, DEFAULTS, REQUIRED)

  lemma SuiteDefaultFits(n: nat)
    requires n < |DEFAULTS|
    ensures DEFAULTS[n].0 in KINDS && Fits(KINDS[DEFAULTS[n].0], DEFAULTS[n].1)
  {
  }

  lemma SuiteIsWellFormed()
    ensures WellFormed(SUITE) && Usable(SUITE)
  {
    forall n | 0 <= n < |SUITE.defaults|
      ensures SUITE.defaults[n].0 in SUITE.kinds && Fits(SUITE.kinds[SUITE.defaults[n].0], SUITE.defaults[n].1)
    {
      SuiteDefaultFits(n);
    }
    SuiteNamedFields();
  }

  lemma SuiteNamedFields()
    ensures HasKind(SUITE, "admin_user", KString) && HasKind(SUITE, "admin_password", KString)
    ensures HasKind(SUITE, "api", KString) && HasKind(SUITE, "apps_domain", KString)
    ensures HasKind(SUITE, "timeout_scale", KFloat) && "timeout_scale" in SUITE.required
  {
    assert REQUIRED[10] == "timeout_scale";
  }
}
