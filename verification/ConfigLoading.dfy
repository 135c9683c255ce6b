/** Loading the suite's configuration over defaults that live in one package-level struct
    (helpers/config/config_struct.go). A struct is a table of pointers; the decoder writes
    through the pointers that are not nil. */
module ConfigLoading {
  import opened JsonValues
  import opened ConfigDecoding
  import opened ConfigMeaning
  import opened ValidationErrors

  // ----- structs in memory -----

  /** A value that struct fields point to. */
  class Cell {
    var v: Json

    constructor (v: Json)
      ensures this.v == v
    {
      this.v := v;
    }
  }

  /** A struct: one pointer per field, nil or not. Assigning a struct copies the pointers. */
  type Struct = map<string, Cell?>

  function Pointee(c: Cell?): Json
    reads c
  {
    if c == null then Null else c.v
  }

  ghost function Cells(s: Struct): set<object> {
    set name | name in s && s[name] != null :: s[name]
  }

  /** What the fields of a struct point to. */
  function Contents(s: Struct): Fields
    reads Cells(s)
  {
    map name | name in s :: Pointee(s[name])
  }

  ghost predicate Unaliased(s: Struct) {
    forall a, b :: a in s && b in s && s[a] != null && s[a] == s[b] ==> a == b
  }

  // ----- checking -----

  method Report(errs: Errors, check: Option<string>)
    modifies errs
    ensures errs.errors == old(errs.errors) + if check.Some? then [check.value] else []
  {
    if check.Some? {
      errs.Add(check.value);
    }
  }

  method ReportAll(checks: seq<Option<string>>) returns (errs: Errors)
    ensures fresh(errs) && errs.errors == Failures(checks)
  {
    errs := new Errors();
    for i := 0 to |checks|
      invariant fresh(errs) && errs.errors == Failures(checks[..i])
    {
      Report(errs, checks[i]);
      FailuresOneMore(checks, i);
    }
    assert checks[..|checks|] == checks;
  }

  method ValidateConfig(schema: Schema, net: Net, s: Struct) returns (errs: Errors)
    ensures fresh(errs) && errs.errors == Failures(Checks(schema, net, old(Contents(s))))
  {
    errs := ReportAll(Checks(schema, net, Contents(s)));
  }

  // ----- loading -----

  datatype Loaded = Config(s: Struct) | Failed(messages: seq<string>)

  ghost function CellsOf(r: Loaded): set<object> {
    if r.Config? then Cells(r.s) else {}
  }

  /** What a returned configuration holds now. */
  ghost function Held(r: Loaded): Fields
    reads CellsOf(r)
  {
    if r.Config? then Contents(r.s) else map[]
  }

  ghost predicate Hold(rs: seq<Loaded>, contents: seq<Fields>)
    reads set i, o | 0 <= i < |rs| && o in CellsOf(rs[i]) :: o
  {
    |rs| == |contents| && forall i :: 0 <= i < |rs| ==> Held(rs[i]) == contents[i]
  }

  /** No two of the configurations share a value. */
  ghost predicate Apart(rs: seq<Loaded>) {
    forall i, j :: 0 <= i < j < |rs| ==> CellsOf(rs[i]) !! CellsOf(rs[j])
  }

  /** What loading a file comes to, in terms of the file: a configuration whose fields hold what
      the file and the defaults say and all pass, or the messages about it. */
  ghost predicate LoadedAs(schema: Schema, net: Net, file: File, r: Loaded, contents: Fields) {
    match r
    case Config(_) =>
      Readable(schema, file) && Reflects(schema, MembersOf(file), contents) && Passes(schema, net, contents)
    case Failed(messages) =>
      if !Readable(schema, file) then
        messages == ["* Failed to unmarshal: " + if file.Unreadable? then file.err else file.mismatch]
      else
        exists c :: Reflects(schema, MembersOf(file), c) && !Passes(schema, net, c) && messages == Failures(Checks(schema, net, c))
  }

  lemma OutcomeIsLoadedAs(p: Package, net: Net, file: File, r: Loaded, contents: Fields)
    requires WellFormed(p.schema) && p.IsOutcome(r, contents, net, file)
    ensures LoadedAs(p.schema, net, file, r, contents)
  {
    LoadMeaning(p.schema, net, file);
    if r.Failed? && Readable(p.schema, file) {
      var c := Normalised(Overlaid(p.schema, file));
      assert Reflects(p.schema, MembersOf(file), c) && !Passes(p.schema, net, c);
    }
  }

  lemma OneMoreHeld(rs: seq<Loaded>, contents: seq<Fields>, r: Loaded)
    requires Hold(rs, contents) && Apart(rs) && forall i :: 0 <= i < |rs| ==> CellsOf(rs[i]) !! CellsOf(r)
    ensures Hold(rs + [r], contents + [Held(r)]) && Apart(rs + [r])
  {
  }

  /** The package, with its one variable. */
  class Package {
    const schema: Schema
    var defaults: Struct

    /** The variable has every field, shares no cell between fields, and leaves the fields
        that have no default nil. */
    ghost predicate Valid()
      reads this
    {
      && Usable(schema) && defaults.Keys == schema.kinds.Keys && Unaliased(defaults)
      && forall name :: name in schema.kinds && DefaultOf(schema, name) == Null ==> defaults[name] == null
    }

    constructor (schema: Schema)
      requires Usable(schema)
      ensures Valid() && Cells(defaults) == {} && this.schema == schema
    {
      this.schema := schema;
      defaults := map name | name in schema.kinds :: null;
    }

    method GetDefaults() returns (copy: Struct)
      requires Valid()
      modifies this
      ensures Valid() && copy == defaults && fresh(Cells(copy))
      ensures Contents(copy) == AllDefaults(schema)
    {
      for n := 0 to |schema.defaults|
        invariant defaults.Keys == schema.kinds.Keys && Unaliased(defaults)
        invariant forall name :: name in schema.kinds ==> Assigned(n, name, old(defaults)[name])
      {
        var (name, v) := schema.defaults[n];
        var c := new Cell(v);
        defaults := defaults[name := c];
      }
      copy := defaults;
      assert forall name :: name in schema.kinds ==> Pointee(copy[name]) == DefaultOf(schema, name);
    }

    /** The field points at a fresh cell with the value assigned last, or still where it pointed. */
    twostate predicate Assigned(n: nat, name: string, before: Cell?)
      requires n <= |schema.defaults| && name in defaults
      reads this, defaults[name]
    {
      if DefaultAfter(schema, n, name) == Null then defaults[name] == before
      else defaults[name] != null && fresh(defaults[name]) && defaults[name].v == DefaultAfter(schema, n, name)
    }

    /** Decodes the document into the struct `s`, writing through its pointers. */
    method Decode(s: Struct, doc: Fields) returns (decoded: Struct)
      requires s.Keys == schema.kinds.Keys && Unaliased(s)
      modifies Cells(s)
      ensures decoded.Keys == schema.kinds.Keys && Unaliased(decoded)
      ensures forall o :: o in Cells(decoded) ==> o in Cells(s) || fresh(o)
      ensures Contents(decoded) == map name | name in schema.kinds :: DecodedField(schema, doc, name, old(Pointee(s[name])))
    {
      decoded := s;
      var remaining := schema.kinds.Keys * doc.Keys;
      while remaining != {}
        invariant remaining <= schema.kinds.Keys * doc.Keys
        invariant decoded.Keys == schema.kinds.Keys && Unaliased(decoded)
        invariant forall name :: name in schema.kinds && decoded[name] != null ==> decoded[name] == s[name] || fresh(decoded[name])
        invariant forall name :: name in remaining ==> decoded[name] == s[name] && Pointee(s[name]) == old(Pointee(s[name]))
        invariant forall name :: name in schema.kinds && name !in remaining ==>
          Pointee(decoded[name]) == DecodedField(schema, doc, name, old(Pointee(s[name])))
      {
        var name :| name in remaining;
        remaining := remaining - {name};
        decoded := DecodeMember(decoded, name, doc[name]);
      }
    }

    /** Decodes one member of the document. */
    method DecodeMember(s: Struct, name: string, j: Json) returns (decoded: Struct)
      requires s.Keys == schema.kinds.Keys && Unaliased(s) && name in schema.kinds
      modifies s[name]
      ensures decoded.Keys == schema.kinds.Keys && Unaliased(decoded)
      ensures decoded[name] == null || decoded[name] == s[name] || fresh(decoded[name])
      ensures Pointee(decoded[name]) == DecodeField(schema.kinds[name], old(Pointee(s[name])), j).0
      ensures forall other :: other in schema.kinds && other != name ==>
        decoded[other] == s[other] && Pointee(decoded[other]) == old(Pointee(s[other]))
    {
      var c := Store(s[name], DecodeField(schema.kinds[name], Pointee(s[name]), j).0);
      decoded := s[name := c];
    }

    /** Stores a decoded value through a pointer: null makes it nil, a nil pointer gets a new cell. */
    method Store(p: Cell?, value: Json) returns (c: Cell?)
      modifies p
      ensures Pointee(c) == value
      ensures c == null || c == p || fresh(c)
    {
      if value == Null {
        return null;
      }
      if p == null {
        c := new Cell(value);
      } else {
        p.v := value;
        c := p;
      }
    }

    method Load(net: Net, file: File, s: Struct) returns (decoded: Struct, errs: Errors)
      requires Usable(schema) && s.Keys == schema.kinds.Keys && Unaliased(s)
      requires Contents(s) == AllDefaults(schema)
      modifies Cells(s)
      ensures fresh(errs) && forall o :: o in Cells(decoded) ==> o in Cells(s) || fresh(o)
      ensures errs.errors == Messages(schema, net, file)
      ensures errs.errors == [] <==> Loads(schema, net, file)
      ensures Loads(schema, net, file) ==> Contents(decoded) == Normalised(Overlaid(schema, file))
    {
      decoded := DecodeOver(file, s);
      if Decodes(schema, file) {
        errs := CheckDecoded(net, decoded);
      } else {
        errs := new Errors();
        errs.Add(UnmarshalMessage(file));
      }
    }

    /** Checks a decoded struct and, if nothing is wrong with it, normalises it. */
    method CheckDecoded(net: Net, s: Struct) returns (errs: Errors)
      requires Usable(schema) && Unaliased(s)
      modifies Cells(s)
      ensures fresh(errs) && errs.errors == Failures(Checks(schema, net, old(Contents(s))))
      ensures errs.errors == [] ==> Contents(s) == Normalised(old(Contents(s)))
    {
      errs := ValidateConfig(schema, net, s);
      var empty := errs.Empty();
      if empty {
        ScalePresent(schema, net, Contents(s));
        Normalise(s);
      }
    }

    method DecodeOver(file: File, s: Struct) returns (decoded: Struct)
      requires s.Keys == schema.kinds.Keys && Unaliased(s)
      requires Contents(s) == AllDefaults(schema)
      modifies Cells(s)
      ensures Unaliased(decoded) && Contents(decoded) == Overlaid(schema, file)
      ensures forall o :: o in Cells(decoded) ==> o in Cells(s) || fresh(o)
    {
      assert forall name :: name in schema.kinds ==> Pointee(s[name]) == Contents(s)[name];
      decoded := Decode(s, MembersOf(file));
    }

    /** A scale that is not positive is replaced through its pointer. */
    method Normalise(s: Struct)
      requires Unaliased(s) && Get(Contents(s), "timeout_scale") != Null
      modifies Cells(s)
      ensures Contents(s) == Normalised(old(Contents(s)))
    {
      var scale := s["timeout_scale"];
      if scale.v.Num? && scale.v.n <= 0.0 {
        scale.v := Num(1.0);
        assert Contents(s) == old(Contents(s))["timeout_scale" := Num(1.0)];
      }
    }

    /** One call reads the file over the defaults, whatever earlier calls did, and writes to
        nothing but the package variable and objects of its own. */
    method NewConfig(net: Net, file: File) returns (r: Loaded)
      requires Valid()
      modifies this
      ensures Valid()
      ensures IsOutcome(r, Held(r), net, file) && fresh(CellsOf(r))
    {
      var d := GetDefaults();
      r := LoadOver(net, file, d);
    }

    method LoadOver(net: Net, file: File, d: Struct) returns (r: Loaded)
      requires Usable(schema) && d.Keys == schema.kinds.Keys && Unaliased(d) && Contents(d) == AllDefaults(schema)
      modifies Cells(d)
      ensures IsOutcome(r, Held(r), net, file) && forall o :: o in CellsOf(r) ==> o in Cells(d) || fresh(o)
    {
      var cfg, errs := Load(net, file, d);
      var empty := errs.Empty();
      if empty {
        r := Config(cfg);
      } else {
        r := Failed(errs.errors);
      }
    }

    /** The outcome of loading the file, `contents` being what a returned configuration holds:
        the file over the defaults, or the messages. */
    ghost predicate IsOutcome(r: Loaded, contents: Fields, net: Net, file: File) {
      match r
      case Config(_) => Loads(schema, net, file) && contents == Normalised(Overlaid(schema, file))
      case Failed(messages) => !Loads(schema, net, file) && messages == Messages(schema, net, file)
    }

    /** A call leaves the results of earlier calls as they are, and shares nothing with them. */
    method NextConfig(net: Net, file: File, ghost earlier: seq<Loaded>, ghost contents: seq<Fields>) returns (r: Loaded)
      requires Valid() && Hold(earlier, contents)
      modifies this
      ensures Valid() && IsOutcome(r, Held(r), net, file)
      ensures Hold(earlier, contents) && forall i :: 0 <= i < |earlier| ==> CellsOf(earlier[i]) !! CellsOf(r)
    {
      r := NewConfig(net, file);
    }

    /** Any number of calls: after the last of them every configuration returned along the
        way still is its own file over the same defaults, and no two share a value. */
    method LoadAll(net: Net, files: seq<File>) returns (rs: seq<Loaded>)
      requires Valid() && WellFormed(schema)
      modifies this
      ensures Valid() && |rs| == |files| && Apart(rs)
      ensures forall i :: 0 <= i < |files| ==> LoadedAs(schema, net, files[i], rs[i], Held(rs[i]))
    {
      rs := LoadEach(net, files);
      forall i | 0 <= i < |files|
        ensures LoadedAs(schema, net, files[i], rs[i], Held(rs[i]))
      {
        OutcomeIsLoadedAs(this, net, files[i], rs[i], Held(rs[i]));
      }
    }

    method LoadEach(net: Net, files: seq<File>) returns (rs: seq<Loaded>)
      requires Valid()
      modifies this
      ensures Valid() && |rs| == |files| && Apart(rs)
      ensures forall i :: 0 <= i < |files| ==> IsOutcome(rs[i], Held(rs[i]), net, files[i])
    {
      rs := [];
      ghost var contents: seq<Fields> := [];
      for k := 0 to |files|
        invariant Valid() && |rs| == k && Apart(rs) && Hold(rs, contents)
        invariant forall i :: 0 <= i < k ==> IsOutcome(rs[i], contents[i], net, files[i])
      {
        var r := NextConfig(net, files[k], rs, contents);
        OneMoreHeld(rs, contents, r);
        rs, contents := rs + [r], contents + [Held(r)];
      }
    }
  }
}
