/** The list of step weights in a canary deployment request
    (helpers/v3_helpers/deployment.go), and reading it back as JSON. */
module CanaryWeights {
  import opened JsonValues
  import opened Text

  /** The `%d` verb. */
  function Decimal(n: int): string {
    if n < 0 then "-" + Numeral(-n) else Numeral(n)
  }

  const PREFIX := "{\"instance_weight\": "

  function WeightObject(weight: int): string {
    PREFIX + Decimal(weight) + "}"
  }

  /** The weights as objects with commas between them. */
  function WeightList(weights: seq<int>): string {
    if weights == [] then ""
    else if |weights| == 1 then WeightObject(weights[0])
    else WeightList(weights[..|weights| - 1]) + "," + WeightObject(weights[|weights| - 1])
  }

  method BuildWeightList(stepWeights: seq<int>) returns (body: string)
    ensures body == WeightList(stepWeights)
  {
    body := "";
    for i := 0 to |stepWeights|
      invariant body == WeightList(stepWeights[..i]) + if 0 < i < |stepWeights| then "," else ""
    {
      assert stepWeights[..i + 1][..i] == stepWeights[..i];
      body := body + WeightObject(stepWeights[i]);
      if i < |stepWeights| - 1 {
        body := body + ",";
      }
    }
    assert stepWeights[..|stepWeights|] == stepWeights;
  }

  // ----- a reader for JSON texts of arrays, objects, plain strings and integers (RFC 8259, sections 2 to 7) -----

  function SkipSpace(s: string): (rest: string)
    ensures |rest| <= |s|
  {
    if s != "" && s[0] in {' ', '\t', '\n', '\r'} then SkipSpace(s[1..]) else s
  }

  /** The number of digits a text starts with. */
  function Span(s: string): (n: nat)
    ensures n <= |s| && AllDigits(s[..n]) && (n < |s| ==> !IsDigit(s[n]))
  {
    if s != "" && IsDigit(s[0]) then
      assert forall i :: 0 <= i < |s[1..]| ==> s[1..][i] == s[i + 1];
      1 + Span(s[1..])
    else 0
  }

  /** Digits without a superfluous leading zero. */
  function ReadNatural(s: string): (r: Option<(nat, string)>)
    ensures r.Some? ==> |r.value.1| < |s|
  {
    var n := Span(s);
    if n == 0 || (n > 1 && s[0] == '0') then None else Some((ValueOf(s[..n]), s[n..]))
  }

  function ReadInteger(s: string): (r: Option<(int, string)>)
    ensures r.Some? ==> |r.value.1| < |s|
  {
    if s != "" && s[0] == '-' then
      match ReadNatural(s[1..])
      case None => None
      case Some((n, rest)) => Some((0 - n, rest))
    else
      match ReadNatural(s)
      case None => None
      case Some((n, rest)) => Some((n, rest))
  }

  predicate IsPlain(c: char) {
    c != '"' && c != '\\' && c >= ' '
  }

  /** The characters up to the closing quote. */
  function ReadChars(s: string): (r: Option<(string, string)>)
    ensures r.Some? ==> |r.value.1| < |s|
  {
    if s == "" then None
    else if s[0] == '"' then Some(("", s[1..]))
    else if !IsPlain(s[0]) then None
    else
      match ReadChars(s[1..])
      case None => None
      case Some((t, rest)) => Some(([s[0]] + t, rest))
  }

  function ReadValue(s: string): (r: Option<(Json, string)>)
    ensures r.Some? ==> |r.value.1| < |s|
    decreases |s|, 2
  {
    var t := SkipSpace(s);
    if t == "" then None
    else if t[0] == '[' then
      var u := SkipSpace(t[1..]);
      if u != "" && u[0] == ']' then Some((Arr([]), u[1..]))
      else
        match ReadElements(u)
        case None => None
        case Some((items, rest)) => Some((Arr(items), rest))
    else if t[0] == '{' then
      var u := SkipSpace(t[1..]);
      if u != "" && u[0] == '}' then Some((Obj(map[]), u[1..]))
      else
        match ReadMembers(u)
        case None => None
        case Some((members, rest)) => Some((Obj(members), rest))
    else if t[0] == '"' then
      match ReadChars(t[1..])
      case None => None
      case Some((text, rest)) => Some((Str(text), rest))
    else
      match ReadInteger(t)
      case None => None
      case Some((n, rest)) => Some((Num(n as real), rest))
  }

  /** Values separated by commas, up to the closing bracket. */
  function ReadElements(s: string): (r: Option<(seq<Json>, string)>)
    ensures r.Some? ==> |r.value.1| < |s|
    decreases |s|, 3
  {
    match ReadValue(s)
    case None => None
    case Some((first, rest)) =>
      var t := SkipSpace(rest);
      if t != "" && t[0] == ']' then Some(([first], t[1..]))
      else if t != "" && t[0] == ',' then
        match ReadElements(t[1..])
        case None => None
        case Some((others, rest')) => Some(([first] + others, rest'))
      else None
  }

  /** Members separated by commas, up to the closing brace. */
  function ReadMembers(s: string): (r: Option<(Fields, string)>)
    ensures r.Some? ==> |r.value.1| < |s|
    decreases |s|, 3
  {
    var t := SkipSpace(s);
    if t == "" || t[0] != '"' then None
    else
      match ReadChars(t[1..])
      case None => None
      case Some((key, afterKey)) =>
        var u := SkipSpace(afterKey);
        if u == "" || u[0] != ':' then None
        else
          match ReadValue(u[1..])
          case None => None
          case Some((value, afterValue)) =>
            var v := SkipSpace(afterValue);
            if v != "" && v[0] == '}' then Some((map[key := value], v[1..]))
            else if v != "" && v[0] == ',' then
              match ReadMembers(v[1..])
              case None => None
              case Some((others, rest)) => Some((map[key := value] + others, rest))
            else None
  }

  // ----- reading the list back -----

  function WeightJson(weight: int): Json {
    Obj(map["instance_weight" := Num(weight as real)])
  }

  function WeightsJson(weights: seq<int>): seq<Json> {
    seq(|weights|, i requires 0 <= i < |weights| => WeightJson(weights[i]))
  }

  lemma {:induction false} SpanOfDigits(digits: string, rest: string)
    requires AllDigits(digits) && (rest == "" || !IsDigit(rest[0]))
    ensures Span(digits + rest) == |digits|
    decreases |digits|
  {
    if digits != "" {
      assert (digits + rest)[1..] == digits[1..] + rest;
      SpanOfDigits(digits[1..], rest);
    } else {
      assert digits + rest == rest;
    }
  }

  lemma ReadsNatural(n: nat, rest: string)
    requires rest == "" || !IsDigit(rest[0])
    ensures ReadNatural(Numeral(n) + rest) == Some((n, rest))
  {
    var digits := Numeral(n);
    SpanOfDigits(digits, rest);
    NumeralHasNoLeadingZero(n);
    ValueOfNumeral(n);
    assert (digits + rest)[..|digits|] == digits && (digits + rest)[|digits|..] == rest;
  }

  lemma Assoc(a: string, b: string, c: string)
    ensures (a + b) + c == a + (b + c)
  {
  }

  lemma NegativeRead(s: string, digits: string, n: nat, rest: string)
    requires s == ['-'] + digits && ReadNatural(digits) == Some((n, rest))
    ensures ReadInteger(s) == Some((0 - n, rest))
  {
  }

  lemma PositiveRead(s: string, n: nat, rest: string)
    requires ReadNatural(s) == Some((n, rest)) && s != "" && s[0] != '-'
    ensures ReadInteger(s) == Some((n, rest))
  {
  }

  lemma ReadsDecimal(n: int, rest: string)
    requires rest == "" || !IsDigit(rest[0])
    ensures ReadInteger(Decimal(n) + rest) == Some((n, rest))
  {
    if n < 0 {
      ReadsNatural(-n, rest);
      Assoc("-", Numeral(-n), rest);
      NegativeRead(Decimal(n) + rest, Numeral(-n) + rest, -n, rest);
    } else {
      ReadsNatural(n, rest);
      PositiveRead(Numeral(n) + rest, n, rest);
    }
  }

  lemma Tail(c: char, t: string)
    ensures ([c] + t)[0] == c && ([c] + t)[1..] == t
  {
  }

  lemma {:induction false} ReadsChars(text: string, rest: string)
    requires forall i :: 0 <= i < |text| ==> IsPlain(text[i])
    ensures ReadChars(text + ['"'] + rest) == Some((text, rest))
    decreases |text|
  {
    var s := text + ['"'] + rest;
    if text == "" {
      assert s[1..] == rest;
    } else {
      assert s[1..] == text[1..] + ['"'] + rest;
      ReadsChars(text[1..], rest);
      assert [text[0]] + text[1..] == text;
    }
  }

  lemma DecimalStart(n: int)
    ensures |Decimal(n)| > 0 && (Decimal(n)[0] == '-' || IsDigit(Decimal(n)[0]))
  {
  }

  lemma NoSpace(s: string)
    requires s != "" && s[0] !in {' ', '\t', '\n', '\r'}
    ensures SkipSpace(s) == s
  {
  }

  lemma ReadsNumber(n: int, rest: string, s: string)
    requires rest == "" || !IsDigit(rest[0])
    requires s == [' '] + (Decimal(n) + rest)
    ensures ReadValue(s) == Some((Num(n as real), rest))
  {
    var t := Decimal(n) + rest;
    Tail(' ', t);
    DecimalStart(n);
    assert t[0] == Decimal(n)[0];
    NoSpace(t);
    ReadsDecimal(n, rest);
    NumberRead(s, t, n, rest);
  }

  lemma NumberRead(s: string, t: string, n: int, rest: string)
    requires SkipSpace(s) == t && t != "" && (t[0] == '-' || IsDigit(t[0])) && ReadInteger(t) == Some((n, rest))
    ensures ReadValue(s) == Some((Num(n as real), rest))
  {
  }

  const KEY := "instance_weight"

  lemma KeyIsPlain(i: nat)
    requires i < |KEY|
    ensures IsPlain(KEY[i])
  {
  }

  lemma OneMember(s: string, key: string, afterKey: string, value: Json, rest: string)
    requires s != "" && s[0] == '"' && ReadChars(s[1..]) == Some((key, afterKey))
    requires afterKey != "" && afterKey[0] == ':' && ReadValue(afterKey[1..]) == Some((value, ['}'] + rest))
    ensures ReadMembers(s) == Some((map[key := value], rest))
  {
  }

  lemma ReadsMembers(weight: int, rest: string, s: string)
    requires s == ['"'] + (KEY + ['"'] + ([':'] + ([' '] + (Decimal(weight) + (['}'] + rest)))))
    ensures ReadMembers(s) == Some((map[KEY := Num(weight as real)], rest))
  {
    var number := [' '] + (Decimal(weight) + (['}'] + rest));
    forall i | 0 <= i < |KEY|
      ensures IsPlain(KEY[i])
    {
      KeyIsPlain(i);
    }
    Tail('"', KEY + ['"'] + ([':'] + number));
    ReadsChars(KEY, [':'] + number);
    Tail(':', number);
    Tail('}', rest);
    ReadsNumber(weight, ['}'] + rest, number);
    OneMember(s, KEY, [':'] + number, Num(weight as real), rest);
  }

  lemma ObjectRead(s: string, members: Fields, rest: string)
    requires s != "" && s[0] == '{' && |s| > 1 && s[1] == '"' && ReadMembers(s[1..]) == Some((members, rest))
    ensures ReadValue(s) == Some((Obj(members), rest))
  {
  }

  lemma PrefixParts()
    ensures PREFIX == ['{'] + (['"'] + (KEY + ['"'] + ([':'] + [' '])))
  {
  }

  lemma ObjectParts(weight: int, rest: string)
    ensures WeightObject(weight) + rest
         == ['{'] + (['"'] + (KEY + ['"'] + ([':'] + ([' '] + (Decimal(weight) + (['}'] + rest))))))
  {
    var number := Decimal(weight) + (['}'] + rest);
    PrefixParts();
    Assoc(PREFIX, Decimal(weight), "}");
    Assoc(PREFIX, Decimal(weight) + "}", rest);
    Assoc(Decimal(weight), "}", rest);
    Assoc(['{'], ['"'] + (KEY + ['"'] + ([':'] + [' '])), number);
    Assoc(['"'], KEY + ['"'] + ([':'] + [' ']), number);
    Assoc(KEY + ['"'], [':'] + [' '], number);
    Assoc([':'], [' '], number);
  }

  lemma ReadsObject(weight: int, rest: string)
    ensures ReadValue(WeightObject(weight) + rest) == Some((WeightJson(weight), rest))
  {
    var inner := ['"'] + (KEY + ['"'] + ([':'] + ([' '] + (Decimal(weight) + (['}'] + rest)))));
    ObjectParts(weight, rest);
    Tail('{', inner);
    ReadsMembers(weight, rest, inner);
    ObjectRead(WeightObject(weight) + rest, map[KEY := Num(weight as real)], rest);
  }

  lemma {:induction false} WeightListFront(weights: seq<int>)
    requires |weights| > 1
    ensures WeightList(weights) == WeightObject(weights[0]) + "," + WeightList(weights[1..])
    decreases |weights|
  {
    var init, last := weights[..|weights| - 1], weights[|weights| - 1];
    if |weights| > 2 {
      WeightListFront(init);
      assert weights[1..][..|weights| - 2] == init[1..];
      var w, tail := WeightObject(weights[0]), WeightList(init[1..]);
      Assoc(w + ",", tail, ",");
      Assoc(w + ",", tail + ",", WeightObject(last));
    } else {
      assert weights[1..] == [last];
    }
  }

  lemma LastElement(s: string, first: Json, rest: string)
    requires ReadValue(s) == Some((first, [']'] + rest))
    ensures ReadElements(s) == Some(([first], rest))
  {
  }

  lemma OneMoreElement(s: string, first: Json, others: string, items: seq<Json>, rest: string)
    requires ReadValue(s) == Some((first, [','] + others)) && ReadElements(others) == Some((items, rest))
    ensures ReadElements(s) == Some(([first] + items, rest))
  {
  }

  lemma FirstElement(weights: seq<int>, rest: string)
    requires |weights| > 1
    ensures WeightList(weights) + rest == WeightObject(weights[0]) + ([','] + (WeightList(weights[1..]) + rest))
  {
    var w, tail := WeightObject(weights[0]), WeightList(weights[1..]);
    WeightListFront(weights);
    Assoc(w + ",", tail, rest);
    Assoc(w, ",", tail + rest);
  }

  lemma LastWeightRead(s: string, weight: int, rest: string)
    requires s == WeightObject(weight) + ([']'] + rest)
    ensures ReadElements(s) == Some(([WeightJson(weight)], rest))
  {
    ReadsObject(weight, [']'] + rest);
    LastElement(s, WeightJson(weight), rest);
  }

  lemma MoreWeightsRead(s: string, weight: int, others: string, items: seq<Json>, rest: string)
    requires s == WeightObject(weight) + ([','] + others) && ReadElements(others) == Some((items, rest))
    ensures ReadElements(s) == Some(([WeightJson(weight)] + items, rest))
  {
    ReadsObject(weight, [','] + others);
    OneMoreElement(s, WeightJson(weight), others, items, rest);
  }

  lemma WeightsJsonFront(weights: seq<int>)
    requires weights != []
    ensures WeightsJson(weights) == [WeightJson(weights[0])] + WeightsJson(weights[1..])
  {
  }

  lemma {:induction false} ReadsElements(weights: seq<int>, s: string, rest: string)
    requires weights != [] && s == WeightList(weights) + ([']'] + rest)
    ensures ReadElements(s) == Some((WeightsJson(weights), rest))
    decreases |weights|
  {
    WeightsJsonFront(weights);
    if |weights| == 1 {
      LastWeightRead(s, weights[0], rest);
      assert WeightsJson(weights) == [WeightJson(weights[0])];
    } else {
      var others := WeightList(weights[1..]) + ([']'] + rest);
      FirstElement(weights, [']'] + rest);
      ReadsElements(weights[1..], others, rest);
      MoreWeightsRead(s, weights[0], others, WeightsJson(weights[1..]), rest);
    }
  }

  lemma {:induction false} WeightListStart(weights: seq<int>)
    requires weights != []
    ensures |WeightList(weights)| > 0 && WeightList(weights)[0] == '{'
    decreases |weights|
  {
    if |weights| > 1 {
      WeightListStart(weights[..|weights| - 1]);
    }
  }

  lemma ArrayRead(s: string, inner: string, items: seq<Json>, rest: string)
    requires s == ['['] + inner && inner != "" && inner[0] == '{' && ReadElements(inner) == Some((items, rest))
    ensures ReadValue(s) == Some((Arr(items), rest))
  {
  }

  lemma EmptyArrayRead(rest: string)
    ensures ReadValue(['['] + ([']'] + rest)) == Some((Arr([]), rest))
  {
  }

  /** In the brackets the request puts around it, the list is a JSON array that reads back
      as one object per weight, in order. */
  lemma WeightsReadBack(weights: seq<int>, rest: string)
    ensures ReadValue("[" + WeightList(weights) + "]" + rest) == Some((Arr(WeightsJson(weights)), rest))
  {
    var s, inner := "[" + WeightList(weights) + "]" + rest, WeightList(weights) + ([']'] + rest);
    Assoc("[" + WeightList(weights), "]", rest);
    Assoc("[", WeightList(weights), [']'] + rest);
    if weights == [] {
      EmptyArrayRead(rest);
      assert inner == [']'] + rest && WeightsJson(weights) == [];
    } else {
      ReadsElements(weights, inner, rest);
      WeightListStart(weights);
      ArrayRead(s, inner, WeightsJson(weights), rest);
    }
  }
}
