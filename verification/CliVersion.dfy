/** Reading and comparing CLI versions (helpers/cli_version_check/cli_version_check.go). */
module CliVersion {
  import opened JsonValues
  import opened Text

  /** `CliVersionCheck` as a value. */
  datatype Version = Version(buildFromSource: bool, revisions: seq<int>)

  const SOURCE_MARKER := "BUILT_FROM_SOURCE"

  // ----- finding the version in free text -----

  function FirstDigit(text: string, i: nat): nat
    requires i <= |text|
    ensures i <= FirstDigit(text, i) <= |text|
    ensures FirstDigit(text, i) < |text| ==> IsDigit(text[FirstDigit(text, i)])
    decreases |text| - i
  {
    if i == |text| || IsDigit(text[i]) then i else FirstDigit(text, i + 1)
  }

  function DigitsEnd(text: string, i: nat): nat
    requires i <= |text|
    ensures i <= DigitsEnd(text, i) <= |text|
    decreases |text| - i
  {
    if i < |text| && IsDigit(text[i]) then DigitsEnd(text, i + 1) else i
  }

  /** The end of the dotted number starting at `i`: after the digits, a dot goes on with the
      number only when a digit follows it. */
  function NumberEnd(text: string, i: nat): nat
    requires i < |text| && IsDigit(text[i])
    ensures i < NumberEnd(text, i) <= |text|
    decreases |text| - i
  {
    var e := DigitsEnd(text, i + 1);
    if e + 1 < |text| && text[e] == '.' && IsDigit(text[e + 1]) then NumberEnd(text, e + 1) else e
  }

  /** The match of `[0-9]+(\.[0-9]+)*`: where it starts and ends. */
  function FindVersion(text: string): (found: Option<(nat, nat)>)
    ensures found.Some? ==> found.value.0 < found.value.1 <= |text|
  {
    var i := FirstDigit(text, 0);
    if i == |text| then None else Some((i, NumberEnd(text, i)))
  }

  /** The strings that `[0-9]+(\.[0-9]+)*` describes: digits, and dots between two digits. */
  predicate Dotted(s: string) {
    && |s| > 0 && IsDigit(s[0]) && IsDigit(s[|s| - 1])
    && forall i :: 0 <= i < |s| && !IsDigit(s[i]) ==> s[i] == '.' && 0 < i < |s| - 1 && IsDigit(s[i - 1]) && IsDigit(s[i + 1])
  }

  lemma {:induction false} DigitsEndMeaning(text: string, i: nat)
    requires i <= |text|
    ensures forall k :: i <= k < DigitsEnd(text, i) ==> IsDigit(text[k])
    ensures DigitsEnd(text, i) < |text| ==> !IsDigit(text[DigitsEnd(text, i)])
    decreases |text| - i
  {
    if i < |text| && IsDigit(text[i]) {
      DigitsEndMeaning(text, i + 1);
    }
  }

  lemma {:induction false} FirstDigitMeaning(text: string, i: nat)
    requires i <= |text|
    ensures forall k :: i <= k < FirstDigit(text, i) ==> !IsDigit(text[k])
    decreases |text| - i
  {
    if i < |text| && !IsDigit(text[i]) {
      FirstDigitMeaning(text, i + 1);
    }
  }

  lemma {:induction false} NumberIsDotted(text: string, i: nat)
    requires i < |text| && IsDigit(text[i])
    ensures Dotted(text[i..NumberEnd(text, i)])
    decreases |text| - i
  {
    var e := DigitsEnd(text, i + 1);
    DigitsEndMeaning(text, i + 1);
    DigitsAreDotted(text, i, e);
    if e + 1 < |text| && text[e] == '.' && IsDigit(text[e + 1]) {
      NumberIsDotted(text, e + 1);
      DottedJoin(text, i, e, NumberEnd(text, e + 1));
    }
  }

  lemma DottedJoin(text: string, i: nat, e: nat, j: nat)
    requires i <= e < j <= |text| && text[e] == '.' && Dotted(text[i..e]) && Dotted(text[e + 1..j])
    ensures Dotted(text[i..j])
  {
    DottedAppend(text[i..e], text[e + 1..j]);
    assert text[i..j] == text[i..e] + ['.'] + text[e + 1..j];
  }

  lemma {:induction false} NumberStops(text: string, i: nat)
    requires i < |text| && IsDigit(text[i])
    ensures var e := NumberEnd(text, i);
      (e < |text| ==> !IsDigit(text[e])) && (e + 1 < |text| && text[e] == '.' ==> !IsDigit(text[e + 1]))
    decreases |text| - i
  {
    var e := DigitsEnd(text, i + 1);
    DigitsEndMeaning(text, i + 1);
    if e + 1 < |text| && text[e] == '.' && IsDigit(text[e + 1]) {
      NumberStops(text, e + 1);
    }
  }

  lemma DigitsAreDotted(text: string, i: nat, e: nat)
    requires i < e <= |text| && forall k :: i <= k < e ==> IsDigit(text[k])
    ensures Dotted(text[i..e])
  {
  }

  lemma DottedAppend(s: string, t: string)
    requires Dotted(s) && Dotted(t)
    ensures Dotted(s + ['.'] + t)
  {
  }

  /** A dotted number that goes beyond position `e` has a digit, or a dot and a digit, there. */
  lemma GoesOn(text: string, i: nat, e: nat)
    requires i < e <= |text|
    ensures forall b :: e < b <= |text| && Dotted(text[i..b]) ==>
      IsDigit(text[e]) || (e + 1 < |text| && text[e] == '.' && IsDigit(text[e + 1]))
  {
  }

  /** The match is the leftmost dotted number, extended as far as it goes; there is none
      exactly when no part of the text is a dotted number. */
  lemma FindVersionMeaning(text: string)
    ensures FindVersion(text).None? ==> forall a, b :: 0 <= a < b <= |text| ==> !Dotted(text[a..b])
    ensures FindVersion(text).Some? ==>
      var (i, j) := FindVersion(text).value;
      && i < j <= |text| && Dotted(text[i..j])
      && (forall a, b :: 0 <= a < b <= |text| && Dotted(text[a..b]) ==> i <= a)
      && (forall b :: i < b <= |text| && Dotted(text[i..b]) ==> b <= j)
  {
    FirstDigitMeaning(text, 0);
    forall a, b | 0 <= a < b <= |text| && Dotted(text[a..b])
      ensures FirstDigit(text, 0) <= a
    {
      assert IsDigit(text[a..b][0]);
    }
    var i := FirstDigit(text, 0);
    if i < |text| {
      GoesOn(text, i, NumberEnd(text, i));
      NumberIsDotted(text, i);
      NumberStops(text, i);
    }
  }

  // ----- parsing -----

  /** `strconv.Atoi` with its error dropped: out of range clamps, a malformed number is 0. */
  function Atoi(s: string): int {
    var negative := |s| > 0 && s[0] == '-';
    var digits := if |s| > 0 && (s[0] == '-' || s[0] == '+') then s[1..] else s;
    if digits == "" || !AllDigits(digits) then 0
    else if negative then (if ValueOf(digits) > MAX_INT + 1 then -MAX_INT - 1 else 0 - ValueOf(digits))
    else if ValueOf(digits) > MAX_INT then MAX_INT else ValueOf(digits)
  }

  /** A numeral, with or without a sign, is read as the nearest int. */
  lemma AtoiMeaning(n: nat)
    ensures Atoi(Numeral(n)) == if n > MAX_INT then MAX_INT else n
    ensures Atoi(['+'] + Numeral(n)) == if n > MAX_INT then MAX_INT else n
    ensures Atoi(['-'] + Numeral(n)) == if n > MAX_INT + 1 then -MAX_INT - 1 else 0 - n
  {
    var plus, minus := ['+'] + Numeral(n), ['-'] + Numeral(n);
    ValueOfNumeral(n);
    assert plus[0] == '+' && plus[1..] == Numeral(n) && minus[0] == '-' && minus[1..] == Numeral(n);
    assert IsDigit(Numeral(n)[0]);
  }

  function Revisions(version: string): seq<int> {
    var pieces := Split(version, '.');
    seq(|pieces|, i requires 0 <= i < |pieces| => Atoi(pieces[i]))
  }

  function ParseRaw(raw: string): Version {
    if Contains(raw, SOURCE_MARKER) then Version(true, [])
    else
      match FindVersion(raw)
      case None => Version(false, [])
      case Some((i, j)) => Version(false, Revisions(raw[i..j]))
  }

  method ParseRevisions(version: string) returns (revisions: seq<int>)
    ensures revisions == Revisions(version)
  {
    revisions := [];
    var pieces := Split(version, '.');
    for i := 0 to |pieces|
      invariant |revisions| == i && forall k :: 0 <= k < i ==> revisions[k] == Atoi(pieces[k])
    {
      var parsed := Atoi(pieces[i]);
      revisions := revisions + [parsed];
    }
  }

  /** Printing a version: the revisions with dots between them. */
  function Print(revisions: seq<nat>): string {
    Join(Numerals(revisions), '.')
  }

  function Numerals(revisions: seq<nat>): seq<string> {
    seq(|revisions|, i requires 0 <= i < |revisions| => Numeral(revisions[i]))
  }

  lemma {:induction false} PrintedIsDotted(revisions: seq<nat>)
    requires revisions != []
    ensures Dotted(Print(revisions))
    decreases |revisions|
  {
    var last := Numeral(revisions[|revisions| - 1]);
    if |revisions| == 1 {
      assert Print(revisions) == last;
    } else {
      var init := revisions[..|revisions| - 1];
      PrintedIsDotted(init);
      assert Numerals(revisions)[..|revisions| - 1] == Numerals(init);
      DottedAppend(Print(init), last);
    }
  }

  /** What reading keeps of revisions: those beyond Go's int become the largest int. */
  function Clamped(revisions: seq<nat>): seq<int> {
    seq(|revisions|, i requires 0 <= i < |revisions| => if revisions[i] > MAX_INT then MAX_INT else revisions[i])
  }

  lemma RevisionsOfPrinted(revisions: seq<nat>)
    requires revisions != []
    ensures Revisions(Print(revisions)) == Clamped(revisions)
  {
    SplitOfJoin(Numerals(revisions), '.');
    forall i | 0 <= i < |revisions|
      ensures Atoi(Numerals(revisions)[i]) == Clamped(revisions)[i]
    {
      ValueOfNumeral(revisions[i]);
      assert IsDigit(Numeral(revisions[i])[0]);
    }
  }

  lemma MarkerHasNoDigitOrDot(k: nat)
    requires k < |SOURCE_MARKER|
    ensures !IsDigit(SOURCE_MARKER[k]) && SOURCE_MARKER[k] != '.'
  {
  }

  lemma Overlaps(pre: string, version: string, post: string, part: string, i: nat)
    requires Dotted(version) && part != "" && OccursAt(pre + version + post, part, i)
    ensures OccursAt(pre, part, i)
         || (i >= |pre| + |version| && OccursAt(post, part, i - |pre| - |version|))
         || exists k :: 0 <= k < |part| && (IsDigit(part[k]) || part[k] == '.')
  {
    var text, n := pre + version + post, |part|;
    if i + n <= |pre| {
      assert pre[i..i + n] == text[i..i + n];
    } else if |pre| + |version| <= i {
      var k := i - |pre| - |version|;
      assert post[k..k + n] == text[i..i + n];
    } else {
      var m := if i < |pre| then |pre| else i;
      assert text[i..i + n][m - i] == text[m] == version[m - |pre|];
    }
  }

  /** A dotted number in the middle cannot take part in the marker. */
  lemma NoMarkerAcross(pre: string, version: string, post: string)
    requires Dotted(version) && !Contains(pre, SOURCE_MARKER) && !Contains(post, SOURCE_MARKER)
    ensures !Contains(pre + version + post, SOURCE_MARKER)
  {
    ContainsMeaning(pre + version + post, SOURCE_MARKER);
    ContainsMeaning(pre, SOURCE_MARKER);
    ContainsMeaning(post, SOURCE_MARKER);
    if i: nat :| OccursAt(pre + version + post, SOURCE_MARKER, i) {
      Overlaps(pre, version, post, SOURCE_MARKER, i);
      if k :| 0 <= k < |SOURCE_MARKER| && (IsDigit(SOURCE_MARKER[k]) || SOURCE_MARKER[k] == '.') {
        MarkerHasNoDigitOrDot(k);
      }
    }
  }

  /** The text after a version does not go on with it. */
  predicate Ends(post: string) {
    post == "" || !(IsDigit(post[0]) || (post[0] == '.' && |post| > 1 && IsDigit(post[1])))
  }

  lemma FindsPrinted(pre: string, version: string, post: string)
    requires Dotted(version) && Ends(post) && forall i :: 0 <= i < |pre| ==> !IsDigit(pre[i])
    ensures FindVersion(pre + version + post) == Some((|pre|, |pre| + |version|))
  {
    var text, e := pre + version + post, |pre| + |version|;
    assert text[|pre|..e] == version;
    assert e < |text| ==> text[e] == post[0];
    assert e + 1 < |text| ==> text[e + 1] == post[1];
    GoesOn(text, |pre|, e);
    FindVersionMeaning(text);
    var (i, j) := FindVersion(text).value;
    assert text[i..j][0] == text[i];
    assert i == |pre|;
  }

  /** A version printed after text that has no digit and before text that does not extend it
      is read back whatever else the text says, as long as it does not carry the source-build
      marker; revisions beyond Go's int are clamped. */
  lemma ParseOfPrinted(pre: string, revisions: seq<nat>, post: string)
    requires revisions != []
    requires forall i :: 0 <= i < |pre| ==> !IsDigit(pre[i])
    requires !Contains(pre, SOURCE_MARKER) && !Contains(post, SOURCE_MARKER) && Ends(post)
    ensures ParseRaw(pre + Print(revisions) + post) == Version(false, Clamped(revisions))
  {
    var version := Print(revisions);
    PrintedIsDotted(revisions);
    NoMarkerAcross(pre, version, post);
    FindsPrinted(pre, version, post);
    RevisionsOfPrinted(revisions);
    var text := pre + version + post;
    assert text[|pre|..|pre| + |version|] == version;
  }

  /** Parsing undoes printing for every version within the integer range. */
  lemma ParseUndoesPrint(pre: string, revisions: seq<nat>, post: string)
    requires revisions != [] && forall i :: 0 <= i < |revisions| ==> revisions[i] <= MAX_INT
    requires forall i :: 0 <= i < |pre| ==> !IsDigit(pre[i])
    requires !Contains(pre, SOURCE_MARKER) && !Contains(post, SOURCE_MARKER) && Ends(post)
    ensures ParseRaw(pre + Print(revisions) + post) == Version(false, revisions)
  {
    ParseOfPrinted(pre, revisions, post);
    assert Clamped(revisions) == revisions;
  }

  /** A text is that of a CLI built from source exactly when the marker occurs in it. */
  lemma ParsedFromSource(raw: string)
    ensures ParseRaw(raw).buildFromSource <==> exists i: nat :: OccursAt(raw, "BUILT_FROM_SOURCE", i)
  {
    ContainsMeaning(raw, "BUILT_FROM_SOURCE");
  }

  /** Text with neither the marker nor a digit is read as a version without revisions. */
  lemma ParsedNothing(raw: string)
    requires forall i: nat :: !OccursAt(raw, "BUILT_FROM_SOURCE", i)
    requires forall i :: 0 <= i < |raw| ==> !IsDigit(raw[i])
    ensures ParseRaw(raw) == Version(false, [])
  {
    ContainsMeaning(raw, "BUILT_FROM_SOURCE");
    FindVersionMeaning(raw);
  }

  // ----- comparing -----

  /** Revision `i` of a version extended by infinitely many zeros. */
  function At(revisions: seq<int>, i: nat): int {
    if i < |revisions| then revisions[i] else 0
  }

  ghost predicate Same(a: seq<int>, b: seq<int>) {
    forall i: nat :: At(a, i) == At(b, i)
  }

  /** The first revision in which the versions differ is larger in `a`. */
  ghost predicate LargerAt(a: seq<int>, b: seq<int>, i: nat) {
    At(a, i) > At(b, i) && forall j: nat :: j < i ==> At(a, j) == At(b, j)
  }

  ghost predicate Larger(a: seq<int>, b: seq<int>) {
    exists i: nat :: LargerAt(a, b, i)
  }

  /** The order that comparing versions is meant to be. */
  ghost predicate IsAtLeast(c: Version, min: Version) {
    c.buildFromSource || Same(c.revisions, min.revisions) || Larger(c.revisions, min.revisions)
  }

  function Padded(a: seq<int>, n: nat): seq<int> {
    if |a| >= n then a else a + seq(n - |a|, i => 0)
  }

  /** A version whose revisions are held in a slice. */
  datatype CliVersionCheck = CliVersionCheck(buildFromSource: bool, revisions: array<int>)

  method ZeroPadToLength(a: array<int>, newLength: nat) returns (padded: array<int>)
    requires a.Length <= newLength
    ensures fresh(padded) && padded[..] == Padded(a[..], newLength)
  {
    padded := new int[newLength](i => 0);
    for i := 0 to a.Length
      invariant forall k :: 0 <= k < newLength ==> padded[k] == if k < i then a[k] else 0
    {
      padded[i] := a[i];
    }
  }

  method ZeroPadToLongerArray(a1: array<int>, a2: array<int>) returns (padded1: array<int>, padded2: array<int>)
    ensures padded1[..] == Padded(a1[..], a2.Length) && padded2[..] == Padded(a2[..], a1.Length)
  {
    if a1.Length > a2.Length {
      padded2 := ZeroPadToLength(a2, a1.Length);
      padded1 := a1;
    } else {
      padded1 := ZeroPadToLength(a1, a2.Length);
      padded2 := a2;
    }
  }

  /** The comparison never leaves the slices, changes neither, and is the intended order. */
  method AtLeast(c: CliVersionCheck, min: CliVersionCheck) returns (r: bool)
    ensures r == IsAtLeast(Version(c.buildFromSource, c.revisions[..]), Version(min.buildFromSource, min.revisions[..]))
  {
    if c.buildFromSource {
      return true;
    }
    var a, b := ZeroPadToLongerArray(c.revisions, min.revisions);
    ghost var x, y := c.revisions[..], min.revisions[..];
    assert forall k: nat :: At(x, k) == if k < a.Length then a[..][k] else 0;
    assert forall k: nat :: At(y, k) == if k < b.Length then b[..][k] else 0;
    assert a.Length == b.Length;
    var i := 0;
    while i < a.Length
      invariant 0 <= i <= a.Length
      invariant forall k: nat :: k < i ==> At(x, k) == At(y, k)
    {
      assert a[i] == At(x, i) && b[i] == At(y, i);
      if a[i] != b[i] {
        DecidedAt(x, y, i);
        return a[i] > b[i];
      }
      i := i + 1;
    }
    assert Same(x, y);
    r := true;
  }

  lemma DecidedAt(a: seq<int>, b: seq<int>, i: nat)
    requires At(a, i) != At(b, i) && forall j: nat :: j < i ==> At(a, j) == At(b, j)
    ensures !Same(a, b)
    ensures Larger(a, b) <==> At(a, i) > At(b, i)
    ensures Larger(b, a) <==> At(b, i) > At(a, i)
  {
    if At(a, i) > At(b, i) {
      assert LargerAt(a, b, i);
    } else {
      assert LargerAt(b, a, i);
    }
  }

  lemma {:induction false} FirstDifference(a: seq<int>, b: seq<int>, n: nat) returns (i: nat)
    ensures i <= n && forall j: nat :: j < i ==> At(a, j) == At(b, j)
    ensures i < n ==> At(a, i) != At(b, i)
  {
    if n == 0 {
      i := 0;
    } else {
      i := FirstDifference(a, b, n - 1);
      if i == n - 1 && At(a, i) == At(b, i) {
        i := n;
      }
    }
  }

  /** Exactly one of: the versions are the same, the first is larger, the second is larger. */
  lemma Trichotomy(a: seq<int>, b: seq<int>)
    ensures Same(a, b) || Larger(a, b) || Larger(b, a)
    ensures !(Same(a, b) && Larger(a, b)) && !(Same(a, b) && Larger(b, a)) && !(Larger(a, b) && Larger(b, a))
  {
    var i := FirstDifference(a, b, |a| + |b|);
    if i < |a| + |b| {
      DecidedAt(a, b, i);
    } else {
      assert forall j: nat :: At(a, j) == At(b, j);
    }
  }

  /** Two versions not built from source are each at least the other exactly when they are
      the same up to trailing zeros; one of them always is at least the other. */
  lemma ComparisonIsTotal(c: Version, d: Version)
    requires !c.buildFromSource && !d.buildFromSource
    ensures IsAtLeast(c, d) || IsAtLeast(d, c)
    ensures IsAtLeast(c, d) && IsAtLeast(d, c) <==> Same(c.revisions, d.revisions)
  {
    Trichotomy(c.revisions, d.revisions);
    Trichotomy(d.revisions, c.revisions);
  }

  lemma ComparisonIsTransitive(c: Version, d: Version, e: Version)
    requires !d.buildFromSource && IsAtLeast(c, d) && IsAtLeast(d, e)
    ensures IsAtLeast(c, e)
  {
    var x, y, z := c.revisions, d.revisions, e.revisions;
    if !c.buildFromSource && !Same(x, y) && !Same(y, z) {
      var i: nat :| LargerAt(x, y, i);
      var j: nat :| LargerAt(y, z, j);
      assert LargerAt(x, z, if i < j then i else j);
    } else if !c.buildFromSource && Same(x, y) && !Same(y, z) {
      var j: nat :| LargerAt(y, z, j);
      assert LargerAt(x, z, j);
    } else if !c.buildFromSource && !Same(x, y) {
      var i: nat :| LargerAt(x, y, i);
      assert LargerAt(x, z, i);
    }
  }

  /** Being the same version means differing only in trailing zeros. */
  lemma SameUpToZeros(a: seq<int>, b: seq<int>)
    requires |a| <= |b|
    ensures Same(a, b) <==> b == Padded(a, |b|)
  {
    if Same(a, b) {
      forall i | 0 <= i < |b|
        ensures b[i] == Padded(a, |b|)[i]
      {
        assert At(a, i) == At(b, i);
      }
    } else {
      var i: nat :| At(a, i) != At(b, i);
    }
  }

  /** Padding either side with zeros changes no comparison. */
  lemma BlindToTrailingZeros(c: Version, d: Version, m: nat, n: nat)
    ensures IsAtLeast(c, d) <==> IsAtLeast(c.(revisions := Padded(c.revisions, m)), d.(revisions := Padded(d.revisions, n)))
  {
    var a, b, a', b' := c.revisions, d.revisions, Padded(c.revisions, m), Padded(d.revisions, n);
    assert forall i: nat :: At(a, i) == At(a', i) && At(b, i) == At(b', i);
    assert forall i: nat :: LargerAt(a, b, i) <==> LargerAt(a', b', i);
  }

  /** The suite's check of the installed CLI, from text to verdict: the printed versions are
      compared as versions. */
  lemma InstalledVersionCheck(pre: string, installed: seq<nat>, post: string, minimum: seq<nat>)
    requires installed != [] && minimum != []
    requires forall i :: 0 <= i < |installed| ==> installed[i] <= MAX_INT
    requires forall i :: 0 <= i < |minimum| ==> minimum[i] <= MAX_INT
    requires forall i :: 0 <= i < |pre| ==> !IsDigit(pre[i])
    requires !Contains(pre, SOURCE_MARKER) && !Contains(post, SOURCE_MARKER) && Ends(post)
    ensures IsAtLeast(ParseRaw(pre + Print(installed) + post), ParseRaw(Print(minimum)))
       <==> Same(installed, minimum) || Larger(installed, minimum)
  {
    ParseUndoesPrint(pre, installed, post);
    NotInEmpty();
    ParseUndoesPrint("", minimum, "");
    assert "" + Print(minimum) + "" == Print(minimum);
  }

  /** A CLI built from source passes against every minimum. */
  lemma SourceBuildPasses(raw: string, i: nat, minimum: Version)
    requires OccursAt(raw, "BUILT_FROM_SOURCE", i)
    ensures IsAtLeast(ParseRaw(raw), minimum)
  {
    ParsedFromSource(raw);
  }

  lemma NotInEmpty()
    ensures !Contains("", SOURCE_MARKER)
  {
  }
}
