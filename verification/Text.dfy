/** Joining and splitting text on a separator character, searching it, and decimal numerals. */
module Text {

  /** Go's strings.Split for a separator of one character: the pieces between occurrences. */
  function Split(text: string, sep: char): (pieces: seq<string>)
    ensures |pieces| > 0
  {
    if text == "" then [""]
    else
      var n := |text| - 1;
      var before := Split(text[..n], sep);
      if text[n] == sep then before + [""]
      else before[..|before| - 1] + [before[|before| - 1] + [text[n]]]
  }

  function Join(pieces: seq<string>, sep: char): string {
    if pieces == [] then ""
    else if |pieces| == 1 then pieces[0]
    else Join(pieces[..|pieces| - 1], sep) + [sep] + pieces[|pieces| - 1]
  }

  lemma {:induction false} SplitPiece(text: string, piece: string, sep: char)
    requires sep !in piece
    ensures Split(text + [sep] + piece, sep) == Split(text, sep) + [piece]
    decreases |piece|
  {
    var all := text + [sep] + piece;
    if piece == "" {
      assert all[..|all| - 1] == text;
    } else {
      var init, c := piece[..|piece| - 1], piece[|piece| - 1];
      assert all[..|all| - 1] == text + [sep] + init && c in piece;
      SplitPiece(text, init, sep);
      assert init + [c] == piece;
    }
  }

  lemma {:induction false} SplitAlone(piece: string, sep: char)
    requires sep !in piece
    ensures Split(piece, sep) == [piece]
    decreases |piece|
  {
    if piece != "" {
      SplitAlone(piece[..|piece| - 1], sep);
      assert piece[|piece| - 1] in piece && piece[..|piece| - 1] + [piece[|piece| - 1]] == piece;
    }
  }

  lemma {:induction false} SplitOfJoin(pieces: seq<string>, sep: char)
    requires |pieces| > 0 && forall i :: 0 <= i < |pieces| ==> sep !in pieces[i]
    ensures Split(Join(pieces, sep), sep) == pieces
    decreases |pieces|
  {
    if |pieces| == 1 {
      SplitAlone(pieces[0], sep);
    } else {
      SplitOfJoin(pieces[..|pieces| - 1], sep);
      SplitPiece(Join(pieces[..|pieces| - 1], sep), pieces[|pieces| - 1], sep);
    }
  }

  lemma {:induction false} PiecesHaveNoSeparator(text: string, sep: char)
    ensures forall i :: 0 <= i < |Split(text, sep)| ==> sep !in Split(text, sep)[i]
    decreases |text|
  {
    if text != "" {
      PiecesHaveNoSeparator(text[..|text| - 1], sep);
    }
  }

  /** Splitting undoes joining exactly when no piece contains the separator (and there is a piece). */
  lemma SplitUndoesJoin(pieces: seq<string>, sep: char)
    ensures Split(Join(pieces, sep), sep) == pieces <==> |pieces| > 0 && forall i :: 0 <= i < |pieces| ==> sep !in pieces[i]
  {
    if |pieces| > 0 && forall i :: 0 <= i < |pieces| ==> sep !in pieces[i] {
      SplitOfJoin(pieces, sep);
    }
    PiecesHaveNoSeparator(Join(pieces, sep), sep);
  }

  /** `part` occurs somewhere in `text`. */
  predicate Contains(text: string, part: string)
    decreases |text|
  {
    part <= text || (|text| > 0 && Contains(text[1..], part))
  }

  predicate OccursAt(text: string, part: string, i: nat) {
    i + |part| <= |text| && text[i..i + |part|] == part
  }

  lemma OccursOneOn(text: string, part: string, i: nat)
    requires text != ""
    ensures OccursAt(text[1..], part, i) <==> OccursAt(text, part, i + 1)
  {
    if i + 1 + |part| <= |text| {
      assert text[i + 1..i + 1 + |part|] == text[1..][i..i + |part|];
    }
  }

  lemma {:induction false} ContainsMeaning(text: string, part: string)
    ensures Contains(text, part) <==> exists i: nat :: OccursAt(text, part, i)
    decreases |text|
  {
    assert OccursAt(text, part, 0) <==> part <= text;
    if text != "" {
      ContainsMeaning(text[1..], part);
      forall i: nat
        ensures OccursAt(text[1..], part, i) <==> OccursAt(text, part, i + 1)
      {
        OccursOneOn(text, part, i);
      }
      if i: nat :| OccursAt(text, part, i) {
        assert i > 0 ==> OccursAt(text[1..], part, i - 1);
      }
    }
  }

  predicate IsDigit(c: char) {
    '0' <= c <= '9'
  }

  predicate AllDigits(s: string) {
    forall i :: 0 <= i < |s| ==> IsDigit(s[i])
  }

  function DigitValue(c: char): nat
    requires IsDigit(c)
  {
    c as int - '0' as int
  }

  /** The largest Go int. */
  const MAX_INT := 0x7fff_ffff_ffff_ffff

  /** The number a string of digits denotes. */
  function ValueOf(s: string): nat
    requires AllDigits(s)
  {
    if s == "" then 0 else 10 * ValueOf(s[..|s| - 1]) + DigitValue(s[|s| - 1])
  }

  /** The decimal numeral of a number, without leading zeros. */
  function Numeral(n: nat): (s: string)
    ensures |s| > 0 && AllDigits(s)
  {
    (if n < 10 then "" else Numeral(n / 10)) + [('0' as int + n % 10) as char]
  }

  lemma {:induction false} ValueOfNumeral(n: nat)
    ensures ValueOf(Numeral(n)) == n
  {
    var s := Numeral(n);
    if n < 10 {
      assert s[..|s| - 1] == "";
    } else {
      assert s[..|s| - 1] == Numeral(n / 10);
      ValueOfNumeral(n / 10);
    }
  }

  lemma {:induction false} NumeralHasNoLeadingZero(n: nat)
    ensures n > 0 ==> Numeral(n)[0] != '0'
    ensures n == 0 ==> Numeral(n) == "0"
  {
    if n >= 10 {
      NumeralHasNoLeadingZero(n / 10);
    }
  }
}
