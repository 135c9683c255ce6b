/** The error list of configuration checks (helpers/validationerrors/validationerrors.go). */
module ValidationErrors {
  import opened Text

  class Errors {
    var errors: seq<string>

    constructor ()
      ensures errors == []
    {
      errors := [];
    }

    method Add(err: string)
      modifies this
      ensures errors == old(errors) + [err]
    {
      errors := errors + [err];
    }

    /** All messages, one per line. */
    method Error() returns (result: string)
      ensures result == Join(errors, '\n')
    {
      result := "";
      for i := 0 to |errors|
        invariant result == Join(errors[..i], '\n') + if 0 < i < |errors| then "\n" else ""
      {
        assert errors[..i + 1][..i] == errors[..i];
        result := result + errors[i];
        if i + 1 != |errors| {
          result := result + "\n";
        }
      }
      assert errors[..|errors|] == errors;
    }

    method Empty() returns (empty: bool)
      ensures empty <==> errors == []
    {
      empty := |errors| == 0;
    }
  }

  /** The report can be taken apart into exactly the messages it was made from when there is
      at least one and none spans several lines, and only then. */
  lemma ReportSplits(errors: seq<string>)
    ensures Split(Join(errors, '\n'), '\n') == errors <==>
      errors != [] && forall i :: 0 <= i < |errors| ==> '\n' !in errors[i]
  {
    SplitUndoesJoin(errors, '\n');
  }
}
