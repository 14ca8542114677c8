/** The error line printed when the option string cannot be shell-split.
    Go's `fmt` replaces each `%s` verb by the next argument and prints
    `%!s(MISSING)` for a verb that has no argument left. */
module Diagnostics {

  /** What Go prints for a `%s` verb without a matching argument. */
  const MissingOperand: string := "%!s(MISSING)"

  /** A format string made of `%s` verbs only, as the literal text between the
      verbs: a format with n verbs has n + 1 pieces. */
  function Render(pieces: seq<string>, args: seq<string>): (r: string)
    requires |pieces| >= 1
    requires |args| < |pieces|
    decreases |pieces|
  {
    if |pieces| == 1 then pieces[0]
    else if |args| == 0 then pieces[0] + MissingOperand + Render(pieces[1..], [])
    else pieces[0] + args[0] + Render(pieces[1..], args[1..])
  }

  /** "Failed to shell split CarthageOptions (%s), error: %s" */
  const SplitFailurePieces: seq<string> := ["Failed to shell split CarthageOptions (", "), error: ", ""]

  /** The message as written: the format has two verbs but only the options
      string is passed, so the splitter's error never reaches the log. */
  function SplitFailureMessageAsWritten(options: string, err: string): string
  {
    Render(SplitFailurePieces, [options])
  }

  /** As written, the second verb prints `%!s(MISSING)`, so two different
      splitter errors give the same line. */
  lemma AsWrittenDropsCause(options: string, e1: string, e2: string)
    ensures SplitFailureMessageAsWritten(options, e1)
            == SplitFailurePieces[0] + options + SplitFailurePieces[1] + MissingOperand
    ensures SplitFailureMessageAsWritten(options, e1) == SplitFailureMessageAsWritten(options, e2)
  {
  }

  /** The message with both arguments passed. */
  function SplitFailureMessage(options: string, err: string): string
  {
    Render(SplitFailurePieces, [options, err])
  }

  /** With both arguments, the line ends with the splitter's error. */
  lemma SplitFailureMessageShowsCause(options: string, err: string)
    ensures SplitFailureMessage(options, err) == SplitFailurePieces[0] + options + SplitFailurePieces[1] + err
  {
  }

  /** With both arguments, different splitter errors give different lines. */
  lemma SplitFailureMessageDistinguishesCauses(options: string, e1: string, e2: string)
    requires e1 != e2
    ensures SplitFailureMessage(options, e1) != SplitFailureMessage(options, e2)
  {
    var head := SplitFailurePieces[0] + options + SplitFailurePieces[1];
    SplitFailureMessageShowsCause(options, e1);
    SplitFailureMessageShowsCause(options, e2);
    assert (head + e1)[|head|..] == e1;
    assert (head + e2)[|head|..] == e2;
  }
}
