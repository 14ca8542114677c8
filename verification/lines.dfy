/** Line splitting as done by Go's `strings.Split(s, "\n")`: a string with n
    newline characters splits into exactly n + 1 pieces (so "" gives [""]),
    and joining the pieces back with "\n" gives the original string. */
module Lines {

  const Newline: char := '\n'

  /** Number of newline characters in `s`. */
  function NewlineCount(s: string): nat
  {
    if |s| == 0 then 0
    else (if s[0] == Newline then 1 else 0) + NewlineCount(s[1..])
  }

  /** Concatenation of `lines` with "\n" between consecutive elements
      (Go's `strings.Join(lines, "\n")`). */
  function Join(lines: seq<string>): string
  {
    if |lines| == 0 then ""
    else if |lines| == 1 then lines[0]
    else lines[0] + [Newline] + Join(lines[1..])
  }

  /** The pieces of `s` between newline characters. */
  function Split(s: string): (r: seq<string>)
    ensures |r| == NewlineCount(s) + 1
    ensures forall i :: 0 <= i < |r| ==> Newline !in r[i]
    ensures Join(r) == s
  {
    if |s| == 0 then [""]
    else if s[0] == Newline then [""] + Split(s[1..])
    else
      var rest := Split(s[1..]);
      [[s[0]] + rest[0]] + rest[1..]
  }

  /** The first line of a string is everything before its first newline. */
  lemma {:induction false} SplitAfterLine(a: string, b: string)
    requires Newline !in a
    ensures Split(a + [Newline] + b) == [a] + Split(b)
    decreases |a|
  {
    if |a| == 0 {
      assert a + [Newline] + b == [Newline] + b;
      assert ([Newline] + b)[1..] == b;
    } else {
      SplitAfterLine(a[1..], b);
      assert (a + [Newline] + b)[1..] == a[1..] + [Newline] + b;
      assert [a[0]] + a[1..] == a;
    }
  }

  /** Splitting undoes joining, for any non-empty list of newline-free lines. */
  lemma {:induction false} SplitJoin(lines: seq<string>)
    requires |lines| >= 1
    requires forall i :: 0 <= i < |lines| ==> Newline !in lines[i]
    ensures Split(Join(lines)) == lines
    decreases |lines|
  {
    if |lines| == 1 {
      SplitNoNewline(lines[0]);
    } else {
      SplitJoin(lines[1..]);
      SplitAfterLine(lines[0], Join(lines[1..]));
      assert [lines[0]] + lines[1..] == lines;
    }
  }

  /** A string without newlines is a single line. */
  lemma {:induction false} SplitNoNewline(s: string)
    requires Newline !in s
    ensures Split(s) == [s]
    decreases |s|
  {
    if |s| > 0 {
      SplitNoNewline(s[1..]);
      assert [s[0]] + s[1..] == s;
    }
  }
}
