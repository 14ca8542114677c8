/** Reading Carthage's version from the output of `carthage version`: the
    output is split into lines and the first line that parses as a version
    is the answer. The version parser is a library this model does not
    include, so it is a parameter `parse`. */
module CarthageVersion {
  import opened Wrappers
  import Lines

  datatype VersionError =
    | CommandFailed(cause: string)       // the subprocess itself failed
    | UnparsableOutput(output: string)   // no line of the output is a version

  /** Index of the first line `parse` accepts. */
  function FirstParsingLine<V>(lines: seq<string>, parse: string -> Option<V>): (r: Option<nat>)
    ensures r.Some? ==> r.value < |lines| && parse(lines[r.value]).Some?
    ensures r.Some? ==> forall k :: 0 <= k < r.value ==> parse(lines[k]).None?
    ensures r.None? <==> forall k :: 0 <= k < |lines| ==> parse(lines[k]).None?
    decreases |lines|
  {
    if |lines| == 0 then None
    else if parse(lines[0]).Some? then Some(0)
    else
      match FirstParsingLine(lines[1..], parse)
      case None => None
      case Some(i) => Some(i + 1)
  }

  /** The version named by `out`, the (trimmed) output of `carthage version`. */
  function ScanVersion<V>(out: string, parse: string -> Option<V>): (r: Result<V, VersionError>)
    ensures var lines := Lines.Split(out);
            r.Success? <==> exists i :: 0 <= i < |lines| && parse(lines[i]).Some?
    ensures var lines := Lines.Split(out);
            r.Success? ==> exists i :: 0 <= i < |lines| && parse(lines[i]) == Some(r.value)
                                    && forall k :: 0 <= k < i ==> parse(lines[k]).None?
    ensures r.Failure? ==> r.error == UnparsableOutput(out)
  {
    var lines := Lines.Split(out);
    match FirstParsingLine(lines, parse)
    case Some(i) => Success(parse(lines[i]).value)
    case None => Failure(UnparsableOutput(out))
  }

  /** The line scan as a loop that returns on the first line that parses. */
  method FindVersion<V>(out: string, parse: string -> Option<V>) returns (r: Result<V, VersionError>)
    ensures r == ScanVersion(out, parse)
  {
    var lines := Lines.Split(out);
    var n := 0;
    while n < |lines|
      invariant 0 <= n <= |lines|
      invariant forall k :: 0 <= k < n ==> parse(lines[k]).None?
    {
      var v := parse(lines[n]);
      if v.Some? {
        return Success(v.value);
      }
      n := n + 1;
    }
    return Failure(UnparsableOutput(out));
  }

  /** `carthage version` run and its output scanned; a failed run is reported
      as such and its output is not scanned. */
  function GetCarthageVersion<V>(run: Result<string, string>, parse: string -> Option<V>): (r: Result<V, VersionError>)
    ensures run.Failure? ==> r == Failure(CommandFailed(run.error))
    ensures run.Success? ==> r == ScanVersion(run.value, parse)
  {
    match run
    case Failure(err) => Failure(CommandFailed(err))
    case Success(out) => ScanVersion(out, parse)
  }

  /** The first line wins, even when a later line parses too. */
  lemma FirstLineWins<V>(line: string, rest: string, parse: string -> Option<V>)
    requires Lines.Newline !in line && parse(line).Some?
    ensures ScanVersion(line + [Lines.Newline] + rest, parse) == Success(parse(line).value)
  {
    Lines.SplitAfterLine(line, rest);
  }

  /** A line that does not parse is skipped: the scan continues with the
      remaining output and finds the same version, if any. */
  lemma UnparsableLineSkipped<V>(line: string, rest: string, parse: string -> Option<V>)
    requires Lines.Newline !in line && parse(line).None?
    ensures ScanVersion(line + [Lines.Newline] + rest, parse).Success? == ScanVersion(rest, parse).Success?
    ensures ScanVersion(rest, parse).Success? ==>
              ScanVersion(line + [Lines.Newline] + rest, parse) == ScanVersion(rest, parse)
  {
    Lines.SplitAfterLine(line, rest);
  }

  /** The banner line "carthage version" is skipped and "0.38.0" is read. */
  lemma BannerThenVersion<V>(parse: string -> Option<V>)
    requires parse("carthage version").None? && parse("0.38.0").Some?
    ensures ScanVersion("carthage version\n0.38.0", parse) == Success(parse("0.38.0").value)
  {
    assert "carthage version\n0.38.0" == "carthage version" + [Lines.Newline] + "0.38.0";
    UnparsableLineSkipped("carthage version", "0.38.0", parse);
    Lines.SplitNoNewline("0.38.0");
  }
}
