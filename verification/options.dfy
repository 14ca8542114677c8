/** Carthage option handling: turning the `carthage_options` input into a token
    list, and picking the project directory out of that list. */
module Options {
  import opened Wrappers
  import Diagnostics

  /** The flag whose following token names Carthage's project directory. */
  const ProjectDirArg: string := "--project-directory"

  /** The option string could not be split with shell quoting rules; carries
      the line logged before the step exits. */
  datatype OptionsError = OptionSyntaxError(message: string)

  /** Tokens of the `carthage_options` input. The shell-style splitter is a
      library this model does not include, so it is a parameter; an empty
      input is never handed to it. */
  function ParseCarthageOptions(options: string, shellSplit: string -> Result<seq<string>, string>)
    : (r: Result<seq<string>, OptionsError>)
    ensures options == "" ==> r == Success([])
    ensures options != "" && shellSplit(options).Success? ==> r == Success(shellSplit(options).value)
    ensures options != "" && shellSplit(options).Failure? ==>
              r.Failure? && r.error.message == Diagnostics.SplitFailureMessageAsWritten(options, shellSplit(options).error)
  {
    if options == "" then Success([])
    else
      match shellSplit(options)
      case Success(tokens) => Success(tokens)
      case Failure(err) => Failure(OptionSyntaxError(Diagnostics.SplitFailureMessageAsWritten(options, err)))
  }

  /** Token `j` is a flag's value: the token before it is the flag and it is
      not the flag itself. */
  predicate FollowsFlag(options: seq<string>, j: int)
  {
    1 <= j < |options| && options[j - 1] == ProjectDirArg && options[j] != ProjectDirArg
  }

  /** `FollowsFlag` for the rest of a scan whose "next option is the project
      directory" state is `pending` when it reaches `options[0]`. */
  ghost predicate SelectedAt(pending: bool, options: seq<string>, j: int)
  {
    0 <= j < |options| && options[j] != ProjectDirArg &&
    (if j == 0 then pending else options[j - 1] == ProjectDirArg)
  }

  /** The scanning loop, one token at a time: `projectDir` is the directory
      chosen so far and `pending` is whether the previous token was the flag.
      The result is the directory it started with or a non-flag token. */
  function Scan(projectDir: string, pending: bool, options: seq<string>): (r: string)
    ensures r == projectDir || (r in options && r != ProjectDirArg)
    decreases |options|
  {
    if |options| == 0 then projectDir
    else if options[0] == ProjectDirArg then Scan(projectDir, true, options[1..])
    else if pending then options[0]
    else Scan(projectDir, false, options[1..])
  }

  /** The scan stops at the first token it may select: with none, the
      directory is unchanged. */
  lemma {:induction false} ScanChoosesFirst(projectDir: string, pending: bool, options: seq<string>)
    ensures var r := Scan(projectDir, pending, options);
            (forall j :: !SelectedAt(pending, options, j)) ==> r == projectDir
    ensures var r := Scan(projectDir, pending, options);
            forall j :: SelectedAt(pending, options, j) && (forall k :: 0 <= k < j ==> !SelectedAt(pending, options, k))
                        ==> r == options[j]
    decreases |options|
  {
    if |options| == 0 {
    } else if options[0] == ProjectDirArg {
      ScanChoosesFirst(projectDir, true, options[1..]);
      ScanStep(projectDir, pending, options, Scan(projectDir, pending, options));
    } else if pending {
      assert SelectedAt(pending, options, 0);
    } else {
      ScanChoosesFirst(projectDir, false, options[1..]);
      ScanStep(projectDir, pending, options, Scan(projectDir, pending, options));
    }
  }

  /** One loop iteration that does not stop the scan keeps the choice right:
      the first token selectable in `options[1..]` is the first in `options`. */
  lemma ScanStep(projectDir: string, pending: bool, options: seq<string>, r: string)
    requires |options| > 0 && (options[0] == ProjectDirArg || !pending)
    requires var q := options[0] == ProjectDirArg;
             (forall j :: !SelectedAt(q, options[1..], j)) ==> r == projectDir
    requires var q := options[0] == ProjectDirArg;
             forall j :: SelectedAt(q, options[1..], j) && (forall k :: 0 <= k < j ==> !SelectedAt(q, options[1..], k))
                         ==> r == options[1..][j]
    ensures (forall j :: !SelectedAt(pending, options, j)) ==> r == projectDir
    ensures forall j :: SelectedAt(pending, options, j) && (forall k :: 0 <= k < j ==> !SelectedAt(pending, options, k))
                        ==> r == options[j]
  {
    var q, rest := options[0] == ProjectDirArg, options[1..];
    if forall j :: !SelectedAt(pending, options, j) {
      forall j ensures !SelectedAt(q, rest, j) {
        assert !SelectedAt(pending, options, j + 1);
      }
    }
    forall j | SelectedAt(pending, options, j) && (forall k :: 0 <= k < j ==> !SelectedAt(pending, options, k))
      ensures r == options[j]
    {
      assert j >= 1;
      assert SelectedAt(q, rest, j - 1);
      forall k | 0 <= k < j - 1 ensures !SelectedAt(q, rest, k) {
        assert !SelectedAt(pending, options, k + 1);
      }
    }
  }

  /** The working directory: `originalDir`, unless some flag is followed by a
      value, in which case the first such value. */
  function ParseProjectDir(originalDir: string, options: seq<string>): (r: string)
    ensures (forall j :: 0 <= j < |options| ==> !FollowsFlag(options, j)) ==> r == originalDir
    ensures forall j :: 0 <= j < |options| && FollowsFlag(options, j) && (forall k :: 0 <= k < j ==> !FollowsFlag(options, k))
                        ==> r == options[j]
    ensures r == originalDir || (r in options && r != ProjectDirArg)
  {
    ScanChoosesFirst(originalDir, false, options);
    assert forall j :: SelectedAt(false, options, j) == FollowsFlag(options, j);
    Scan(originalDir, false, options)
  }

  /** Tokens that are not the flag, seen while no flag is pending, change nothing. */
  lemma {:induction false} ScanSkipsNonFlags(projectDir: string, prefix: seq<string>, rest: seq<string>)
    requires ProjectDirArg !in prefix
    ensures Scan(projectDir, false, prefix + rest) == Scan(projectDir, false, rest)
    decreases |prefix|
  {
    if |prefix| == 0 {
      assert prefix + rest == rest;
    } else {
      assert (prefix + rest)[0] == prefix[0] != ProjectDirArg;
      assert (prefix + rest)[1..] == prefix[1..] + rest;
      ScanSkipsNonFlags(projectDir, prefix[1..], rest);
    }
  }

  /** A run of repeated flags only leaves the flag pending. */
  lemma {:induction false} ScanSkipsFlags(projectDir: string, pending: bool, flags: seq<string>, rest: seq<string>)
    requires forall i :: 0 <= i < |flags| ==> flags[i] == ProjectDirArg
    ensures Scan(projectDir, pending, flags + rest) == Scan(projectDir, pending || |flags| > 0, rest)
    decreases |flags|
  {
    if |flags| == 0 {
      assert flags + rest == rest;
    } else {
      var options := flags + rest;
      assert options[0] == ProjectDirArg;
      assert options[1..] == flags[1..] + rest;
      assert Scan(projectDir, pending, options) == Scan(projectDir, true, options[1..]);
      ScanSkipsFlags(projectDir, true, flags[1..], rest);
    }
  }

  /** Without the flag anywhere, the default directory is kept. */
  lemma NoFlagKeepsDefault(originalDir: string, options: seq<string>)
    requires ProjectDirArg !in options
    ensures ParseProjectDir(originalDir, options) == originalDir
  {
  }

  /** Flags that only appear at the end, with no value after them, leave the
      default in place; this is not an error. */
  lemma TrailingFlagsKeepDefault(originalDir: string, prefix: seq<string>, flags: seq<string>)
    requires ProjectDirArg !in prefix
    requires forall i :: 0 <= i < |flags| ==> flags[i] == ProjectDirArg
    ensures ParseProjectDir(originalDir, prefix + flags) == originalDir
  {
  }

  /** Tokens before the first flag have no effect on the result. */
  lemma LeadingTokensIgnored(originalDir: string, prefix: seq<string>, rest: seq<string>)
    requires ProjectDirArg !in prefix
    ensures ParseProjectDir(originalDir, prefix + rest) == ParseProjectDir(originalDir, rest)
  {
    ScanSkipsNonFlags(originalDir, prefix, rest);
  }

  /** The first non-flag token after the first flag is the project directory,
      however many times the flag is repeated before it, and whatever comes
      after it (later flag/value pairs included): the loop stops there. */
  lemma FirstValueWins(originalDir: string, prefix: seq<string>, flags: seq<string>, value: string, suffix: seq<string>)
    requires ProjectDirArg !in prefix
    requires |flags| > 0 && forall i :: 0 <= i < |flags| ==> flags[i] == ProjectDirArg
    requires value != ProjectDirArg
    ensures ParseProjectDir(originalDir, prefix + flags + [value] + suffix) == value
  {
    assert prefix + flags + [value] + suffix == prefix + (flags + ([value] + suffix));
    ScanSkipsNonFlags(originalDir, prefix, flags + ([value] + suffix));
    ScanSkipsFlags(originalDir, false, flags, [value] + suffix);
  }

  /** `--platform iOS --project-directory "My Project"` selects "My Project". */
  lemma PlatformThenProjectDirectory(originalDir: string)
    ensures ParseProjectDir(originalDir, ["--platform", "iOS", ProjectDirArg, "My Project"]) == "My Project"
  {
    FirstValueWins(originalDir, ["--platform", "iOS"], [ProjectDirArg], "My Project", []);
    assert ["--platform", "iOS"] + [ProjectDirArg] + ["My Project"] + [] == ["--platform", "iOS", ProjectDirArg, "My Project"];
  }

  /** An empty `carthage_options` input yields no tokens, so the source
      directory is the project directory. */
  lemma EmptyOptionsKeepSourceDir(sourceDir: string, shellSplit: string -> Result<seq<string>, string>)
    ensures ParseCarthageOptions("", shellSplit) == Success([])
    ensures ParseProjectDir(sourceDir, ParseCarthageOptions("", shellSplit).value) == sourceDir
  {
  }

  /** A split failure is reported with a line that names the options string
      but not the splitter's error: two splitters failing on the same input
      with different errors give the same line. */
  lemma SplitFailureHidesCause(options: string, split1: string -> Result<seq<string>, string>,
                               split2: string -> Result<seq<string>, string>)
    requires options != "" && split1(options).Failure? && split2(options).Failure?
    ensures ParseCarthageOptions(options, split1) == ParseCarthageOptions(options, split2)
    ensures ParseCarthageOptions(options, split1).error.message
            == Diagnostics.SplitFailurePieces[0] + options + Diagnostics.SplitFailurePieces[1] + Diagnostics.MissingOperand
  {
  }
}
