# steps-carthage: option, xcconfig and version decisions

This project models the pure decision logic of the Bitrise Carthage step's
entry point (`main.go`). Before the step runs Carthage, it makes three decisions:

- **Project directory.** The `carthage_options` input is split into tokens.
  If those tokens contain `--project-directory <dir>`, then `<dir>` replaces
  the source directory as the project directory (`parseProjectDir`).
- **xcconfig file.** The `xcconfig` step input is resolved to a local file by a
  file provider, which may download it. It takes precedence over the
  `XCODE_XCCONFIG_FILE` environment variable. A warning is logged when both
  are set (`parseXCConfigPath`).
- **Carthage version.** The output of `carthage version` is split into lines.
  The first line that parses as a version is the version (`getCarthageVersion`).

Each decision is a total Dafny function over strings and sequences. The
foreign calls are function-typed parameters:

- the file provider's `LocalPath` is `string -> Result<string, E>`;
- the version parser is `string -> Option<V>`;
- the shell-quoting splitter is `string -> Result<seq<string>, string>`.

Subprocess output is an input value: `Result<string, string>`, already
trimmed by the command library. Go's `(value, error)` pairs become `Result`.
The `log.Warnf` in `parseXCConfigPath` becomes a boolean field of the result.

Modules:

- `Wrappers`: `Option` and `Result`.
- `Lines`: `strings.Split(s, "\n")` and its inverse `Join`.
- `Options`: `parseCarthageOptions` and `parseProjectDir`.
- `Xcconfig`: `parseXCConfigPath`.
- `CarthageVersion`: the line scan of `getCarthageVersion`.
- `Diagnostics`: the error line printed when shell splitting fails (see Findings).

Points where the code is easy to misread:

- Repeated flags are skipped. So `--project-directory --project-directory X`
  selects `X`, not the second flag.
- A shell-splitting failure ends the process in the code. The model returns
  `OptionSyntaxError` instead. It carries the line the code logs, which ends
  in `%!s(MISSING)` (see Findings).
- The comment at `main.go:141` says the last line of the output is used. The
  loop returns on the first line that parses, and the model follows the loop.

## Model

| member | source | states |
|---|---|---|
| Options.ParseCarthageOptions | main.go:122-132 | An empty options string gives no tokens and is not split. Otherwise the splitter's tokens are the result. A split failure becomes an error carrying the line logged at main.go:127, as written (its second verb has no argument). |
| Options.SplitFailureHidesCause | main.go:124-128 | On a split failure the error line is the options string framed by the message text and ending in `%!s(MISSING)`. Two different splitter errors give the same line. |
| Options.Scan | main.go:158-176 | The loop, with its state: the directory so far and whether the previous token was the flag. It only returns the directory it started with or a token of the list that is not the flag. |
| Options.ScanChoosesFirst | main.go:161-176 | The loop returns the first non-flag token that directly follows a flag, or follows a flag already pending at the start. If there is no such token, the directory is unchanged. |
| Options.ParseProjectDir | main.go:157-179 | With no token that directly follows a flag and is not a flag itself, the result is the original directory. Otherwise it is the first such token. Either way the result is the original directory or a non-flag element of the options. |
| Options.ScanSkipsNonFlags | main.go:161-176 | Non-flag tokens met while no flag is pending leave the scan's outcome unchanged. |
| Options.ScanSkipsFlags | main.go:162-165 | A run of repeated flags only sets the pending state. The tokens after the run decide the outcome. |
| Options.NoFlagKeepsDefault | main.go:157-178 | If no token equals `--project-directory`, the original directory is returned unchanged. |
| Options.TrailingFlagsKeepDefault | main.go:160-178 | Flags that appear only at the end, with no value after them, keep the original directory. This is not an error. |
| Options.LeadingTokensIgnored | main.go:161-174 | Tokens before the first flag do not affect the result. |
| Options.FirstValueWins | main.go:162-174 | The first non-flag token after the first flag is the result, even if the flag is repeated before it. Later flag/value pairs and anything after the value are ignored, because the loop breaks. |
| Options.PlatformThenProjectDirectory | main.go:157-179 | `--platform iOS --project-directory "My Project"` selects `My Project`. |
| Options.EmptyOptionsKeepSourceDir | main.go:122-132 | An empty `carthage_options` input gives an empty token list. The source directory then stays the project directory. |
| Xcconfig.ParseXCConfigPath | main.go:101-120 | The result is an error exactly when the step input is set and the provider fails, and that error is the provider's own. A non-empty resolved step input is the path. The warning is logged exactly when the env path is also set. With no step input, or a step input that resolves to "", the env path is used verbatim with no warning. A warning implies both sources were set. |
| Xcconfig.ProviderUnusedWithoutStepInput | main.go:102-109 | With an empty step input the provider is not consulted: any two providers give the same result. |
| Xcconfig.EnvUnusedOnProviderError | main.go:104-107 | When the provider fails on the step input, the env path has no effect on the result. |
| Xcconfig.NothingSet | main.go:101-120 | With both sources empty the result is "", with no warning and no error. |
| Xcconfig.BothSetWarnsOnce | main.go:111-116 | With both sources set and the step input resolving to a non-empty path, that path is used and the warning is logged. |
| Lines.Split | main.go:143 | Splitting on "\n" gives one more piece than there are newlines. No piece contains a newline. Joining the pieces with "\n" gives back the input. |
| Lines.SplitAfterLine | main.go:143 | The first piece is the text before the first newline, and the rest is the split of the text after it. |
| Lines.SplitJoin | main.go:143 | Splitting undoes joining for any non-empty list of newline-free lines. |
| Lines.SplitNoNewline | main.go:143 | A string without newlines splits into exactly itself. |
| CarthageVersion.FirstParsingLine | main.go:143-147 | Finds the index of a line that parses, with no earlier line parsing. Returns None exactly when no line parses. |
| CarthageVersion.ScanVersion | main.go:141-149 | Succeeds exactly when some line of the output parses. The result is then the parse of the first such line. Otherwise the error carries the raw output. |
| CarthageVersion.FindVersion | main.go:143-149 | The loop that returns on the first parsing line computes the same result as the reference definition `ScanVersion`, on every input. |
| CarthageVersion.GetCarthageVersion | main.go:134-150 | A failed `carthage version` run is reported as such and its output is not scanned. A successful run's output is scanned line by line. |
| CarthageVersion.FirstLineWins | main.go:141-147 | If the first line parses, its version is the result, whatever later lines contain. This is first match, not last line. |
| CarthageVersion.UnparsableLineSkipped | main.go:143-147 | A line that does not parse is skipped. The scan finds the same version in the remaining output, and succeeds on the whole output exactly when it succeeds on the rest. |
| CarthageVersion.BannerThenVersion | main.go:143-149 | The output `carthage version\n0.38.0` gives the parse of `0.38.0`, when the banner line does not parse. |
| Diagnostics.AsWrittenDropsCause | main.go:125-128 | As written, the split-failure line ends in `%!s(MISSING)`. Two different splitter errors give the same line. |
| Diagnostics.SplitFailureMessageShowsCause | main.go:127 | With both arguments supplied, the line ends with the splitter's error text. |
| Diagnostics.SplitFailureMessageDistinguishesCauses | main.go:127 | With both arguments supplied, different splitter errors give different lines. |

## Left out

- `main` orchestration, configuration parsing (`stepconf`), config printing, and the log and `fail`/`os.Exit` side effects (main.go:44-99, and the `fail` call at main.go:127): process plumbing. Errors are returned as `Result` values instead.
- The `fmt.Println`, `log.Infof` and `log.Printf` calls in `parseProjectDir` (main.go:170-172) and the `log.Warnf` text in `parseXCConfigPath` (main.go:113): log output only. The warning survives as the `warnedBothSet` flag.
- Running `carthage version` and `swift -version` (main.go:135-136, 152-155): subprocess I/O. The command result is an input value, and `getSwiftVersion` returns raw output, so it has no logic to model.
- Output trimming by `RunAndReturnTrimmedCombinedOutput`: it is inside the command library. The model receives the output already trimmed.
- `shellquote.Split`: a library this model does not include. It is the `shellSplit` parameter of `Options.ParseCarthageOptions`.
- `version.NewVersion` internals and version ordering: a library. It is the `parse` parameter.
- The file provider and file downloader behind `input.NewFileProvider`: network and file I/O. They are the `localPath` parameter.
- The cache-decision runner, cache, state provider and project fingerprint (`cachedcarthage`, `carthage` packages, main.go:84-95): those packages are not part of this model.
- Go strings are byte strings. The model uses `seq<char>`. Only the newline character matters to the logic.
- Go's `fmt` is modelled only for `%s` verbs with at most as many arguments as verbs (`Diagnostics.Render`). That is all the split-failure line needs.

## Findings

| source | as written | input that shows it | evidently intended | confidence | as-written member | corrected member |
|---|---|---|---|---|---|---|
| main.go:127 | `fail("Failed to shell split CarthageOptions (%s), error: %s", config.CarthageOptions)` passes one argument for two `%s` verbs | any `carthage_options` that fails to split, e.g. `'unterminated`: the line ends `error: %!s(MISSING)` and the splitter's error is lost | pass `err` as the second argument so the cause is printed | high (a format/argument count mismatch); not executed | Diagnostics.AsWrittenDropsCause | Diagnostics.SplitFailureMessageDistinguishesCauses |

`Options.ParseCarthageOptions` reports the line as written. The corrected line, `Diagnostics.SplitFailureMessage`, is what the code evidently meant to log.
