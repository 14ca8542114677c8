/** Choosing the xcconfig file handed to Carthage: the `xcconfig` step input,
    resolved to a local file by a file provider (which may download it), takes
    precedence over the `XCODE_XCCONFIG_FILE` environment variable. */
module Xcconfig {
  import opened Wrappers

  /** The chosen path ("" for none) and whether the "both are set" warning
      was logged. */
  datatype XcconfigChoice = XcconfigChoice(path: string, warnedBothSet: bool)

  /** `localPath` stands for the file provider's `LocalPath`; its errors are
      returned unchanged. */
  function ParseXCConfigPath<E>(pathFromStepInput: string, pathFromEnv: string, localPath: string -> Result<string, E>)
    : (r: Result<XcconfigChoice, E>)
    // the provider is only asked when the step input is set, and its failure is the result
    ensures r.Failure? <==> pathFromStepInput != "" && localPath(pathFromStepInput).Failure?
    ensures r.Failure? ==> r.error == localPath(pathFromStepInput).error
    // a non-empty resolved step input wins; the warning says the env path was also set
    ensures pathFromStepInput != "" && localPath(pathFromStepInput).Success? && localPath(pathFromStepInput).value != ""
            ==> r == Success(XcconfigChoice(localPath(pathFromStepInput).value, pathFromEnv != ""))
    // otherwise the env path is used verbatim, without a warning
    ensures pathFromStepInput == "" || localPath(pathFromStepInput) == Success("")
            ==> r == Success(XcconfigChoice(pathFromEnv, false))
    // the warning is logged only when both sources are set
    ensures r.Success? && r.value.warnedBothSet ==> pathFromStepInput != "" && pathFromEnv != ""
  {
    var resolved :=
      if pathFromStepInput != "" then localPath(pathFromStepInput) else Success("");
    match resolved
    case Failure(err) => Failure(err)
    case Success(pathToUse) =>
      if pathFromEnv != "" then
        if pathToUse != "" then Success(XcconfigChoice(pathToUse, true))
        else Success(XcconfigChoice(pathFromEnv, false))
      else Success(XcconfigChoice(pathToUse, false))
  }

  /** With no step input the provider is never consulted: any two providers
      give the same result. */
  lemma ProviderUnusedWithoutStepInput<E>(pathFromEnv: string, p1: string -> Result<string, E>, p2: string -> Result<string, E>)
    ensures ParseXCConfigPath("", pathFromEnv, p1) == ParseXCConfigPath("", pathFromEnv, p2)
  {
  }

  /** When the provider fails, the env path plays no part in the result. */
  lemma EnvUnusedOnProviderError<E>(pathFromStepInput: string, env1: string, env2: string, localPath: string -> Result<string, E>)
    requires pathFromStepInput != "" && localPath(pathFromStepInput).Failure?
    ensures ParseXCConfigPath(pathFromStepInput, env1, localPath) == ParseXCConfigPath(pathFromStepInput, env2, localPath)
  {
  }

  /** Neither source set: no path, no warning, no error. */
  lemma NothingSet<E>(localPath: string -> Result<string, E>)
    ensures ParseXCConfigPath("", "", localPath) == Success(XcconfigChoice("", false))
  {
  }

  /** Both sources set and the step input resolves: the step input's file is
      used and exactly one warning is logged. */
  lemma BothSetWarnsOnce<E>(pathFromStepInput: string, pathFromEnv: string, localPath: string -> Result<string, E>)
    requires pathFromStepInput != "" && pathFromEnv != ""
    requires localPath(pathFromStepInput).Success? && localPath(pathFromStepInput).value != ""
    ensures ParseXCConfigPath(pathFromStepInput, pathFromEnv, localPath)
            == Success(XcconfigChoice(localPath(pathFromStepInput).value, true))
  {
  }
}
