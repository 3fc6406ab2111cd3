/** `StrongNameVerifyToolAliases`: the four `StrongNameVerify` overloads, the
    same shape as the resign aliases with the `verify` command. */
module StrongNameVerifyToolAliases {
  import opened Outcomes
  import opened Paths
  import Tool = StrongNameToolRunner
  import opened ToolAliases

  /** `StrongNameVerify(context, string assembly, settings)`: the assembly is
      checked before anything else, the context included. */
  function StrongNameVerifyString(context: Option<Context>, assembly: Option<string>,
                                  settings: Option<Tool.Settings>): (b: Batch)
    ensures assembly.None? ==> b == Failed(ArgumentNull("assembly"))
    ensures assembly.Some? ==> b == StrongNameVerifyPath(context, Some(FilePath(assembly.value)), settings)
  {
    ForString(Tool.VerifyCommand, context, assembly, settings)
  }

  /** `StrongNameVerify(context, FilePath assembly, settings)`. */
  function StrongNameVerifyPath(context: Option<Context>, assembly: Option<FilePath>,
                                settings: Option<Tool.Settings>): (b: Batch)
    ensures assembly.None? ==> b == Failed(ArgumentNull("assembly"))
    ensures assembly.Some? ==> b == StrongNameVerifyPaths(context, Some([assembly]), settings)
  {
    ForPath(Tool.VerifyCommand, context, assembly, settings)
  }

  /** `StrongNameVerify(context, IEnumerable<string> assemblies, settings)`: same
      files, same order. */
  function StrongNameVerifyStrings(context: Option<Context>, assemblies: Option<seq<string>>,
                                   settings: Option<Tool.Settings>): (b: Batch)
    ensures assemblies.None? ==> b == Failed(ArgumentNull("assemblies"))
    ensures assemblies.Some? ==>
      b == StrongNameVerifyPaths(context, Some(AsFilePaths(assemblies.value)), settings)
  {
    ForStrings(Tool.VerifyCommand, context, assemblies, settings)
  }

  /** `StrongNameVerify(context, IEnumerable<FilePath> assemblies, settings)`:
      null checks on the context, the assemblies and the settings in that order,
      then `Run("verify", ...)` per assembly until one fails. */
  function StrongNameVerifyPaths(context: Option<Context>, assemblies: Option<seq<Option<FilePath>>>,
                                 settings: Option<Tool.Settings>): (b: Batch)
    ensures context.None? ==> b == Failed(ArgumentNull("context"))
    ensures context.Some? && assemblies.None? ==> b == Failed(ArgumentNull("assemblies"))
    ensures context.Some? && assemblies.Some? && settings.None? ==> b == Failed(ArgumentNull("settings"))
    ensures context.Some? && assemblies.Some? && settings.Some? && context.value.registry.None? ==>
      b == Failed(ArgumentNull("registry"))
    ensures context.Some? && assemblies.Some? && settings.Some? && context.value.registry.Some? ==>
      var run := (a: Option<FilePath>) => Tool.Run(RunnerFor(context.value).value, Some(Tool.VerifyCommand), a, settings);
      && |b.completed| <= |assemblies.value|
      && (forall i {:trigger b.completed[i]} :: 0 <= i < |b.completed| ==>
            run(assemblies.value[i]) == Ok(b.completed[i]))
      && (b.failure.None? ==> |b.completed| == |assemblies.value|)
      && (b.failure.Some? ==>
            |b.completed| < |assemblies.value| && run(assemblies.value[|b.completed|]) == Err(b.failure.value))
  {
    ForPaths(Tool.VerifyCommand, context, assemblies, settings)
  }

  /** Every assembly that was processed got exactly `-v "<absolute path>"`, or
      `-vf` when verification is forced, in input order. */
  lemma EachAssemblyIsVerified(context: Context, assemblies: seq<Option<FilePath>>, settings: Tool.Settings)
    requires IsRooted(context.environment.workingDirectory.fullPath)
    ensures var b := StrongNameVerifyPaths(Some(context), Some(assemblies), Some(settings));
      forall i :: 0 <= i < |b.completed| ==>
        && assemblies[i].Some?
        && b.completed[i] == Tool.Encode(Tool.Verify(
             MakeAbsolute(assemblies[i].value, context.environment.workingDirectory).fullPath,
             settings.forceVerification))
  {
    if context.registry.None? {
      return;
    }
    var runner := RunnerFor(context).value;
    var b := StrongNameVerifyPaths(Some(context), Some(assemblies), Some(settings));
    forall i | 0 <= i < |b.completed|
      ensures assemblies[i].Some?
      ensures b.completed[i] == Tool.Encode(Tool.Verify(
                MakeAbsolute(assemblies[i].value, context.environment.workingDirectory).fullPath,
                settings.forceVerification))
    {
      assert RunStep(runner, Tool.VerifyCommand, settings)(assemblies[i]) == Ok(b.completed[i]);
      Tool.VerifyQuotesAbsolutePath(runner, assemblies[i].value, settings);
    }
  }
}
