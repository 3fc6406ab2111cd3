/** `StrongNameReSignToolAliases`: the four `StrongNameReSign` overloads. Each
    checks its own arguments for null and forwards to the next, ending in the
    sequence overload, which re-signs every assembly in order with one runner. */
module StrongNameReSignToolAliases {
  import opened Outcomes
  import opened Paths
  import opened Collaborators
  import Tool = StrongNameToolRunner
  import opened ToolAliases

  /** `StrongNameReSign(context, string assembly, settings)`: the assembly is
      checked before anything else, the context included. */
  function StrongNameReSignString(context: Option<Context>, assembly: Option<string>,
                                  settings: Option<Tool.Settings>): (b: Batch)
    ensures assembly.None? ==> b == Failed(ArgumentNull("assembly"))
    ensures assembly.Some? ==> b == StrongNameReSignPath(context, Some(FilePath(assembly.value)), settings)
  {
    ForString(Tool.ResignCommand, context, assembly, settings)
  }

  /** `StrongNameReSign(context, FilePath assembly, settings)`. */
  function StrongNameReSignPath(context: Option<Context>, assembly: Option<FilePath>,
                                settings: Option<Tool.Settings>): (b: Batch)
    ensures assembly.None? ==> b == Failed(ArgumentNull("assembly"))
    ensures assembly.Some? ==> b == StrongNameReSignPaths(context, Some([assembly]), settings)
  {
    ForPath(Tool.ResignCommand, context, assembly, settings)
  }

  /** `StrongNameReSign(context, IEnumerable<string> assemblies, settings)`: same
      files, same order. */
  function StrongNameReSignStrings(context: Option<Context>, assemblies: Option<seq<string>>,
                                   settings: Option<Tool.Settings>): (b: Batch)
    ensures assemblies.None? ==> b == Failed(ArgumentNull("assemblies"))
    ensures assemblies.Some? ==>
      b == StrongNameReSignPaths(context, Some(AsFilePaths(assemblies.value)), settings)
  {
    ForStrings(Tool.ResignCommand, context, assemblies, settings)
  }

  /** `StrongNameReSign(context, IEnumerable<FilePath> assemblies, settings)`:
      null checks on the context, the assemblies and the settings in that order,
      then `Run("resign", ...)` per assembly until one fails. */
  function StrongNameReSignPaths(context: Option<Context>, assemblies: Option<seq<Option<FilePath>>>,
                                 settings: Option<Tool.Settings>): (b: Batch)
    ensures context.None? ==> b == Failed(ArgumentNull("context"))
    ensures context.Some? && assemblies.None? ==> b == Failed(ArgumentNull("assemblies"))
    ensures context.Some? && assemblies.Some? && settings.None? ==> b == Failed(ArgumentNull("settings"))
    ensures context.Some? && assemblies.Some? && settings.Some? && context.value.registry.None? ==>
      b == Failed(ArgumentNull("registry"))
    ensures context.Some? && assemblies.Some? && settings.Some? && context.value.registry.Some? ==>
      var run := (a: Option<FilePath>) => Tool.Run(RunnerFor(context.value).value, Some(Tool.ResignCommand), a, settings);
      && |b.completed| <= |assemblies.value|
      && (forall i {:trigger b.completed[i]} :: 0 <= i < |b.completed| ==>
            run(assemblies.value[i]) == Ok(b.completed[i]))
      && (b.failure.None? ==> |b.completed| == |assemblies.value|)
      && (b.failure.Some? ==>
            |b.completed| < |assemblies.value| && run(assemblies.value[|b.completed|]) == Err(b.failure.value))
  {
    ForPaths(Tool.ResignCommand, context, assemblies, settings)
  }

  /** Every assembly that was processed got exactly `-Rca "<absolute path>" <container>`,
      in input order. */
  lemma EachAssemblyIsResigned(context: Context, assemblies: seq<Option<FilePath>>, settings: Tool.Settings)
    requires IsRooted(context.environment.workingDirectory.fullPath)
    ensures var b := StrongNameReSignPaths(Some(context), Some(assemblies), Some(settings));
      forall i :: 0 <= i < |b.completed| ==>
        && assemblies[i].Some?
        && !IsNullOrEmpty(settings.container)
        && b.completed[i] == Tool.Encode(Tool.Resign(
             MakeAbsolute(assemblies[i].value, context.environment.workingDirectory).fullPath,
             settings.container.value))
  {
    if context.registry.None? {
      return;
    }
    var runner := RunnerFor(context).value;
    var b := StrongNameReSignPaths(Some(context), Some(assemblies), Some(settings));
    forall i | 0 <= i < |b.completed|
      ensures assemblies[i].Some? && !IsNullOrEmpty(settings.container)
      ensures b.completed[i] == Tool.Encode(Tool.Resign(
                MakeAbsolute(assemblies[i].value, context.environment.workingDirectory).fullPath,
                settings.container.value))
    {
      assert RunStep(runner, Tool.ResignCommand, settings)(assemblies[i]) == Ok(b.completed[i]);
      Tool.ResignQuotesAbsolutePath(runner, assemblies[i].value, settings);
    }
  }

  /** Without a container nothing is re-signed: the first assembly already
      fails, with the container message when it exists. */
  lemma NoContainerResignsNothing(context: Context, assemblies: seq<Option<FilePath>>, settings: Tool.Settings)
    requires IsNullOrEmpty(settings.container)
    ensures var b := StrongNameReSignPaths(Some(context), Some(assemblies), Some(settings));
      && b.completed == []
      && (|assemblies| > 0 ==> b.failure.Some?)
      && (|assemblies| > 0 && assemblies[0].Some?
          && context.registry.Some?
          && context.fileSystem.exist(MakeAbsolute(assemblies[0].value, context.environment.workingDirectory))
          ==> b.failure == Some(CakeError(Tool.ContainerMissingMessage)))
  {
  }
}
