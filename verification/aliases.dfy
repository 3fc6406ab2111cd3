/** What the resign and verify aliases share: the Cake context they read, the
    outcome of running the tool over several assemblies, and the per-file loop
    with one runner for the whole batch that stops at the first failure. */
module ToolAliases {
  import opened Outcomes
  import opened Paths
  import opened Collaborators
  import Tool = StrongNameToolRunner

  /** `ICakeContext`, limited to the services the aliases pass to the runner.
      The registry may be null: only the resolver the runner builds checks it. */
  datatype Context = Context(
    fileSystem: FileSystem,
    environment: CakeEnvironment,
    host: Tool.ToolHost,
    registry: Option<Registry>)

  /** The outcome of an alias call: the argument lists of the runs that completed,
      in input order, and the failure that ended the call, if any. */
  datatype Batch = Batch(completed: seq<seq<Tool.Arg>>, failure: Option<Error>)

  /** A call that failed before running anything. */
  function Failed(e: Error): (b: Batch)
    ensures b.completed == [] && b.failure == Some(e)
  {
    Batch([], Some(e))
  }

  /** `new StrongNameToolRunner(context.FileSystem, context.Environment, ...)`:
      a context without a registry is rejected by the resolver the runner builds. */
  function RunnerFor(context: Context): (runner: Result<Tool.Runner>)
    ensures runner.Ok? <==> context.registry.Some?
    ensures runner.Err? ==> runner.error == ArgumentNull("registry")
    ensures runner.Ok? ==>
      && runner.value.fileSystem == context.fileSystem
      && runner.value.environment == context.environment
      && runner.value.host == context.host
      && runner.value.resolver.cached.None?
      && runner.value.resolver.registry == context.registry.value
  {
    Tool.New(context.fileSystem, context.environment, context.host, context.registry, None)
  }

  /** `assemblies.Select(p => new FilePath(p))`. */
  function AsFilePaths(assemblies: seq<string>): (paths: seq<Option<FilePath>>)
    ensures |paths| == |assemblies|
    ensures forall i :: 0 <= i < |paths| ==> paths[i] == Some(FilePath(assemblies[i]))
  {
    seq(|assemblies|, i requires 0 <= i < |assemblies| => Some(FilePath(assemblies[i])))
  }

  /** The `foreach` loop of the sequence overloads, over any per-assembly step:
      the runs that completed are exactly a prefix of the input, in order, and
      a failure is the failure of the first assembly not completed. */
  function RunEach(step: Option<FilePath> -> Result<seq<Tool.Arg>>, assemblies: seq<Option<FilePath>>): (b: Batch)
    ensures |b.completed| <= |assemblies|
    ensures forall i {:trigger b.completed[i]} :: 0 <= i < |b.completed| ==> step(assemblies[i]) == Ok(b.completed[i])
    ensures b.failure.None? ==> |b.completed| == |assemblies|
    ensures b.failure.Some? ==>
      |b.completed| < |assemblies| && step(assemblies[|b.completed|]) == Err(b.failure.value)
  {
    if |assemblies| == 0 then Batch([], None)
    else match step(assemblies[0])
      case Err(e) => Failed(e)
      case Ok(arguments) =>
        var rest := RunEach(step, assemblies[1..]);
        Batch([arguments] + rest.completed, rest.failure)
  }

  /** Running over a concatenation runs the first part and, only if all of it
      completed, the second. */
  lemma {:induction false} RunEachAppend(step: Option<FilePath> -> Result<seq<Tool.Arg>>,
                                         a: seq<Option<FilePath>>, b: seq<Option<FilePath>>)
    ensures RunEach(step, a + b)
         == if RunEach(step, a).failure.Some? then RunEach(step, a)
            else Batch(RunEach(step, a).completed + RunEach(step, b).completed, RunEach(step, b).failure)
  {
    if |a| == 0 {
      assert a + b == b;
    } else {
      var ab := a + b;
      assert ab[0] == a[0] && ab[1..] == a[1..] + b;
      RunEachAppend(step, a[1..], b);
      match step(a[0])
      case Err(e) =>
        assert RunEach(step, ab) == Failed(e) == RunEach(step, a);
      case Ok(arguments) =>
        var restA := RunEach(step, a[1..]);
        var restAB := RunEach(step, ab[1..]);
        assert RunEach(step, ab) == Batch([arguments] + restAB.completed, restAB.failure);
        assert RunEach(step, a) == Batch([arguments] + restA.completed, restA.failure);
        if restA.failure.None? {
          var restB := RunEach(step, b);
          assert [arguments] + (restA.completed + restB.completed)
              == ([arguments] + restA.completed) + restB.completed;
        }
    }
  }

  /** `runner.Run(command, assembly, settings)` as the loop's step: one runner
      and one settings value for every assembly. */
  function RunStep(runner: Tool.Runner, command: string, settings: Tool.Settings): Option<FilePath> -> Result<seq<Tool.Arg>> {
    assembly => Tool.Run(runner, Some(command), assembly, Some(settings))
  }

  /** The sequence overload: null checks on the context, then the assemblies,
      then the settings; then one runner for the whole loop, whose construction
      fails before any assembly runs when the context has no registry. */
  function ForPaths(command: string, context: Option<Context>,
                    assemblies: Option<seq<Option<FilePath>>>, settings: Option<Tool.Settings>): (b: Batch)
    ensures context.None? ==> b == Failed(ArgumentNull("context"))
    ensures context.Some? && assemblies.None? ==> b == Failed(ArgumentNull("assemblies"))
    ensures context.Some? && assemblies.Some? && settings.None? ==> b == Failed(ArgumentNull("settings"))
    ensures context.Some? && assemblies.Some? && settings.Some? && context.value.registry.None? ==>
      b == Failed(ArgumentNull("registry"))
    ensures context.Some? && assemblies.Some? && settings.Some? && context.value.registry.Some? ==>
      b == RunEach(RunStep(RunnerFor(context.value).value, command, settings.value), assemblies.value)
  {
    if context.None? then Failed(ArgumentNull("context"))
    else if assemblies.None? then Failed(ArgumentNull("assemblies"))
    else if settings.None? then Failed(ArgumentNull("settings"))
    else match RunnerFor(context.value)
      case Err(e) => Failed(e)
      case Ok(runner) => RunEach(RunStep(runner, command, settings.value), assemblies.value)
  }

  /** The string-sequence overload: a null check, then each string as a path. */
  function ForStrings(command: string, context: Option<Context>,
                      assemblies: Option<seq<string>>, settings: Option<Tool.Settings>): (b: Batch)
    ensures assemblies.None? ==> b == Failed(ArgumentNull("assemblies"))
    ensures assemblies.Some? ==> b == ForPaths(command, context, Some(AsFilePaths(assemblies.value)), settings)
  {
    match assemblies
    case None => Failed(ArgumentNull("assemblies"))
    case Some(names) => ForPaths(command, context, Some(AsFilePaths(names)), settings)
  }

  /** The single-path overload: a null check, then a one-element sequence. */
  function ForPath(command: string, context: Option<Context>,
                   assembly: Option<FilePath>, settings: Option<Tool.Settings>): (b: Batch)
    ensures assembly.None? ==> b == Failed(ArgumentNull("assembly"))
    ensures assembly.Some? ==> b == ForPaths(command, context, Some([assembly]), settings)
  {
    match assembly
    case None => Failed(ArgumentNull("assembly"))
    case Some(_) => ForPaths(command, context, Some([assembly]), settings)
  }

  /** The single-string overload: a null check, then the string as a path. */
  function ForString(command: string, context: Option<Context>,
                     assembly: Option<string>, settings: Option<Tool.Settings>): (b: Batch)
    ensures assembly.None? ==> b == Failed(ArgumentNull("assembly"))
    ensures assembly.Some? ==> b == ForPath(command, context, Some(FilePath(assembly.value)), settings)
  {
    match assembly
    case None => Failed(ArgumentNull("assembly"))
    case Some(name) => ForPath(command, context, Some(FilePath(name)), settings)
  }

  /** A single assembly is exactly one run of the runner, once the runner exists. */
  lemma SingleAssemblyIsOneRun(command: string, context: Context, assembly: FilePath, settings: Tool.Settings)
    ensures ForPath(command, Some(context), Some(assembly), Some(settings))
         == match RunnerFor(context)
            case Err(e) => Failed(e)
            case Ok(runner) =>
              match Tool.Run(runner, Some(command), Some(assembly), Some(settings))
              case Ok(arguments) => Batch([arguments], None)
              case Err(e) => Failed(e)
  {
    if context.registry.Some? {
      var step := RunStep(RunnerFor(context).value, command, settings);
      assert [Some(assembly)][1..] == [];
      assert RunEach(step, []) == Batch([], None);
    }
  }
}
