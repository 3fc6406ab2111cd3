/** `StrongNameToolRunner`: validates one request, builds the sn.exe argument
    tokens for `verify` or `resign`, and hands them to the Cake tool base class,
    which finds the executable (offering the resolver's answer as an alternative
    path) and launches it. The base class is an oracle here (`ToolHost`). */
module StrongNameToolRunner {
  import opened Outcomes
  import opened Paths
  import opened Collaborators
  import Resolver = StrongNameResolver

  const ToolName := "sn"
  const VerifyCommand := "verify"
  const ResignCommand := "resign"
  const ContainerMissingMessage := ToolName + ": Container is required but not specified."

  /** `StrongNameToolSettings`. */
  datatype Settings = Settings(container: Option<string>, forceVerification: bool)

  /** One token of a `ProcessArgumentBuilder`: appended as is, or quoted. */
  datatype Arg = Plain(text: string) | Quoted(text: string)

  /** `Tool<T>.Run(settings, arguments)`: locating sn.exe and running it, with
      `None` for a successful run and the error it throws otherwise. */
  datatype ToolHost = ToolHost(run: (Settings, seq<Arg>) -> Option<Error>)

  datatype Runner = Runner(
    fileSystem: FileSystem,
    environment: CakeEnvironment,
    host: ToolHost,
    resolver: Resolver.Resolver)

  /** The constructor: an injected resolver is used as it is; otherwise a fresh
      `StrongNameResolver` over the same file system, environment and registry,
      whose own null check rejects a missing registry. */
  function New(fileSystem: FileSystem, environment: CakeEnvironment, host: ToolHost,
               registry: Option<Registry>, resolver: Option<Resolver.Resolver>): (r: Result<Runner>)
    ensures resolver.None? && registry.None? ==> r == Err(ArgumentNull("registry"))
    ensures r.Ok? <==> resolver.Some? || registry.Some?
    ensures r.Ok? ==>
      r.value.fileSystem == fileSystem && r.value.environment == environment && r.value.host == host
    ensures r.Ok? && resolver.Some? ==> r.value.resolver == resolver.value
    ensures r.Ok? && resolver.None? ==>
      && r.value.resolver.cached.None?
      && r.value.resolver.fileSystem == fileSystem
      && r.value.resolver.environment == environment
      && r.value.resolver.registry == registry.value
  {
    match resolver
    case Some(given) => Ok(Runner(fileSystem, environment, host, given))
    case None =>
      match Resolver.New(Some(fileSystem), Some(environment), registry)
      case Err(e) => Err(e)
      case Ok(created) => Ok(Runner(fileSystem, environment, host, created))
  }

  function AssemblyMissingMessage(assemblyPath: FilePath): string {
    ToolName + ": The assembly '" + assemblyPath.fullPath + "' do not exist."
  }

  /** `GetToolName`: the name that prefixes the runner's own error messages. */
  function GetToolName(): (name: string)
    ensures name == "sn"
    ensures name <= ContainerMissingMessage
    ensures forall p :: name <= AssemblyMissingMessage(p)
  {
    ToolName
  }

  /** `GetToolExecutableNames`: the one executable name, which is also the file
      every registry candidate and every path the resolver holds names. */
  function GetToolExecutableNames(): (names: seq<string>)
    ensures names == ["sn.exe"]
    ensures forall folder :: EndsWith(Resolver.ToolIn(folder).fullPath, names[0])
    ensures forall r: Resolver.Resolver :: Resolver.Valid(r) && r.cached.Some? ==>
      EndsWith(r.cached.value.fullPath, names[0])
  {
    [Resolver.ToolExecutable]
  }

  // ----- the argument language of sn.exe -----

  /** What an argument list asks sn.exe to do: `-v`/`-vf` verifies an assembly
      (`-vf` forcing verification), `-Rca` re-signs it with a key container. */
  datatype Invocation =
    | Verify(assembly: string, force: bool)
    | Resign(assembly: string, container: string)

  function Encode(inv: Invocation): seq<Arg> {
    match inv
    case Verify(assembly, force) => [Plain(if force then "-vf" else "-v"), Quoted(assembly)]
    case Resign(assembly, container) => [Plain("-Rca"), Quoted(assembly), Plain(container)]
  }

  function Decode(args: seq<Arg>): Option<Invocation> {
    if |args| == 2 && args[0] == Plain("-v") && args[1].Quoted? then
      Some(Verify(args[1].text, false))
    else if |args| == 2 && args[0] == Plain("-vf") && args[1].Quoted? then
      Some(Verify(args[1].text, true))
    else if |args| == 3 && args[0] == Plain("-Rca") && args[1].Quoted? && args[2].Plain? then
      Some(Resign(args[1].text, args[2].text))
    else None
  }

  /** Every invocation is read back from its tokens. */
  lemma DecodeEncode(inv: Invocation)
    ensures Decode(Encode(inv)) == Some(inv)
  {
  }

  /** Every token list that reads as an invocation is exactly that invocation's tokens. */
  lemma EncodeDecode(args: seq<Arg>)
    requires Decode(args).Some?
    ensures Encode(Decode(args).value) == args
  {
  }

  // ----- GetArguments and Run -----

  /** `GetArguments`: the assembly must exist (whatever the command); `verify`
      and `resign` then get their exact tokens, `resign` only with a non-empty
      container; any other command gets no tokens at all. */
  function GetArguments(runner: Runner, command: Option<string>, assemblyPath: FilePath,
                        settings: Settings): (r: Result<seq<Arg>>)
    ensures !runner.fileSystem.exist(assemblyPath) ==>
      r == Err(CakeError(AssemblyMissingMessage(assemblyPath)))
    ensures runner.fileSystem.exist(assemblyPath) && command.None? ==> r == Err(NullReference)
    ensures runner.fileSystem.exist(assemblyPath) && command == Some(VerifyCommand) ==>
      var target := MakeAbsolute(assemblyPath, runner.environment.workingDirectory);
      r == Ok(Encode(Verify(target.fullPath, settings.forceVerification)))
    ensures runner.fileSystem.exist(assemblyPath) && command == Some(ResignCommand) ==>
      var target := MakeAbsolute(assemblyPath, runner.environment.workingDirectory);
      r == if IsNullOrEmpty(settings.container) then Err(CakeError(ContainerMissingMessage))
           else Ok(Encode(Resign(target.fullPath, settings.container.value)))
    ensures (runner.fileSystem.exist(assemblyPath) && command.Some?
             && command.value != VerifyCommand && command.value != ResignCommand)
            ==> r == Ok([])
    ensures r.Ok? ==> r.value == [] || Decode(r.value).Some?
  {
    if !runner.fileSystem.exist(assemblyPath) then
      Err(CakeError(AssemblyMissingMessage(assemblyPath)))
    else if command.None? then
      Err(NullReference)
    else if command.value == VerifyCommand then
      var flag := if settings.forceVerification then "-vf" else "-v";
      Ok([Plain(flag), Quoted(MakeAbsolute(assemblyPath, runner.environment.workingDirectory).fullPath)])
    else if command.value == ResignCommand then
      if IsNullOrEmpty(settings.container) then
        Err(CakeError(ContainerMissingMessage))
      else
        Ok([Plain("-Rca"),
            Quoted(MakeAbsolute(assemblyPath, runner.environment.workingDirectory).fullPath),
            Plain(settings.container.value)])
    else
      Ok([])
  }

  /** The path `Run` checks and passes on: a relative path is made absolute. */
  function TargetPath(runner: Runner, assemblyPath: FilePath): (p: FilePath)
    ensures !IsRelative(assemblyPath) ==> p == assemblyPath
    ensures IsRooted(runner.environment.workingDirectory.fullPath) ==> !IsRelative(p)
    ensures p == MakeAbsolute(assemblyPath, runner.environment.workingDirectory)
    ensures EndsWith(p.fullPath, assemblyPath.fullPath)
  {
    if IsRelative(assemblyPath) then MakeAbsolute(assemblyPath, runner.environment.workingDirectory)
    else assemblyPath
  }

  /** `Run(command, assemblyPath, settings)`: null checks on the assembly path,
      then the settings; the arguments, with all their validation, are built
      before the base class is entered. `Ok(args)` means the tool ran with `args`. */
  function Run(runner: Runner, command: Option<string>, assemblyPath: Option<FilePath>,
               settings: Option<Settings>): (r: Result<seq<Arg>>)
    ensures assemblyPath.None? ==> r == Err(ArgumentNull("assemblyPath"))
    ensures assemblyPath.Some? && settings.None? ==> r == Err(ArgumentNull("settings"))
    ensures assemblyPath.Some? && settings.Some? ==>
      var arguments := GetArguments(runner, command, TargetPath(runner, assemblyPath.value), settings.value);
      && (arguments.Err? ==> r == Err(arguments.error))
      && (r.Ok? <==> arguments.Ok? && runner.host.run(settings.value, arguments.value).None?)
      && (r.Ok? ==> r.value == arguments.value)
      && (arguments.Ok? && runner.host.run(settings.value, arguments.value).Some? ==>
            r == Err(runner.host.run(settings.value, arguments.value).value))
  {
    if assemblyPath.None? then Err(ArgumentNull("assemblyPath"))
    else if settings.None? then Err(ArgumentNull("settings"))
    else
      var target := TargetPath(runner, assemblyPath.value);
      var arguments :- GetArguments(runner, command, target, settings.value);
      match runner.host.run(settings.value, arguments)
      case Some(failure) => Err(failure)
      case None => Ok(arguments)
  }

  /** Validation comes first: when the arguments cannot be built, `Run` fails the
      same way whatever the base class would do, so no process is launched. */
  lemma ValidationPrecedesLaunch(runner: Runner, host': ToolHost, command: Option<string>,
                                 assemblyPath: FilePath, settings: Settings)
    requires GetArguments(runner, command, TargetPath(runner, assemblyPath), settings).Err?
    ensures Run(runner.(host := host'), command, Some(assemblyPath), Some(settings))
         == Run(runner, command, Some(assemblyPath), Some(settings))
         == Err(GetArguments(runner, command, TargetPath(runner, assemblyPath), settings).error)
  {
  }

  /** With a rooted working directory, `verify` quotes the absolute form of the
      given path, relative or not: making it absolute a second time changes nothing. */
  lemma VerifyQuotesAbsolutePath(runner: Runner, assemblyPath: FilePath, settings: Settings)
    requires IsRooted(runner.environment.workingDirectory.fullPath)
    requires runner.fileSystem.exist(TargetPath(runner, assemblyPath))
    ensures var target := MakeAbsolute(assemblyPath, runner.environment.workingDirectory);
      && !IsRelative(target)
      && GetArguments(runner, Some(VerifyCommand), TargetPath(runner, assemblyPath), settings)
         == Ok(Encode(Verify(target.fullPath, settings.forceVerification)))
  {
    MakeAbsoluteIdempotent(assemblyPath, runner.environment.workingDirectory);
  }

  /** The same for `resign` with a container. */
  lemma ResignQuotesAbsolutePath(runner: Runner, assemblyPath: FilePath, settings: Settings)
    requires IsRooted(runner.environment.workingDirectory.fullPath)
    requires runner.fileSystem.exist(TargetPath(runner, assemblyPath))
    requires !IsNullOrEmpty(settings.container)
    ensures var target := MakeAbsolute(assemblyPath, runner.environment.workingDirectory);
      && !IsRelative(target)
      && GetArguments(runner, Some(ResignCommand), TargetPath(runner, assemblyPath), settings)
         == Ok(Encode(Resign(target.fullPath, settings.container.value)))
  {
    MakeAbsoluteIdempotent(assemblyPath, runner.environment.workingDirectory);
  }

  /** What `GetAlternativeToolPaths` yields, and the runner after the resolver ran. */
  datatype AlternativePaths = AlternativePaths(result: Result<seq<FilePath>>, runner: Runner)

  /** `GetAlternativeToolPaths`: the resolver's path as the only alternative.
      The resolver throws rather than return null, so the empty alternative of
      the source is never produced. */
  function GetAlternativeToolPaths(runner: Runner): (out: AlternativePaths)
    ensures out.result.Ok? <==> Resolver.GetPath(runner.resolver).result.Ok?
    ensures out.result.Ok? ==> out.result.value == [Resolver.GetPath(runner.resolver).result.value]
    ensures out.result.Err? ==> out.result.error == CakeError(Resolver.NotFoundMessage)
    ensures out.runner == runner.(resolver := Resolver.GetPath(runner.resolver).resolver)
    ensures Resolver.Valid(runner.resolver) && out.result.Ok? ==>
      var p := out.result.value[0];
      && runner.resolver.fileSystem.exist(p)
      && exists name :: name in GetToolExecutableNames() && EndsWith(p.fullPath, name)
  {
    var resolution := Resolver.GetPath(runner.resolver);
    var next := runner.(resolver := resolution.resolver);
    match resolution.result
    case Ok(path) => AlternativePaths(Ok([path]), next)
    case Err(e) => AlternativePaths(Err(e), next)
  }
}
