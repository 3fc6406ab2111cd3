/** `StrongNameResolver`: locates sn.exe, first at a fixed place under the
    32-bit program-files directory, then through the Windows SDK entries of the
    registry, and remembers the first path it finds for the life of the instance.
    The instance is a value here; `GetPath` returns the resolver to use next. */
module StrongNameResolver {
  import opened Outcomes
  import opened Paths
  import opened Collaborators

  const ToolExecutable := "sn.exe"
  const NotFoundMessage := "Failed to find sn.exe."

  /** The only disk location probed, relative to the 32-bit program-files
      directory: `Microsoft SDKs\Windows\v7.0A\Bin\NETFX 4.0 Tools\`, with a
      further `x64\` on a 64-bit operating system. */
  const SdkBinDirectory := "Microsoft SDKs\\Windows\\v7.0A\\Bin\\"
  const NetFx4ToolsX86 := SdkBinDirectory + "NETFX 4.0 Tools\\"
  const NetFx4ToolsX64 := NetFx4ToolsX86 + "x64\\"

  /** `Software\Microsoft\Microsoft SDKs\Windows` under HKEY_LOCAL_MACHINE, by segment. */
  const SdkRegistryPath: seq<string> := ["Software", "Microsoft", "Microsoft SDKs", "Windows"]
  const FxKeyX86 := "WinSDK-NetFx40Tools"
  const FxKeyX64 := "WinSDK-NetFx40Tools-x64"
  const InstallationFolder := "InstallationFolder"

  /** The resolver's collaborators and its cache: `cached` is `_strongnameToolPath`. */
  datatype Resolver = Resolver(
    fileSystem: FileSystem,
    environment: CakeEnvironment,
    registry: Registry,
    cached: Option<FilePath>)

  /** What one call of `GetPath` yields, and the resolver state after it. */
  datatype Resolution = Resolution(result: Result<FilePath>, resolver: Resolver)

  /** The state invariant: a cached path is the tool, and it existed when it was chosen. */
  ghost predicate Valid(r: Resolver) {
    r.cached.Some? ==>
      && r.fileSystem.exist(r.cached.value)
      && EndsWith(r.cached.value.fullPath, ToolExecutable)
  }

  /** The constructor: null checks on the file system, then the registry, then
      the environment; a new resolver has nothing cached. */
  function New(fileSystem: Option<FileSystem>, environment: Option<CakeEnvironment>,
               registry: Option<Registry>): (r: Result<Resolver>)
    ensures fileSystem.None? ==> r == Err(ArgumentNull("fileSystem"))
    ensures fileSystem.Some? && registry.None? ==> r == Err(ArgumentNull("registry"))
    ensures fileSystem.Some? && registry.Some? && environment.None?
            ==> r == Err(ArgumentNull("environment"))
    ensures r.Ok? <==> fileSystem.Some? && environment.Some? && registry.Some?
    ensures r.Ok? ==> r.value.cached.None? && Valid(r.value)
    ensures r.Ok? ==>
      && r.value.fileSystem == fileSystem.value
      && r.value.environment == environment.value
      && r.value.registry == registry.value
  {
    if fileSystem.None? then Err(ArgumentNull("fileSystem"))
    else if registry.None? then Err(ArgumentNull("registry"))
    else if environment.None? then Err(ArgumentNull("environment"))
    else Ok(Resolver(fileSystem.value, environment.value, registry.value, None))
  }

  // ----- probing an ordered list of files -----

  /** `FirstOrDefault(file => Exist(file))`: the earliest listed file that exists. */
  function FirstExisting(fs: FileSystem, files: seq<FilePath>): (r: Option<FilePath>)
    ensures r.None? <==> forall i :: 0 <= i < |files| ==> !fs.exist(files[i])
    ensures r.Some? ==>
      exists i :: 0 <= i < |files| && files[i] == r.value && fs.exist(files[i])
        && forall j :: 0 <= j < i ==> !fs.exist(files[j])
  {
    if |files| == 0 then None
    else if fs.exist(files[0]) then Some(files[0])
    else FirstExisting(fs, files[1..])
  }

  /** The files `FirstExisting` hands to the oracle, in order: all of them up to
      and including the first that exists. */
  function ProbedUntilFound(fs: FileSystem, files: seq<FilePath>): (probes: seq<FilePath>)
    ensures probes <= files
  {
    if |files| == 0 then []
    else if fs.exist(files[0]) then [files[0]]
    else [files[0]] + ProbedUntilFound(fs, files[1..])
  }

  /** Searching a concatenation searches the first part, then the second. */
  lemma {:induction false} FirstExistingAppend(fs: FileSystem, a: seq<FilePath>, b: seq<FilePath>)
    ensures FirstExisting(fs, a + b)
         == if FirstExisting(fs, a).Some? then FirstExisting(fs, a) else FirstExisting(fs, b)
  {
    if |a| == 0 {
      assert a + b == b;
    } else {
      assert (a + b)[0] == a[0] && (a + b)[1..] == a[1..] + b;
      if !fs.exist(a[0]) {
        FirstExistingAppend(fs, a[1..], b);
      }
    }
  }

  /** The probes of a concatenation: those of the first part, then, only when
      the first part has no hit, those of the second. */
  lemma {:induction false} ProbedUntilFoundAppend(fs: FileSystem, a: seq<FilePath>, b: seq<FilePath>)
    ensures ProbedUntilFound(fs, a + b)
         == if FirstExisting(fs, a).Some? then ProbedUntilFound(fs, a)
            else ProbedUntilFound(fs, a) + ProbedUntilFound(fs, b)
  {
    if |a| == 0 {
      assert a + b == b;
    } else {
      var ab := a + b;
      assert ab[0] == a[0] && ab[1..] == a[1..] + b;
      if !fs.exist(a[0]) {
        ProbedUntilFoundAppend(fs, a[1..], b);
        var probedA := ProbedUntilFound(fs, a[1..]);
        var probedB := ProbedUntilFound(fs, b);
        if FirstExisting(fs, a[1..]).None? {
          assert [a[0]] + (probedA + probedB) == ([a[0]] + probedA) + probedB;
        }
      }
    }
  }

  /** The outcome depends on the oracle only at the probed files: a second file
      system that agrees there gives the same answer after the same probes. */
  lemma {:induction false} FirstExistingDependsOnlyOnProbes(fs: FileSystem, fs': FileSystem, files: seq<FilePath>)
    requires forall p :: p in ProbedUntilFound(fs, files) ==> fs'.exist(p) == fs.exist(p)
    ensures FirstExisting(fs', files) == FirstExisting(fs, files)
    ensures ProbedUntilFound(fs', files) == ProbedUntilFound(fs, files)
  {
    if |files| > 0 {
      assert files[0] in ProbedUntilFound(fs, files);
      if !fs.exist(files[0]) {
        assert forall p :: p in ProbedUntilFound(fs, files[1..]) ==> p in ProbedUntilFound(fs, files);
        FirstExistingDependsOnlyOnProbes(fs, fs', files[1..]);
      }
    }
  }

  // ----- disk phase -----

  /** The fixed names joined onto directories are relative, so joining keeps the directory. */
  lemma RelativeNames()
    ensures !IsRooted(NetFx4ToolsX86) && !IsRooted(NetFx4ToolsX64) && !IsRooted(ToolExecutable)
  {
    assert NetFx4ToolsX86[0] == 'M' && NetFx4ToolsX86[1] == 'i';
    assert NetFx4ToolsX64[0] == 'M' && NetFx4ToolsX64[1] == 'i';
    assert ToolExecutable[0] == 's' && ToolExecutable[1] == 'n';
  }

  /** The disk candidates: exactly one, sn.exe under the 32-bit program-files
      directory, in the `x64` tools directory on a 64-bit operating system. */
  function DiscCandidates(env: CakeEnvironment): (files: seq<FilePath>)
    ensures |files| == 1
    ensures EndsWith(files[0].fullPath, ToolExecutable)
    ensures env.programFilesX86.fullPath != "" ==> env.programFilesX86.fullPath < files[0].fullPath
  {
    var tools := if env.is64BitOperativeSystem then NetFx4ToolsX64 else NetFx4ToolsX86;
    var dir := Combine(env.programFilesX86, tools);
    var file := CombineWithFilePath(dir, ToolExecutable);
    assert env.programFilesX86.fullPath != "" ==> env.programFilesX86.fullPath < file.fullPath by {
      RelativeNames();
      assert |dir.fullPath| >= |tools| > 0;
      assert dir.fullPath < file.fullPath;
    }
    [file]
  }

  /** The bitness choice: the candidate is sn.exe in `NETFX 4.0 Tools\x64\` on a
      64-bit operating system and in `NETFX 4.0 Tools\` otherwise. */
  lemma DiscCandidateByBitness(env: CakeEnvironment)
    ensures var tools := if env.is64BitOperativeSystem then NetFx4ToolsX64 else NetFx4ToolsX86;
      EndsWith(DiscCandidates(env)[0].fullPath, tools + ToolExecutable)
  {
    RelativeNames();
    ToolsDirectoriesEndWithSeparator();
    var tools := if env.is64BitOperativeSystem then NetFx4ToolsX64 else NetFx4ToolsX86;
    var dir := Combine(env.programFilesX86, tools);
    assert dir.fullPath[|dir.fullPath| - 1] == tools[|tools| - 1];
    JoinAfterSeparator(dir.fullPath, ToolExecutable);
    EndsWithAppend(dir.fullPath, tools, ToolExecutable);
  }

  /** Both tools directories end with a separator. */
  lemma ToolsDirectoriesEndWithSeparator()
    ensures |NetFx4ToolsX86| > 0 && IsSeparator(NetFx4ToolsX86[|NetFx4ToolsX86| - 1])
    ensures |NetFx4ToolsX64| > 0 && IsSeparator(NetFx4ToolsX64[|NetFx4ToolsX64| - 1])
  {
    var suffix := "NETFX 4.0 Tools\\";
    assert NetFx4ToolsX86[|NetFx4ToolsX86| - 1] == suffix[|suffix| - 1];
    var x64 := "x64\\";
    assert NetFx4ToolsX64[|NetFx4ToolsX64| - 1] == x64[|x64| - 1];
  }

  /** `GetFromDisc`: the candidate when it exists. */
  function GetFromDisc(fs: FileSystem, env: CakeEnvironment): (r: Option<FilePath>)
    ensures r.Some? <==> fs.exist(DiscCandidates(env)[0])
    ensures r.Some? ==> r.value == DiscCandidates(env)[0]
  {
    FirstExisting(fs, DiscCandidates(env))
  }

  // ----- registry phase -----

  /** The architecture-specific tools key name under an SDK sub-key. */
  function FxKeyName(is64Bit: bool): string {
    if is64Bit then FxKeyX64 else FxKeyX86
  }

  /** sn.exe inside an installation folder. */
  function ToolIn(folder: string): (p: FilePath)
    ensures EndsWith(p.fullPath, ToolExecutable)
  {
    CombineWithFilePath(DirectoryPath(folder), ToolExecutable)
  }

  /** The architecture-specific NetFx tools key under SDK sub-key `name`:
      `None` when the sub-key or the tools key cannot be opened. */
  function FxKey(root: RegistryKey, name: string, is64Bit: bool): (r: Option<RegistryKey>)
    ensures forall i, j ::
      && FirstNamed(root.subKeys, name, i)
      && root.subKeys[i].key.Some?
      && FirstNamed(root.subKeys[i].key.value.subKeys, FxKeyName(is64Bit), j)
      ==> r == root.subKeys[i].key.value.subKeys[j].key
    ensures r.Some? ==> exists i, j ::
      && FirstNamed(root.subKeys, name, i)
      && root.subKeys[i].key.Some?
      && FirstNamed(root.subKeys[i].key.value.subKeys, FxKeyName(is64Bit), j)
      && root.subKeys[i].key.value.subKeys[j].key == r
    ensures (forall i :: 0 <= i < |root.subKeys| ==> root.subKeys[i].name != name) ==> r.None?
  {
    match OpenKey(root, name)
    case None => None
    case Some(sdkKey) => OpenKey(sdkKey, FxKeyName(is64Bit))
  }

  /** The path a sub-key proposes: sn.exe in the `InstallationFolder` of its tools
      key; `None` when the key is absent or the value is missing, not a string,
      empty or white space. */
  function CandidatePath(root: RegistryKey, name: string, is64Bit: bool): (r: Option<FilePath>)
    ensures r.Some? <==>
      FxKey(root, name, is64Bit).Some?
      && !IsNullOrWhiteSpace(StringValueOf(FxKey(root, name, is64Bit).value, InstallationFolder))
    ensures r.Some? ==>
      r.value == ToolIn(StringValueOf(FxKey(root, name, is64Bit).value, InstallationFolder).value)
    ensures r.Some? ==> EndsWith(r.value.fullPath, ToolExecutable)
  {
    match FxKey(root, name, is64Bit)
    case None => None
    case Some(fxKey) =>
      var folder := StringValueOf(fxKey, InstallationFolder);
      if IsNullOrWhiteSpace(folder) then None else Some(ToolIn(folder.value))
  }

  /** One iteration of the sub-key loop: the proposed path, if it exists. */
  function SdkCandidate(fs: FileSystem, is64Bit: bool, root: RegistryKey, name: string): (r: Option<FilePath>)
    ensures r.Some? <==> CandidatePath(root, name, is64Bit).Some? && fs.exist(CandidatePath(root, name, is64Bit).value)
    ensures r.Some? ==> r == CandidatePath(root, name, is64Bit)
    ensures r.Some? ==> fs.exist(r.value) && EndsWith(r.value.fullPath, ToolExecutable)
  {
    match CandidatePath(root, name, is64Bit)
    case None => None
    case Some(p) => if fs.exist(p) then Some(p) else None
  }

  /** The sub-key loop: the candidate of the first sub-key, in enumeration order,
      that has one; unusable sub-keys are skipped, never an error. */
  function ScanSdkKeys(fs: FileSystem, is64Bit: bool, root: RegistryKey, names: seq<string>): (r: Option<FilePath>)
    ensures r.None? <==> forall name :: name in names ==> SdkCandidate(fs, is64Bit, root, name).None?
    ensures r.Some? ==> fs.exist(r.value) && EndsWith(r.value.fullPath, ToolExecutable)
  {
    if |names| == 0 then None
    else
      var here := SdkCandidate(fs, is64Bit, root, names[0]);
      if here.Some? then here
      else
        assert forall name :: name in names ==> name == names[0] || name in names[1..];
        ScanSdkKeys(fs, is64Bit, root, names[1..])
  }

  /** The proposed paths of the sub-keys, in enumeration order, skipping those
      that propose none. */
  function RegistryCandidates(root: RegistryKey, is64Bit: bool, names: seq<string>): (files: seq<FilePath>)
    ensures |files| <= |names|
  {
    if |names| == 0 then []
    else
      var here := match CandidatePath(root, names[0], is64Bit) case None => [] case Some(p) => [p];
      here + RegistryCandidates(root, is64Bit, names[1..])
  }

  /** The loop is a search of the proposed paths for the first that exists. */
  lemma {:induction false} ScanIsFirstExisting(fs: FileSystem, is64Bit: bool, root: RegistryKey, names: seq<string>)
    ensures ScanSdkKeys(fs, is64Bit, root, names)
         == FirstExisting(fs, RegistryCandidates(root, is64Bit, names))
  {
    if |names| > 0 {
      ScanIsFirstExisting(fs, is64Bit, root, names[1..]);
      var rest := RegistryCandidates(root, is64Bit, names[1..]);
      match CandidatePath(root, names[0], is64Bit)
      case None =>
        assert RegistryCandidates(root, is64Bit, names) == rest;
        assert SdkCandidate(fs, is64Bit, root, names[0]).None?;
      case Some(p) =>
        var files := [p] + rest;
        assert RegistryCandidates(root, is64Bit, names) == files;
        assert files[0] == p && files[1..] == rest;
        if fs.exist(p) {
          assert SdkCandidate(fs, is64Bit, root, names[0]) == Some(p);
        } else {
          assert SdkCandidate(fs, is64Bit, root, names[0]).None?;
        }
    }
  }

  /** The SDK root key, `Software\Microsoft\Microsoft SDKs\Windows`, if present. */
  function SdkRoot(registry: Registry): (r: Option<RegistryKey>)
    ensures r == match OpenPath(registry.localMachine, SdkRegistryPath[..3])
      case None => None
      case Some(sdks) => OpenKey(sdks, "Windows")
  {
    assert SdkRegistryPath == SdkRegistryPath[..3] + ["Windows"];
    OpenPathAppend(registry.localMachine, SdkRegistryPath[..3], ["Windows"]);
    OpenPath(registry.localMachine, SdkRegistryPath)
  }

  /** `GetFromRegistry`: nothing when the SDK root key is absent, else the
      candidate of the first usable sub-key whose sn.exe exists. */
  function GetFromRegistry(fs: FileSystem, env: CakeEnvironment, registry: Registry): (r: Option<FilePath>)
    ensures SdkRoot(registry).None? ==> r.None?
    ensures SdkRoot(registry).Some? ==>
      var root := SdkRoot(registry).value;
      (r.None? <==> forall name :: name in SubKeyNames(root) ==>
                      SdkCandidate(fs, env.is64BitOperativeSystem, root, name).None?)
    ensures r.Some? ==> fs.exist(r.value) && EndsWith(r.value.fullPath, ToolExecutable)
  {
    match SdkRoot(registry)
    case None => None
    case Some(root) => ScanSdkKeys(fs, env.is64BitOperativeSystem, root, SubKeyNames(root))
  }

  // ----- GetPath -----

  /** `GetPath`: the cached path if any; otherwise disk, then registry. A hit is
      cached; a miss fails with "Failed to find sn.exe." and caches nothing. */
  function GetPath(r: Resolver): (out: Resolution)
    ensures r.cached.Some? ==> out == Resolution(Ok(r.cached.value), r)
    ensures out.result.Err? ==> out.result.error == CakeError(NotFoundMessage) && out.resolver == r
    ensures out.result.Ok? ==> out.resolver == r.(cached := Some(out.result.value))
    ensures Valid(r) ==> Valid(out.resolver)
    ensures Valid(r) && out.result.Ok? ==>
      r.fileSystem.exist(out.result.value) && EndsWith(out.result.value.fullPath, ToolExecutable)
  {
    if r.cached.Some? then Resolution(Ok(r.cached.value), r)
    else
      var found := match GetFromDisc(r.fileSystem, r.environment)
        case Some(p) => Some(p)
        case None => GetFromRegistry(r.fileSystem, r.environment, r.registry);
      match found
      case None => Resolution(Err(CakeError(NotFoundMessage)), r)
      case Some(p) => Resolution(Ok(p), r.(cached := Some(p)))
  }

  // ----- properties of GetPath -----

  /** Every file `GetPath` may hand to the file system, in probing order: the
      disk candidate, then the registry candidates. */
  function Candidates(r: Resolver): (files: seq<FilePath>)
    ensures |files| >= 1 && files[0] == DiscCandidates(r.environment)[0]
  {
    DiscCandidates(r.environment) +
      match SdkRoot(r.registry)
      case None => []
      case Some(root) => RegistryCandidates(root, r.environment.is64BitOperativeSystem, SubKeyNames(root))
  }

  /** The files one call of `GetPath` hands to the file system: none once a path is cached. */
  function Probes(r: Resolver): seq<FilePath> {
    if r.cached.Some? then [] else ProbedUntilFound(r.fileSystem, Candidates(r))
  }

  /** An uncached resolution is a search of `Candidates` for the first file that
      exists, failing with "Failed to find sn.exe." when there is none. */
  lemma GetPathIsFirstExisting(r: Resolver)
    requires r.cached.None?
    ensures GetPath(r).result == match FirstExisting(r.fileSystem, Candidates(r))
                                 case Some(p) => Ok(p)
                                 case None => Err(CakeError(NotFoundMessage))
  {
    var disc := DiscCandidates(r.environment);
    var fromRegistry := match SdkRoot(r.registry)
      case None => []
      case Some(root) => RegistryCandidates(root, r.environment.is64BitOperativeSystem, SubKeyNames(root));
    FirstExistingAppend(r.fileSystem, disc, fromRegistry);
    match SdkRoot(r.registry)
    case None =>
    case Some(root) =>
      ScanIsFirstExisting(r.fileSystem, r.environment.is64BitOperativeSystem, root, SubKeyNames(root));
  }

  /** An uncached resolution fails exactly when neither the disk nor the
      registry phase finds sn.exe. */
  lemma GetPathFailsExactlyWhenBothPhasesMiss(r: Resolver)
    requires r.cached.None?
    ensures GetPath(r).result.Err? <==>
      GetFromDisc(r.fileSystem, r.environment).None?
      && GetFromRegistry(r.fileSystem, r.environment, r.registry).None?
  {
  }

  /** Memoization: after a successful call, the next call returns the identical
      path and leaves the resolver as it is. `Probes` of a cached resolver is
      empty by definition; that no collaborator is consulted is shown by
      `CachedPathIgnoresCollaborators`. */
  lemma GetPathMemoized(r: Resolver)
    requires GetPath(r).result.Ok?
    ensures GetPath(GetPath(r).resolver) == Resolution(GetPath(r).result, GetPath(r).resolver)
    ensures Probes(GetPath(r).resolver) == []
  {
  }

  /** A cached path is returned whatever the file system, environment and
      registry now say: none of them is consulted. */
  lemma CachedPathIgnoresCollaborators(r: Resolver, fs': FileSystem, env': CakeEnvironment, registry': Registry)
    requires r.cached.Some?
    ensures GetPath(r.(fileSystem := fs', environment := env', registry := registry')).result
         == GetPath(r).result
  {
  }

  /** Disk precedence: when the disk candidate exists it is the answer, it is the
      only file probed, and the registry is irrelevant. */
  lemma DiscTakesPrecedence(r: Resolver, registry': Registry)
    requires r.cached.None? && r.fileSystem.exist(DiscCandidates(r.environment)[0])
    ensures GetPath(r).result == Ok(DiscCandidates(r.environment)[0])
    ensures GetPath(r.(registry := registry')).result == GetPath(r).result
    ensures Probes(r) == DiscCandidates(r.environment)
  {
    var files := Candidates(r);
    assert files[0] == DiscCandidates(r.environment)[0];
  }

  /** A failure is not cached: once the disk candidate appears, the same
      resolver finds it on the next call. */
  lemma FailureIsNotCached(r: Resolver, fs': FileSystem)
    requires GetPath(r).result.Err?
    requires fs'.exist(DiscCandidates(r.environment)[0])
    ensures GetPath(GetPath(r).resolver.(fileSystem := fs')).result == Ok(DiscCandidates(r.environment)[0])
  {
  }

  /** The outcome of `GetPath` depends on the file system only at the files it
      probes: any file system that agrees there yields the same outcome after
      the same probes. */
  lemma GetPathDependsOnlyOnProbes(r: Resolver, fs': FileSystem)
    requires forall p :: p in Probes(r) ==> fs'.exist(p) == r.fileSystem.exist(p)
    ensures GetPath(r.(fileSystem := fs')).result == GetPath(r).result
    ensures Probes(r.(fileSystem := fs')) == Probes(r)
  {
    if r.cached.None? {
      var r' := r.(fileSystem := fs');
      assert Candidates(r') == Candidates(r);
      FirstExistingDependsOnlyOnProbes(r.fileSystem, fs', Candidates(r));
      GetPathIsFirstExisting(r);
      GetPathIsFirstExisting(r');
    }
  }

  /** The SDK layout of one installation: `Windows\<version>\<tools key>` with
      `InstallationFolder` set to `folder`. */
  function SdkLayout(version: string, is64Bit: bool, folder: string): RegistryKey {
    var tools := RegistryKey([], map[InstallationFolder := StringValue(folder)]);
    var sdk := RegistryKey([SubKey(FxKeyName(is64Bit), Some(tools))], map[]);
    RegistryKey([SubKey(version, Some(sdk))], map[])
  }

  /** The layout's only sub-key proposes sn.exe in `folder`. */
  lemma SdkLayoutProposes(version: string, is64Bit: bool, folder: string)
    requires !IsNullOrWhiteSpace(Some(folder))
    ensures CandidatePath(SdkLayout(version, is64Bit, folder), version, is64Bit) == Some(ToolIn(folder))
  {
    var tools := RegistryKey([], map[InstallationFolder := StringValue(folder)]);
    var sdk := RegistryKey([SubKey(FxKeyName(is64Bit), Some(tools))], map[]);
    OpenSingleEntry(version, sdk);
    OpenSingleEntry(FxKeyName(is64Bit), tools);
    assert FxKey(SdkLayout(version, is64Bit, folder), version, is64Bit) == Some(tools);
    assert StringValueOf(tools, InstallationFolder) == Some(folder);
  }

  /** The registry phase reads that layout: it proposes sn.exe in `folder` and
      returns it when it exists. */
  lemma SdkLayoutIsScanned(fs: FileSystem, env: CakeEnvironment, version: string, folder: string)
    requires !IsNullOrWhiteSpace(Some(folder))
    requires fs.exist(ToolIn(folder))
    ensures GetFromRegistry(fs, env, Registry(Nested(SdkRegistryPath,
              SdkLayout(version, env.is64BitOperativeSystem, folder)))) == Some(ToolIn(folder))
  {
    var is64 := env.is64BitOperativeSystem;
    var windows := SdkLayout(version, is64, folder);
    SdkLayoutProposes(version, is64, folder);
    assert SdkCandidate(fs, is64, windows, version) == Some(ToolIn(folder));
    assert SubKeyNames(windows) == [version];
    assert [version][1..] == [];
  }

  /** The registry phase finds an installation: with the disk candidate
      missing, an SDK entry under `Software\Microsoft\Microsoft SDKs\Windows`
      whose tools key names a folder holding sn.exe resolves to that file, and
      the file is cached. */
  lemma RegistryInstallationIsFound(fs: FileSystem, env: CakeEnvironment, version: string, folder: string)
    requires !fs.exist(DiscCandidates(env)[0])
    requires !IsNullOrWhiteSpace(Some(folder))
    requires fs.exist(ToolIn(folder))
    ensures var registry := Registry(Nested(SdkRegistryPath, SdkLayout(version, env.is64BitOperativeSystem, folder)));
      GetPath(Resolver(fs, env, registry, None))
        == Resolution(Ok(ToolIn(folder)), Resolver(fs, env, registry, Some(ToolIn(folder))))
  {
    SdkLayoutIsScanned(fs, env, version, folder);
    assert GetFromDisc(fs, env).None?;
  }

  /** With sn.exe nowhere on disk, resolution fails with the fixed message and
      the resolver stays unresolved. */
  lemma NothingInstalledFails(r: Resolver)
    requires r.cached.None?
    requires forall p :: !r.fileSystem.exist(p)
    ensures GetPath(r) == Resolution(Err(CakeError("Failed to find sn.exe.")), r)
  {
    GetPathIsFirstExisting(r);
  }
}
