# Cake.StrongNameTool: locating and driving sn.exe

This project models the core of the Cake add-in that wraps the .NET strong-name
tool `sn.exe`.

- **Resolver.** It finds `sn.exe`: first at one architecture-dependent place under
  the 32-bit program-files directory, then through the sub-keys of
  `HKLM\Software\Microsoft\Microsoft SDKs\Windows`. It caches the first path it finds.
- **Runner.** It validates a request, makes the assembly path absolute, checks
  that the assembly exists, and builds the exact argument tokens for `verify`
  (`-v` / `-vf`) or `resign` (`-Rca`).
- **Aliases.** The `StrongNameReSign` and `StrongNameVerify` overloads check
  for nulls in a fixed order, then run the tool once per assembly, in order.
  They stop at the first failure.

Every thrown exception becomes an `Err` (`ArgumentNull(param)`,
`CakeError(message)` or `NullReference`). Every C# null becomes `None`.

The host services are data or function-valued fields:

- the file system is an `exist` oracle;
- the environment gives the program-files directory, the bitness and the
  working directory;
- the registry is an ordered tree of keys with optional values;
- the Cake `Tool<T>` base class that locates and launches the process is the
  `ToolHost` oracle, from settings and argument tokens to success or an error.

The resolver is a value. `GetPath` returns the outcome together with the
resolver to use next, so the C# cache field becomes explicit state.

Files:

- `outcomes.dfy`: `Option`, `Result`, `Error`.
- `paths.dfy`: opaque paths, `Combine` and `MakeAbsolute`.
- `collaborators.dfy`: file system, environment, registry, and `IsNullOrWhiteSpace`.
- `resolver.dfy`: `StrongNameResolver`.
- `runner.dfy`: `StrongNameToolRunner`.
- `aliases.dfy`: the loop and overload shape shared by both verbs.
- `resign_aliases.dfy`, `verify_aliases.dfy`: the two alias classes.

The model follows the code as written:

- There is exactly one disk candidate per architecture, under `v7.0A`. There is
  no list of SDK versions or path shapes.
- The registry scan reads only `InstallationFolder` under
  `WinSDK-NetFx40Tools[-x64]`. It has no `CurrentInstallFolder` fallback.
- A failed resolution is not cached. The next call probes again.
- The runner checks that the assembly exists before it checks the container.
  So `resign` on a missing file without a container reports the missing file.
- A command other than `verify` or `resign` yields an empty argument list, not
  an error. A null command fails with a null reference once the file check passes.

## Model

| member | source | states |
|---|---|---|
| StrongNameResolver.New | src/cake.strongnametool/StrongNameToolResolver.cs:25-44 | a null file system is reported first, then a null registry, then a null environment, each by parameter name; a new resolver has nothing cached and satisfies the state invariant |
| StrongNameResolver.FirstExisting | src/cake.strongnametool/StrongNameToolResolver.cs:92 | the result is absent exactly when no listed file exists; otherwise it is a listed file that exists and every earlier file does not |
| StrongNameResolver.FirstExistingAppend | src/cake.strongnametool/StrongNameToolResolver.cs:57 | searching disk candidates followed by registry candidates answers from the second list only when the first has no hit |
| StrongNameResolver.ProbedUntilFoundAppend | src/cake.strongnametool/StrongNameToolResolver.cs:57 | the registry candidates are probed only when no disk candidate exists, and then after all disk candidates |
| StrongNameResolver.FirstExistingDependsOnlyOnProbes | src/cake.strongnametool/StrongNameToolResolver.cs:92 | any file system that agrees on the files actually probed gives the same answer with the same probes |
| StrongNameResolver.DiscCandidates | src/cake.strongnametool/StrongNameToolResolver.cs:73-89 | exactly one candidate; it lies under the 32-bit program-files directory and names sn.exe |
| StrongNameResolver.DiscCandidateByBitness | src/cake.strongnametool/StrongNameToolResolver.cs:78-89 | the candidate is sn.exe in `NETFX 4.0 Tools\x64\` on a 64-bit operating system and in `NETFX 4.0 Tools\` otherwise |
| StrongNameResolver.GetFromDisc | src/cake.strongnametool/StrongNameToolResolver.cs:70-93 | yields the single candidate if and only if it exists |
| StrongNameResolver.FxKey | src/cake.strongnametool/StrongNameToolResolver.cs:111-122 | the tools key is the first sub-key named `WinSDK-NetFx40Tools-x64` (64-bit) or `WinSDK-NetFx40Tools` (otherwise) of the first listed SDK sub-key of that name, when both can be opened; any key returned is found that way; an unlisted SDK sub-key gives none |
| StrongNameResolver.CandidatePath | src/cake.strongnametool/StrongNameToolResolver.cs:124-131 | a sub-key proposes a path if and only if its tools key exists and its InstallationFolder is a string that is not empty or white space; the path is sn.exe in that folder |
| StrongNameResolver.SdkCandidate | src/cake.strongnametool/StrongNameToolResolver.cs:124-136 | a sub-key yields a hit if and only if it proposes a path and that path exists; a blank or missing folder is skipped, not an error |
| StrongNameResolver.ScanSdkKeys | src/cake.strongnametool/StrongNameToolResolver.cs:108-139 | the loop finds nothing if and only if no sub-key yields a hit; a found path exists and names sn.exe |
| StrongNameResolver.ScanIsFirstExisting | src/cake.strongnametool/StrongNameToolResolver.cs:108-139 | the sub-key loop equals a search of the proposed paths, in enumeration order, for the first one that exists: the first hit wins and scanning continues past misses |
| StrongNameResolver.GetFromRegistry | src/cake.strongnametool/StrongNameToolResolver.cs:99-142 | an absent SDK root key gives nothing; otherwise nothing if and only if no sub-key yields a hit; a found path exists |
| StrongNameResolver.SdkRoot | src/cake.strongnametool/StrongNameToolResolver.cs:101-106 | the SDK root is the `Windows` sub-key of the key at `Software\Microsoft\Microsoft SDKs`, and is absent when any key along that path is |
| StrongNameResolver.GetPath | src/cake.strongnametool/StrongNameToolResolver.cs:50-64 | a cached path is returned unchanged and nothing else is touched; a failure carries "Failed to find sn.exe." and caches nothing; a hit is cached; the invariant "cached path exists and names sn.exe" is preserved, so every path returned exists and names sn.exe |
| StrongNameResolver.GetPathFailsExactlyWhenBothPhasesMiss | src/cake.strongnametool/StrongNameToolResolver.cs:57-61 | an uncached resolution fails if and only if neither the disk phase nor the registry phase finds sn.exe |
| StrongNameResolver.GetPathIsFirstExisting | src/cake.strongnametool/StrongNameToolResolver.cs:57-61 | an uncached resolution is the first existing file among the disk candidate followed by the registry candidates, or the not-found error |
| StrongNameResolver.GetPathMemoized | src/cake.strongnametool/StrongNameToolResolver.cs:52-55 | after a success the next call returns the identical path and leaves the state unchanged |
| StrongNameResolver.CachedPathIgnoresCollaborators | src/cake.strongnametool/StrongNameToolResolver.cs:52-55 | with a cached path the outcome does not depend on the file system, environment or registry |
| StrongNameResolver.DiscTakesPrecedence | src/cake.strongnametool/StrongNameToolResolver.cs:57 | when the disk candidate exists it is returned whatever the registry holds, and it is the only file probed |
| StrongNameResolver.FailureIsNotCached | src/cake.strongnametool/StrongNameToolResolver.cs:57-61 | after a failed call, the same resolver finds the disk candidate once it exists |
| StrongNameResolver.GetPathDependsOnlyOnProbes | src/cake.strongnametool/StrongNameToolResolver.cs:57-61 | the outcome depends on the file system only at the files it probes: any file system that agrees there gives the same outcome after the same probes |
| StrongNameResolver.NothingInstalledFails | src/cake.strongnametool.test/Unit/StrongNameResolverTests.cs:86-111 | with sn.exe nowhere, resolution fails with exactly "Failed to find sn.exe." and stays unresolved |
| StrongNameResolver.SdkLayoutProposes | src/cake.strongnametool/StrongNameToolResolver.cs:111-131 | the layout's version key proposes sn.exe in its non-blank `InstallationFolder` |
| StrongNameResolver.SdkLayoutIsScanned | src/cake.strongnametool/StrongNameToolResolver.cs:101-135 | a registry holding `Software\Microsoft\Microsoft SDKs\Windows\<version>\<tools key>` with a non-blank `InstallationFolder` whose sn.exe exists yields that sn.exe |
| StrongNameResolver.RegistryInstallationIsFound | src/cake.strongnametool/StrongNameToolResolver.cs:57-63 | with the disk candidate missing, such a registry entry resolves to its sn.exe, which is cached |
| StrongNameToolRunner.New | src/cake.strongnametool/StrongNameToolRunner.cs:28-36 | an injected resolver is kept; otherwise a fresh, unresolved resolver over the same file system, environment and registry, and a null registry fails with "registry" |
| StrongNameToolRunner.GetToolName | src/cake.strongnametool/StrongNameToolRunner.cs:118-121 | the tool name is "sn", and it prefixes both runner error messages |
| StrongNameToolRunner.GetToolExecutableNames | src/cake.strongnametool/StrongNameToolRunner.cs:127-130 | the only executable name is "sn.exe", the file named by every registry candidate and by every path a valid resolver holds |
| StrongNameToolRunner.DecodeEncode | src/cake.strongnametool/StrongNameToolRunner.cs:84-108 | every verify or resign invocation is read back from its tokens |
| StrongNameToolRunner.EncodeDecode | src/cake.strongnametool/StrongNameToolRunner.cs:84-108 | a token list that reads as an invocation is exactly that invocation's tokens |
| StrongNameToolRunner.GetArguments | src/cake.strongnametool/StrongNameToolRunner.cs:70-112 | a missing assembly fails with "sn: The assembly '<path>' do not exist." for every command; `verify` gives `-v` or `-vf` and the quoted absolute path; `resign` without a container fails with "sn: Container is required but not specified.", else gives `-Rca`, the quoted path and the container; any other command gives no tokens |
| StrongNameToolRunner.TargetPath | src/cake.strongnametool/StrongNameToolRunner.cs:55-58 | an absolute path is kept; a relative one is resolved against the working directory, ends with the given path, and is rooted when the working directory is |
| StrongNameToolRunner.Run | src/cake.strongnametool/StrongNameToolRunner.cs:44-61 | a null assembly path is reported before null settings; argument errors are returned before the base class runs; a base-class failure is returned unchanged; success means the base class ran with exactly the built tokens |
| StrongNameToolRunner.ValidationPrecedesLaunch | src/cake.strongnametool/StrongNameToolRunner.cs:60 | when the arguments cannot be built, the outcome is that error whatever the base class would do |
| StrongNameToolRunner.VerifyQuotesAbsolutePath | src/cake.strongnametool/StrongNameToolRunner.cs:81-92 | `verify` on an existing assembly quotes its absolute form, relative input or not |
| StrongNameToolRunner.ResignQuotesAbsolutePath | src/cake.strongnametool/StrongNameToolRunner.cs:94-108 | `resign` with a container on an existing assembly quotes its absolute form and appends the container |
| StrongNameToolRunner.GetAlternativeToolPaths | src/cake.strongnametool/StrongNameToolRunner.cs:137-143 | the single alternative is exactly the resolver's answer, and under the resolver invariant it exists and names the executable; a resolver failure propagates as the not-found error; the resolver's cache is carried forward |
| Paths.Join | src/cake.strongnametool/StrongNameToolResolver.cs:130 | joining keeps the directory as prefix and the name as suffix, and a rooted directory stays rooted |
| Paths.MakeAbsolute | src/cake.strongnametool/StrongNameToolRunner.cs:55-58 | a rooted path is unchanged; against a rooted working directory the result is rooted and ends with the input |
| Paths.MakeAbsoluteIdempotent | src/cake.strongnametool/StrongNameToolRunner.cs:92 | making a path absolute twice is making it absolute once |
| Collaborators.OpenKey | src/cake.strongnametool/StrongNameToolResolver.cs:111 | the first listed sub-key of that name is the one opened, or nothing when it cannot be opened; anything opened is found that way; an unlisted name opens nothing |
| Collaborators.OpenPath | src/cake.strongnametool/StrongNameToolResolver.cs:101 | the empty path is the key itself, and a one-segment path is that one sub-key lookup |
| Collaborators.OpenPathAppend | src/cake.strongnametool/StrongNameToolResolver.cs:101 | opening `a\b` opens `a` and then `b` from there; a key missing along `a` makes the whole lookup fail |
| Collaborators.Nested | src/cake.strongnametool/StrongNameToolResolver.cs:101 | a key laid out along a path is opened by that path, segment by segment |
| Collaborators.StringValueOf | src/cake.strongnametool/StrongNameToolResolver.cs:126 | a value reads as a string exactly when it is present and of string type |
| ToolAliases.AsFilePaths | src/cake.strongnametool/StrongNameReSignToolAliases.cs:111 | each string becomes one path, same length, same order |
| ToolAliases.RunEach | src/cake.strongnametool/StrongNameReSignToolAliases.cs:152-156 | the completed runs are a prefix of the input, in order; without failure every assembly ran; a failure is the failure of the first assembly not completed |
| ToolAliases.RunEachAppend | src/cake.strongnametool/StrongNameVerifyToolAliases.cs:89-93 | running over a concatenation runs the second part only if the first completed entirely |
| ToolAliases.ForPaths | src/cake.strongnametool/StrongNameReSignToolAliases.cs:137-157 | a null context is reported first, then null assemblies, then null settings; a context without a registry then fails with "registry" before any assembly; otherwise one runner runs every assembly |
| ToolAliases.SingleAssemblyIsOneRun | src/cake.strongnametool/StrongNameReSignToolAliases.cs:73-81 | a single assembly is exactly one run of the runner, or the runner's construction error |
| ToolAliases.RunnerFor | src/cake.strongnametool/StrongNameReSignToolAliases.cs:152 | a runner is built exactly when the context has a registry, from the context's collaborators, with a fresh unresolved resolver over that registry; otherwise the error is a null "registry" |
| StrongNameReSignToolAliases.StrongNameReSignString | src/cake.strongnametool/StrongNameReSignToolAliases.cs:42-49 | a null assembly is reported as "assembly" before the context is looked at; otherwise it is the single-path overload on that path |
| StrongNameReSignToolAliases.StrongNameReSignPath | src/cake.strongnametool/StrongNameReSignToolAliases.cs:73-81 | a null assembly is reported as "assembly"; otherwise it is the sequence overload on a one-element sequence |
| StrongNameReSignToolAliases.StrongNameReSignStrings | src/cake.strongnametool/StrongNameReSignToolAliases.cs:105-113 | a null sequence is reported as "assemblies"; otherwise it is the sequence overload on the same files in the same order |
| StrongNameReSignToolAliases.StrongNameReSignPaths | src/cake.strongnametool/StrongNameReSignToolAliases.cs:137-157 | context, assemblies and settings are checked for null in that order; a context without a registry then fails with "registry" before any assembly; otherwise one runner runs each assembly in order: every completed entry is that assembly's run, all complete unless one fails, and the failure is the run of the first assembly not completed |
| StrongNameReSignToolAliases.EachAssemblyIsResigned | src/cake.strongnametool/StrongNameReSignToolAliases.cs:152-156 | every processed assembly got exactly `-Rca "<absolute path>" <container>`, in input order |
| StrongNameReSignToolAliases.NoContainerResignsNothing | src/cake.strongnametool/StrongNameToolRunner.cs:94-101 | without a container no assembly is re-signed: the first one already fails, with the container message when it exists |
| StrongNameVerifyToolAliases.StrongNameVerifyString | src/cake.strongnametool/StrongNameVerifyToolAliases.cs:24-31 | a null assembly is reported as "assembly" before the context is looked at; otherwise it is the single-path overload |
| StrongNameVerifyToolAliases.StrongNameVerifyPath | src/cake.strongnametool/StrongNameVerifyToolAliases.cs:40-48 | a null assembly is reported as "assembly"; otherwise it is the sequence overload on a one-element sequence |
| StrongNameVerifyToolAliases.StrongNameVerifyStrings | src/cake.strongnametool/StrongNameVerifyToolAliases.cs:57-65 | a null sequence is reported as "assemblies"; otherwise it is the sequence overload on the same files in the same order |
| StrongNameVerifyToolAliases.StrongNameVerifyPaths | src/cake.strongnametool/StrongNameVerifyToolAliases.cs:74-94 | context, assemblies and settings are checked for null in that order; a context without a registry then fails with "registry" before any assembly; otherwise one runner runs each assembly in order: every completed entry is that assembly's run, all complete unless one fails, and the failure is the run of the first assembly not completed |
| StrongNameVerifyToolAliases.EachAssemblyIsVerified | src/cake.strongnametool/StrongNameVerifyToolAliases.cs:89-93 | every processed assembly got exactly `-v` (or `-vf` when forced) and its quoted absolute path, in input order |

## Left out

- StrongNameCreateToolAliases.cs: it calls a `Run(FilePath)` overload that the runner does not define, so there is no behaviour to model.
- The Cake `Tool<T>` base class. It covers tool-path lookup through settings and the globber, process launch and exit codes. Here it is the `ToolHost` oracle. When it asks `GetAlternativeToolPaths`, and so the resolver, is decided by that base class. So the resolver's cache is not threaded through the per-assembly runs of a batch.
- Cake path semantics. `Combine`, `CombineWithFilePath` and `MakeAbsolute` are modelled as `Path.Combine`-style joins. Separator normalisation, `..` collapsing and the exception for combining with an absolute file path are not modelled.
- `ProcessArgumentBuilder` rendering. Tokens stay `Plain` or `Quoted`; the quoting and escaping of the final command line are not modelled.
- The `IStrongNameToolResolver` interface. The runner holds the concrete resolver value, so an injected test double is any `Resolver` value, not arbitrary code.
- StrongNameToolRunner.GetAlternativeToolPaths: the empty sequence offered for a null path is not modelled. The concrete resolver throws instead of returning null, so only an injected resolver, which is not modelled, could reach that branch.
- StrongNameToolSettings.cs is the `Settings` datatype, with `Container` and `ForceVerification`. The fields it inherits from Cake's `ToolSettings` (tool path, working directory and so on) are read only by the base class.
- The test project's assertion helpers (src/cake.strongnametool.test/Assert.cs). They are xUnit wrappers with no behaviour of the add-in.
- The base `Tool<T>` constructor's own null checks are not shown. The context's file system, environment and process host are modelled as always present; a null one would be rejected by that constructor, which is not shown. The registry does not reach that constructor, so it stays optional: the resolver the runner builds rejects a null one.
- Collaborators.OpenKey: compares key and value names exactly. The Windows registry compares them case-insensitively, so a hive that spells a key differently (such as `SOFTWARE`) is found by the add-in but not by the model. The registry is given as the add-in names its keys.
- The verify aliases pass `context.Globber` and the resign aliases pass `context.Tools` to the runner. That argument only reaches the base class.
- Null strings inside the string-sequence overloads. Converting them to paths fails inside Cake's `FilePath` constructor, which is not shown. Because `Select` is lazy, that failure would come only when the loop reaches the element. Elements of a path sequence may be null, and those fail in `Run` with "assemblyPath".
- Registry key disposal (`using`) and the inner keys that are never disposed. These are resource lifetime with no effect on results.
- Culture-specific `string.Format`. The messages are plain concatenations.
- Concurrency. The cache is written from a single thread.
- StrongNameReSignToolAliases.EachAssemblyIsResigned: assumes a rooted working directory. With a relative one the runner makes the path absolute twice, and the quoted path is that double join.
- StrongNameVerifyToolAliases.EachAssemblyIsVerified: assumes a rooted working directory, for the same reason.
- StrongNameToolRunner.VerifyQuotesAbsolutePath: assumes a rooted working directory, for the same reason.
- StrongNameToolRunner.ResignQuotesAbsolutePath: assumes a rooted working directory, for the same reason.
- StrongNameResolver.RegistryCandidates: states only the length bound; what each candidate is comes from `ScanIsFirstExisting` and `CandidatePath`.
