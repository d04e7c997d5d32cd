# stevelock in Dafny

stevelock runs a command inside an operating-system sandbox. The child may write
only to the writable directories it is given, may read everywhere except under
`/Users`, plus any extra readable paths, and may use the network only when asked
to. This project models the parts of stevelock that decide what happens, and proves
properties about them:

- **The native handle, `struct sb`**, on both back ends:
  - `Handle` holds the state machine the two back ends share: the sentinels, spawn at
    most once, the cached exit code of wait, kill refused after wait, and the teardown
    of destroy.
  - `LinuxSandbox` covers the Linux side. `Landlock` computes the access masks and
    the ordered rule plan, and `LinuxSandbox` builds the ruleset from them.
  - `DarwinSandbox` covers the macOS side. It caches the sandbox library and writes
    the profile into its fixed buffer, and `Seatbelt` is the profile text.
  - `Os` is the kernel as the parent sees it. Every system call is a method with an
    unpredictable result. It appends to a trace and keeps the set of open descriptors,
    so contracts can state which calls were made and which descriptors stay open.
- **The Node-API binding** (`Napi`): the external that wraps a nullable context, the
  "sandbox destroyed" guard, the finalizer, the argument copies and their release.
  - The binding calls a newer native context API that no file of the repository
    defines. `Napi.Native` stands for it.
- **The TypeScript wrapper** (`Api`): the addon selection, the options handed to the
  binding, and the sandbox object with its `destroyed` flag and its "not spawned"
  guard.
- **Target naming** (`Platform`), **the release version tool** (`Version`) and
  **the CMake builder** (`CMake`).
- **The helpers of the native test suite** (`TestKit`).

The shared `Option` and `Result` types are in `Wrappers`.

Several hazards of the code are stated as proved facts instead of being hidden:

- **Pipe leak.** `LinuxSandbox.Spawn` and `DarwinSandbox.Spawn` state that a failed
  `pipe()` leaves the pipes already opened in the open set.
- **Unchecked profile buffer.** `DarwinSandbox.BuildProfile` needs the profile to fit
  its 2048-character buffer. `Seatbelt.ProfileCanExceedBuffer` shows that the options
  alone do not guarantee it.
- **Destroy frees its own guard.** `Handle.Destroy` frees the handle, so a second
  `sb_destroy` on the same pointer cannot be called in the model. The guards that do
  make destroy idempotent are the binding's (`Napi.DestroyTwiceThenFinalize`) and the
  wrapper's (`Api.DestroyTwice`).
- **Option names differ.** The binding reads `read`, `write` and `network`, but the
  wrapper sends `writable`, `allowNet` and `readable`.
  - `Napi.WrapperOptionsRejected` shows the binding never reaches `sb_create` with
    the wrapper's options.
  - `Api.Create` shows the returned object then wraps `undefined`.
- **Two naming orders.** The wrapper names triples os-arch-libc and the release
  tooling arch-os-libc. `Api.NamingOrdersDiffer` shows the package the wrapper looks
  for is never the one published for that target.
- **Leaked scope copies.** When `napi_create_external` fails, `sl_napi_create`
  returns before its cleanup, so the scope copies leak. `Napi.Create` names them in
  `leaked`.
- **Type mismatches in `sl_napi_validate_cb`.** A mismatch stops the check and leaves
  the status ok. `Napi.ValidateCb` states where it stopped.

## Model

| member | source | states |
|---|---|---|
| `Handle.Bounded` | src/native/platform/linux.c:98-112 | what snprintf leaves in the 256-byte errbuf: the whole message when it fits, otherwise exactly its first 255 characters |
| `Handle.Sandbox.constructor` | src/native/platform/linux.c:237-243 | a new handle has pid and all three descriptors at -1, is not spawned, not exited, not destroyed and has no error |
| `Handle.Pid` | src/native/platform/linux.c:349 | -1 exactly for a null or unspawned handle, otherwise the positive pid of the child |
| `Handle.StdinFd` | src/native/platform/linux.c:350 | -1 exactly for a null or unspawned handle, otherwise the stored stdin descriptor |
| `Handle.StdoutFd` | src/native/platform/linux.c:351 | -1 exactly for a null or unspawned handle, otherwise the stored stdout descriptor |
| `Handle.StderrFd` | src/native/platform/linux.c:352 | -1 exactly for a null or unspawned handle, otherwise the stored stderr descriptor |
| `Handle.SpawnedDescriptorsDistinct` | src/native/platform/linux.c:340-346 | the three descriptors of a spawned handle are three different descriptors |
| `Handle.Error` | src/native/platform/linux.c:401-404 | "null sandbox" for a null handle, no message exactly when errbuf is empty, otherwise errbuf |
| `Handle.Wait` | src/native/platform/linux.c:354-369 | -1 with no system call for a null or unspawned handle; the cached code with no waitpid once reaped; otherwise one waitpid, whose failure records "waitpid: ...", keeps the handle unreaped with its exit code untouched and returns -1, and whose success caches and returns the exit status, or 128 plus the signal |
| `Handle.Kill` | src/native/platform/linux.c:371-379 | refused (-1, no signal) for a null, unspawned or already reaped handle; otherwise exactly one signal, with the "kill: ..." error on failure; the lifecycle fields never change |
| `Handle.Destroy` | src/native/platform/linux.c:381-399 | nothing for a null or destroyed handle; otherwise SIGKILL and waitpid only for a running child that was not reaped, a close of each descriptor >= 0, those descriptors leave the open set, and the handle is freed |
| `Handle.TeardownOfSpawned` | src/native/platform/linux.c:381-399 | in the teardown of a spawned handle, each of its three descriptors is closed exactly once, and SIGKILL is sent once if the child was not reaped and never otherwise |
| `Handle.TeardownByState` | src/native/platform/linux.c:381-399 | destroying a handle that was never spawned makes no system call; for a spawned one, as in TeardownOfSpawned |
| `Handle.AdoptChild` | src/native/platform/linux.c:334-346 | the parent closes the child's three pipe ends and records pid, pin[1], pout[0] and perr[0], with exited cleared |
| `Handle.CloseTrio` | src/native/platform/linux.c:288-295 | a failed fork closes all six pipe ends in order, and none of them stays open |
| `Os.ExitCode` | src/native/platform/linux.c:354-369 | the exit status of a child that exited, and 128 plus the signal for a killed one, always within 0..255 |
| `Os.OpenThreePipes` | src/native/platform/linux.c:280-281 | up to three pipe() calls, stopping at the first failure; the descriptors they opened are all still open afterwards, and on success they are six fresh distinct descriptors |
| `Landlock.FsMask` | src/native/platform/linux.c:77-94 | 0 exactly when the ABI query fails; otherwise a subset of all rights that keeps the read rights, has REFER exactly from ABI 2 and TRUNCATE exactly from ABI 3 |
| `Landlock.NetMask` | src/native/platform/linux.c:166-174 | TCP bind and connect are handled (denied) exactly when the network is not allowed and the ABI is at least 4 |
| `Landlock.PlannedRulesLayout` | src/native/platform/linux.c:183-215 | the rules are "/" read-only, then each writable directory with the full mask, then "/dev" with the full mask, then each readable path read-only; no read-only rule carries a write right |
| `LinuxSandbox.StoredReadable` | src/native/platform/linux.c:254-261 | the first readable_count readable paths are kept only when the count is positive and the list present, otherwise none |
| `LinuxSandbox.CopyList` | src/native/platform/linux.c:248-250 | the copy loop yields exactly the first `count` entries |
| `LinuxSandbox.Create` | src/native/platform/linux.c:228-264 | no handle and no system call for null opts, a null writable list or a count below 1; one ABI query, and no handle exactly when it fails; otherwise a fresh unspawned handle that holds copies of the counted inputs |
| `LinuxSandbox.RuleError` | src/native/platform/linux.c:120-146 | the bounded "open(path, O_PATH): ..." or "landlock_add_rule(path): ..." message |
| `LinuxSandbox.AddPathRule` | src/native/platform/linux.c:120-146 | one rule is asked for; errbuf is unchanged on success and holds the refusal's message otherwise; the open set is unchanged |
| `LinuxSandbox.AddRules` | src/native/platform/linux.c:193-199 | one rule per path, in order, stopping at the first refused one, whose message is stored |
| `LinuxSandbox.AddPlannedRules` | src/native/platform/linux.c:183-215 | the rules asked for are a prefix of the plan, in plan order; all of the plan on success, and up to the first refusal otherwise |
| `LinuxSandbox.BuildRuleset` | src/native/platform/linux.c:152-224 | one of four outcomes: no Landlock, ruleset creation failed, every planned rule added with the ruleset left open and returned, or rules asked for up to a refusal and then the ruleset closed with -1 returned; each failure leaves its own message |
| `LinuxSandbox.Populate` | src/native/platform/linux.c:183-223 | after the ruleset is created, either every rule is added and the ruleset stays open, or the ruleset is closed at the first refusal |
| `LinuxSandbox.NoLandlock` | src/native/platform/linux.c:154-159 | a zero mask is the "no Landlock" outcome with "landlock not supported by this kernel" |
| `LinuxSandbox.NoRuleset` | src/native/platform/linux.c:176-181 | a failed ruleset creation is its own outcome with the "landlock_create_ruleset: ..." message |
| `LinuxSandbox.AbandonClosed` | src/native/platform/linux.c:185-215 | a refused rule makes build_ruleset close the ruleset and return -1 with that rule's message |
| `LinuxSandbox.PipeLeak` | src/native/platform/linux.c:281-285 | the close of the ruleset after a failed pipe() closes none of the pipe ends opened before it |
| `LinuxSandbox.ForkChild` | src/native/platform/linux.c:287-346 | a failed fork closes all six pipe ends and the ruleset with "fork: ..."; a successful one keeps the parent's three ends and records the child |
| `LinuxSandbox.Launch` | src/native/platform/linux.c:279-346 | a failed pipe() closes only the ruleset, with "pipe: ..."; then as ForkChild |
| `LinuxSandbox.SpawnFresh` | src/native/platform/linux.c:275-346 | the ruleset is built first and a failed build stops the spawn; otherwise the build was complete; after a pipe failure the already opened pipes stay open; on success exactly the parent's three descriptors are added to the open set |
| `LinuxSandbox.Spawn` | src/native/platform/linux.c:266-347 | refused with no system call for a null handle or command, and with "already spawned" and the state unchanged for a spawned handle; 0 exactly when the child was started; the handle stays valid; a failed ruleset build leaves the open set unchanged with the build's message; a failed pipe() leaves the pipes opened before it in the open set; a failed fork closes everything it opened; a started child is recorded as pid, stdin write end and stdout/stderr read ends, which are the only descriptors added to the open set |
| `Seatbelt.ReallowIff` | src/native/platform/darwin.c:94-100 | a path's read re-allow is written exactly when it is a writable directory starting with "/Users" |
| `Seatbelt.ProfileStartsWithHeader` | src/native/platform/darwin.c:80-92 | every profile starts with the version, deny-default, process, sysctl, mach, ipc and signal header, then the global read allow with the /Users deny |
| `Seatbelt.ProfileNetworkIff` | src/native/platform/darwin.c:117-120 | the profile ends with "(allow network*)" exactly when the network is allowed |
| `Seatbelt.ProfileWritesWritable` | src/native/platform/darwin.c:108-112 | every writable directory gets a file-write* subpath clause |
| `Seatbelt.ProfileReadsReadable` | src/native/platform/darwin.c:102-106 | every readable path gets a file-read* subpath clause |
| `Seatbelt.ProfileReallowsUsers` | src/native/platform/darwin.c:94-100 | a writable directory under /Users gets its reads back |
| `Seatbelt.ProfileCanExceedBuffer` | src/native/platform/darwin.c:73-122 | a single writable directory with a path as long as the buffer gives a profile longer than the 2048-byte buffer |
| `DarwinSandbox.Dylib.Load` | src/native/platform/darwin.c:30-45 | the first call tries the library once and caches 1 or 0; later calls return the cached value with no system call |
| `DarwinSandbox.Append` | src/native/platform/darwin.c:80-122 | one snprintf that fits: the text lands at the offset, a NUL follows, and the offset advances by its length |
| `DarwinSandbox.AppendPass` | src/native/platform/darwin.c:94-112 | one loop of build_profile appends the clause of each kept path, in order, after what was already written |
| `DarwinSandbox.WriteProfile` | src/native/platform/darwin.c:73-122 | the buffer ends up holding the concatenation of all the pieces, NUL-terminated |
| `DarwinSandbox.BuildProfile` | src/native/platform/darwin.c:63-123 | a fresh 2048-character buffer that holds exactly the profile of the options, NUL-terminated, given that the profile fits |
| `DarwinSandbox.Create` | src/native/platform/darwin.c:127-149 | no handle and the library untouched for null opts, a null writable list or a count below 1; otherwise no handle exactly when the library is not available, and a fresh unspawned handle holding the profile when it is |
| `DarwinSandbox.ForkChild` | src/native/platform/darwin.c:168-227 | a failed fork closes all six pipe ends with "fork: ..."; a successful one keeps the parent's three ends and records the child |
| `DarwinSandbox.SpawnFresh` | src/native/platform/darwin.c:162-227 | a failed pipe() closes nothing, so the pipes opened before it stay open; then as ForkChild |
| `DarwinSandbox.Spawn` | src/native/platform/darwin.c:151-228 | refused with no system call for a null handle or command, and with "already spawned" for a spawned handle; 0 exactly when the child was started; the handle stays valid; a failed pipe() closes nothing, so the pipes opened before it stay open; a failed fork closes all six ends; a started child is recorded as pid, stdin write end and stdout/stderr read ends, which are the only descriptors added to the open set |
| `Napi.GetHandle` | src/native/napi.c:45-53 | the wrapper exactly when the argument is an external whose context is set; "sandbox destroyed" for an external whose context was cleared |
| `Napi.Finalize` | src/native/napi.c:19-34 | destroys the context only while the wrapper still holds one, and always frees the wrapper |
| `Napi.FreeScope` | src/native/napi.c:62-76 | frees every copy and the array and zeroes the scope; nothing else is freed |
| `Napi.CopyStr` | src/native/napi.c:78-100 | a new live copy exactly for a string, and nothing allocated otherwise |
| `Napi.CopyScope` | src/native/napi.c:102-123 | success exactly for an array of strings, whose texts the scope then holds; every allocation, on success or failure, belongs to the scope |
| `Napi.ValidateCb` | src/native/napi.c:147-163 | a wrong argument count is a generic failure; a type mismatch stops the comparison but leaves the status ok |
| `Napi.Destroy` | src/native/napi.c:404-419 | a non-external argument throws n_destroy's own NAPI_CALL message, naming argv[0]; otherwise destroys a context that is still set, then clears it; a second call does nothing |
| `Napi.Get` | src/native/napi.c:321-363 | the handle error is thrown; otherwise the number returned is what the context's accessor answers |
| `Napi.GetBeforeSpawn` | src/index.ts:61-67 | on a freshly created sandbox, before any spawn, pid and each descriptor accessor answer -1: the context API's create gives a new context answering -1, and only a spawn of that context changes its answers |
| `Napi.Wait` | src/native/napi.c:367-381 | the exit code, or the context's error thrown when the code is negative |
| `Napi.Kill` | src/native/napi.c:385-400 | a non-number signal throws; a non-zero answer from sb_kill throws the context's error |
| `Napi.SpawnRequest` | src/native/napi.c:252-294 | a non-string command and any non-string element of an argument array each throw their own message; a value that is not an array counts as no arguments |
| `Napi.CopyArgv` | src/native/napi.c:279-294 | the copies made are the leading string elements; copying stops at the first element that is not a string |
| `Napi.Spawn` | src/native/napi.c:231-317 | every copy, the argv array and the command are freed on every path; it throws exactly when a message was set |
| `Napi.CreateRequest` | src/native/napi.c:165-203 | the options sb_create receives: read, write and network from an object; empty scopes when the lookups fail; nothing for a value of the wrong type |
| `Napi.WrapperOptionsRejected` | src/native/napi.c:185-203 | the object the TypeScript wrapper sends never reaches sb_create |
| `Napi.CopyOptions` | src/native/napi.c:185-203 | the scopes copied are those CreateRequest describes, and the scopes own every allocation |
| `Napi.Release` | src/native/napi.c:222-225 | the common exit frees both scopes |
| `Napi.Instantiate` | src/native/napi.c:205-220 | sb_create, then the wrapper; when the external cannot be made, the finalizer destroys the new context |
| `Napi.Create` | src/native/napi.c:165-226 | a handle exactly when the options were read, sb_create succeeded and the external was made; the scope copies are released except on the early return after a failed external |
| `Napi.DestroyTwiceThenFinalize` | src/native/napi.c:404-419 | destroy, destroy again, a call, then finalize: the context is destroyed exactly once and the call throws "sandbox destroyed" |
| `Api.IndexTriple` | src/index.ts:23-32 | a triple exactly for darwin or linux on arm64 or x64 |
| `Api.IndexTripleOrder` | src/index.ts:23-32 | the wrapper's triple is os-arch-libc, with apple on darwin and gnu otherwise |
| `Api.PkgOfTriple` | src/index.ts:12-21 | the package is the @stevelock scope prefix plus the triple, and empty exactly when the triple is |
| `Api.NamingOrdersDiffer` | src/index.ts:23-32 | for every supported target, the wrapper's triple and package differ from the published ones |
| `Api.Up` | src/index.ts:35-38 | going up n levels is a prefix of the path, and the root stays the root |
| `Api.Addon` | src/index.ts:34-46 | the prebuilt addon under node_modules if it exists, otherwise the one beside the host project if it exists, otherwise the local build; nothing exactly for an unsupported target |
| `Api.BindingOptions` | src/index.ts:80-85 | the object passed to the binding: the writable list, allowNet defaulting to false, and readable defaulting to [] |
| `Api.StringsOfStrs` | src/index.ts:80-85 | a list of strings sent as an array is read back unchanged |
| `Api.SandboxObject.Spawn` | src/index.ts:90-92 | forwards to the binding's spawn, with no arguments when none are given |
| `Api.SandboxObject.Query` | src/index.ts:94-108 | the handle error, or exactly the number the native accessor answers for the handle's context |
| `Api.SandboxObject.Stream` | src/index.ts:110-112 | "not spawned" is thrown exactly when the native descriptor is negative, otherwise that descriptor is returned |
| `Api.SandboxObject.Wait` | src/index.ts:162-164 | the binding's wait, passed through |
| `Api.SandboxObject.Kill` | src/index.ts:166-168 | the signal defaults to SIGTERM |
| `Api.SandboxObject.Destroy` | src/index.ts:170-174 | only the first call reaches the binding, which throws n_destroy's argv[0] message for a handle that is not an external; later ones return with nothing changed |
| `Api.Create` | src/index.ts:80-88 | the binding returns no handle for the wrapper's options, so the object wraps undefined and every later call fails to read the external |
| `Api.DestroyTwice` | src/index.ts:170-174 | two destroy() calls destroy the native context exactly once |
| `Platform.TripleInjective` | src/platform.ts:19 | the arch-os-libc triple determines the target |
| `Platform.PackageNameInjective` | src/platform.ts:20 | distinct targets have distinct package names |
| `Platform.PackageDirInjective` | src/platform.ts:21 | distinct targets have distinct package directories |
| `Platform.SupportedTargets` | src/platform.ts:12-17 | four distinct targets, and they are exactly the targets whose libc is apple on darwin and gnu on linux |
| `Platform.Detect` | src/platform.ts:23-36 | "unsupported os: ..." for any platform but linux and darwin, then "unsupported arch: ..." for any arch but x64 and arm64; otherwise the named target |
| `Platform.DetectSupported` | src/platform.ts:23-36 | detect succeeds exactly on the supported names, and what it returns is a supported target |
| `Version.Lookup` | tools/version.ts:35 | no value exactly when no entry has the key |
| `Version.Assign` | tools/version.ts:61-62 | the key gets the value, every other key keeps its value, and an existing key keeps its place |
| `Version.IndexOf` | tools/version.ts:73-74 | -1 exactly when the character is absent, otherwise its first position |
| `Version.Trim` | tools/version.ts:83 | the trimmed string is the slice of the input after its leading whitespace, with only whitespace after it, and neither starts nor ends with whitespace |
| `Version.TrimIsMiddle` | tools/version.ts:83 | any cut of a string into whitespace, a middle neither starting nor ending with whitespace, and whitespace gives exactly the trim |
| `Version.Split` | tools/version.ts:84 | at least one part, no part contains the separator, and the parts joined with the separator give back the string |
| `Version.SplitFirst` | tools/version.ts:84 | a leading separator-free part splits off as the first part |
| `Version.DigitsRoundTrip` | tools/version.ts:129-135 | a formatted number reads back to itself |
| `Version.NumberOf` | tools/version.ts:89-91 | Number() of a part: 0 for a blank part, the value of a digit string, and nothing for anything else |
| `Version.ParseCore` | tools/version.ts:72-80 | a prefix of the input with no '-' or '+', cut exactly at the first of them, or the whole input when neither occurs |
| `Version.ParseVersion` | tools/version.ts:82-103 | a version exactly when the trimmed core has three dot-separated parts that are all numbers, with their values |
| `Version.ParseDotted` | tools/version.ts:82-103 | three digit strings joined by dots parse to their values, and any of them may be empty |
| `Version.EmptyPartIsZero` | tools/version.ts:82-103 | "1..2" parses as 1.0.2 |
| `Version.FormatRoundTrip` | tools/version.ts:129-135 | a formatted version parses back to itself |
| `Version.Bumped` | tools/version.ts:129-135 | major gives (M+1).0.0, minor gives M.(m+1).0, and patch gives M.m.(p+1) |
| `Version.ResolveVersion` | tools/version.ts:105-136 | a parseable input is taken verbatim; anything but major, minor or patch is "invalid version bump"; for a bump, a root that is not an object, one without a string version and one whose version does not parse each give their own message naming the root manifest or the version, and otherwise the bump succeeds with the formatted bumped version, which parses back to the bumped current version |
| `Version.RewriteOptional` | tools/version.ts:40-47 | every key is kept in place; exactly the @stevelock/stevelock- entries get the new version |
| `Version.Manifest.BumpRootOptional` | tools/version.ts:34-50 | optionalDependencies is rewritten when it is an object, and nothing changes otherwise |
| `Version.RootRewriteKeepsKeys` | tools/version.ts:34-50 | the root rewrite keeps every key of the manifest and of its optional dependencies |
| `Version.BumpManifest` | tools/version.ts:52-70 | a manifest is rewritten exactly when it is an object with a string version; only the version changes, except that the root manifest also gets its optionalDependencies rewritten when they are an object; keys keep their order |
| `Version.RewrittenAreTargetPackages` | tools/version.ts:41-44 | every published platform package falls under the prefix the root rewrite moves |
| `Version.Touched` | tools/version.ts:146-152 | nothing is touched exactly when no manifest is rewritable |
| `Version.BumpAll` | tools/version.ts:146-152 | the loop collects exactly the names of the rewritten manifests, in order |
| `Version.Run` | tools/version.ts:138-156 | an empty argument is the usage error, a resolve error is passed on, and no manifest touched is an error; otherwise the touched names |
| `CMake.Initial` | tools/cmake.ts:37-45 | the fresh configuration: cwd and source at cwd, build dir cwd/.cache/build, no generator, Release, no defines |
| `CMake.Builder.constructor` | tools/cmake.ts:37-45 | a fresh builder holds the initial configuration and has spawned nothing |
| `CMake.DefineFlag` | tools/cmake.ts:65-68 | "-D", the key, "=", the value, each at its position |
| `CMake.DefineRoundTrip` | tools/cmake.ts:65-68 | a definition whose key has no '=' gives back its key and value |
| `CMake.ConfigureArgv` | tools/cmake.ts:75-85 | -S source -B buildDir, then -G generator only when one is set, then the build type, then the defines in order |
| `CMake.ActionArgv` | tools/cmake.ts:87-106 | the action and build dir, the option only when its value is given and non-empty, then --config and the build type |
| `CMake.TestArgv` | tools/cmake.ts:107-115 | ctest over the build dir with --output-on-failure, and -R name only when a name is given |
| `CMake.Check` | tools/cmake.ts:32-34 | an error exactly when the process did not exit with 0, naming the process and its code |
| `CMake.Builder.Source` | tools/cmake.ts:48-52 | cwd and source both become the value; the same builder is returned |
| `CMake.Builder.BuildDir` | tools/cmake.ts:53-56 | only the build dir changes; the same builder is returned |
| `CMake.Builder.Generator` | tools/cmake.ts:57-60 | only the generator changes; the same builder is returned |
| `CMake.Builder.BuildType` | tools/cmake.ts:61-64 | only the build type changes; the same builder is returned |
| `CMake.Builder.Define` | tools/cmake.ts:65-68 | the definition is appended after the existing ones; the same builder is returned |
| `CMake.Builder.DefineIf` | tools/cmake.ts:69-74 | the definition is appended only when the predicate holds, and nothing changes otherwise |
| `CMake.Builder.RunCMake` | tools/cmake.ts:27-35 | cmake with the arguments is spawned in cwd; a failure throws "cmake exited with code ..." |
| `CMake.Builder.Configure` | tools/cmake.ts:75-86 | cmake with the configure argv is spawned in cwd |
| `CMake.Builder.Build` | tools/cmake.ts:87-96 | cmake --build with the target option is spawned in cwd |
| `CMake.Builder.Install` | tools/cmake.ts:97-106 | cmake --install with the prefix option is spawned in cwd |
| `CMake.Builder.Test` | tools/cmake.ts:107-125 | ctest is spawned in cwd; a failure throws "ctest exited with code ..." |
| `CMake.Builder.Run` | tools/cmake.ts:126-135 | the built program is spawned from the build dir; a failure throws with its name |
| `CMake.ConfigureThenBuild` | tools/cmake.ts:47-106 | a chained builder spawns the expected configure and build command lines, in order |
| `TestKit.StateToOpts` | src/test/include/sl.h:183-195 | the tables, counts and network flag are copied field for field |
| `TestKit.Received` | src/test/include/sl.h:183-195 | the context API sees the counted leading entries of each table and the flag as a truth value |
| `TestKit.ReadFd` | src/test/include/sl.h:197-219 | capacity 0 returns empty and writes nothing; otherwise the chunks read land in order, fewer than capacity characters are used, a NUL follows them, and the rest of the buffer is unchanged; reading stops only when the buffer is full or a read yields nothing |
| `TestKit.FeedStdin` | src/test/include/sl.h:242-254 | written plus remaining is always the whole data; the child receives exactly the written prefix; writing stops only when everything is written or a write delivers nothing |
| `TestKit.StdinStep` | src/test/include/sl.h:242-263 | the child receives a prefix of the data, and stdin is closed exactly when asked |
| `TestKit.RunSpawned` | src/test/include/sl.h:242-274 | after a successful spawn: an optional kill, one wait, both outputs read within capacity, and one destroy |
| `TestKit.RunExec` | src/test/include/sl.h:221-275 | a failed create returns the initial result with spawn failed, kill 0 and wait -1; a failed spawn destroys the context and keeps wait at -1; no context outlives the call |
| `TestKit.PresentLen` | src/test/include/sl.h:351-357 | len <= max, the first len entries are present, and entry len is absent whenever len < max |
| `TestKit.CStrListLen` | src/test/include/sl.h:351-357 | the same, for a table of C strings ended by NULL |
| `TestKit.FixtureLen` | src/test/include/sl.h:359-373 | the same, for fixture tables ended by a NULL path |
| `TestKit.CasePath` | src/test/include/sl.h:382-387 | an absolute path is kept, and a relative one is joined onto the root |
| `TestKit.CasePathAbsolute` | src/test/include/sl.h:375-387 | the case path is absolute whenever the root is |

## Left out

- The child's side of `sb_spawn` is not modelled: dup2, no_new_privs, `landlock_restrict_self`, `sandbox_init` and execve. The command, argv and environment only reach the child. Which paths the kernel then blocks is decided by the OS.
- The results of system calls (pipe, fork, close, kill, waitpid, read, write and the Landlock calls) are nondeterministic. Process semantics are not modelled.
- `dlopen`/`dlsym` in `sb_load_dylib` are one nondeterministic outcome. Only the caching is modelled.
- Allocation failures (calloc, strdup, malloc, `sl_alloc`) are not modelled, and ownership of memory is ghost state.
- N-API value marshalling is not modelled. JavaScript values are a datatype, and the library calls are small functions over it.
- The newer native context API that napi.c and the tests call (`sl_ctx_t`, `sl_err_t`, the five-argument `sb_spawn`) is not defined by any file of the repository. It is the abstract `Napi.Native`, not the Linux or macOS handle. Only its non-zero failure code matters (`TestKit.SL_ERROR`). Its accessors are taken to answer -1 for a new context, as the Linux and macOS handles do, and to change only when that context is spawned.
- The stream pumps of `stdout()`/`stderr()` and src/cli.ts are asynchronous I/O wiring. A stream is represented by its descriptor.
- File reads and writes in version.ts are not modelled: manifests arrive parsed and leave as values. The `console.log` of the touched files is also left out.
- cmake.ts spawns processes whose exit status is a parameter: `None` stands for a process killed by a signal.
- `Version.NumberOf`: the hexadecimal, octal, binary, exponent and fractional forms that Number() also accepts are treated as non-numbers, so versions written that way are rejected.
- `Version.NumberOf`: parts are exact integers, not IEEE doubles. A part above 2^53 is not rounded as Number() rounds it, and a bumped part of 10^21 or more is printed in full where a template string prints exponent notation.
- `CMake.Initial`: path.join's normalisation of the build directory is not modelled. The directory is cwd followed by "/.cache/build".
- `CMake.Builder.Run`: path.join of the build directory and the program name is a plain join with "/".
- `Api.Up`: the addon paths are lists of path components, and the normalisation path.join does beyond going up is not modelled. The scoped package name is kept as one component, although its '/' makes it two; the existing-paths set uses the same encoding, so which addon is chosen is unaffected.
- `TestKit.CasePath`: `sp_fs_join_path` is not part of this model. The join is taken as exactly one '/' between root and path, and a NULL path is not modelled.
- `TestKit.ReadFd`: the descriptor is a `Source` of pending characters. The 32-bit arithmetic of `used` is not modelled because the buffer is shorter than 2^32.
- `DarwinSandbox.BuildProfile`: it requires that the profile fits the 2048-character buffer, which darwin.c never checks. The overflow itself is not modelled, and `Seatbelt.ProfileCanExceedBuffer` shows that the options alone allow it.
- `DarwinSandbox.Create`: it inherits that requirement. A NULL return from build_profile (malloc failure) is not modelled.
- `DarwinSandbox.Create`: it also requires, through `DarwinSandbox.ProfileInputs`, a readable list whenever readable_count is positive and counts within their arrays. darwin.c reads both lists without checking.
- `LinuxSandbox.Create`: it requires that each count stays within its array, which linux.c assumes without checking.
- `TestKit.RunExec`: it requires that each directory count stays within its table and that num_args stays within the argument table. sl.h passes these to the context API without checking.
- `Version.Lookup`: a parsed object is taken to have distinct keys. JSON.parse keeps the last of duplicate keys, and Lookup finds the first.
- `Version.Run`: the manifests are given in the order of the tool's list, and the first is the root manifest.
- The test runners of sl.h (`sl_test_run_*_cases`, the network probe and testbox paths) and the test files themselves are not modelled. They are evidence of behaviour, not behaviour.
- The release and publishing tools, the format tool, the test fixture binaries and the examples are not modelled.
