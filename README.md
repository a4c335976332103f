# Atlas loader: a Dafny model

Atlas.Loader is a host plugin that bootstraps the Atlas plugin framework.
Its controller (`Atlas`) builds a table of well-known paths, creates the
directories of that table, locates `main.dll` below the per-server folder,
loads it, finds the type `Atlas.EntryPoint.Loader`, instantiates it,
resolves its `Load`, `Unload` and `Reload` methods and invokes `Load`. The
discovered assembly, type, instance and methods are cached in six nullable
fields; discovery runs only while no `Load` method is cached. The plugin
shell (`EntryPoint`) keeps the one controller in a static property,
refuses a second `Load`, forwards `Unload` and `Reload`, and turns every
result other than `Success` into a thrown exception after notifying
`OnError`.

Files and modules:

- `host.dfy` (`Host`): nullable values, exceptions as kind tags, and the
  file system as a map from path strings to `Dir` or `File` (`Disk`).
- `atlas_path.dfy` (`AtlasPaths`): the `AtlasPath` keys, the root strings
  the table is built from, the table and its layout lemmas.
- `atlas_result.dfy` (`AtlasResults`): the `AtlasResult` codes.
- `atlas.dfy` (`Controller`): the reflection outcomes a `TryLoad` call can
  observe (`Runtime`), the specification of one `TryLoad` call
  (`TryLoadEffect`) and the class `Atlas`, whose methods are proved
  against it.
- `atlas_lemmas.dfy` (`ControllerFacts`): what the directory pass does,
  the caching of `Load`, the order of discovery's checks, and where the
  reported exceptions come from.
- `entry_point.dfy` (`Shell`): `GetException` and the class `EntryPoint`.

Modelling choices:

- Reflection calls (`Assembly.Load`, `GetTypes`, `Activator.CreateInstance`,
  `GetMethod`, `Invoke`) are answered by a `Runtime` value given to each
  `TryLoad`. A loaded assembly is an identity with the ordered full names of
  its types.
- `Directory.Exists`, `File.Exists` and `Directory.CreateDirectory` work on
  the map held by a `Disk` object. `Directory.Exists` is false for a file,
  and creating a directory where a file is throws an I/O exception, as the
  .NET documentation says it does.
- The root strings (special folders, engine data paths, the parent of the
  engine data path, the decimal rendering of the server port, the host's
  plugin directory and the executing assembly's name) are inputs (`Roots`).
- The constructor fills a local dictionary and never assigns it to the
  `Paths` property (Atlas/Interface/Atlas.cs:24, 35), which stays null. The
  model takes the evident intent: the controller's `paths` is the table
  just built. This is stated at the assignment in the constructor.
- Dictionary enumeration follows insertion order (the constructor's order).
- The static `Atlas` property is a field of the `EntryPoint` object; the
  calls `OnError` receives are recorded in the field `errors`.
- A C# method that throws is modelled by a result: `Completion` for
  `TryLoad` (returns a code and its `out` exception, or throws),
  `HostOutcome` for the shell's methods, `Result` for `GetPath`.
- There is no version gate in the code: `Version` is never
  set and `Config.AllowIncompatible` is never read. Fields are not cleared
  after a failed attempt: an assembly or instance stored by an earlier
  attempt is reused when a later load or instantiation throws. `TryUnload`
  and `TryReload` are stubs that report success.

## Model

| member | source | states |
|---|---|---|
| `AtlasPaths.BuildTable` | Atlas/Interface/Atlas.cs:35-53 | every one of the 14 keys has an entry; the five special-folder entries and ServerFolder are the root strings they are read from; AtlasFolder = ServerFolder + "/atlas", MainFolder = AtlasFolder + "/" + port, PluginFolder, ConfigFolder, DependencyFolder = MainFolder + "/plugins", "/configs", "/dependencies", PluginConfigFolder = ConfigFolder + "/plugins", MainAssembly = MainFolder + "/main.dll", PluginAssembly = plugin directory + "/" + assembly name + ".dll" |
| `AtlasPaths.InsertionOrderListsEveryKeyOnce` | Atlas/Interface/AtlasPath.cs:3-21 | the order in which the table is filled (and enumerated) lists each of the 14 keys exactly once |
| `AtlasPaths.MainFolderIdentifiesPort` | Atlas/Interface/Atlas.cs:44-46 | under one server folder, two tables share a main folder if and only if their ports are equal |
| `AtlasPaths.InstanceLayoutDistinct` | Atlas/Interface/Atlas.cs:46-52 | the plugin, config, plugin-config, dependency and main-assembly entries are five different paths, each strictly below the main folder |
| `Host.CreateDirectoryAt` | Atlas/Interface/Atlas.cs:60-63 | creating a directory throws exactly when a file occupies the path (and then changes nothing); otherwise a directory is there afterwards and nothing else changes |
| `Controller.Atlas.constructor` | Atlas/Interface/Atlas.cs:31-54 | the controller keeps its config, its path table is the table built from the roots, and all six cached fields are null |
| `Controller.Atlas.CreateDirectories` | Atlas/Interface/Atlas.cs:58-64 | the loop over the entries leaves the disk and the thrown exception exactly as `CreateMissing` describes |
| `Controller.Atlas.ReloadDirectories` | Atlas/Interface/Atlas.cs:56-65 | visits every table entry in order, the two assembly files included, creating a directory wherever none exists |
| `Controller.Atlas.EnsureDirectories` | Atlas/Interface/Atlas.cs:56-65 | the same pass over the twelve directory entries only (the corrected pass; see Findings) |
| `ControllerFacts.CreateMissingKeepsExisting` | Atlas/Interface/Atlas.cs:58-64 | a directory pass never alters or removes an existing entry, and adds only directories at entries it visits |
| `ControllerFacts.CreateMissingThrowsOnFile` | Atlas/Interface/Atlas.cs:58-64 | a directory pass throws if and only if some visited entry is a file, with an I/O error naming such an entry |
| `ControllerFacts.CreateMissingMakesDirectories` | Atlas/Interface/Atlas.cs:58-64 | after a pass that does not throw, every visited entry is a directory |
| `ControllerFacts.DirectoryPassSparesMainAssembly` | Atlas/Interface/Atlas.cs:58-63 | the corrected pass leaves whatever is at the main assembly's path (file or nothing) as it was, when no directory entry shares that path |
| `Controller.Atlas.TryGetPath` | Atlas/Interface/Atlas.cs:72-75 | finds a value exactly when the key is in the table, and then exactly the table's value |
| `Controller.Atlas.GetPath` | Atlas/Interface/Atlas.cs:67-70 | returns what `TryGetPath` finds, and throws KeyNotFound exactly when it finds nothing |
| `ControllerFacts.BuiltTableLookupsSucceed` | Atlas/Interface/Atlas.cs:67-75 | on a constructed controller every key is found, so `GetPath` never throws |
| `Controller.FirstIndexOf` | Atlas/Interface/Atlas.cs:105-107 | the position of the first type whose full name matches, and none exactly when no name matches |
| `Controller.Atlas.TryLoad` | Atlas/Interface/Atlas.cs:77-161 | with no `Load` cached, runs the source's directory pass over all fourteen entries (through `ReloadDirectories`) and, unless it throws, the file check, discovery and invocation; the new cached fields, the disk and the completion are those of `TryLoadEffect` over the table's insertion order |
| `Controller.Atlas.TryLoadCorrected` | Atlas/Interface/Atlas.cs:77-161 | the same call with the corrected directory pass over the twelve directory entries (see Findings): the outcome of `TryLoadEffect` over those entries |
| `Controller.Atlas.FinishLoad` | Atlas/Interface/Atlas.cs:85-160 | from the file check on: the cached fields and the completion are those of `AfterDirectoryPass`, and the disk is not touched |
| `ControllerFacts.CachedLoadOnlyInvokes` | Atlas/Interface/Atlas.cs:81-160 | with `Load` cached, no field and no directory changes; the result is `Success` with no exception when the invocation returns, else `FailedToInvokeEntryMethod` with its exception |
| `ControllerFacts.UnboundRunsDirectoryPass` | Atlas/Interface/Atlas.cs:81-83 | with no `Load` cached, the call starts with the directory pass, and throws exactly when that pass throws |
| `ControllerFacts.DiscoveryFailureOrder` | Atlas/Interface/Atlas.cs:85-144 | FailedToLocateFile exactly when the file is missing, and with no field changed; past the file, FailedToLoadAssembly exactly when the assembly field ends null; each later failure leaves every field of a later step unchanged and holds the evidence that the earlier steps passed; no other failure code is produced |
| `ControllerFacts.EntryTypeIsFirstMatch` | Atlas/Interface/Atlas.cs:105-112 | after a discovery that got past the assembly check, an assembly is stored and the stored entry type, when there is one, is the first type of that assembly named `Atlas.EntryPoint.Loader` |
| `ControllerFacts.HalfResolvedNeverRetried` | Atlas/Interface/Atlas.cs:128-145 | when `Load` is found but `Unload` or `Reload` is not, `Load` stays cached, and every later call skips discovery and succeeds exactly when the invocation returns |
| `ControllerFacts.InvokeFailureKeepsBinding` | Atlas/Interface/Atlas.cs:147-158 | a failed invocation reports the invocation's exception, keeps `Load` cached (and, when discovery was skipped, every field), and a retry runs no discovery |
| `ControllerFacts.InvocationDecidesSuccess` | Atlas/Interface/Atlas.cs:147-160 | after a discovery that reaches the invocation, the result is `Success` if and only if the invocation returns, and the cached fields and the disk are the same whether it returns or throws |
| `ControllerFacts.ExceptionsComeFromRuntime` | Atlas/Interface/Atlas.cs:91-158 | every reported exception is one the runtime raised during the call; an exception that escapes is the directory pass's I/O error on a visited file entry |
| `ControllerFacts.LoadExceptionSurfaces` | Atlas/Interface/Atlas.cs:91-103 | an assembly load that throws, with no assembly left by an earlier attempt, gives FailedToLoadAssembly with that exception |
| `ControllerFacts.CreateExceptionSurfaces` | Atlas/Interface/Atlas.cs:114-126 | an instantiation that throws, with no instance left by an earlier attempt, gives FailedToInstantiateEntryType with that exception |
| `ControllerFacts.LookupExceptionSurfaces` | Atlas/Interface/Atlas.cs:128-144 | a lookup of `Load` that throws gives FailedToLocateEntryMethod with that exception, and `Load` stays uncached |
| `ControllerFacts.UnloadLookupSurfaces` | Atlas/Interface/Atlas.cs:128-144 | a lookup of `Unload` that throws, after `Load` was looked up and with no `Unload` left by an earlier attempt, gives FailedToLocateEntryMethod with that exception |
| `ControllerFacts.ReloadLookupSurfaces` | Atlas/Interface/Atlas.cs:128-144 | a lookup of `Reload` that throws, after `Load` and `Unload` were looked up and with no `Reload` left by an earlier attempt, gives FailedToLocateEntryMethod with that exception |
| `ControllerFacts.StaleMethodsMaskLookupFailure` | Atlas/Interface/Atlas.cs:128-160 | when `Unload` and `Reload` were left set by an earlier attempt, a throwing `Unload` lookup keeps them, and the call invokes `Load` and reports `Success` still carrying the lookup's exception |
| `ControllerFacts.StaleAssemblyReused` | Atlas/Interface/Atlas.cs:91-103 | an assembly load that throws after an earlier attempt stored one continues with the stored assembly, and can end in `Success` still carrying the load's exception |
| `ControllerFacts.AsWrittenDiscoveryNeverSucceeds` | Atlas/Interface/Atlas.cs:83-89 | with the source's directory pass, discovery from an empty cache changes no field and ends either by throwing or with FailedToLocateFile |
| `ControllerFacts.CorrectedDiscoverySucceeds` | Atlas/Interface/Atlas.cs:83-160 | with the corrected pass, a module whose file, type, instance and three methods are all found is loaded: `Success`, with the found methods, instance and assembly cached |
| `Controller.Atlas.TryUnload` | Atlas/Interface/Atlas.cs:163-168 | always `Success` with a null exception, changing nothing |
| `Controller.Atlas.TryReload` | Atlas/Interface/Atlas.cs:170-175 | always `Success` with a null exception, changing nothing |
| `Shell.GetException` | Atlas/EntryPoint.cs:86-120 | maps each failure to its exception kind (AlreadyLoaded to InvalidOperation, LocateFile to FileNotFound, LocateDirectory to DirectoryNotFound, LoadAssembly to BadImageFormat, LocateEntryType to TypeAccess, InvokeEntryMethod to MethodAccess, LocateEntryMethod to MissingMethod, VersionMismatch to InvalidData); null exactly for `Success` and `FailedToInstantiateEntryType` |
| `Shell.GetExceptionDistinguishesFailures` | Atlas/EntryPoint.cs:88-115 | different failures get different exception kinds, none of them a runtime, I/O, key or null-reference exception |
| `Shell.EntryPoint.ThrowAtlasError` | Atlas/EntryPoint.cs:76-84 | uses the supplied exception when there is one and `GetException` only otherwise, notifies `OnError` exactly once with the controller, the result and that exception, and then throws it (a null-reference exception when it is null); it never returns normally |
| `Shell.EntryPoint.RaiseOnFailure` | Atlas/EntryPoint.cs:45-49 | a controller result is surfaced as `Surfaced` says: `Success` returns normally, any other result goes through `ThrowAtlasError`, an exception the controller threw passes through without notification |
| `Shell.NormalExactlyOnSuccess` | Atlas/EntryPoint.cs:43-74 | a host call returns normally if and only if the controller reported `Success`; otherwise `OnError` was notified exactly once |
| `Shell.EntryPoint.Load` | Atlas/EntryPoint.cs:33-50 | with a controller present: throws InvalidOperation after notifying `OnError`, creates nothing and touches no directory; otherwise stores a fresh controller built from the roots before loading, runs `TryLoad` (with the source's fourteen-entry directory pass) once and surfaces its result, so a first `Load` never returns normally; the controller is stored afterwards in every case |
| `Shell.EntryPoint.Unload` | Atlas/EntryPoint.cs:52-62 | never replaces the controller; returns normally when one exists (its `TryUnload` succeeds), throws a null reference when none does |
| `Shell.EntryPoint.Reload` | Atlas/EntryPoint.cs:64-74 | never replaces the controller; returns normally when one exists (its `TryReload` succeeds), throws a null reference when none does |
| `Shell.SecondLoadRejected` | Atlas/EntryPoint.cs:35-43 | after a first `Load`, failed or not, a second `Load` throws InvalidOperation, reports `FailedAlreadyLoaded` to `OnError` and keeps the first controller: the one built from the roots, holding the fields and disk the first `TryLoad` left |

## Findings

| source | as written | input that shows it | evidently intended | confidence | as-written member | corrected member |
|---|---|---|---|---|---|---|
| Atlas/Interface/Atlas.cs:58-63 | the directory pass that starts discovery visits every table entry, the `MainAssembly` and `PluginAssembly` files included | any disk: the pass throws an I/O exception out of `TryLoad` at the first visited entry that is a file (`main.dll` itself when present, or the `PluginAssembly` file after it); otherwise `main.dll` is a directory (created if absent) and `TryLoad` returns FailedToLocateFile; either way no assembly is ever loaded | create directories for the twelve directory entries only, so the file check sees `main.dll` | high (follows from the documented behaviour of `Directory.CreateDirectory` on a path that is a file); not executed | `Controller.Atlas.ReloadDirectories`, `ControllerFacts.AsWrittenDiscoveryNeverSucceeds` | `Controller.Atlas.EnsureDirectories`, `Controller.Atlas.TryLoadCorrected`, `ControllerFacts.CorrectedDiscoverySucceeds` |

`Controller.Atlas.TryLoad` and `Shell.EntryPoint.Load` keep the source's
pass; `Controller.Atlas.TryLoadCorrected` is the same call with the
corrected pass.

## Left out

- Reflection itself: loading bytes into the process, enumerating types,
  constructing objects, looking up and invoking methods are answered by
  the `Runtime` outcomes; `GetTypes` throwing (a type-load failure, which
  the source does not catch) is not modelled.
- `Host.CreateDirectoryAt`: throws only when a file occupies the path;
  the other failures of `Directory.CreateDirectory` (access denied, an
  empty or invalid path, a path that is too long, a missing drive) are not
  modelled, because the file system is a map without permissions or path
  syntax.
- `ControllerFacts.ExceptionsComeFromRuntime`: an escaping exception is the
  directory pass's I/O error on a file entry only within that file-system
  model; the other `Directory.CreateDirectory` failures above would escape
  `TryLoad` too.
- `Directory.CreateDirectory` also creates missing parent directories; the
  model creates only the named directory, and treats path strings as
  canonical (no case folding, separator or relative-path handling).
- The `Paths` property left null by the constructor: modelled by its
  evident intent, as stated above; as written, every use of it would throw
  a null-reference exception.
- Message text of the exceptions, including the `GetPath` and `Version`
  reads that only feed messages in `GetException`.
- The version gate: `Version`, `SupportedVersions` and
  `Config.AllowIncompatible` play no part in the code's control flow.
- The `OnAtlasLoaded`, `OnAtlasUnloaded` and `OnAtlasReloaded` events, which
  are never fired, and `OnError` subscribers that themselves throw.
- The plugin attributes and host registration; Atlas/Config.cs beyond its
  two stored flags.
- Concurrency: calls are taken to be serialized by the host.
