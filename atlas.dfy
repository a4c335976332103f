/**
 The loader controller (`Atlas`): the path table, directory creation, and
 the cached discovery pipeline that finds the module's entry type and its
 Load/Unload/Reload methods and invokes Load.

 Reflection is reduced to the outcomes the controller can observe; a
 `Runtime` value supplies them for one call of `TryLoad`.
 */
module Controller {
  import opened Host
  import opened AtlasPaths
  import opened AtlasResults

  /** The loader's two options. Neither is consulted by the controller. */
  datatype Config = Config(allowIncompatible: bool, allowDebugLogs: bool)

  /** Full name of the type the controller looks for in the loaded image. */
  const EntryPointType: string := "Atlas.EntryPoint.Loader"
  /** Name of the entry method invoked by `TryLoad`. */
  const EntryPointMethod: string := "Load"

  /** A loaded assembly: an identity and the full names of its types, in order. */
  datatype Image = Image(id: nat, typeNames: seq<string>)
  /** A type of a loaded assembly: the assembly's identity and the type's position. */
  datatype EntryType = EntryType(image: nat, index: nat)
  /** An object created by the runtime. */
  type Handle = nat
  /** A method resolved by name. */
  type MethodRef = nat

  /** Reading and loading the main assembly. */
  datatype LoadOutcome = Loaded(image: Image) | LoadThrows(e: Exception) | LoadedNull
  /** Instantiating the entry type with its parameterless constructor. */
  datatype CreateOutcome = Created(handle: Handle) | CreateThrows(e: Exception) | CreatedNull
  /** Looking a method up by name: found, `null`, or the lookup throws. */
  datatype LookupOutcome = Found(m: MethodRef) | Missing | LookupThrows(e: Exception)
  /** Invoking a method: it returns or throws. */
  datatype InvokeOutcome = Returns | InvokeThrows(e: Exception)

  /** What the runtime answers, during one `TryLoad`, to each reflective call. */
  datatype Runtime = Runtime(
    load: LoadOutcome,
    create: CreateOutcome,
    lookupLoad: LookupOutcome,
    lookupUnload: LookupOutcome,
    lookupReload: LookupOutcome,
    invoke: InvokeOutcome)

  /** Every exception the runtime can raise during one call. */
  function Raised(rt: Runtime): (r: set<Exception>)
    ensures rt.load.LoadThrows? ==> rt.load.e in r
    ensures rt.create.CreateThrows? ==> rt.create.e in r
    ensures rt.lookupLoad.LookupThrows? ==> rt.lookupLoad.e in r
    ensures rt.lookupUnload.LookupThrows? ==> rt.lookupUnload.e in r
    ensures rt.lookupReload.LookupThrows? ==> rt.lookupReload.e in r
    ensures rt.invoke.InvokeThrows? ==> rt.invoke.e in r
  {
    (if rt.load.LoadThrows? then {rt.load.e} else {}) +
    (if rt.create.CreateThrows? then {rt.create.e} else {}) +
    (if rt.lookupLoad.LookupThrows? then {rt.lookupLoad.e} else {}) +
    (if rt.lookupUnload.LookupThrows? then {rt.lookupUnload.e} else {}) +
    (if rt.lookupReload.LookupThrows? then {rt.lookupReload.e} else {}) +
    (if rt.invoke.InvokeThrows? then {rt.invoke.e} else {})
  }

  /** The controller's six cached fields; `None` is `null`. */
  datatype LoaderState = LoaderState(
    load: Option<MethodRef>,
    unload: Option<MethodRef>,
    reload: Option<MethodRef>,
    handle: Option<Handle>,
    entryType: Option<EntryType>,
    assembly: Option<Image>)

  const Unbound := LoaderState(None, None, None, None, None, None)

  /** How a call ends: it returns a result code and its `out` exception, or it throws. */
  datatype Completion = Returned(result: AtlasResult, exception: Option<Exception>) | Threw(thrown: Exception)

  /** The cached fields, the file system and the completion after one `TryLoad`. */
  datatype Effect = Effect(state: LoaderState, nodes: map<string, Node>, completion: Completion)

  /**
   `FirstOrDefault` over the type names: the position of the first one
   equal to `target`, or `None` when there is none.
   */
  function FirstIndexOf(names: seq<string>, target: string): (r: Option<nat>)
    ensures r.None? <==> target !in names
    ensures r.Some? ==> r.value < |names| && names[r.value] == target
    ensures r.Some? ==> forall j :: 0 <= j < r.value ==> names[j] != target
  {
    if names == [] then None
    else if names[0] == target then Some(0)
    else match FirstIndexOf(names[1..], target)
      case None => None
      case Some(i) => Some(i + 1)
  }

  /** The table entries `keys` visits, as path strings. */
  function Visited(paths: map<AtlasPath, string>, keys: seq<AtlasPath>): (r: set<string>)
  {
    set k | k in keys && k in paths :: paths[k]
  }

  /**
   What a pass over the table entries listed in `keys` does to the file
   system: for each key in turn that has an entry, a directory is created
   unless one is already there. Creating a directory where a file is
   throws, and the remaining keys are not visited.
   */
  function CreateMissing(nodes: map<string, Node>, paths: map<AtlasPath, string>, keys: seq<AtlasPath>): (r: (map<string, Node>, Option<Exception>))
    decreases |keys|
  {
    if keys == [] then (nodes, None)
    else if keys[0] !in paths || IsDirectory(nodes, paths[keys[0]]) then
      CreateMissing(nodes, paths, keys[1..])
    else
      var created := CreateDirectoryAt(nodes, paths[keys[0]]);
      if created.1.Some? then created
      else CreateMissing(created.0, paths, keys[1..])
  }

  /** The keys whose entries are directories: all but the two assembly files. */
  const DirectoryKeys: seq<AtlasPath> := InsertionOrder[..12]

  /** What a method lookup that did not throw stores: the method, or `null`. */
  function Resolved(o: LookupOutcome): (r: Option<MethodRef>)
    requires !o.LookupThrows?
  {
    if o.Found? then Some(o.m) else None
  }

  /**
   The three lookups share one `try`: the first that throws ends the block,
   and the fields it did not reach keep what they held.
   */
  function LookupMethods(s: LoaderState, rt: Runtime, pending: Option<Exception>): (r: (LoaderState, Option<Exception>))
  {
    if rt.lookupLoad.LookupThrows? then (s, Some(rt.lookupLoad.e))
    else
      var s1 := s.(load := Resolved(rt.lookupLoad));
      if rt.lookupUnload.LookupThrows? then (s1, Some(rt.lookupUnload.e))
      else
        var s2 := s1.(unload := Resolved(rt.lookupUnload));
        if rt.lookupReload.LookupThrows? then (s2, Some(rt.lookupReload.e))
        else (s2.(reload := Resolved(rt.lookupReload)), pending)
  }

  /** Invoking the cached Load method. */
  function Invoke(o: InvokeOutcome, pending: Option<Exception>): (c: Completion)
  {
    match o
    case Returns => Returned(Success, pending)
    case InvokeThrows(e) => Returned(FailedToInvokeEntryMethod, Some(e))
  }

  /**
   Discovery from loading the assembly on, then the invocation. A load or
   instantiation that throws leaves the field as it was (possibly set by an
   earlier attempt); one that yields `null` stores `null`.
   */
  function Resolve(s: LoaderState, rt: Runtime): (r: (LoaderState, Completion))
  {
    var (assembly, pending) :=
      match rt.load
      case Loaded(image) => (Some(image), None)
      case LoadThrows(e) => (s.assembly, Some(e))
      case LoadedNull => (None, None);
    var s1 := s.(assembly := assembly);
    if assembly.None? then (s1, Returned(FailedToLoadAssembly, pending))
    else
      var index := FirstIndexOf(assembly.value.typeNames, EntryPointType);
      var entryType := if index.Some? then Some(EntryType(assembly.value.id, index.value)) else None;
      var s2 := s1.(entryType := entryType);
      if entryType.None? then (s2, Returned(FailedToLocateEntryType, pending))
      else
        var (handle, pending2) :=
          match rt.create
          case Created(h) => (Some(h), pending)
          case CreateThrows(e) => (s.handle, Some(e))
          case CreatedNull => (None, pending);
        var s3 := s2.(handle := handle);
        if handle.None? then (s3, Returned(FailedToInstantiateEntryType, pending2))
        else
          var (s4, pending3) := LookupMethods(s3, rt, pending2);
          if s4.load.None? || s4.unload.None? || s4.reload.None? then
            (s4, Returned(FailedToLocateEntryMethod, pending3))
          else
            (s4, Invoke(rt.invoke, pending3))
  }

  /**
   What `TryLoad` does once the directory pass is behind it: with Load
   cached, only the invocation; otherwise the file check, the rest of
   discovery and then the invocation.
   */
  function AfterDirectoryPass(s: LoaderState, paths: map<AtlasPath, string>, nodes: map<string, Node>, rt: Runtime): (e: Effect)
  {
    if s.load.Some? then Effect(s, nodes, Invoke(rt.invoke, None))
    else if MainAssembly !in paths || !IsFile(nodes, paths[MainAssembly]) then
      Effect(s, nodes, Returned(FailedToLocateFile, None))
    else
      var (s1, c) := Resolve(s, rt);
      Effect(s1, nodes, c)
  }

  /**
   One call of `TryLoad`, whose directory pass visits the entries of
   `visit`: discovery runs only while no Load method is cached; the
   invocation runs whenever discovery is skipped or passes.
   */
  function TryLoadEffect(s: LoaderState, paths: map<AtlasPath, string>, nodes: map<string, Node>, rt: Runtime, visit: seq<AtlasPath>): (e: Effect)
  {
    if s.load.Some? then AfterDirectoryPass(s, paths, nodes, rt)
    else
      var (nodes1, dirError) := CreateMissing(nodes, paths, visit);
      if dirError.Some? then Effect(s, nodes1, Threw(dirError.value))
      else AfterDirectoryPass(s, paths, nodes1, rt)
  }

  class Atlas {
    var unload: Option<MethodRef>
    var load: Option<MethodRef>
    var reload: Option<MethodRef>

    var loaderHandle: Option<Handle>
    var loaderType: Option<EntryType>

    var loaderAssembly: Option<Image>

    const config: Config
    const paths: map<AtlasPath, string>

    function State(): LoaderState
      reads this
    {
      LoaderState(load, unload, reload, loaderHandle, loaderType, loaderAssembly)
    }

    /**
     Builds the path table entry by entry; the derived entries read the
     entries inserted before them.
     */
    constructor (config: Config, roots: Roots)
      ensures this.config == config
      ensures paths == BuildTable(roots)
      ensures State() == Unbound
    {
      this.config := config;
      var table: map<AtlasPath, string> := map[];
      table := table[CommonAppDataFolder := roots.commonAppData];
      table := table[LocalAppDataFolder := roots.localAppData];
      table := table[AppDataFolder := roots.appData];
      table := table[UnityDataFolder := roots.dataPath];
      table := table[UnityPersistentDataFolder := roots.persistentDataPath];
      table := table[ServerFolder := roots.serverFolder];
      table := table[AtlasFolder := table[ServerFolder] + "/atlas"];
      table := table[MainFolder := table[AtlasFolder] + "/" + roots.port];
      table := table[PluginFolder := table[MainFolder] + "/plugins"];
      table := table[ConfigFolder := table[MainFolder] + "/configs"];
      table := table[PluginConfigFolder := table[ConfigFolder] + "/plugins"];
      table := table[DependencyFolder := table[MainFolder] + "/dependencies"];
      table := table[MainAssembly := table[MainFolder] + "/main.dll"];
      table := table[PluginAssembly := roots.hostPluginsFolder + "/" + roots.assemblyName + ".dll"];
      // Assumption: the source fills a local table and never assigns it to
      // the `Paths` property, which is therefore left null. The model takes
      // the evident intent: `paths` is the table just built.
      paths := table;
      unload, load, reload := None, None, None;
      loaderHandle, loaderType, loaderAssembly := None, None, None;
    }

    /**
     `ReloadDirectories` as the source has it: visits every table entry,
     the two assembly files included.
     */
    method ReloadDirectories(disk: Disk) returns (thrown: Option<Exception>)
      modifies disk
      ensures (disk.nodes, thrown) == CreateMissing(old(disk.nodes), paths, InsertionOrder)
    {
      thrown := CreateDirectories(disk, InsertionOrder);
    }

    /**
     The directory pass the discovery pipeline uses: the directory entries
     only, as the file entries evidently were meant to be skipped.
     */
    method EnsureDirectories(disk: Disk) returns (thrown: Option<Exception>)
      modifies disk
      ensures (disk.nodes, thrown) == CreateMissing(old(disk.nodes), paths, DirectoryKeys)
    {
      thrown := CreateDirectories(disk, DirectoryKeys);
    }

    /**
     Visits the entries of `keys` in order and creates a directory wherever
     none exists. The returned exception is the one `CreateDirectory`
     throws (the pass then ends there).
     */
    method CreateDirectories(disk: Disk, keys: seq<AtlasPath>) returns (thrown: Option<Exception>)
      modifies disk
      ensures (disk.nodes, thrown) == CreateMissing(old(disk.nodes), paths, keys)
    {
      var i := 0;
      while i < |keys|
        invariant 0 <= i <= |keys|
        invariant CreateMissing(disk.nodes, paths, keys[i..]) == CreateMissing(old(disk.nodes), paths, keys)
      {
        var key := keys[i];
        assert keys[i..][0] == key && keys[i..][1..] == keys[i + 1..];
        if key in paths {
          var p := paths[key];
          if !disk.DirectoryExists(p) {
            thrown := disk.CreateDirectory(p);
            if thrown.Some? {
              return;
            }
          }
        }
        i := i + 1;
      }
      thrown := None;
    }

    /** `TryGetPath`: the entry for `key`, or `None` when there is none. */
    function TryGetPath(key: AtlasPath): (r: Option<string>)
      ensures r.Some? <==> key in paths
      ensures r.Some? ==> r.value == paths[key]
    {
      if key in paths then Some(paths[key]) else None
    }

    /** `GetPath`: the entry for `key`; throws `KeyNotFound` when there is none. */
    function GetPath(key: AtlasPath): (r: Result<string>)
      ensures r.Ok? <==> TryGetPath(key).Some?
      ensures r.Ok? ==> r.value == TryGetPath(key).value
      ensures r.Throws? ==> r.error == KeyNotFound
    {
      match TryGetPath(key)
      case Some(v) => Ok(v)
      case None => Throws(KeyNotFound)
    }

    /**
     `TryLoad`. Discovery is guarded by `load` alone and starts with the
     source's directory pass over every table entry; each check returns its
     own result code; the exception is the one caught last, if any.
     */
    method TryLoad(disk: Disk, rt: Runtime) returns (c: Completion)
      modifies this, disk
      ensures Effect(State(), disk.nodes, c) == TryLoadEffect(old(State()), paths, old(disk.nodes), rt, InsertionOrder)
    {
      if load.None? {
        var dirError := ReloadDirectories(disk);
        if dirError.Some? {
          // not caught: the exception leaves TryLoad
          return Threw(dirError.value);
        }
      }
      c := FinishLoad(disk, rt);
    }

    /** `TryLoad` with the corrected directory pass over the directory entries only. */
    method TryLoadCorrected(disk: Disk, rt: Runtime) returns (c: Completion)
      modifies this, disk
      ensures Effect(State(), disk.nodes, c) == TryLoadEffect(old(State()), paths, old(disk.nodes), rt, DirectoryKeys)
    {
      if load.None? {
        var dirError := EnsureDirectories(disk);
        if dirError.Some? {
          return Threw(dirError.value);
        }
      }
      c := FinishLoad(disk, rt);
    }

    /** The part of `TryLoad` after the directory pass: the file check, discovery and the invocation. */
    method FinishLoad(disk: Disk, rt: Runtime) returns (c: Completion)
      modifies this
      ensures Effect(State(), disk.nodes, c) == AfterDirectoryPass(old(State()), paths, disk.nodes, rt)
    {
      var exception: Option<Exception> := None;

      if load.None? {
        if MainAssembly !in paths || !disk.FileExists(paths[MainAssembly]) {
          return Returned(FailedToLocateFile, exception);
        }

        match rt.load {
          case Loaded(image) => loaderAssembly := Some(image);
          case LoadThrows(e) => exception := Some(e);
          case LoadedNull => loaderAssembly := None;
        }
        if loaderAssembly.None? {
          return Returned(FailedToLoadAssembly, exception);
        }

        var index := FirstIndexOf(loaderAssembly.value.typeNames, EntryPointType);
        loaderType := if index.Some? then Some(EntryType(loaderAssembly.value.id, index.value)) else None;
        if loaderType.None? {
          return Returned(FailedToLocateEntryType, exception);
        }

        match rt.create {
          case Created(h) => loaderHandle := Some(h);
          case CreateThrows(e) => exception := Some(e);
          case CreatedNull => loaderHandle := None;
        }
        if loaderHandle.None? {
          return Returned(FailedToInstantiateEntryType, exception);
        }

        if rt.lookupLoad.LookupThrows? {
          exception := Some(rt.lookupLoad.e);
        } else {
          load := Resolved(rt.lookupLoad);
          if rt.lookupUnload.LookupThrows? {
            exception := Some(rt.lookupUnload.e);
          } else {
            unload := Resolved(rt.lookupUnload);
            if rt.lookupReload.LookupThrows? {
              exception := Some(rt.lookupReload.e);
            } else {
              reload := Resolved(rt.lookupReload);
            }
          }
        }
        if load.None? || unload.None? || reload.None? {
          return Returned(FailedToLocateEntryMethod, exception);
        }
      }

      if rt.invoke.InvokeThrows? {
        exception := Some(rt.invoke.e);
        return Returned(FailedToInvokeEntryMethod, exception);
      }
      return Returned(Success, exception);
    }

    /** `TryUnload`: a stub that reports success and changes nothing. */
    method TryUnload() returns (result: AtlasResult, exception: Option<Exception>)
      ensures result == Success && exception == None
    {
      exception := None;
      return Success, exception;
    }

    /** `TryReload`: a stub that reports success and changes nothing. */
    method TryReload() returns (result: AtlasResult, exception: Option<Exception>)
      ensures result == Success && exception == None
    {
      exception := None;
      return Success, exception;
    }
  }
}
