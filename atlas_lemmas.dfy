/**
 Properties of the controller's specification: what a directory pass does
 to the file system, the order of discovery's checks, the caching of the
 Load method, and where reported exceptions come from.
 */
module ControllerFacts {
  import opened Host
  import opened AtlasPaths
  import opened AtlasResults
  import opened Controller

  // ---------------------------------------------------------------------
  // The directory pass
  // ---------------------------------------------------------------------

  lemma VisitedTail(paths: map<AtlasPath, string>, keys: seq<AtlasPath>)
    requires keys != []
    ensures Visited(paths, keys[1..]) <= Visited(paths, keys)
    ensures keys[0] in paths ==> paths[keys[0]] in Visited(paths, keys)
  {
    forall q | q in Visited(paths, keys[1..]) ensures q in Visited(paths, keys) {
      var k :| k in keys[1..] && k in paths && paths[k] == q;
      assert k in keys;
    }
  }

  /**
   A directory pass never alters or removes what was on disk; what it adds
   are directories at entries it visits.
   */
  lemma {:induction false} CreateMissingKeepsExisting(nodes: map<string, Node>, paths: map<AtlasPath, string>, keys: seq<AtlasPath>)
    ensures var r := CreateMissing(nodes, paths, keys);
      (forall q :: q in nodes ==> q in r.0 && r.0[q] == nodes[q]) &&
      (forall q :: q in r.0 && q !in nodes ==> r.0[q] == Dir && q in Visited(paths, keys))
    decreases |keys|
  {
    if keys != [] {
      VisitedTail(paths, keys);
      if keys[0] !in paths || IsDirectory(nodes, paths[keys[0]]) {
        CreateMissingKeepsExisting(nodes, paths, keys[1..]);
      } else {
        var created := CreateDirectoryAt(nodes, paths[keys[0]]);
        if created.1.None? {
          CreateMissingKeepsExisting(created.0, paths, keys[1..]);
        }
      }
    }
  }

  /**
   A directory pass throws exactly when one of the entries it visits is a
   file, and the exception names such an entry.
   */
  lemma {:induction false} CreateMissingThrowsOnFile(nodes: map<string, Node>, paths: map<AtlasPath, string>, keys: seq<AtlasPath>)
    ensures var r := CreateMissing(nodes, paths, keys);
      (r.1.Some? <==> exists k :: k in keys && k in paths && IsFile(nodes, paths[k])) &&
      (r.1.Some? ==> exists k :: k in keys && k in paths && IsFile(nodes, paths[k]) && r.1.value == IOError(paths[k]))
    decreases |keys|
  {
    if keys != [] {
      var r := CreateMissing(nodes, paths, keys);
      var next := nodes;
      if keys[0] in paths && !IsDirectory(nodes, paths[keys[0]]) {
        var created := CreateDirectoryAt(nodes, paths[keys[0]]);
        if created.1.Some? {
          assert IsFile(nodes, paths[keys[0]]) && r.1.value == IOError(paths[keys[0]]);
          return;
        }
        next := created.0;
      }
      // `next` agrees with `nodes` on which paths are files
      assert forall p :: IsFile(next, p) <==> IsFile(nodes, p);
      assert r == CreateMissing(next, paths, keys[1..]);
      CreateMissingThrowsOnFile(next, paths, keys[1..]);
      if exists k :: k in keys && k in paths && IsFile(nodes, paths[k]) {
        var k :| k in keys && k in paths && IsFile(nodes, paths[k]);
        if k != keys[0] {
          assert k in keys[1..];
        }
      }
      if r.1.Some? {
        var k :| k in keys[1..] && k in paths && IsFile(next, paths[k]) && r.1.value == IOError(paths[k]);
        assert k in keys;
      }
    }
  }

  /** A directory pass that does not throw leaves a directory at every entry it visits. */
  lemma {:induction false} CreateMissingMakesDirectories(nodes: map<string, Node>, paths: map<AtlasPath, string>, keys: seq<AtlasPath>)
    ensures var r := CreateMissing(nodes, paths, keys);
      r.1.None? ==> forall k :: k in keys && k in paths ==> IsDirectory(r.0, paths[k])
    decreases |keys|
  {
    if keys != [] {
      var r := CreateMissing(nodes, paths, keys);
      var next := nodes;
      if keys[0] in paths && !IsDirectory(nodes, paths[keys[0]]) {
        var created := CreateDirectoryAt(nodes, paths[keys[0]]);
        if created.1.Some? {
          return;
        }
        next := created.0;
      }
      assert r == CreateMissing(next, paths, keys[1..]);
      CreateMissingMakesDirectories(next, paths, keys[1..]);
      if keys[0] in paths {
        assert IsDirectory(next, paths[keys[0]]);
        CreateMissingKeepsExisting(next, paths, keys[1..]);
      }
      forall k | k in keys && k in paths && r.1.None?
        ensures IsDirectory(r.0, paths[k])
      {
        if k != keys[0] {
          assert k in keys[1..];
        }
      }
    }
  }

  /**
   The corrected pass leaves the entries it does not visit untouched: when
   the main assembly's path is not also a directory entry, whatever is
   there (a file, or nothing) is still there afterwards.
   */
  lemma DirectoryPassSparesMainAssembly(nodes: map<string, Node>, paths: map<AtlasPath, string>)
    requires MainAssembly in paths
    requires forall k :: k in DirectoryKeys && k in paths ==> paths[k] != paths[MainAssembly]
    ensures var r := CreateMissing(nodes, paths, DirectoryKeys);
      (paths[MainAssembly] in r.0 <==> paths[MainAssembly] in nodes) &&
      (paths[MainAssembly] in nodes ==> r.0[paths[MainAssembly]] == nodes[paths[MainAssembly]])
  {
    CreateMissingKeepsExisting(nodes, paths, DirectoryKeys);
  }

  /**
   On a constructed controller every lookup finds its entry, so `GetPath`
   never throws and agrees with `TryGetPath`.
   */
  lemma BuiltTableLookupsSucceed(a: Atlas, roots: Roots)
    requires a.paths == BuildTable(roots)
    ensures forall k :: a.TryGetPath(k) == Some(a.paths[k]) && a.GetPath(k) == Ok(a.paths[k])
  {
  }

  // ---------------------------------------------------------------------
  // TryLoad: caching
  // ---------------------------------------------------------------------

  /**
   Once a Load method is cached, `TryLoad` runs no discovery: no directory
   is created and no field changes; it only invokes Load, and reports
   `Success` exactly when that invocation returns.
   */
  lemma CachedLoadOnlyInvokes(s: LoaderState, paths: map<AtlasPath, string>, nodes: map<string, Node>, rt: Runtime, visit: seq<AtlasPath>)
    requires s.load.Some?
    ensures var e := TryLoadEffect(s, paths, nodes, rt, visit);
      e.state == s && e.nodes == nodes &&
      e.completion == (if rt.invoke.Returns? then Returned(Success, None)
                       else Returned(FailedToInvokeEntryMethod, Some(rt.invoke.e)))
  {
  }

  /** While no Load method is cached, `TryLoad` starts with the directory pass. */
  lemma UnboundRunsDirectoryPass(s: LoaderState, paths: map<AtlasPath, string>, nodes: map<string, Node>, rt: Runtime, visit: seq<AtlasPath>)
    requires s.load.None?
    ensures var e := TryLoadEffect(s, paths, nodes, rt, visit);
      e.nodes == CreateMissing(nodes, paths, visit).0 &&
      (CreateMissing(nodes, paths, visit).1.Some? <==> e.completion.Threw?)
  {
  }

  /**
   A half-resolved attempt is never retried: if discovery found Load but
   not Unload or Reload, Load stays cached, and every later `TryLoad` skips
   discovery and succeeds as soon as the invocation returns.
   */
  lemma HalfResolvedNeverRetried(s: LoaderState, paths: map<AtlasPath, string>, nodes: map<string, Node>, rt: Runtime, rt2: Runtime, visit: seq<AtlasPath>)
    requires s.load.None?
    requires rt.lookupLoad.Found?
    requires TryLoadEffect(s, paths, nodes, rt, visit).completion.Returned?
    requires TryLoadEffect(s, paths, nodes, rt, visit).completion.result == FailedToLocateEntryMethod
    ensures var e := TryLoadEffect(s, paths, nodes, rt, visit);
      var e2 := TryLoadEffect(e.state, paths, e.nodes, rt2, visit);
      e.state.load == Some(rt.lookupLoad.m) &&
      e2.state == e.state && e2.nodes == e.nodes &&
      (e2.completion.Returned? && e2.completion.result == Success <==> rt2.invoke.Returns?)
  {
  }

  /**
   A failed invocation of Load does not undo discovery: the report carries
   the invocation's exception, Load is cached, and a retry skips discovery.
   */
  lemma InvokeFailureKeepsBinding(s: LoaderState, paths: map<AtlasPath, string>, nodes: map<string, Node>, rt: Runtime, rt2: Runtime, visit: seq<AtlasPath>)
    requires TryLoadEffect(s, paths, nodes, rt, visit).completion.Returned?
    requires TryLoadEffect(s, paths, nodes, rt, visit).completion.result == FailedToInvokeEntryMethod
    ensures var e := TryLoadEffect(s, paths, nodes, rt, visit);
      rt.invoke.InvokeThrows? && e.completion.exception == Some(rt.invoke.e) &&
      e.state.load.Some? && (s.load.Some? ==> e.state == s) &&
      TryLoadEffect(e.state, paths, e.nodes, rt2, visit).state == e.state &&
      TryLoadEffect(e.state, paths, e.nodes, rt2, visit).nodes == e.nodes
  {
  }

  /**
   After a discovery that reaches the invocation, the call reports `Success`
   exactly when the invocation returns, and the invocation itself changes
   no field and no directory: the outcome differs from that of a returning
   invocation only in its completion.
   */
  lemma InvocationDecidesSuccess(s: LoaderState, paths: map<AtlasPath, string>, nodes: map<string, Node>, rt: Runtime, visit: seq<AtlasPath>)
    requires s.load.None?
    requires TryLoadEffect(s, paths, nodes, rt, visit).completion.Returned?
    requires TryLoadEffect(s, paths, nodes, rt, visit).completion.result in {Success, FailedToInvokeEntryMethod}
    ensures var e := TryLoadEffect(s, paths, nodes, rt, visit);
      var r := TryLoadEffect(s, paths, nodes, rt.(invoke := Returns), visit);
      (e.completion.result == Success <==> rt.invoke.Returns?) &&
      e.state == r.state && e.nodes == r.nodes
  {
  }

  // ---------------------------------------------------------------------
  // TryLoad: the order of the checks
  // ---------------------------------------------------------------------

  /**
   Each failure of discovery is reached only after every earlier check
   passed, and leaves the fields the later checks would set as they were:
   file, then assembly, then entry type, then instance, then methods.
   */
  lemma DiscoveryFailureOrder(s: LoaderState, paths: map<AtlasPath, string>, nodes: map<string, Node>, rt: Runtime, visit: seq<AtlasPath>)
    requires s.load.None?
    ensures var e := TryLoadEffect(s, paths, nodes, rt, visit);
      var t := e.state;
      var located := MainAssembly in paths && IsFile(e.nodes, paths[MainAssembly]);
      match e.completion
      case Threw(_) => t == s
      case Returned(result, exception) =>
        (result == FailedToLocateFile <==> !located) &&
        (result == FailedToLocateFile ==> t == s && exception == None) &&
        (located ==>
          (result == FailedToLoadAssembly <==> t.assembly.None?) &&
          (result == FailedToLoadAssembly ==> t == s.(assembly := None)) &&
          (result == FailedToLocateEntryType ==>
            t == s.(assembly := t.assembly, entryType := None) && t.assembly.Some? &&
            EntryPointType !in t.assembly.value.typeNames) &&
          (result == FailedToInstantiateEntryType ==>
            t == s.(assembly := t.assembly, entryType := t.entryType, handle := None) &&
            t.assembly.Some? && t.entryType.Some?) &&
          (result == FailedToLocateEntryMethod ==>
            t.assembly.Some? && t.entryType.Some? && t.handle.Some? &&
            (t.load.None? || t.unload.None? || t.reload.None?)) &&
          (result == Success || result == FailedToInvokeEntryMethod ==>
            t.assembly.Some? && t.entryType.Some? && t.handle.Some? &&
            t.load.Some? && t.unload.Some? && t.reload.Some?) &&
          result != FailedToLocateDirectory && result != FailedVersionMismatch &&
          result != FailedAlreadyLoaded)
  {
  }

  /**
   After a discovery that got past the assembly check, the stored entry
   type is the first type of the stored image whose full name is the entry
   point type's.
   */
  lemma EntryTypeIsFirstMatch(s: LoaderState, paths: map<AtlasPath, string>, nodes: map<string, Node>, rt: Runtime, visit: seq<AtlasPath>)
    requires s.load.None?
    requires TryLoadEffect(s, paths, nodes, rt, visit).completion.Returned?
    requires TryLoadEffect(s, paths, nodes, rt, visit).completion.result !in {FailedToLocateFile, FailedToLoadAssembly}
    ensures var t := TryLoadEffect(s, paths, nodes, rt, visit).state;
      t.assembly.Some? &&
      (t.entryType.Some? ==>
        var names := t.assembly.value.typeNames;
        var i := t.entryType.value.index;
        t.entryType.value.image == t.assembly.value.id &&
        i < |names| && names[i] == EntryPointType &&
        forall j :: 0 <= j < i ==> names[j] != EntryPointType)
  {
  }

  // ---------------------------------------------------------------------
  // TryLoad: exceptions
  // ---------------------------------------------------------------------

  /**
   The exception `TryLoad` reports is never made up: it is one the runtime
   raised during the call. What escapes instead is the I/O error of the
   directory pass, naming a visited entry that is a file.
   */
  lemma ExceptionsComeFromRuntime(s: LoaderState, paths: map<AtlasPath, string>, nodes: map<string, Node>, rt: Runtime, visit: seq<AtlasPath>)
    ensures var e := TryLoadEffect(s, paths, nodes, rt, visit);
      (e.completion.Returned? && e.completion.exception.Some? ==> e.completion.exception.value in Raised(rt)) &&
      (e.completion.Threw? ==>
        exists k :: k in visit && k in paths && IsFile(nodes, paths[k]) && e.completion.thrown == IOError(paths[k]))
  {
    if s.load.None? {
      CreateMissingThrowsOnFile(nodes, paths, visit);
    }
  }

  /**
   An assembly load that throws is reported unchanged when no earlier
   attempt left an assembly behind.
   */
  lemma LoadExceptionSurfaces(s: LoaderState, paths: map<AtlasPath, string>, nodes: map<string, Node>, rt: Runtime, visit: seq<AtlasPath>)
    requires s.load.None? && s.assembly.None?
    requires rt.load.LoadThrows?
    requires TryLoadEffect(s, paths, nodes, rt, visit).completion.Returned?
    requires TryLoadEffect(s, paths, nodes, rt, visit).completion.result != FailedToLocateFile
    ensures TryLoadEffect(s, paths, nodes, rt, visit).completion == Returned(FailedToLoadAssembly, Some(rt.load.e))
  {
  }

  /**
   An instantiation that throws, with no instance left by an earlier
   attempt, is reported unchanged as FailedToInstantiateEntryType.
   */
  lemma CreateExceptionSurfaces(s: LoaderState, paths: map<AtlasPath, string>, nodes: map<string, Node>, rt: Runtime, visit: seq<AtlasPath>)
    requires s.load.None? && s.handle.None?
    requires rt.create.CreateThrows?
    requires TryLoadEffect(s, paths, nodes, rt, visit).completion.Returned?
    requires TryLoadEffect(s, paths, nodes, rt, visit).completion.result !in {FailedToLocateFile, FailedToLoadAssembly, FailedToLocateEntryType}
    ensures TryLoadEffect(s, paths, nodes, rt, visit).completion == Returned(FailedToInstantiateEntryType, Some(rt.create.e))
  {
  }

  /**
   A lookup of Load that throws is reported unchanged as
   FailedToLocateEntryMethod, and Load stays uncached.
   */
  lemma LookupExceptionSurfaces(s: LoaderState, paths: map<AtlasPath, string>, nodes: map<string, Node>, rt: Runtime, visit: seq<AtlasPath>)
    requires s.load.None?
    requires rt.lookupLoad.LookupThrows?
    requires TryLoadEffect(s, paths, nodes, rt, visit).completion.Returned?
    requires TryLoadEffect(s, paths, nodes, rt, visit).completion.result !in {FailedToLocateFile, FailedToLoadAssembly, FailedToLocateEntryType, FailedToInstantiateEntryType}
    ensures var e := TryLoadEffect(s, paths, nodes, rt, visit);
      e.completion == Returned(FailedToLocateEntryMethod, Some(rt.lookupLoad.e)) && e.state.load.None?
  {
  }

  /**
   A lookup of Unload that throws, after Load was found, is reported
   unchanged as FailedToLocateEntryMethod when no earlier attempt left an
   Unload method behind.
   */
  lemma UnloadLookupSurfaces(s: LoaderState, paths: map<AtlasPath, string>, nodes: map<string, Node>, rt: Runtime, visit: seq<AtlasPath>)
    requires s.load.None? && s.unload.None?
    requires !rt.lookupLoad.LookupThrows? && rt.lookupUnload.LookupThrows?
    requires TryLoadEffect(s, paths, nodes, rt, visit).completion.Returned?
    requires TryLoadEffect(s, paths, nodes, rt, visit).completion.result !in {FailedToLocateFile, FailedToLoadAssembly, FailedToLocateEntryType, FailedToInstantiateEntryType}
    ensures TryLoadEffect(s, paths, nodes, rt, visit).completion == Returned(FailedToLocateEntryMethod, Some(rt.lookupUnload.e))
  {
  }

  /**
   A lookup of Reload that throws, after Load and Unload were looked up, is
   reported unchanged as FailedToLocateEntryMethod when no earlier attempt
   left a Reload method behind.
   */
  lemma ReloadLookupSurfaces(s: LoaderState, paths: map<AtlasPath, string>, nodes: map<string, Node>, rt: Runtime, visit: seq<AtlasPath>)
    requires s.load.None? && s.reload.None?
    requires !rt.lookupLoad.LookupThrows? && !rt.lookupUnload.LookupThrows? && rt.lookupReload.LookupThrows?
    requires TryLoadEffect(s, paths, nodes, rt, visit).completion.Returned?
    requires TryLoadEffect(s, paths, nodes, rt, visit).completion.result !in {FailedToLocateFile, FailedToLoadAssembly, FailedToLocateEntryType, FailedToInstantiateEntryType}
    ensures TryLoadEffect(s, paths, nodes, rt, visit).completion == Returned(FailedToLocateEntryMethod, Some(rt.lookupReload.e))
  {
  }

  /**
   Methods persist across attempts too: when Unload and Reload were left
   set by an earlier attempt, an Unload lookup that throws does not stop
   the call, which invokes Load and reports `Success` still carrying the
   lookup's exception.
   */
  lemma StaleMethodsMaskLookupFailure(s: LoaderState, paths: map<AtlasPath, string>, nodes: map<string, Node>, rt: Runtime, visit: seq<AtlasPath>)
    requires s.load.None? && s.unload.Some? && s.reload.Some?
    requires rt.lookupLoad.Found? && rt.lookupUnload.LookupThrows?
    requires rt.invoke.Returns?
    requires TryLoadEffect(s, paths, nodes, rt, visit).completion.Returned?
    requires TryLoadEffect(s, paths, nodes, rt, visit).completion.result !in {FailedToLocateFile, FailedToLoadAssembly, FailedToLocateEntryType, FailedToInstantiateEntryType}
    ensures var e := TryLoadEffect(s, paths, nodes, rt, visit);
      e.state.unload == s.unload && e.state.reload == s.reload &&
      e.completion == Returned(Success, Some(rt.lookupUnload.e))
  {
  }

  /**
   Fields persist across attempts: when loading throws but an earlier
   attempt stored an assembly, discovery goes on with that assembly and
   the exception is still carried along.
   */
  lemma StaleAssemblyReused(s: LoaderState, paths: map<AtlasPath, string>, nodes: map<string, Node>, rt: Runtime, visit: seq<AtlasPath>)
    requires s.load.None? && s.assembly.Some?
    requires rt.load.LoadThrows?
    requires rt.create.Created? && rt.lookupLoad.Found? && rt.lookupUnload.Found? && rt.lookupReload.Found?
    requires rt.invoke.Returns?
    requires EntryPointType in s.assembly.value.typeNames
    requires TryLoadEffect(s, paths, nodes, rt, visit).completion.Returned?
    requires TryLoadEffect(s, paths, nodes, rt, visit).completion.result != FailedToLocateFile
    ensures var e := TryLoadEffect(s, paths, nodes, rt, visit);
      e.state.assembly == s.assembly &&
      e.completion == Returned(Success, Some(rt.load.e))
  {
  }

  // ---------------------------------------------------------------------
  // The directory pass as the source has it
  // ---------------------------------------------------------------------

  /**
   With the source's own pass, which visits the main assembly's entry too,
   discovery can never succeed: if the assembly is on disk, creating a
   directory at its path throws; if not, a directory is created there and
   the file is then not found.
   */
  lemma {:induction false} AsWrittenDiscoveryNeverSucceeds(s: LoaderState, paths: map<AtlasPath, string>, nodes: map<string, Node>, rt: Runtime)
    requires s.load.None?
    ensures var e := TryLoadEffect(s, paths, nodes, rt, InsertionOrder);
      e.state == s &&
      (e.completion.Threw? || e.completion == Returned(FailedToLocateFile, None))
  {
    CreateMissingMakesDirectories(nodes, paths, InsertionOrder);
    assert MainAssembly in InsertionOrder;
  }

  /**
   With the corrected pass, discovery does succeed on a well-formed module:
   the main assembly on disk at a path no directory entry shares, no file
   where a directory belongs, an image
   that holds the entry type, and every reflective call succeeding.
   */
  lemma CorrectedDiscoverySucceeds(s: LoaderState, roots: Roots, nodes: map<string, Node>, rt: Runtime)
    requires s.load.None?
    requires IsFile(nodes, BuildTable(roots)[MainAssembly])
    requires forall k :: k in DirectoryKeys ==> BuildTable(roots)[k] != BuildTable(roots)[MainAssembly]
    requires forall k :: k in DirectoryKeys ==> !IsFile(nodes, BuildTable(roots)[k])
    requires rt.load.Loaded? && EntryPointType in rt.load.image.typeNames
    requires rt.create.Created? && rt.lookupLoad.Found? && rt.lookupUnload.Found? && rt.lookupReload.Found?
    requires rt.invoke.Returns?
    ensures var e := TryLoadEffect(s, BuildTable(roots), nodes, rt, DirectoryKeys);
      e.completion == Returned(Success, None) &&
      e.state.load == Some(rt.lookupLoad.m) && e.state.unload == Some(rt.lookupUnload.m) &&
      e.state.reload == Some(rt.lookupReload.m) && e.state.handle == Some(rt.create.handle) &&
      e.state.assembly == Some(rt.load.image)
  {
    var paths := BuildTable(roots);
    DirectoryPassSparesMainAssembly(nodes, paths);
    CreateMissingThrowsOnFile(nodes, paths, DirectoryKeys);
  }
}
