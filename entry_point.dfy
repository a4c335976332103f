/**
 The host-facing plugin (`EntryPoint`): it owns the one controller, in a
 static property, forwards the host's Load/Unload/Reload to it, and turns
 every result other than `Success` into a thrown exception after notifying
 `OnError`.
 */
module Shell {
  import opened Host
  import opened AtlasPaths
  import opened AtlasResults
  import opened Controller
  import ControllerFacts

  /**
   `GetException`: the exception kind the shell throws for a result code
   when the controller supplied none. `Success` has no exception, and
   `FailedToInstantiateEntryType` has no case and falls to the default.
   */
  function GetException(result: AtlasResult): (r: Option<Exception>)
    ensures r.None? <==> result == Success || result == FailedToInstantiateEntryType
  {
    match result
    case FailedAlreadyLoaded => Some(InvalidOperation)
    case Success => None
    case FailedToLocateFile => Some(FileNotFound)
    case FailedToLocateDirectory => Some(DirectoryNotFound)
    case FailedToLoadAssembly => Some(BadImageFormat)
    case FailedToLocateEntryType => Some(TypeAccess)
    case FailedToInvokeEntryMethod => Some(MethodAccess)
    case FailedToLocateEntryMethod => Some(MissingMethod)
    case FailedVersionMismatch => Some(InvalidData)
    case _ => None
  }

  /**
   Different failures get different exception kinds, and none of them is
   a kind the runtime or the file system raises.
   */
  lemma GetExceptionDistinguishesFailures(r1: AtlasResult, r2: AtlasResult)
    requires GetException(r1).Some? && GetException(r2).Some?
    ensures GetException(r1) == GetException(r2) ==> r1 == r2
    ensures !GetException(r1).value.Foreign? && !GetException(r1).value.IOError?
    ensures GetException(r1).value != KeyNotFound && GetException(r1).value != NullReference
  {
  }

  /** The exception `ThrowAtlasError` reports: the supplied one, else `GetException`'s. */
  function Chosen(result: AtlasResult, exception: Option<Exception>): (r: Option<Exception>)
  {
    if exception.Some? then exception else GetException(result)
  }

  /** What `throw e` raises: `e`, or a null-reference exception when `e` is null. */
  function ThrowValue(e: Option<Exception>): (r: Exception)
  {
    if e.Some? then e.value else NullReference
  }

  /** One notification of `OnError(Atlas, result, exception)`. */
  datatype ErrorEvent = ErrorEvent(atlas: Atlas?, result: AtlasResult, exception: Option<Exception>)

  /** How a host call ends: normally, or by throwing. */
  datatype HostOutcome = Normal | Raise(e: Exception)

  /**
   How the shell surfaces one controller call: a thrown exception passes
   through untouched; `Success` returns normally; any other result
   notifies `OnError` once and throws.
   */
  ghost predicate Surfaced(c: Completion, atlas: Atlas?, before: seq<ErrorEvent>, after: seq<ErrorEvent>, outcome: HostOutcome)
  {
    match c
    case Threw(x) => outcome == Raise(x) && after == before
    case Returned(result, exception) =>
      if result == Success then outcome == Normal && after == before
      else
        after == before + [ErrorEvent(atlas, result, Chosen(result, exception))] &&
        outcome == Raise(ThrowValue(Chosen(result, exception)))
  }

  /** A host call returns normally exactly when the controller reported `Success`. */
  lemma NormalExactlyOnSuccess(c: Completion, atlas: Atlas?, before: seq<ErrorEvent>, after: seq<ErrorEvent>, outcome: HostOutcome)
    requires Surfaced(c, atlas, before, after, outcome)
    ensures outcome == Normal <==> c.Returned? && c.result == Success
    ensures outcome == Normal ==> after == before
    ensures c.Returned? && c.result != Success ==> |after| == |before| + 1 && after[..|before|] == before
  {
  }

  class EntryPoint {
    /** The static `Atlas` property: the one controller, once created. */
    var atlas: Atlas?
    var config: Config
    /** The notifications `OnError` has received, in order. */
    var errors: seq<ErrorEvent>

    constructor (config: Config)
      ensures atlas == null && this.config == config && errors == []
    {
      atlas := null;
      this.config := config;
      errors := [];
    }

    /**
     `ThrowAtlasError`: reports the supplied exception, or `GetException`'s
     when none was supplied, to `OnError` exactly once, then throws it. It
     never returns normally: its result is what it throws.
     */
    method ThrowAtlasError(result: AtlasResult, exception: Option<Exception>) returns (thrown: Exception)
      modifies this`errors
      ensures exception.Some? ==> errors == old(errors) + [ErrorEvent(atlas, result, exception)] && thrown == exception.value
      ensures exception.None? ==> errors == old(errors) + [ErrorEvent(atlas, result, GetException(result))]
      ensures exception.None? && result != Success && result != FailedToInstantiateEntryType ==> thrown == GetException(result).value
      ensures exception.None? && (result == Success || result == FailedToInstantiateEntryType) ==> thrown == NullReference
    {
      var chosen := exception;
      if chosen.None? {
        chosen := GetException(result);
      }
      errors := errors + [ErrorEvent(atlas, result, chosen)];
      thrown := ThrowValue(chosen);
    }

    /** The shared tail of Load, Unload and Reload: throw unless the result is `Success`. */
    method RaiseOnFailure(c: Completion) returns (outcome: HostOutcome)
      modifies this`errors
      ensures Surfaced(c, atlas, old(errors), errors, outcome)
    {
      match c {
        case Threw(x) =>
          outcome := Raise(x);
        case Returned(result, exception) =>
          if result != Success {
            var thrown := ThrowAtlasError(result, exception);
            outcome := Raise(thrown);
          } else {
            outcome := Normal;
          }
      }
    }

    /**
     `Load`: rejected once a controller exists; otherwise the controller is
     created and stored before `TryLoad` runs, so it stays stored whatever
     `TryLoad` reports. With the source's directory pass, a first `Load`
     never returns normally.
     */
    method Load(roots: Roots, disk: Disk, rt: Runtime) returns (outcome: HostOutcome)
      modifies this, disk
      ensures atlas != null && config == old(config)
      ensures old(atlas) != null ==>
        atlas == old(atlas) && disk.nodes == old(disk.nodes) &&
        outcome == Raise(InvalidOperation) &&
        errors == old(errors) + [ErrorEvent(atlas, FailedAlreadyLoaded, Some(InvalidOperation))]
      ensures old(atlas) == null ==>
        fresh(atlas) && atlas.config == config && atlas.paths == BuildTable(roots) &&
        var e := TryLoadEffect(Unbound, atlas.paths, old(disk.nodes), rt, InsertionOrder);
        atlas.State() == e.state && disk.nodes == e.nodes &&
        Surfaced(e.completion, atlas, old(errors), errors, outcome)
      ensures old(atlas) == null ==> outcome != Normal
    {
      if atlas != null {
        var thrown := ThrowAtlasError(FailedAlreadyLoaded, None);
        return Raise(thrown);
      }

      atlas := new Atlas(config, roots);

      var nodes := disk.nodes;
      var c := atlas.TryLoad(disk, rt);

      outcome := RaiseOnFailure(c);
      ControllerFacts.AsWrittenDiscoveryNeverSucceeds(Unbound, atlas.paths, nodes, rt);
      NormalExactlyOnSuccess(c, atlas, old(errors), errors, outcome);
    }

    /**
     `Unload`: forwards to the controller's `TryUnload` once and never
     replaces the controller; with no controller, reading it throws.
     */
    method Unload() returns (outcome: HostOutcome)
      modifies this`errors
      ensures atlas == old(atlas)
      ensures old(atlas) == null ==> outcome == Raise(NullReference) && errors == old(errors)
      ensures old(atlas) != null ==> outcome == Normal && errors == old(errors)
    {
      if atlas == null {
        return Raise(NullReference);
      }
      var result, exception := atlas.TryUnload();
      outcome := RaiseOnFailure(Returned(result, exception));
    }

    /**
     `Reload`: forwards to the controller's `TryReload` once and never
     replaces the controller; with no controller, reading it throws.
     */
    method Reload() returns (outcome: HostOutcome)
      modifies this`errors
      ensures atlas == old(atlas)
      ensures old(atlas) == null ==> outcome == Raise(NullReference) && errors == old(errors)
      ensures old(atlas) != null ==> outcome == Normal && errors == old(errors)
    {
      if atlas == null {
        return Raise(NullReference);
      }
      var result, exception := atlas.TryReload();
      outcome := RaiseOnFailure(Returned(result, exception));
    }
  }

  /**
   The controller is stored before it loads, so after any first `Load`,
   failed or not, a second `Load` is rejected as already loaded and keeps
   the first controller.
   */
  method SecondLoadRejected(plugin: EntryPoint, roots: Roots, disk: Disk, rt1: Runtime, rt2: Runtime)
    returns (first: HostOutcome, second: HostOutcome)
    requires plugin.atlas == null
    modifies plugin, disk
    ensures second == Raise(InvalidOperation)
    ensures plugin.atlas != null && fresh(plugin.atlas)
    ensures plugin.atlas.paths == BuildTable(roots)
    ensures var e := TryLoadEffect(Unbound, BuildTable(roots), old(disk.nodes), rt1, InsertionOrder);
      plugin.atlas.State() == e.state && disk.nodes == e.nodes
    ensures |plugin.errors| > 0 && plugin.errors[|plugin.errors| - 1] == ErrorEvent(plugin.atlas, FailedAlreadyLoaded, Some(InvalidOperation))
  {
    first := plugin.Load(roots, disk, rt1);
    var controller := plugin.atlas;
    second := plugin.Load(roots, disk, rt2);
    assert plugin.atlas == controller;
  }
}
