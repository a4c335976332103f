/**
 The parts of the outside world the loader touches: nullable values,
 exceptions (as kind tags), and the file system, reduced to a map from
 path strings to what is stored there.
 */
module Host {

  /** A value of a nullable reference type: `None` is `null`. */
  datatype Option<+T> = None | Some(value: T)

  /**
   Exceptions, identified by kind only (messages are not modelled).
   `Foreign` stands for any exception raised by code outside the model
   (the runtime's loader, a constructor or method of the loaded module);
   the model never inspects it, it only carries it.
   */
  datatype Exception =
    | Foreign(id: nat)
    | IOError(path: string)
    | KeyNotFound
    | NullReference
    | InvalidOperation
    | FileNotFound
    | DirectoryNotFound
    | BadImageFormat
    | TypeAccess
    | MethodAccess
    | MissingMethod
    | InvalidData

  /** The outcome of a call that either returns a value or throws. */
  datatype Result<+T> = Ok(value: T) | Throws(error: Exception)

  /** What is stored at a path. An absent path is simply not in the map. */
  datatype Node = Dir | File

  predicate IsDirectory(nodes: map<string, Node>, p: string)
  {
    p in nodes && nodes[p] == Dir
  }

  predicate IsFile(nodes: map<string, Node>, p: string)
  {
    p in nodes && nodes[p] == File
  }

  /**
   Creating a directory: nothing happens when it already exists, a new
   directory appears where nothing was, and the call throws an I/O error
   when a file occupies the path.
   */
  function CreateDirectoryAt(nodes: map<string, Node>, p: string): (r: (map<string, Node>, Option<Exception>))
    ensures IsFile(nodes, p) <==> r.1.Some?
    ensures r.1.Some? ==> r.0 == nodes && r.1.value == IOError(p)
    ensures r.1.None? ==> IsDirectory(r.0, p)
    ensures r.0.Keys == nodes.Keys + {p} || r.0 == nodes
    ensures forall q :: q in nodes ==> q in r.0 && r.0[q] == nodes[q]
  {
    if IsFile(nodes, p) then (nodes, Some(IOError(p)))
    else if IsDirectory(nodes, p) then (nodes, None)
    else (nodes[p := Dir], None)
  }

  /** The file system as the process sees it. */
  class Disk {
    var nodes: map<string, Node>

    constructor (initial: map<string, Node>)
      ensures nodes == initial
    {
      nodes := initial;
    }

    /** `Directory.Exists`: false for an absent path and for a file. */
    function DirectoryExists(p: string): (b: bool)
      reads this
      ensures b <==> p in nodes && nodes[p] == Dir
    {
      IsDirectory(nodes, p)
    }

    /** `File.Exists`: false for an absent path and for a directory. */
    function FileExists(p: string): (b: bool)
      reads this
      ensures b <==> p in nodes && nodes[p] == File
    {
      IsFile(nodes, p)
    }

    /** `Directory.CreateDirectory`; the returned exception is the one it throws. */
    method CreateDirectory(p: string) returns (thrown: Option<Exception>)
      modifies this
      ensures (nodes, thrown) == CreateDirectoryAt(old(nodes), p)
    {
      var r := CreateDirectoryAt(nodes, p);
      nodes := r.0;
      thrown := r.1;
    }
  }
}
