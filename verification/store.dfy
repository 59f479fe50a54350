/**
 * The file system as the run manager sees it: `os.path.exists`,
 * `os.makedirs`, and `pickle.dump` / `pickle.load` through `open`.
 * A file holds an abstract blob; pickling is an exact round trip.
 */
module Store {

  /** A Python object as the cache sees it: `None`, or any other picklable object. */
  datatype Value = PyNone | Obj(payload: string)

  /** What a file holds, as far as opening it and unpickling from it can tell. */
  datatype Blob =
    | Pickled(value: Value) // written by pickle.dump; loads back as the same value
    | Unreadable            // pickle.load raises an EnvironmentError (an I/O error while reading)
    | Unpicklable           // pickle.load raises some other error (truncated or foreign bytes)
    | Unopenable            // open for reading raises (no read permission)

  /** The exceptions reading can raise that the run manager does not catch. */
  datatype IoError = OpenError(path: string) | LoadError(path: string)

  /** The result of opening a path and unpickling from it. */
  datatype ReadResult =
    | ReadOk(value: Value)
    | ReadEnvironmentError
    | ReadRaises(error: IoError)

  /** Regular files with their contents, and the set of directories. */
  datatype Disk = Disk(files: map<string, Blob>, dirs: set<string>)

  /** `os.path.exists`: a file or a directory is there. A path that does
      not exist cannot be opened. */
  predicate Exists(d: Disk, path: string)
    ensures path in d.files ==> Exists(d, path)
    ensures !Exists(d, path) ==> Read(d, path) == ReadRaises(OpenError(path))
  {
    path in d.files || path in d.dirs
  }

  /** `pickle.load(open(path))`. A directory, or no file at all, fails to open. */
  function Read(d: Disk, path: string): (r: ReadResult)
    // Loading succeeds exactly on a pickled file, and yields what was pickled.
    ensures r.ReadOk? <==> path in d.files && d.files[path].Pickled?
    ensures r.ReadOk? ==> r.value == d.files[path].value
    // Only a read failing with an EnvironmentError is told apart from the errors that escape.
    ensures r == ReadEnvironmentError <==> path in d.files && d.files[path] == Unreadable
    // Every other failure raises for this path: bad bytes from pickle.load, anything else from open.
    ensures r.ReadRaises? ==> r.error.path == path
    ensures r.ReadRaises? ==> (r.error.LoadError? <==> path in d.files && d.files[path] == Unpicklable)
  {
    if path !in d.files then ReadRaises(OpenError(path))
    else match d.files[path]
      case Pickled(v) => ReadOk(v)
      case Unreadable => ReadEnvironmentError
      case Unpicklable => ReadRaises(LoadError(path))
      case Unopenable => ReadRaises(OpenError(path))
  }

  /** `os.makedirs(path)`: the directory exists afterwards; files are untouched. */
  function MakeDirs(d: Disk, path: string): (d': Disk)
    ensures Exists(d', path)
    ensures d'.files == d.files
    ensures d'.dirs - {path} == d.dirs - {path}
  {
    Disk(d.files, d.dirs + {path})
  }

  /** `pickle.dump(v, open(path, 'w'))`: reading the path back yields `v`,
      and no other file and no directory changes. */
  function Dump(d: Disk, path: string, v: Value): (d': Disk)
    ensures Read(d', path) == ReadOk(v)
    ensures d'.files - {path} == d.files - {path}
    ensures d'.dirs == d.dirs
  {
    Disk(d.files[path := Pickled(v)], d.dirs)
  }

  /** The disk as mutable state shared by every run manager in a process. */
  class FileSystem {
    var files: map<string, Blob>
    var dirs: set<string>

    function State(): Disk
      reads this
    {
      Disk(files, dirs)
    }

    constructor(d: Disk)
      ensures State() == d
    {
      files := d.files;
      dirs := d.dirs;
    }

    method CreateFolder(path: string)
      modifies this
      ensures State() == MakeDirs(old(State()), path)
    {
      dirs := dirs + {path};
    }

    method DumpTo(path: string, v: Value)
      modifies this
      ensures State() == Dump(old(State()), path, v)
    {
      files := files[path := Pickled(v)];
    }
  }
}
