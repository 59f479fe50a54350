/**
 * Run management: a scoped guard around one computation whose result is
 * kept on disk under `folder/option`, and the `manage_run` decorator that
 * drives the guard around a function call.
 *
 * The functions EnterState, ExitState and WrappedCall say what one scope
 * entry, one scope exit and one wrapped call do to the object and the
 * disk; the classes RunMgmt and ManagedRun are the stateful code, proved
 * against them.
 */
module RunMgmt {
  import opened Wrappers
  import opened Paths
  import opened Store

  /** The class attribute `RunMgmt.folder`. */
  const DefaultFolder: string := "RunMgmt"

  /** What escapes a run: an uncaught error from reading the stored entry,
      or whatever the wrapped function raised. */
  datatype Exception = Io(error: IoError) | FromFunc(message: string)

  /** The fields `done` and `result` after scope entry, and what entry raised. */
  datatype Entered = Entered(done: bool, result: Value, raised: Option<IoError>)

  /** Scope entry on a disk `d`, for the entry at `optPath`, with the object
      holding `result`. Only an EnvironmentError while unpickling is caught;
      a failing open or any other unpickling error escapes. */
  function EnterState(d: Disk, optPath: string, result: Value): (e: Entered)
    // Nothing stored: not done, result untouched.
    ensures !Exists(d, optPath) ==> e == Entered(false, result, None)
    // Done without error exactly when the entry loads, and then result is what it holds.
    ensures e.done && e.raised == None <==> optPath in d.files && d.files[optPath].Pickled?
    ensures e.done && e.raised == None ==> e.result == d.files[optPath].value
    // A load failing with EnvironmentError downgrades to "not done" and raises nothing.
    ensures optPath in d.files && d.files[optPath] == Unreadable ==> e == Entered(false, result, None)
    // Whenever the run is not done, result is untouched and nothing was raised.
    ensures !e.done ==> e.result == result && e.raised == None
    // An escaping error leaves done set (the entry existed) and result untouched.
    ensures e.raised.Some? ==> e.done && e.result == result && Exists(d, optPath)
    // An entry that exists but fails to open, or to unpickle other than by
    // EnvironmentError, makes entry raise that error.
    ensures Exists(d, optPath) && Read(d, optPath).ReadRaises? ==>
              e == Entered(true, result, Some(Read(d, optPath).error))
  {
    if !Exists(d, optPath) then Entered(false, result, None)
    else match Read(d, optPath)
      case ReadOk(v) => Entered(true, v, None)
      case ReadEnvironmentError => Entered(false, result, None)
      case ReadRaises(err) => Entered(true, result, Some(err))
  }

  /** Scope exit: create the folder if nothing is there, then pickle `result`
      to `optPath`, whatever `done` is and whether or not an exception is
      leaving the scope. */
  function ExitState(d: Disk, folder: string, optPath: string, result: Value): (d': Disk)
    ensures Read(d', optPath) == ReadOk(result)
    ensures Exists(d', folder)
    ensures d'.files - {optPath} == d.files - {optPath}
    ensures d.dirs <= d'.dirs <= d.dirs + {folder}
  {
    var d1 := if Exists(d, folder) then d else MakeDirs(d, folder);
    Dump(d1, optPath, result)
  }

  /** The arguments of a call: positional and keyword. */
  datatype Args = Args(positional: seq<Value>, keywords: map<string, Value>)

  /** What the wrapped function does when called: returns or raises. */
  datatype Computed = Returns(value: Value) | Throws(message: string)

  /** What a call of the wrapped function returns to its caller. */
  datatype Outcome = Returned(value: Value) | Raised(exception: Exception)

  /** The disk after one wrapped call, its outcome, and whether the
      underlying function was called. */
  datatype Effect = Effect(disk: Disk, outcome: Outcome, invoked: bool)

  /** One call of `manage_run(option)(func)` with `args`, where `optPath` is
      the option's path under `folder`: a fresh run manager enters, the
      function runs if the run is not done, and the manager exits. An error
      escaping scope entry skips the exit, as Python's `with` does. */
  function WrappedCall(d: Disk, folder: string, optPath: string, func: Args -> Computed, args: Args): (c: Effect)
    // A loadable entry: the function is not called and the stored value is returned.
    ensures optPath in d.files && d.files[optPath].Pickled? ==>
              !c.invoked && c.outcome == Returned(d.files[optPath].value) && c.disk.files == d.files
    // The function is called exactly when nothing is stored or loading it hit an EnvironmentError.
    ensures c.invoked <==> !Exists(d, optPath) || (optPath in d.files && d.files[optPath] == Unreadable)
    // When it is called, its return value is returned, or its exception escapes.
    ensures c.invoked ==> match func(args)
                            case Returns(v) => c.outcome == Returned(v)
                            case Throws(m) => c.outcome == Raised(FromFunc(m))
    // Whatever is returned is what the entry holds afterwards.
    ensures c.outcome.Returned? ==> Read(c.disk, optPath) == ReadOk(c.outcome.value)
    // If the function raised, the untouched `None` result was stored.
    ensures c.invoked && c.outcome.Raised? ==> Read(c.disk, optPath) == ReadOk(PyNone)
    // An error escaping scope entry leaves the disk as it was.
    ensures c.outcome.Raised? && !c.invoked ==> c.outcome.exception.Io? && c.disk == d
    // Such an error comes from an entry that exists but fails to open or unpickle:
    // it escapes, the function is not called and nothing is written.
    ensures Exists(d, optPath) && Read(d, optPath).ReadRaises? ==>
              c == Effect(d, Raised(Io(Read(d, optPath).error)), false)
    // No other entry changes, and at most the folder is added to the directories.
    ensures c.disk.files - {optPath} == d.files - {optPath}
    ensures d.dirs <= c.disk.dirs <= d.dirs + {folder}
  {
    var e := EnterState(d, optPath, PyNone);
    if e.raised.Some? then Effect(d, Raised(Io(e.raised.value)), false)
    else if e.done then Effect(ExitState(d, folder, optPath, e.result), Returned(e.result), false)
    else match func(args)
      case Returns(v) => Effect(ExitState(d, folder, optPath, v), Returned(v), true)
      case Throws(m) => Effect(ExitState(d, folder, optPath, e.result), Raised(FromFunc(m)), true)
  }

  /** `RunMgmt(option)`: the record of one run, bound to one option key. */
  class RunMgmt {
    const fs: FileSystem
    const option: string
    const folder: string
    const optPath: string
    var done: Option<bool>
    var result: Value

    constructor(fs: FileSystem, option: string)
      ensures this.fs == fs && this.option == option
      ensures folder == DefaultFolder && optPath == Join(DefaultFolder, option)
      ensures done == None && result == PyNone
    {
      this.fs := fs;
      this.option := option;
      folder := DefaultFolder;
      optPath := Join(DefaultFolder, option);
      done := None;
      result := PyNone;
    }

    /** `__enter__`: look for a stored result and load it. Returns the error
        that escapes, if any; the disk is never changed. */
    method Enter() returns (raised: Option<IoError>)
      modifies this
      ensures unchanged(fs)
      ensures var e := EnterState(fs.State(), optPath, old(result));
              done == Some(e.done) && result == e.result && raised == e.raised
    {
      done := Some(Exists(fs.State(), optPath));
      if done == Some(true) {
        match Read(fs.State(), optPath)
        case ReadOk(v) =>
          result := v;
        case ReadEnvironmentError =>
          done := Some(false);
        case ReadRaises(err) =>
          return Some(err);
      }
      raised := None;
    }

    /** `__exit__`: always persist the current result. It returns nothing, so
        an exception leaving the scope is not suppressed. */
    method Exit()
      modifies fs
      ensures fs.State() == ExitState(old(fs.State()), folder, optPath, result)
    {
      if !Exists(fs.State(), folder) {
        fs.CreateFolder(folder);
      }
      fs.DumpTo(optPath, result);
    }
  }

  /** `manage_run(option)(func)`: the wrapped function. The key is fixed here;
      the call arguments play no part in caching. `invocations` records the
      arguments of every call that reached the underlying function. */
  class ManagedRun {
    const fs: FileSystem
    const option: string
    const func: Args -> Computed
    ghost var invocations: seq<Args>

    constructor(fs: FileSystem, option: string, func: Args -> Computed)
      ensures this.fs == fs && this.option == option && this.func == func
      ensures invocations == []
    {
      this.fs := fs;
      this.option := option;
      this.func := func;
      invocations := [];
    }

    /** `wrapped_func(*args, **kws)`. */
    method Call(args: Args) returns (r: Outcome)
      modifies this, fs
      ensures var c := WrappedCall(old(fs.State()), DefaultFolder, Join(DefaultFolder, option), func, args);
              fs.State() == c.disk && r == c.outcome &&
              invocations == old(invocations) + (if c.invoked then [args] else [])
    {
      var rm := new RunMgmt(fs, option);
      var raised := rm.Enter();
      if raised.Some? {
        return Raised(Io(raised.value));
      }
      if rm.done == Some(false) {
        invocations := invocations + [args];
        match func(args)
        case Returns(v) =>
          rm.result := v;
        case Throws(m) =>
          rm.Exit();
          return Raised(FromFunc(m));
      }
      r := Returned(rm.result);
      rm.Exit();
    }
  }
}
