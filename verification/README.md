# RunMgmt: a disk-backed guard for one-shot computations

This project models `RunMgmt.py` of hepML in Dafny. The module helps while
developing analysis scripts: a result that was computed once is pickled
under `RunMgmt/<option>` and loaded instead of recomputed on later runs.

- `RunMgmt(option)` is a context manager bound to one option key. Its
  path is `os.path.join(folder, option)` with the class attribute
  `folder == "RunMgmt"`. A fresh object has `done == None` and
  `result == None`.
- Entering the scope checks whether the path exists. If it does, entering
  unpickles the stored result and sets `done`. An `EnvironmentError`
  raised while unpickling turns this into "not done". Entering never
  writes anything.
- Leaving the scope always creates the folder if needed and pickles the
  current `result` to the path. This happens whether or not the run was
  already done, and whether or not an exception is leaving the scope.
  `__exit__` returns nothing, so such an exception is not suppressed.
- `manage_run(option)` decorates a function. Each call of the wrapped
  function runs the function only when the run is not done and returns
  `rm.result`. The key is fixed when the function is wrapped; the call
  arguments play no part.

The file system is abstract. A `Disk` holds a map from path to file
contents plus a set of directories. Pickling is an exact round trip of an
abstract `Value`. A file's contents can also be one that makes loading
fail: with an `EnvironmentError`, with another unpickling error, or
already at `open`. The wrapped function is a total Dafny function from
its arguments to "returns a value" or "raises". Its side effects are not
modelled.

Modules:
- `Paths` (`paths.dfy`): POSIX `os.path.join` for two parts.
- `Store` (`store.dfy`): the abstract disk, with `os.path.exists`,
  `os.makedirs`, `pickle.load` and `pickle.dump`, and a `FileSystem` class
  holding the disk as mutable state.
- `RunMgmt` (`run_mgmt.dfy`): the functions `EnterState`, `ExitState` and
  `WrappedCall` say what one entry, one exit and one wrapped call do. The
  classes `RunMgmt` and `ManagedRun` are the stateful code, and each
  method is proved against one of those functions.
- `RunMgmtProps` (`run_mgmt_props.dfy`): properties that span several
  calls.
- `Wrappers` (`wrappers.dfy`): an `Option` type.

Where the behaviour is subtle, the model follows the code.
- Only an `EnvironmentError` raised by `pickle.load` is treated as a
  cache miss. A truncated or foreign file makes `pickle.load` raise some
  other error, such as `EOFError` or `UnpicklingError`. That error
  escapes scope entry, and so does a failing `open`, which sits outside
  the `try`. Python's `with` then skips `__exit__`, so nothing is
  written. Treating every corrupt entry as a miss would not match this
  code.
- An existing directory at the option's path counts as "exists". Opening
  it fails, and that error escapes.
- The wrapped function can raise on the call that runs it. `__exit__`
  still pickles the untouched `None` result. Every later call then loads
  `None` and returns it without running the function
  (`RunMgmtProps.FailedRunCachesNone`).
- There is no in-memory mirror of loaded entries, and there is no bypass
  switch. The `run_all` attribute is never read.

## Model

| member | source | states |
|---|---|---|
| `Paths.Join` | RunMgmt.py:27 | the option path is the folder, a separator unless the folder is empty or already ends in one, and then the option name, with nothing else in between; it is the option itself when the option is absolute |
| `Paths.JoinInjective` | RunMgmt.py:27 | under a relative folder such as `RunMgmt`, distinct options are stored at distinct paths |
| `Store.Exists` | RunMgmt.py:33 | a file makes the path exist; a path that does not exist cannot be opened |
| `Store.Read` | RunMgmt.py:35-37 | loading succeeds exactly on a pickled file and yields what was pickled; only an unreadable file gives the `EnvironmentError` outcome; every other failure raises for that path, as a load error for bad bytes and an open error otherwise |
| `Store.MakeDirs` | RunMgmt.py:49-50 | after `os.makedirs` the folder exists, and the files and other directories are unchanged |
| `Store.Dump` | RunMgmt.py:51-52 | after pickling `v` to a path, loading that path yields `v`; no other file and no directory changes |
| `Store.FileSystem.CreateFolder` | RunMgmt.py:49-50 | the mutable disk changes exactly as `MakeDirs` says |
| `Store.FileSystem.DumpTo` | RunMgmt.py:51-52 | the mutable disk changes exactly as `Dump` says |
| `RunMgmt.EnterState` | RunMgmt.py:31-46 | no entry: not done and result untouched; done without error iff the entry unpickles, and then result is the stored value; an `EnvironmentError` gives not done with nothing raised; an existing entry that fails to open or to unpickle otherwise makes entry raise that error, with `done` set and result untouched |
| `RunMgmt.ExitState` | RunMgmt.py:48-52 | afterwards the option path loads as the current result and the folder exists; every other file is unchanged; only the folder may be added to the directories |
| `RunMgmt.WrappedCall` | RunMgmt.py:67-73 | a loadable entry: function not called, stored value returned, files unchanged; the function is called iff there is no entry or its load raised `EnvironmentError`; a called function's value is returned or its exception escapes; a returned value is what the entry then holds; a raising function leaves `None` stored; an existing entry that fails to open or to unpickle otherwise makes the call raise that error without calling the function or writing anything; other files are untouched and at most the folder is added to the directories |
| `RunMgmt.RunMgmt.constructor` | RunMgmt.py:25-29 | `opt_path` is `folder` joined with `option`; `done` is `None`; `result` is `None` |
| `RunMgmt.RunMgmt.Enter` | RunMgmt.py:31-46 | the disk is unchanged; `done`, `result` and the escaping error are as `EnterState` gives for the old result |
| `RunMgmt.RunMgmt.Exit` | RunMgmt.py:48-52 | the disk becomes `ExitState` of the old disk for the current result, whatever `done` is |
| `RunMgmt.ManagedRun.constructor` | RunMgmt.py:55-74 | the wrapped function is bound to the option key fixed at wrap time; no call is recorded yet |
| `RunMgmt.ManagedRun.Call` | RunMgmt.py:68-72 | the new disk and the outcome are as `WrappedCall` gives; the call's arguments are logged exactly when the function ran |
| `RunMgmtProps.ExitThenEnterLoads` | RunMgmt.py:31-52 | the next entry after an exit finds the run done, with the value that exit stored |
| `RunMgmtProps.RepersistIsIdempotent` | RunMgmt.py:31-52 | entering on a loadable entry and exiting without assigning `result` leaves all files unchanged; persisting again changes nothing; a third load yields the original value |
| `RunMgmtProps.OtherOptionUntouched` | RunMgmt.py:25-52 | under a relative folder, the exit of one option's run does not change what entering another option finds, paths being compared as strings |
| `RunMgmtProps.SamePathUntouched` | RunMgmt.py:31-52 | exiting the run at one path does not change what entering at another path string finds, unless that string is the folder exit may create |
| `RunMgmtProps.SecondCallIsCached` | RunMgmt.py:55-73 | after a call that returned a value, the next call with any arguments does not run the function; it returns the same value and leaves the disk as it was |
| `RunMgmtProps.FailedRunCachesNone` | RunMgmt.py:48-73 | when the function raises on the call that runs it, the exception escapes; the next call returns `None` without running the function |
| `RunMgmtProps.Calls` | RunMgmt.py:68-72 | a sequence of calls yields one outcome per call and at most one invocation per call |
| `RunMgmtProps.CallsOnStoredValue` | RunMgmt.py:67-73 | with a loadable entry, any number of calls run nothing, all return the stored value and keep the files unchanged |
| `RunMgmtProps.CallsOnBrokenEntry` | RunMgmt.py:31-72 | with an entry that fails to open or to unpickle (not by `EnvironmentError`), every call raises that error; nothing runs and nothing is written |
| `RunMgmtProps.CallTwice` | RunMgmt.py:68-72 | two calls of one wrapped function log at most one run of the underlying function; a returned value is returned again; after the function raised, the second call returns `None` |
| `RunMgmtProps.AtMostOneInvocation` | RunMgmt.py:55-73 | over any number of calls with any arguments, the function runs at most once; all calls after the first share one outcome; if the first returned a value, every call returns it |

## Left out

- The model assumes Python 2 and POSIX `os.path`. Under Python 3, pickling to a file opened with `'w'` raises `TypeError` after truncating the file. Windows `ntpath.join` differs from `Paths.Join`.
- OtherOptionUntouched: paths are compared as plain strings, with no normalisation. The lemma does not cover two strings that name one file: `.` or `..` components (`"b"` and `"./b"`), repeated or trailing separators, symbolic links, or case-insensitive file systems. For example, options `"a"` and `""` give `RunMgmt/a` and `RunMgmt/`. Once the exit of `"a"` creates `RunMgmt`, entering `""` opens the folder and raises.
- SamePathUntouched: the same limit applies, since distinct path strings are treated as distinct files.

- `print` diagnostics and the `silent` attribute: console output only.
- The `run_all` attribute: no code reads it.
- Reassigning the class attribute `folder` is not modelled. Constructors use `"RunMgmt"`; the specification functions take the folder as a parameter.
- Failures while writing are not modelled: `os.makedirs` or `open(..., 'w')` refused, the disk full, or a file where the folder should be. Exit always succeeds, which holds for Python 2 only. `os.makedirs` creating missing parent directories is also left out.
- The pickle byte format and file handles. A stored file is an abstract blob, and pickling round-trips exactly.
- The side effects of the wrapped function, and any dependence of it on the disk. It is a pure function of its arguments.
- Several processes sharing one folder (concurrency).
- `MlClasses/Bdt.py`: training, cross-validation, plotting and reports go through scikit-learn and matplotlib. They are not part of this model.
