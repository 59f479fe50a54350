/**
 * Properties that relate several scope entries, exits and wrapped calls:
 * re-persisting a loaded result, isolation between options, and the
 * one-shot guarantee of `manage_run` over any number of calls.
 */
module RunMgmtProps {
  import opened Wrappers
  import opened Paths
  import opened Store
  import opened RunMgmt

  /** What a run stores is what the next run under the same path loads. */
  lemma ExitThenEnterLoads(d: Disk, folder: string, optPath: string, v: Value, r0: Value)
    ensures EnterState(ExitState(d, folder, optPath, v), optPath, r0) == Entered(true, v, None)
  {
  }

  /** Entering with a loadable entry and exiting without assigning `result`
      leaves every file as it was; persisting again changes nothing more, and
      a third load still yields the original value. */
  lemma RepersistIsIdempotent(d: Disk, folder: string, optPath: string, r0: Value, r1: Value)
    requires EnterState(d, optPath, r0).done && EnterState(d, optPath, r0).raised == None
    ensures var v := EnterState(d, optPath, r0).result;
            var d1 := ExitState(d, folder, optPath, v);
            d1.files == d.files &&
            ExitState(d1, folder, optPath, v) == d1 &&
            EnterState(d1, optPath, r1) == Entered(true, v, None)
  {
    var v := EnterState(d, optPath, r0).result;
    var d1 := ExitState(d, folder, optPath, v);
    assert d.files[optPath] == Pickled(v);
    assert d1.files == d.files[optPath := Pickled(v)];
    assert d1.files == d.files;
  }

  /** Under a relative folder, exiting the run of one option leaves what
      another option would load untouched. */
  lemma OtherOptionUntouched(d: Disk, folder: string, x: string, y: string, v: Value, r0: Value)
    requires !IsAbsolute(folder) && x != y
    requires Join(folder, y) != folder
    ensures EnterState(ExitState(d, folder, Join(folder, x), v), Join(folder, y), r0)
         == EnterState(d, Join(folder, y), r0)
  {
    var p, q := Join(folder, x), Join(folder, y);
    if p == q {
      JoinInjective(folder, x, y);
    }
    SamePathUntouched(d, folder, p, q, v, r0);
  }

  /** Exiting the run at `p` does not change what entering at another path
      `q` finds, unless `q` is the folder that exit may create. */
  lemma SamePathUntouched(d: Disk, folder: string, p: string, q: string, v: Value, r0: Value)
    requires p != q && q != folder
    ensures EnterState(ExitState(d, folder, p, v), q, r0) == EnterState(d, q, r0)
  {
    var d1 := ExitState(d, folder, p, v);
    assert d1.files == d.files[p := Pickled(v)];
    assert Exists(d1, q) == Exists(d, q);
    assert Read(d1, q) == Read(d, q);
  }

  /** Two consecutive wrapped calls, even with different arguments: once the
      first has returned a value, the second returns the same value without
      calling the function and leaves the disk as the first left it. */
  lemma SecondCallIsCached(d: Disk, folder: string, optPath: string, func: Args -> Computed, a1: Args, a2: Args)
    requires WrappedCall(d, folder, optPath, func, a1).outcome.Returned?
    ensures var c1 := WrappedCall(d, folder, optPath, func, a1);
            var c2 := WrappedCall(c1.disk, folder, optPath, func, a2);
            !c2.invoked && c2.outcome == c1.outcome && c2.disk == c1.disk
  {
    var c1 := WrappedCall(d, folder, optPath, func, a1);
    var p := optPath;
    var c2 := WrappedCall(c1.disk, folder, optPath, func, a2);
    assert c1.disk.files[p] == Pickled(c1.outcome.value);
    assert c2.disk.files == c1.disk.files[p := Pickled(c1.outcome.value)];
    assert c2.disk.files == c1.disk.files;
  }

  /** If the function raises on the call that runs it, exit still stores the
      untouched `None` result, so the next call returns `None` without
      calling the function again. */
  lemma FailedRunCachesNone(d: Disk, folder: string, optPath: string, func: Args -> Computed, a1: Args, a2: Args)
    requires WrappedCall(d, folder, optPath, func, a1).invoked
    requires func(a1).Throws?
    ensures var c1 := WrappedCall(d, folder, optPath, func, a1);
            var c2 := WrappedCall(c1.disk, folder, optPath, func, a2);
            c1.outcome == Raised(FromFunc(func(a1).message)) &&
            !c2.invoked && c2.outcome == Returned(PyNone)
  {
  }

  /** The outcomes of a sequence of wrapped calls, one per element of
      `calls`, each on the disk the previous one left, and how many of them
      reached the underlying function. */
  datatype Session = Session(disk: Disk, outcomes: seq<Outcome>, invocations: nat)

  function Calls(d: Disk, folder: string, optPath: string, func: Args -> Computed, calls: seq<Args>): (s: Session)
    ensures |s.outcomes| == |calls|
    ensures s.invocations <= |calls|
    decreases |calls|
  {
    if calls == [] then Session(d, [], 0)
    else
      var c := WrappedCall(d, folder, optPath, func, calls[0]);
      var rest := Calls(c.disk, folder, optPath, func, calls[1..]);
      Session(rest.disk, [c.outcome] + rest.outcomes, (if c.invoked then 1 else 0) + rest.invocations)
  }

  /** Once the entry holds a loadable value, no call runs the function, every
      call returns that value and the file is kept as it is. */
  lemma {:induction false} CallsOnStoredValue(d: Disk, folder: string, optPath: string, func: Args -> Computed, calls: seq<Args>, v: Value)
    requires optPath in d.files && d.files[optPath] == Pickled(v)
    ensures var s := Calls(d, folder, optPath, func, calls);
            s.invocations == 0 && s.disk.files == d.files &&
            forall i :: 0 <= i < |s.outcomes| ==> s.outcomes[i] == Returned(v)
    decreases |calls|
  {
    if calls != [] {
      var c := WrappedCall(d, folder, optPath, func, calls[0]);
      CallsOnStoredValue(c.disk, folder, optPath, func, calls[1..], v);
    }
  }

  /** An entry that exists but cannot be opened or unpickled (other than by
      an EnvironmentError) makes every call raise, run nothing and write nothing. */
  lemma {:induction false} CallsOnBrokenEntry(d: Disk, folder: string, optPath: string, func: Args -> Computed, calls: seq<Args>)
    requires Exists(d, optPath) && Read(d, optPath).ReadRaises?
    ensures var s := Calls(d, folder, optPath, func, calls);
            s.invocations == 0 && s.disk == d &&
            forall i :: 0 <= i < |s.outcomes| ==> s.outcomes[i] == Raised(Io(Read(d, optPath).error))
    decreases |calls|
  {
    if calls != [] {
      CallsOnBrokenEntry(d, folder, optPath, func, calls[1..]);
    }
  }

  /** The one-shot guarantee: over any number of calls, with any arguments,
      the underlying function runs at most once; every call after the first
      has the same outcome, and if the first returned a value all of them
      return it. */
  lemma {:induction false} AtMostOneInvocation(d: Disk, folder: string, optPath: string, func: Args -> Computed, calls: seq<Args>)
    ensures var s := Calls(d, folder, optPath, func, calls);
            s.invocations <= 1 &&
            (forall i, j :: 1 <= i < |calls| && 1 <= j < |calls| ==> s.outcomes[i] == s.outcomes[j]) &&
            (|calls| > 0 && s.outcomes[0].Returned? ==> forall i :: 0 <= i < |calls| ==> s.outcomes[i] == s.outcomes[0])
  {
    if calls != [] {
      var c := WrappedCall(d, folder, optPath, func, calls[0]);
      match c.outcome
      case Returned(v) =>
        CallsOnStoredValue(c.disk, folder, optPath, func, calls[1..], v);
      case Raised(ex) =>
        if c.invoked {
          CallsOnStoredValue(c.disk, folder, optPath, func, calls[1..], PyNone);
        } else {
          CallsOnBrokenEntry(d, folder, optPath, func, calls[1..]);
        }
    }
  }

  /** Two calls of one wrapped function, as a script makes them: the
      underlying function runs at most once, a returned value is returned
      again, and a first call that raised from the function makes the
      second return `None`. */
  method CallTwice(m: ManagedRun, a1: Args, a2: Args) returns (r1: Outcome, r2: Outcome)
    modifies m, m.fs
    ensures |m.invocations| <= |old(m.invocations)| + 1
    ensures r1.Returned? ==> r2 == r1
    ensures r1.Raised? && r1.exception.FromFunc? ==> r2 == Returned(PyNone)
  {
    r1 := m.Call(a1);
    r2 := m.Call(a2);
  }
}
