/**
 * The result-backend contract of celery/backends/base.py: making an exception
 * safe to store (the nearest picklable superclass, or a portable wrapper),
 * the status-writing helpers over a store of (status, result) records, and
 * `wait_for` polling that store.
 *
 * Class construction and `pickle.dumps` are parameters: `constructs` says
 * whether calling a class with one argument returns rather than raises, and
 * `dumps` what pickling an exception instance does.
 */
module Backend {
  import opened Python

  /** What `pickle.dumps(exc)` does. */
  datatype PickleOutcome = Pickled | PickleError | OtherError

  /** `supercls(exc.args)`: an instance of the `i`-th class of `exc`'s MRO whose single argument is `exc`'s args. */
  function Rebuilt(exc: PyException, i: nat): (r: PyException)
    requires i < |exc.Mro()|
    ensures r.Class() == exc.Mro()[i] && r.Mro() == exc.Mro()[i..]
    ensures r.Args() == [VTuple(exc.Args())]
  {
    Instance(exc.Mro()[i], exc.Mro()[i..], [VTuple(exc.Args())])
  }

  /** The `i`-th class of the MRO can be called with `exc.args` and the instance pickles. */
  predicate Accepted(exc: PyException, i: nat, constructs: ClassName -> bool, dumps: PyException -> PickleOutcome)
    requires i < |exc.Mro()|
  {
    constructs(exc.Mro()[i]) && dumps(Rebuilt(exc, i)).Pickled?
  }

  /** The first class at or after position `from` of `exc`'s MRO that is accepted, if any. */
  function FirstAccepted(exc: PyException, from: nat, constructs: ClassName -> bool, dumps: PyException -> PickleOutcome): (r: Option<nat>)
    requires from <= |exc.Mro()|
    ensures r.Some? ==>
      && from <= r.value < |exc.Mro()|
      && Accepted(exc, r.value, constructs, dumps)
      && forall k :: from <= k < r.value ==> !Accepted(exc, k, constructs, dumps)
    ensures r.None? ==> forall k :: from <= k < |exc.Mro()| ==> !Accepted(exc, k, constructs, dumps)
    decreases |exc.Mro()| - from
  {
    if from == |exc.Mro()| then None
    else if Accepted(exc, from, constructs, dumps) then Some(from)
    else FirstAccepted(exc, from + 1, constructs, dumps)
  }

  /**
   * `find_nearest_pickleable_exception`: walking the MRO from the exception's
   * own class towards `object`, the instance rebuilt from the first class that
   * constructs and pickles; `exc` itself when there is none.
   */
  function FindNearestPickleableException(exc: PyException, constructs: ClassName -> bool, dumps: PyException -> PickleOutcome): (r: PyException)
    ensures r == exc || dumps(r).Pickled?
    ensures (forall k :: 0 <= k < |exc.Mro()| ==> !Accepted(exc, k, constructs, dumps)) ==> r == exc
    ensures forall j :: 0 <= j < |exc.Mro()| && Accepted(exc, j, constructs, dumps)
                        && (forall k :: 0 <= k < j ==> !Accepted(exc, k, constructs, dumps))
                        ==> r == Rebuilt(exc, j)
  {
    var first := FirstAccepted(exc, 0, constructs, dumps);
    if first.Some? then Rebuilt(exc, first.value) else exc
  }

  /**
   * `UnpickleableExceptionWrapper(module, name, args)` for `exc`: an Exception
   * whose attributes name the original class and whose args hold the module,
   * the class name and the original args.
   */
  function Wrap(exc: PyException): (r: PyException)
    ensures r.UnpickleableExceptionWrapper?
    ensures r.excModule == exc.Class().moduleName && r.excCls == exc.Class().name
    ensures r.Args() == [VStr(exc.Class().moduleName), VStr(exc.Class().name), VTuple(exc.Args())]
    ensures r.IsA(ExceptionClass) && !r.IsA(SystemExit) && !r.IsA(KeyboardInterrupt)
  {
    UnpickleableExceptionWrapper(exc.Class().moduleName, exc.Class().name, exc.Args())
  }

  /**
   * `prepare_exception`: the nearest picklable exception when it pickles; a
   * wrapper of it when pickling raises `PickleError`; any other pickling error
   * propagates.
   */
  function PrepareException(exc: PyException, constructs: ClassName -> bool, dumps: PyException -> PickleOutcome): (r: Result<PyException, PickleOutcome>)
    ensures var nearest := FindNearestPickleableException(exc, constructs, dumps);
      && (dumps(nearest).Pickled? ==> r == Ok(nearest))
      && (dumps(nearest).PickleError? ==> r == Ok(Wrap(nearest)))
      && (dumps(nearest).OtherError? ==> r == Err(OtherError))
  {
    var nearest := FindNearestPickleableException(exc, constructs, dumps);
    match dumps(nearest)
    case Pickled => Ok(nearest)
    case PickleError => Ok(Wrap(nearest))
    case OtherError => Err(OtherError)
  }

  /**
   * The wrapper is only ever built for the original exception: a rebuilt
   * superclass instance always pickles, so reaching the wrapper means no class
   * of the MRO was accepted and `exc` itself failed to pickle.
   */
  lemma PrepareExceptionWrapsOriginal(exc: PyException, constructs: ClassName -> bool, dumps: PyException -> PickleOutcome)
    ensures var r := PrepareException(exc, constructs, dumps);
      r.Ok? && r.value != FindNearestPickleableException(exc, constructs, dumps) ==>
        && r.value == Wrap(exc)
        && dumps(exc).PickleError?
        && forall k :: 0 <= k < |exc.Mro()| ==> !Accepted(exc, k, constructs, dumps)
  {
    var first := FirstAccepted(exc, 0, constructs, dumps);
    if first.Some? {
      assert dumps(Rebuilt(exc, first.value)).Pickled?;
    }
  }

  /** An exception that pickles as it is, and whose own class is accepted, is stored rebuilt from that class. */
  lemma PrepareExceptionOwnClass(exc: PyException, constructs: ClassName -> bool, dumps: PyException -> PickleOutcome)
    requires |exc.Mro()| > 0 && Accepted(exc, 0, constructs, dumps)
    ensures PrepareException(exc, constructs, dumps) == Ok(Rebuilt(exc, 0))
  {
  }

  /** `prepare_result`: None is stored as True, anything else unchanged. */
  function PrepareResult(result: Value): (r: Value)
    ensures r != VNone
    ensures result != VNone ==> r == result
    ensures result == VNone ==> r == VBool(true)
  {
    if result == VNone then VBool(true) else result
  }

  /** Preparing a prepared result changes nothing. */
  lemma PrepareResultIdempotent(result: Value)
    ensures PrepareResult(PrepareResult(result)) == PrepareResult(result)
  {
  }

  // ---------------------------------------------------------------------------
  // The store
  // ---------------------------------------------------------------------------

  /** What is stored beside a status: a task's return value or the exception it raised. */
  datatype Stored = StoredValue(value: Value) | StoredException(exc: PyException)

  datatype Record = Record(status: string, result: Stored)

  type Store = map<string, Record>

  const Pending := "PENDING"
  const Done := "DONE"
  const Failure := "FAILURE"
  const Retry := "RETRY"

  /** `get_status` of a store: the recorded status, PENDING for a task never stored. */
  function StatusIn(store: Store, taskId: string): string {
    if taskId in store then store[taskId].status else Pending
  }

  /** `get_result` of a store: the recorded result, None for a task never stored. */
  function ResultIn(store: Store, taskId: string): Stored {
    if taskId in store then store[taskId].result else StoredValue(VNone)
  }

  /** Storing under one task id leaves every other task's status and result as it was. */
  lemma StoreIsolated(store: Store, taskId: string, record: Record, other: string)
    requires other != taskId
    ensures StatusIn(store[taskId := record], other) == StatusIn(store, other)
    ensures ResultIn(store[taskId := record], other) == ResultIn(store, other)
  {
  }

  class Backend {
    var store: Store

    constructor ()
      ensures store == map[]
    {
      store := map[];
    }

    /** `store_result`, as every concrete backend implements it: the record for `taskId` is replaced. */
    method StoreResult(taskId: string, result: Stored, status: string)
      modifies this
      ensures store == old(store)[taskId := Record(status, result)]
    {
      store := store[taskId := Record(status, result)];
    }

    /** `get_status`: the status last stored for the task, PENDING for a task never stored. */
    function GetStatus(taskId: string): (r: string)
      reads this
      ensures taskId in store ==> r == store[taskId].status
      ensures taskId !in store ==> r == Pending
    {
      StatusIn(store, taskId)
    }

    /** `get_result`: the result last stored for the task, None for a task never stored. */
    function GetResult(taskId: string): (r: Stored)
      reads this
      ensures taskId in store ==> r == store[taskId].result
      ensures taskId !in store ==> r == StoredValue(VNone)
    {
      ResultIn(store, taskId)
    }

    /** `is_done`: the task has been stored with status DONE; a task never stored is not done. */
    function IsDone(taskId: string): (r: bool)
      reads this
      ensures r <==> taskId in store && store[taskId].status == Done
    {
      GetStatus(taskId) == Done
    }

    /** `mark_as_done`: the task is done with `result`; no other task changes. */
    method MarkAsDone(taskId: string, result: Value)
      modifies this
      ensures store == old(store)[taskId := Record(Done, StoredValue(result))]
      ensures IsDone(taskId) && GetResult(taskId) == StoredValue(result)
      ensures forall other :: other != taskId ==> GetStatus(other) == old(GetStatus(other))
    {
      StoreResult(taskId, StoredValue(result), Done);
    }

    /** `mark_as_failure`: the task failed with `exc`; it is not done. */
    method MarkAsFailure(taskId: string, exc: PyException)
      modifies this
      ensures store == old(store)[taskId := Record(Failure, StoredException(exc))]
      ensures !IsDone(taskId) && GetStatus(taskId) == Failure && GetResult(taskId) == StoredException(exc)
      ensures forall other :: other != taskId ==> GetStatus(other) == old(GetStatus(other))
    {
      StoreResult(taskId, StoredException(exc), Failure);
    }

    /** `mark_as_retry`: the task will be retried after `exc`; it is not done. */
    method MarkAsRetry(taskId: string, exc: PyException)
      modifies this
      ensures store == old(store)[taskId := Record(Retry, StoredException(exc))]
      ensures !IsDone(taskId) && GetStatus(taskId) == Retry && GetResult(taskId) == StoredException(exc)
      ensures forall other :: other != taskId ==> GetStatus(other) == old(GetStatus(other))
    {
      StoreResult(taskId, StoredException(exc), Retry);
    }
  }

  // ---------------------------------------------------------------------------
  // wait_for
  // ---------------------------------------------------------------------------

  /** How `wait_for` ends. `Unresolved` means the polls given ran out first. */
  datatype WaitOutcome =
    | Returned(result: Stored)
    | RaisedResult(result: Stored)
    | TimedOut
    | Unresolved

  /** A status `wait_for` stops at. */
  predicate Terminal(status: string) {
    status == Done || status == Failure
  }

  /**
   * `wait_for` over the stores its successive polls observe. After each
   * non-terminal poll the timer ticks; the `n`-th tick raises when a timeout
   * is set and `n` exceeds it, so a timeout of `t` allows `t + 1` polls.
   * `ticks` counts the ticks already taken.
   */
  function Waited(taskId: string, polls: seq<Store>, timeout: Option<nat>, ticks: nat): WaitOutcome
    decreases |polls|
  {
    if polls == [] then Unresolved
    else
      var status := StatusIn(polls[0], taskId);
      if status == Done then Returned(ResultIn(polls[0], taskId))
      else if status == Failure then RaisedResult(ResultIn(polls[0], taskId))
      else if timeout.Some? && ticks + 1 > timeout.value then TimedOut
      else Waited(taskId, polls[1..], timeout, ticks + 1)
  }

  /** `wait_for`: poll until DONE (return the result) or FAILURE (raise it), ticking the timer in between. */
  method WaitFor(taskId: string, polls: seq<Store>, timeout: Option<nat>) returns (r: WaitOutcome)
    ensures r == Waited(taskId, polls, timeout, 0)
  {
    var i := 0;
    while i < |polls|
      invariant 0 <= i <= |polls|
      invariant Waited(taskId, polls, timeout, 0) == Waited(taskId, polls[i..], timeout, i)
    {
      assert polls[i..][0] == polls[i] && polls[i..][1..] == polls[i + 1..];
      var status := StatusIn(polls[i], taskId);
      if status == Done {
        return Returned(ResultIn(polls[i], taskId));
      } else if status == Failure {
        return RaisedResult(ResultIn(polls[i], taskId));
      }
      if timeout.Some? && i + 1 > timeout.value {
        return TimedOut;
      }
      i := i + 1;
    }
    r := Unresolved;
  }

  /**
   * The first poll that sees DONE or FAILURE decides, provided the timer has
   * not run out before it: the stored result is returned or raised.
   */
  lemma {:induction false} WaitStopsAtFirstTerminal(taskId: string, polls: seq<Store>, timeout: Option<nat>, ticks: nat, k: nat)
    requires k < |polls| && Terminal(StatusIn(polls[k], taskId))
    requires forall j :: 0 <= j < k ==> !Terminal(StatusIn(polls[j], taskId))
    requires timeout.None? || ticks + k <= timeout.value
    ensures StatusIn(polls[k], taskId) == Done ==> Waited(taskId, polls, timeout, ticks) == Returned(ResultIn(polls[k], taskId))
    ensures StatusIn(polls[k], taskId) == Failure ==> Waited(taskId, polls, timeout, ticks) == RaisedResult(ResultIn(polls[k], taskId))
    decreases k
  {
    if k > 0 {
      WaitStopsAtFirstTerminal(taskId, polls[1..], timeout, ticks + 1, k - 1);
    }
  }

  /** With a timeout of `t`, `t + 1` polls that all see a non-terminal status end in TimedOut. */
  lemma {:induction false} WaitTimesOut(taskId: string, polls: seq<Store>, t: nat, ticks: nat)
    requires ticks <= t && t - ticks < |polls|
    requires forall j :: 0 <= j <= t - ticks ==> !Terminal(StatusIn(polls[j], taskId))
    ensures Waited(taskId, polls, Some(t), ticks) == TimedOut
    decreases t - ticks
  {
    assert !Terminal(StatusIn(polls[0], taskId));
    if ticks < t {
      forall j | 0 <= j <= t - (ticks + 1) ensures !Terminal(StatusIn(polls[1..][j], taskId)) {
        assert polls[1..][j] == polls[j + 1];
      }
      WaitTimesOut(taskId, polls[1..], t, ticks + 1);
    }
  }

  /** Without a timeout `wait_for` never times out. */
  lemma {:induction false} WaitWithoutTimeout(taskId: string, polls: seq<Store>, ticks: nat)
    ensures Waited(taskId, polls, None, ticks) != TimedOut
    decreases |polls|
  {
    if polls != [] {
      WaitWithoutTimeout(taskId, polls[1..], ticks + 1);
    }
  }

  /** Whatever `wait_for` returns or raises is what the deciding poll had stored for the task. */
  lemma {:induction false} WaitResultWasStored(taskId: string, polls: seq<Store>, timeout: Option<nat>, ticks: nat)
    ensures var r := Waited(taskId, polls, timeout, ticks);
      r.Returned? || r.RaisedResult? ==>
        exists k :: 0 <= k < |polls| && Terminal(StatusIn(polls[k], taskId)) && r.result == ResultIn(polls[k], taskId)
                    && (r.Returned? <==> StatusIn(polls[k], taskId) == Done)
    decreases |polls|
  {
    if polls != [] && !Terminal(StatusIn(polls[0], taskId)) && !(timeout.Some? && ticks + 1 > timeout.value) {
      WaitResultWasStored(taskId, polls[1..], timeout, ticks + 1);
      var r := Waited(taskId, polls[1..], timeout, ticks + 1);
      if r.Returned? || r.RaisedResult? {
        var k :| 0 <= k < |polls[1..]| && Terminal(StatusIn(polls[1..][k], taskId)) && r.result == ResultIn(polls[1..][k], taskId)
                 && (r.Returned? <==> StatusIn(polls[1..][k], taskId) == Done);
        assert polls[1..][k] == polls[k + 1];
      }
    }
  }
}
