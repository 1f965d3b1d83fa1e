/**
 * The task pool of celery/concurrency/processes/__init__.py: the lifecycle of
 * the wrapped process pool (`start`, `stop`, `terminate`), how `apply_async`
 * defaults its arguments, and how a finished job is routed to its callbacks
 * or errbacks.
 *
 * The process pool itself is abstract: each one the task pool creates gets a
 * number, and every call made on it is recorded in `calls`. A callback is
 * known by its number; whether calling it raises is the `raises` parameter.
 */
module Pool {
  import opened Python

  type CallbackId = nat

  /** The process pool's `_state`. */
  datatype PoolState = Run | Close | Terminate

  /** A process pool created by `start`, by its number and its state. */
  datatype ProcessPool = ProcessPool(id: nat, state: PoolState)

  /** A job handed to the process pool's `apply_async`. */
  datatype Application = Application(
    target: Value, args: Value, kwargs: Value,
    callbacks: seq<CallbackId>, errbacks: seq<CallbackId>,
    acceptCallback: Value, timeoutCallback: Value, waitforslot: Value)

  /** The calls the task pool makes on process pools. */
  datatype PoolCall =
    | Created(pool: nat, processes: Value, options: map<string, Value>)
    | Closed(pool: nat)
    | Joined(pool: nat)
    | Terminated(pool: nat)
    | Applied(pool: nat, application: Application)

  /** `callbacks or []` for an optional list of callbacks. */
  function OrEmpty(fns: Option<seq<CallbackId>>): (r: seq<CallbackId>)
    ensures fns.Some? ==> r == fns.value
    ensures fns.None? ==> r == []
  {
    if fns.Some? then fns.value else []
  }

  /**
   * The job `apply_async` submits: false args and kwargs become an empty list
   * and an empty dict, missing callbacks and errbacks empty lists, and the
   * task pool's `putlocks` is passed as `waitforslot`; the rest is passed
   * through.
   */
  function ApplyArguments(target: Value, args: Value, kwargs: Value,
                          callbacks: Option<seq<CallbackId>>, errbacks: Option<seq<CallbackId>>,
                          acceptCallback: Value, timeoutCallback: Value, putlocks: Value): (r: Application)
    ensures r.target == target && r.acceptCallback == acceptCallback && r.timeoutCallback == timeoutCallback
    ensures r.waitforslot == putlocks
    ensures Truthy(args) ==> r.args == args
    ensures !Truthy(args) ==> r.args == VList([])
    ensures Truthy(kwargs) ==> r.kwargs == kwargs
    ensures !Truthy(kwargs) ==> r.kwargs == VDict(map[])
    ensures r.callbacks == OrEmpty(callbacks) && r.errbacks == OrEmpty(errbacks)
  {
    Application(target, Or(args, VList([])), Or(kwargs, VDict(map[])),
                OrEmpty(callbacks), OrEmpty(errbacks), acceptCallback, timeoutCallback, putlocks)
  }

  /** Applying the defaults to a job's own arguments gives the same job back. */
  lemma ApplyArgumentsIdempotent(target: Value, args: Value, kwargs: Value,
                                 callbacks: Option<seq<CallbackId>>, errbacks: Option<seq<CallbackId>>,
                                 acceptCallback: Value, timeoutCallback: Value, putlocks: Value)
    ensures var a := ApplyArguments(target, args, kwargs, callbacks, errbacks, acceptCallback, timeoutCallback, putlocks);
      ApplyArguments(a.target, a.args, a.kwargs, Some(a.callbacks), Some(a.errbacks),
                     a.acceptCallback, a.timeoutCallback, a.waitforslot) == a
  {
  }

  // ---------------------------------------------------------------------------
  // Routing a finished job
  // ---------------------------------------------------------------------------

  /** What the process pool hands `on_ready`: a return value, or an `ExceptionInfo` for a raised exception. */
  datatype ReadyValue = ReturnValue(value: Value) | ExceptionInfo(exception: PyException)

  /** A callback or errback called with an argument. */
  datatype Invocation = Invocation(fn: CallbackId, arg: ReadyValue)

  /** An exception `on_ready` does not contain: it stops the process. */
  predicate Fatal(exc: PyException) {
    exc.IsA(SystemExit) || exc.IsA(KeyboardInterrupt)
  }

  /** Calling each of `fns`, in order, with `arg`. */
  function Invocations(fns: seq<CallbackId>, arg: ReadyValue): (r: seq<Invocation>)
    ensures |r| == |fns|
    ensures forall i :: 0 <= i < |fns| ==> r[i] == Invocation(fns[i], arg)
  {
    seq(|fns|, i requires 0 <= i < |fns| => Invocation(fns[i], arg))
  }

  /** The callbacks of `fns` that raise when called with `arg`, in order: the errors `safe_apply_callback` logs. */
  function Failures(fns: seq<CallbackId>, arg: ReadyValue, raises: (CallbackId, ReadyValue) -> bool): seq<CallbackId>
  {
    if fns == [] then []
    else (if raises(fns[0], arg) then [fns[0]] else []) + Failures(fns[1..], arg, raises)
  }

  /** The logged failures are exactly the callbacks that raised, and no more of them than were called. */
  lemma {:induction false} FailuresAreTheRaisingCallbacks(fns: seq<CallbackId>, arg: ReadyValue, raises: (CallbackId, ReadyValue) -> bool)
    ensures |Failures(fns, arg, raises)| <= |fns|
    ensures forall f :: f in Failures(fns, arg, raises) <==> f in fns && raises(f, arg)
    ensures (forall f :: f in fns ==> !raises(f, arg)) <==> Failures(fns, arg, raises) == []
  {
    if fns != [] {
      FailuresAreTheRaisingCallbacks(fns[1..], arg, raises);
      assert fns == [fns[0]] + fns[1..];
      if !raises(fns[0], arg) {
        assert forall f :: f in fns && raises(f, arg) ==> f in fns[1..];
      }
    }
  }

  lemma {:induction false} FailuresAppend(fns: seq<CallbackId>, f: CallbackId, arg: ReadyValue, raises: (CallbackId, ReadyValue) -> bool)
    ensures Failures(fns + [f], arg, raises) == Failures(fns, arg, raises) + (if raises(f, arg) then [f] else [])
  {
    if fns == [] {
      assert [f][1..] == [];
    } else {
      assert (fns + [f])[0] == fns[0] && (fns + [f])[1..] == fns[1..] + [f];
      FailuresAppend(fns[1..], f, arg, raises);
    }
  }

  /** The position of the first of `fns` that raises when called with `arg`. */
  function FirstRaising(fns: seq<CallbackId>, arg: ReadyValue, raises: (CallbackId, ReadyValue) -> bool, from: nat): (r: Option<nat>)
    requires from <= |fns|
    ensures r.Some? ==> from <= r.value < |fns| && raises(fns[r.value], arg)
                        && forall k :: from <= k < r.value ==> !raises(fns[k], arg)
    ensures r.None? ==> forall k :: from <= k < |fns| ==> !raises(fns[k], arg)
    decreases |fns| - from
  {
    if from == |fns| then None
    else if raises(fns[from], arg) then Some(from)
    else FirstRaising(fns, arg, raises, from + 1)
  }

  class TaskPool {
    const processes: Value
    const putlocks: Value
    const options: map<string, Value>
    /** `_pool`: the process pool in use, if any. */
    var pool: Option<ProcessPool>
    /** The number the next process pool created gets. */
    var created: nat
    var calls: seq<PoolCall>
    /** Every callback and errback call, in order. */
    var invocations: seq<Invocation>
    /** The callbacks whose exception `safe_apply_callback` logged, in order. */
    var loggedErrors: seq<CallbackId>

    constructor (processes: Value, putlocks: Value, options: map<string, Value>)
      ensures this.processes == processes && this.putlocks == putlocks && this.options == options
      ensures pool == None && created == 0 && calls == [] && invocations == [] && loggedErrors == []
    {
      this.processes, this.putlocks, this.options := processes, putlocks, options;
      pool, created, calls := None, 0, [];
      invocations, loggedErrors := [], [];
    }

    /** `start`: a new running process pool replaces `_pool`. */
    method Start()
      modifies this`pool, this`created, this`calls
      ensures pool == Some(ProcessPool(old(created), Run)) && created == old(created) + 1
      ensures calls == old(calls) + [Created(old(created), processes, options)]
    {
      calls := calls + [Created(created, processes, options)];
      pool := Some(ProcessPool(created, Run));
      created := created + 1;
    }

    /** `stop`: a running pool is closed, joined and dropped; otherwise nothing happens. */
    method Stop()
      modifies this`pool, this`calls
      ensures old(pool).Some? && old(pool).value.state == Run ==>
        pool == None && calls == old(calls) + [Closed(old(pool).value.id), Joined(old(pool).value.id)]
      ensures !(old(pool).Some? && old(pool).value.state == Run) ==> pool == old(pool) && calls == old(calls)
    {
      if pool.Some? && pool.value.state == Run {
        calls := calls + [Closed(pool.value.id), Joined(pool.value.id)];
        pool := None;
      }
    }

    /** `terminate`: any pool is terminated and dropped. */
    method Terminate()
      modifies this`pool, this`calls
      ensures pool == None
      ensures old(pool).Some? ==> calls == old(calls) + [Terminated(old(pool).value.id)]
      ensures old(pool).None? ==> calls == old(calls)
    {
      if pool.Some? {
        calls := calls + [Terminated(pool.value.id)];
        pool := None;
      }
    }

    /**
     * `apply_async`: the job, with its arguments defaulted, goes to the pool
     * in use; with no pool the attribute lookup on None raises.
     */
    method ApplyAsync(target: Value, args: Value, kwargs: Value,
                      callbacks: Option<seq<CallbackId>>, errbacks: Option<seq<CallbackId>>,
                      acceptCallback: Value, timeoutCallback: Value) returns (r: Result<nat, string>)
      modifies this`calls
      ensures old(pool).None? ==> r.Err? && calls == old(calls)
      ensures pool.Some? ==>
        && r == Ok(pool.value.id)
        && calls == old(calls) + [Applied(pool.value.id, ApplyArguments(target, args, kwargs, callbacks, errbacks,
                                                                       acceptCallback, timeoutCallback, putlocks))]
    {
      if pool.None? {
        return Err("'NoneType' object has no attribute 'apply_async'");
      }
      var application := ApplyArguments(target, args, kwargs, callbacks, errbacks, acceptCallback, timeoutCallback, putlocks);
      calls := calls + [Applied(pool.value.id, application)];
      r := Ok(pool.value.id);
    }

    /** `safe_apply_callback`: calls `fn`; an exception it raises is logged and goes no further. */
    method SafeApplyCallback(fn: CallbackId, arg: ReadyValue, raises: (CallbackId, ReadyValue) -> bool)
      modifies this`invocations, this`loggedErrors
      ensures invocations == old(invocations) + [Invocation(fn, arg)]
      ensures loggedErrors == old(loggedErrors) + (if raises(fn, arg) then [fn] else [])
    {
      invocations := invocations + [Invocation(fn, arg)];
      if raises(fn, arg) {
        loggedErrors := loggedErrors + [fn];
      }
    }

    /** Each of `fns` through `safe_apply_callback`, in order: every one is called, whatever the earlier ones raised. */
    method SafeApplyEach(fns: seq<CallbackId>, arg: ReadyValue, raises: (CallbackId, ReadyValue) -> bool)
      modifies this`invocations, this`loggedErrors
      ensures invocations == old(invocations) + Invocations(fns, arg)
      ensures loggedErrors == old(loggedErrors) + Failures(fns, arg, raises)
    {
      var i := 0;
      while i < |fns|
        invariant 0 <= i <= |fns|
        invariant invocations == old(invocations) + Invocations(fns[..i], arg)
        invariant loggedErrors == old(loggedErrors) + Failures(fns[..i], arg, raises)
      {
        FailuresAppend(fns[..i], fns[i], arg, raises);
        assert fns[..i + 1] == fns[..i] + [fns[i]];
        SafeApplyCallback(fns[i], arg, raises);
        i := i + 1;
      }
      assert fns[..i] == fns;
    }

    /**
     * `on_ready`: a fatal exception is re-raised before any callback runs;
     * any other exception goes to every errback, a return value to every
     * callback, each through `safe_apply_callback`.
     */
    method OnReady(callbacks: seq<CallbackId>, errbacks: seq<CallbackId>, ret: ReadyValue,
                   raises: (CallbackId, ReadyValue) -> bool) returns (r: Result<(), PyException>)
      modifies this`invocations, this`loggedErrors
      ensures ret.ExceptionInfo? && Fatal(ret.exception) ==>
        r == Err(ret.exception) && invocations == old(invocations) && loggedErrors == old(loggedErrors)
      ensures ret.ExceptionInfo? && !Fatal(ret.exception) ==>
        r == Ok(()) && invocations == old(invocations) + Invocations(errbacks, ret)
        && loggedErrors == old(loggedErrors) + Failures(errbacks, ret, raises)
      ensures ret.ReturnValue? ==>
        r == Ok(()) && invocations == old(invocations) + Invocations(callbacks, ret)
        && loggedErrors == old(loggedErrors) + Failures(callbacks, ret, raises)
    {
      if ret.ExceptionInfo? {
        if Fatal(ret.exception) {
          return Err(ret.exception);
        }
        SafeApplyEach(errbacks, ret, raises);
      } else {
        SafeApplyEach(callbacks, ret, raises);
      }
      r := Ok(());
    }

    /**
     * `on_worker_error`: every errback is called directly with the exception
     * wrapped in an `ExceptionInfo`; the first one that raises stops the rest
     * and its exception propagates, as nothing contains it.
     */
    method OnWorkerError(errbacks: seq<CallbackId>, exc: PyException,
                         raises: (CallbackId, ReadyValue) -> bool) returns (r: Result<(), CallbackId>)
      modifies this`invocations
      ensures var first := FirstRaising(errbacks, ExceptionInfo(exc), raises, 0);
        && (first.None? ==> r == Ok(()) && invocations == old(invocations) + Invocations(errbacks, ExceptionInfo(exc)))
        && (first.Some? ==>
              && r == Err(errbacks[first.value])
              && invocations == old(invocations) + Invocations(errbacks[..first.value + 1], ExceptionInfo(exc)))
    {
      var einfo := ExceptionInfo(exc);
      var i := 0;
      while i < |errbacks|
        invariant 0 <= i <= |errbacks|
        invariant FirstRaising(errbacks, einfo, raises, 0) == FirstRaising(errbacks, einfo, raises, i)
        invariant invocations == old(invocations) + Invocations(errbacks[..i], einfo)
      {
        assert errbacks[..i + 1] == errbacks[..i] + [errbacks[i]];
        invocations := invocations + [Invocation(errbacks[i], einfo)];
        if raises(errbacks[i], einfo) {
          return Err(errbacks[i]);
        }
        i := i + 1;
      }
      assert errbacks[..i] == errbacks;
      r := Ok(());
    }
  }
}
