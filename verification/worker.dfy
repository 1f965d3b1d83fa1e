/**
 * The worker daemon of celery/worker.py: turning a fetched message into a task
 * wrapper, injecting the logging keyword arguments, submitting to the pool and
 * acknowledging only after the pool accepted, and one iteration of the `run`
 * loop with its rate-limited "Waiting for queue." notice.
 *
 * The task registry is a map from task name to callable; the pool the daemon
 * submits to is abstract (whether `apply_async` accepts or raises is an input);
 * the clock is an integer reading passed in.
 */
module Worker {
  import opened Python
  import opened Broker

  /** A registered task's callable. */
  type FuncId = nat

  datatype TaskWrapper = TaskWrapper(taskName: Value, taskId: Value, taskFunc: FuncId, args: Value, kwargs: Value)

  /** The exceptions that can leave `fetch_next_task` / `execute_next_task`. */
  datatype DaemonError =
    | EmptyQueue
    | UnknownTask(taskName: Value)
    | ValueError(reason: string)
    | KeyError(key: string)
    | TypeError(reason: string)
    | AttributeError(reason: string)

  /** `task_name in tasks`: only a string can name a registered task. */
  predicate Registered(name: Value, registry: map<string, FuncId>) {
    name.VStr? && name.s in registry
  }

  /** The decoded body is a dictionary holding the four keys `from_message` pops. */
  predicate HasEnvelopeFields(payload: Payload) {
    && payload.Decoded? && payload.data.VDict?
    && "task" in payload.data.entries && "id" in payload.data.entries
    && "args" in payload.data.entries && "kwargs" in payload.data.entries
  }

  /**
   * `TaskWrapper.from_message` without its side effect: the body is decoded as
   * JSON, the four fields are popped in the order task, id, args, kwargs, and
   * the task name is looked up in the registry. A registered name gives a
   * wrapper carrying the body's own fields and the registered callable; an
   * unregistered name gives UnknownTask, and only then is the message rejected.
   */
  function DecodeTask(payload: Payload, registry: map<string, FuncId>): (r: Result<TaskWrapper, DaemonError>)
    ensures payload.Undecodable? ==> r == Err(ValueError(payload.reason))
    ensures (r.Err? && r.error.ValueError?) <==> payload.Undecodable?
    ensures r.Ok? <==> HasEnvelopeFields(payload) && Registered(payload.data.entries["task"], registry)
    ensures r.Ok? ==>
      var d := payload.data.entries;
      r.value == TaskWrapper(d["task"], d["id"], registry[d["task"].s], d["args"], d["kwargs"])
    ensures (r.Err? && r.error.UnknownTask?) <==>
      HasEnvelopeFields(payload) && Hashable(payload.data.entries["task"])
      && !Registered(payload.data.entries["task"], registry)
    ensures r.Err? && r.error.UnknownTask? ==> r.error.taskName == payload.data.entries["task"]
    ensures r.Err? && r.error.KeyError? ==>
      payload.Decoded? && payload.data.VDict? && r.error.key !in payload.data.entries
  {
    match payload
    case Undecodable(reason) => Err(ValueError(reason))
    case Decoded(data) =>
      if data.VList? then Err(TypeError("an integer is required"))
      else if !data.VDict? then Err(AttributeError("object has no attribute 'pop'"))
      else
        var d := data.entries;
        if "task" !in d then Err(KeyError("task"))
        else if "id" !in d then Err(KeyError("id"))
        else if "args" !in d then Err(KeyError("args"))
        else if "kwargs" !in d then Err(KeyError("kwargs"))
        else if !Hashable(d["task"]) then Err(TypeError("unhashable type"))
        else if !Registered(d["task"], registry) then Err(UnknownTask(d["task"]))
        else Ok(TaskWrapper(d["task"], d["id"], registry[d["task"].s], d["args"], d["kwargs"]))
  }

  /**
   * `extend_kwargs_with_logging(loglevel, logfile)`: a fresh mapping with both
   * logging keys and every task keyword argument; on a clash the task's own
   * argument wins. Updating with anything but a dictionary raises.
   */
  function ExtendKwargsWithLogging(loglevel: Value, logfile: Value, kwargs: Value): (r: Result<map<string, Value>, DaemonError>)
    ensures r.Ok? <==> kwargs.VDict?
    ensures r.Ok? ==> r.value.Keys == kwargs.entries.Keys + {"logfile", "loglevel"}
    ensures r.Ok? ==> forall k :: k in kwargs.entries ==> r.value[k] == kwargs.entries[k]
    ensures r.Ok? && "logfile" !in kwargs.entries ==> r.value["logfile"] == logfile
    ensures r.Ok? && "loglevel" !in kwargs.entries ==> r.value["loglevel"] == loglevel
  {
    if kwargs.VDict? then Ok(map["logfile" := logfile, "loglevel" := loglevel] + kwargs.entries)
    else Err(TypeError("cannot convert dictionary update sequence element"))
  }

  /** A call handed to the pool: the callable, its positional and its keyword arguments. */
  datatype Submission = Submission(func: FuncId, args: Value, kwargs: map<string, Value>)

  /**
   * The call `execute(loglevel, logfile)` makes and `execute_using_pool(pool,
   * loglevel, logfile)` hands to the pool. Both call
   * `extend_kwargs_with_logging(logfile, loglevel)`, the reverse of that
   * method's parameter order, so unless the task overrides them the `logfile`
   * key carries the daemon's log level and the `loglevel` key its log file.
   */
  function TaskCall(task: TaskWrapper, loglevel: Value, logfile: Value): (r: Result<Submission, DaemonError>)
    ensures r.Ok? <==> task.kwargs.VDict?
    ensures r.Ok? ==> r.value.func == task.taskFunc && r.value.args == task.args
    ensures r.Ok? ==> r.value.kwargs.Keys == task.kwargs.entries.Keys + {"logfile", "loglevel"}
    ensures r.Ok? ==> forall k :: k in task.kwargs.entries ==> k in r.value.kwargs && r.value.kwargs[k] == task.kwargs.entries[k]
    ensures r.Ok? && "logfile" !in task.kwargs.entries ==> r.value.kwargs["logfile"] == loglevel
    ensures r.Ok? && "loglevel" !in task.kwargs.entries ==> r.value.kwargs["loglevel"] == logfile
  {
    var extended := ExtendKwargsWithLogging(logfile, loglevel, task.kwargs);
    if extended.Err? then Err(extended.error)
    else Ok(Submission(task.taskFunc, task.args, extended.value))
  }

  /** What `execute_next_task` does with one fetch. */
  datatype NextTask =
      /** An exception left `fetch_next_task` (EmptyQueue, UnknownTask, a malformed body). */
    | Raised(error: DaemonError)
      /** Building or submitting the call raised; the exception was logged and None returned. */
    | Skipped
      /** The pool accepted the call; the message is acked. */
    | Dispatched(submission: Submission, taskName: Value, taskId: Value)

  /**
   * `execute_next_task` as a decision: `fetched` is what `fetch()` returned
   * (None when the queue is empty) and `poolAccepts` whether the pool's
   * `apply_async` returns rather than raises. A task is dispatched, and so
   * acked, exactly when it decodes to a registered task, its call can be built
   * and the pool accepts it.
   */
  function NextTaskOutcome(fetched: Option<Payload>, registry: map<string, FuncId>,
                           loglevel: Value, logfile: Value, poolAccepts: bool): (r: NextTask)
    ensures r == Raised(EmptyQueue) <==> fetched.None?
    ensures fetched.Some? ==> (r.Raised? <==> DecodeTask(fetched.value, registry).Err?)
    ensures fetched.Some? && r.Raised? ==> r.error == DecodeTask(fetched.value, registry).error
    ensures r.Dispatched? <==>
      fetched.Some? && DecodeTask(fetched.value, registry).Ok?
      && DecodeTask(fetched.value, registry).value.kwargs.VDict? && poolAccepts
    ensures r.Dispatched? ==>
      var task := DecodeTask(fetched.value, registry).value;
      r.taskName == task.taskName && r.taskId == task.taskId
      && TaskCall(task, loglevel, logfile) == Ok(r.submission)
  {
    if fetched.None? then Raised(EmptyQueue)
    else
      var decoded := DecodeTask(fetched.value, registry);
      if decoded.Err? then Raised(decoded.error)
      else
        var submission := TaskCall(decoded.value, loglevel, logfile);
        if submission.Err? || !poolAccepts then Skipped
        else Dispatched(submission.value, decoded.value.taskName, decoded.value.taskId)
  }

  // ---------------------------------------------------------------------------
  // The empty-queue notice
  // ---------------------------------------------------------------------------

  /** Whether an empty poll logs "Waiting for queue.", and the emit time it leaves behind. */
  datatype EmptyPoll = EmptyPoll(emit: bool, lastEmptyEmit: Option<int>)

  /**
   * The `except EmptyQueue` branch of `run`: the notice is logged only when
   * `emitEvery` is non-zero and either nothing has been logged yet (a
   * `lastEmptyEmit` of None or 0 counts as nothing) or more than `emitEvery`
   * has passed since the last notice. Only logging the notice moves
   * `lastEmptyEmit`.
   */
  function OnEmptyQueue(emitEvery: int, lastEmptyEmit: Option<int>, now: int): (r: EmptyPoll)
    ensures r.emit <==> emitEvery != 0 && (!GivenInt(lastEmptyEmit) || now > lastEmptyEmit.value + emitEvery)
    ensures r.emit ==> r.lastEmptyEmit == Some(now)
    ensures !r.emit ==> r.lastEmptyEmit == lastEmptyEmit
  {
    if emitEvery != 0 && (!GivenInt(lastEmptyEmit) || now > lastEmptyEmit.value + emitEvery) then
      EmptyPoll(true, Some(now))
    else
      EmptyPoll(false, lastEmptyEmit)
  }

  /** The clock readings at which the notice is logged over consecutive empty polls at `clock`. */
  function Emissions(emitEvery: int, lastEmptyEmit: Option<int>, clock: seq<int>): seq<int>
    decreases |clock|
  {
    if clock == [] then []
    else
      var poll := OnEmptyQueue(emitEvery, lastEmptyEmit, clock[0]);
      (if poll.emit then [clock[0]] else []) + Emissions(emitEvery, poll.lastEmptyEmit, clock[1..])
  }

  /**
   * The notice is rate limited: over any run of empty polls, each notice comes
   * more than `emitEvery` after the previous one (and after an earlier notice
   * recorded in `lastEmptyEmit`). This needs every clock reading to be
   * non-zero, since a notice logged at time 0 counts as none.
   */
  lemma {:induction false} EmissionsRateLimited(emitEvery: int, lastEmptyEmit: Option<int>, clock: seq<int>)
    requires forall i :: 0 <= i < |clock| ==> clock[i] != 0
    ensures var e := Emissions(emitEvery, lastEmptyEmit, clock);
      && (forall i :: 0 <= i < |e| - 1 ==> e[i + 1] > e[i] + emitEvery)
      && (GivenInt(lastEmptyEmit) && e != [] ==> e[0] > lastEmptyEmit.value + emitEvery)
    decreases |clock|
  {
    if clock != [] {
      var poll := OnEmptyQueue(emitEvery, lastEmptyEmit, clock[0]);
      EmissionsRateLimited(emitEvery, poll.lastEmptyEmit, clock[1..]);
      var rest := Emissions(emitEvery, poll.lastEmptyEmit, clock[1..]);
      var e := Emissions(emitEvery, lastEmptyEmit, clock);
      if poll.emit {
        assert e == [clock[0]] + rest;
        forall i | 0 <= i < |e| - 1 ensures e[i + 1] > e[i] + emitEvery {
          if i > 0 {
            assert e[i] == rest[i - 1] && e[i + 1] == rest[i];
          }
        }
      } else {
        assert e == rest;
      }
    }
  }

  /**
   * A run of empty polls with the notice enabled stays silent only if an
   * earlier notice is recorded and every poll comes within `emitEvery` of it:
   * a poll that is due always logs.
   */
  lemma {:induction false} SilentRunNotDue(emitEvery: int, lastEmptyEmit: Option<int>, clock: seq<int>)
    requires emitEvery != 0 && Emissions(emitEvery, lastEmptyEmit, clock) == []
    ensures clock != [] ==> GivenInt(lastEmptyEmit)
    ensures forall i :: 0 <= i < |clock| ==> clock[i] <= lastEmptyEmit.value + emitEvery
    decreases |clock|
  {
    if clock != [] {
      var poll := OnEmptyQueue(emitEvery, lastEmptyEmit, clock[0]);
      assert !poll.emit;
      SilentRunNotDue(emitEvery, lastEmptyEmit, clock[1..]);
      forall i | 0 <= i < |clock| ensures clock[i] <= lastEmptyEmit.value + emitEvery {
        if i > 0 {
          assert clock[i] == clock[1..][i - 1];
        }
      }
    }
  }

  /** With `empty_msg_emit_every` zero the notice is never logged. */
  lemma {:induction false} NoEmissionsWhenDisabled(lastEmptyEmit: Option<int>, clock: seq<int>)
    ensures Emissions(0, lastEmptyEmit, clock) == []
    decreases |clock|
  {
    if clock != [] {
      NoEmissionsWhenDisabled(lastEmptyEmit, clock[1..]);
    }
  }

  // ---------------------------------------------------------------------------
  // The daemon
  // ---------------------------------------------------------------------------

  /** The settings `TaskDaemon.__init__` takes; the class attributes give the defaults. */
  datatype DaemonOptions = DaemonOptions(concurrency: Value, logfile: Value, loglevel: Value, queueWakeupAfter: Value)

  /** `given or default`, setting by setting: a false setting (None, 0, "") takes the class default. */
  function WithDefaults(given: DaemonOptions, defaults: DaemonOptions): (r: DaemonOptions)
    ensures Truthy(given.concurrency) ==> r.concurrency == given.concurrency
    ensures !Truthy(given.concurrency) ==> r.concurrency == defaults.concurrency
    ensures Truthy(given.logfile) ==> r.logfile == given.logfile
    ensures !Truthy(given.logfile) ==> r.logfile == defaults.logfile
    ensures Truthy(given.loglevel) ==> r.loglevel == given.loglevel
    ensures !Truthy(given.loglevel) ==> r.loglevel == defaults.loglevel
    ensures Truthy(given.queueWakeupAfter) ==> r.queueWakeupAfter == given.queueWakeupAfter
    ensures !Truthy(given.queueWakeupAfter) ==> r.queueWakeupAfter == defaults.queueWakeupAfter
  {
    DaemonOptions(Or(given.concurrency, defaults.concurrency), Or(given.logfile, defaults.logfile),
                  Or(given.loglevel, defaults.loglevel), Or(given.queueWakeupAfter, defaults.queueWakeupAfter))
  }

  /** Defaulting settings that are already defaulted changes nothing. */
  lemma WithDefaultsIdempotent(given: DaemonOptions, defaults: DaemonOptions)
    ensures WithDefaults(WithDefaults(given, defaults), defaults) == WithDefaults(given, defaults)
  {
  }

  /** What the daemon's logger, sleeps and periodic dispatch produce, in order. */
  datatype Notice =
    | GotTask(taskName: Value, taskId: Value)
    | WorkerGotException
    | PeriodicTaskDelayed(task: nat)
    | WaitingForQueue(at: int)
    | Slept(seconds: Value)
    | UnknownTaskIgnored(taskName: Value)
    | QueueRaised(error: DaemonError)

  /**
   * The errors `run` logs as "Message queue raised": every one but the three
   * it handles itself.
   */
  predicate Critical(error: DaemonError) {
    !error.EmptyQueue? && !error.ValueError? && !error.UnknownTask?
  }

  /** What unpacking the None of a failed submission raises in `run`. */
  const UnpackNone := TypeError("'NoneType' object is not iterable")

  /** An entry of the `results` queue: the pool's result handle, the task's name and id. */
  datatype ResultEntry = ResultEntry(result: nat, taskName: Value, taskId: Value)

  /** Which branch one iteration of `run` ended in. */
  datatype Iteration =
    | ResultAdded
    | DecodeFailedIgnored
    | WaitedForQueue
    | UnknownTaskSkipped
    | CriticalLogged

  /** The notices `run_periodic_tasks` leaves: one per waiting periodic task, in order. */
  function PeriodicNotices(waiting: seq<nat>): (r: seq<Notice>)
    ensures |r| == |waiting|
    ensures forall i :: 0 <= i < |waiting| ==> r[i] == PeriodicTaskDelayed(waiting[i])
  {
    seq(|waiting|, i requires 0 <= i < |waiting| => PeriodicTaskDelayed(waiting[i]))
  }

  class TaskDaemon {
    const loglevel: Value
    const logfile: Value
    const concurrency: Value
    const queueWakeupAfter: Value
    const emptyMsgEmitEvery: int
    const registry: map<string, FuncId>
    const connection: Connection
    /** The calls the pool accepted, in order; a call's index is its result handle. */
    var submitted: seq<Submission>
    var notices: seq<Notice>
    /** The locals of `run` that persist across its iterations. */
    var results: seq<ResultEntry>
    var lastEmptyEmit: Option<int>

    /** `__init__`: the given settings, each false one replaced by the class default. */
    constructor (given: DaemonOptions, defaults: DaemonOptions, emptyMsgEmitEvery: int,
                 registry: map<string, FuncId>, connection: Connection)
      ensures DaemonOptions(concurrency, logfile, loglevel, queueWakeupAfter) == WithDefaults(given, defaults)
      ensures this.emptyMsgEmitEvery == emptyMsgEmitEvery
      ensures this.registry == registry && this.connection == connection
      ensures submitted == [] && notices == [] && results == [] && lastEmptyEmit == None
    {
      var settings := WithDefaults(given, defaults);
      concurrency, logfile, loglevel := settings.concurrency, settings.logfile, settings.loglevel;
      queueWakeupAfter, this.emptyMsgEmitEvery := settings.queueWakeupAfter, emptyMsgEmitEvery;
      this.registry, this.connection := registry, connection;
      submitted, notices, results, lastEmptyEmit := [], [], [], None;
    }

    /** `TaskWrapper.from_message`: rejects the message exactly when its task is unknown. */
    method FromMessage(message: Message) returns (r: Result<TaskWrapper, DaemonError>)
      requires message.connection == connection
      modifies message, connection
      ensures r == DecodeTask(message.payload, registry)
      ensures connection.log == old(connection.log) + (if r.Err? && r.error.UnknownTask? then [Rejected(message.deliveryTag)] else [])
      ensures r.Err? && r.error.UnknownTask? ==> message.acknowledged
      ensures !(r.Err? && r.error.UnknownTask?) ==> message.acknowledged == old(message.acknowledged)
    {
      r := DecodeTask(message.payload, registry);
      if r.Err? && r.error.UnknownTask? {
        message.Reject();
      }
    }

    /** `fetch_next_task`: EmptyQueue when `fetch()` gave nothing, otherwise the wrapper and its message. */
    method FetchNextTask(fetched: Message?) returns (r: Result<(TaskWrapper, Message), DaemonError>)
      requires fetched != null ==> fetched.connection == connection
      modifies fetched, connection, this`notices
      ensures fetched == null ==> r == Err(EmptyQueue) && connection.log == old(connection.log) && notices == old(notices)
      ensures fetched != null ==>
        var d := DecodeTask(fetched.payload, registry);
        && (d.Ok? ==> r == Ok((d.value, fetched)) && connection.log == old(connection.log)
                      && notices == old(notices) + [GotTask(d.value.taskName, d.value.taskId)])
        && (d.Err? ==> r == Err(d.error) && notices == old(notices)
                       && connection.log == old(connection.log) + (if d.error.UnknownTask? then [Rejected(fetched.deliveryTag)] else []))
        && fetched.acknowledged == (old(fetched.acknowledged) || (d.Err? && d.error.UnknownTask?))
    {
      if fetched == null {
        return Err(EmptyQueue);
      }
      var task := FromMessage(fetched);
      if task.Err? {
        return Err(task.error);
      }
      notices := notices + [GotTask(task.value.taskName, task.value.taskId)];
      r := Ok((task.value, fetched));
    }

    /**
     * `execute_next_task`: the message is acked only after the pool accepted
     * the call; when building or submitting the call raises, the exception is
     * logged, nothing is acked and None is returned.
     */
    method ExecuteNextTask(fetched: Message?, poolAccepts: bool) returns (r: Result<Option<ResultEntry>, DaemonError>)
      requires fetched != null ==> fetched.connection == connection
      modifies fetched, connection, this`notices, this`submitted
      ensures var outcome := NextTaskOutcome(if fetched == null then None else Some(fetched.payload),
                                             registry, loglevel, logfile, poolAccepts);
        && (outcome.Raised? ==>
              r == Err(outcome.error) && submitted == old(submitted) && notices == old(notices)
              && connection.log == old(connection.log)
                                   + (if outcome.error.UnknownTask? then [Rejected(fetched.deliveryTag)] else []))
        && (outcome.Skipped? ==>
              var task := DecodeTask(fetched.payload, registry).value;
              r == Ok(None) && submitted == old(submitted) && connection.log == old(connection.log)
              && notices == old(notices) + [GotTask(task.taskName, task.taskId), WorkerGotException])
        && (outcome.Dispatched? ==>
              r == Ok(Some(ResultEntry(|old(submitted)|, outcome.taskName, outcome.taskId)))
              && submitted == old(submitted) + [outcome.submission]
              && notices == old(notices) + [GotTask(outcome.taskName, outcome.taskId)]
              && connection.log == old(connection.log) + [Acked(fetched.deliveryTag)])
      ensures fetched != null ==>
        var outcome := NextTaskOutcome(Some(fetched.payload), registry, loglevel, logfile, poolAccepts);
        fetched.acknowledged == (old(fetched.acknowledged) || outcome.Dispatched?
                                 || (outcome.Raised? && outcome.error.UnknownTask?))
    {
      var fetchedTask := FetchNextTask(fetched);
      if fetchedTask.Err? {
        return Err(fetchedTask.error);
      }
      var (task, message) := fetchedTask.value;
      var submission := TaskCall(task, loglevel, logfile);
      if submission.Err? || !poolAccepts {
        notices := notices + [WorkerGotException];
        return Ok(None);
      }
      submitted := submitted + [submission.value];
      message.Ack();
      r := Ok(Some(ResultEntry(|submitted| - 1, task.taskName, task.taskId)));
    }

    /** `run_periodic_tasks`: delays every waiting periodic task, in order. */
    method RunPeriodicTasks(waiting: seq<nat>)
      modifies this`notices
      ensures notices == old(notices) + PeriodicNotices(waiting)
    {
      var i := 0;
      while i < |waiting|
        invariant 0 <= i <= |waiting|
        invariant notices == old(notices) + PeriodicNotices(waiting[..i])
      {
        assert PeriodicNotices(waiting[..i + 1]) == PeriodicNotices(waiting[..i]) + [PeriodicTaskDelayed(waiting[i])];
        notices := notices + [PeriodicTaskDelayed(waiting[i])];
        i := i + 1;
      }
      assert waiting[..i] == waiting;
    }

    /**
     * One iteration of `run`: the due periodic tasks first, then one fetch and
     * execute. An empty queue may log the rate-limited notice and then sleeps;
     * an undecodable body is dropped silently; an unknown task is logged; any
     * other exception (including the None that a failed submission returns,
     * which cannot be unpacked) is logged as critical. Only a dispatched task is
     * added to the results.
     */
    method RunOnce(waiting: seq<nat>, fetched: Message?, poolAccepts: bool, now: int) returns (step: Iteration)
      requires fetched != null ==> fetched.connection == connection
      modifies fetched, connection, this`notices, this`submitted, this`results, this`lastEmptyEmit
      ensures var outcome := NextTaskOutcome(if fetched == null then None else Some(fetched.payload),
                                             registry, loglevel, logfile, poolAccepts);
        && (step == WaitedForQueue <==> fetched == null)
        && (step == ResultAdded <==> outcome.Dispatched?)
        && (step == DecodeFailedIgnored <==> outcome.Raised? && outcome.error.ValueError?)
        && (step == UnknownTaskSkipped <==> outcome.Raised? && outcome.error.UnknownTask?)
        && (step == CriticalLogged <==> outcome.Skipped? || (outcome.Raised? && Critical(outcome.error)))
        && (!outcome.Dispatched? ==> results == old(results) && submitted == old(submitted))
      ensures fetched == null ==>
        var poll := OnEmptyQueue(emptyMsgEmitEvery, old(lastEmptyEmit), now);
        && lastEmptyEmit == poll.lastEmptyEmit
        && connection.log == old(connection.log)
        && notices == old(notices) + PeriodicNotices(waiting)
                      + (if poll.emit then [WaitingForQueue(now)] else []) + [Slept(queueWakeupAfter)]
      ensures fetched != null ==>
        var outcome := NextTaskOutcome(Some(fetched.payload), registry, loglevel, logfile, poolAccepts);
        var decoded := DecodeTask(fetched.payload, registry);
        && lastEmptyEmit == old(lastEmptyEmit)
        && fetched.acknowledged == (old(fetched.acknowledged) || outcome.Dispatched?
                                    || (outcome.Raised? && outcome.error.UnknownTask?))
        && (outcome.Dispatched? ==>
              && submitted == old(submitted) + [outcome.submission]
              && results == old(results) + [ResultEntry(|old(submitted)|, outcome.taskName, outcome.taskId)]
              && connection.log == old(connection.log) + [Acked(fetched.deliveryTag)]
              && notices == old(notices) + PeriodicNotices(waiting) + [GotTask(outcome.taskName, outcome.taskId)])
        && (outcome.Skipped? ==>
              && connection.log == old(connection.log)
              && notices == old(notices) + PeriodicNotices(waiting)
                            + [GotTask(decoded.value.taskName, decoded.value.taskId), WorkerGotException,
                               QueueRaised(UnpackNone)])
        && (outcome.Raised? && outcome.error.ValueError? ==>
              && connection.log == old(connection.log)
              && notices == old(notices) + PeriodicNotices(waiting))
        && (outcome.Raised? && outcome.error.UnknownTask? ==>
              && connection.log == old(connection.log) + [Rejected(fetched.deliveryTag)]
              && notices == old(notices) + PeriodicNotices(waiting) + [UnknownTaskIgnored(outcome.error.taskName)])
        && (outcome.Raised? && Critical(outcome.error) ==>
              && connection.log == old(connection.log)
              && notices == old(notices) + PeriodicNotices(waiting) + [QueueRaised(outcome.error)])
    {
      RunPeriodicTasks(waiting);
      var next := ExecuteNextTask(fetched, poolAccepts);
      match next {
        case Ok(Some(entry)) =>
          results := results + [entry];
          step := ResultAdded;
        case Ok(None) =>
          // Unpacking None raises TypeError, which only the generic handler catches.
          notices := notices + [QueueRaised(UnpackNone)];
          step := CriticalLogged;
        case Err(ValueError(_)) =>
          step := DecodeFailedIgnored;
        case Err(EmptyQueue) =>
          var poll := OnEmptyQueue(emptyMsgEmitEvery, lastEmptyEmit, now);
          if poll.emit {
            notices := notices + [WaitingForQueue(now)];
          }
          lastEmptyEmit := poll.lastEmptyEmit;
          notices := notices + [Slept(queueWakeupAfter)];
          step := WaitedForQueue;
        case Err(UnknownTask(name)) =>
          notices := notices + [UnknownTaskIgnored(name)];
          step := UnknownTaskSkipped;
        case Err(error) =>
          notices := notices + [QueueRaised(error)];
          step := CriticalLogged;
      }
    }
  }
}
