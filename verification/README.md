# celery task engine, modelled in Dafny

This project models the sequential core of celery's task engine and proves
properties about it. The core has four parts:

- **Message protocol** (`celery/app/amqp.py`):
  - the task envelope `delay_task` builds and publishes;
  - the process-wide "declare each exchange once" and "declare all queues once" memos;
  - queue defaults and the consumers built from them;
  - the consumer set's receive pipeline.
- **Worker daemon** (`celery/worker.py`):
  - decoding a fetched message into a task wrapper, rejecting unknown tasks;
  - injecting the logging keyword arguments;
  - acking only after the pool accepted the call;
  - one iteration of the `run` loop, with its rate-limited "Waiting for queue." notice.
- **Result backend** (`celery/backends/base.py`):
  - making an exception storable: the nearest picklable superclass, or the portable `UnpickleableExceptionWrapper`;
  - the `mark_as_*` status writers over a store of (status, result) records;
  - `prepare_result`, `is_done`, and the `wait_for` polling loop.
- **Task pool** (`celery/concurrency/processes/__init__.py`):
  - the `_pool` lifecycle through `start`, `stop` and `terminate`;
  - `apply_async` argument defaulting;
  - routing a finished job to its callbacks or errbacks, with failing callbacks contained.

The files:

| file | module | contents |
|---|---|---|
| `python.dfy` | `Python` | Python values with their truth value, `x or default`, exceptions with their MRO |
| `broker.dfy` | `Broker` | the broker connection as a log of events; a received message with `ack`/`reject` |
| `amqp.dfy` | `Amqp` | envelope, declaration memos, queues and consumers, `TaskPublisher`, `ConsumerSet`, `AMQP` |
| `worker.dfy` | `Worker` | `DecodeTask`, the logging kwargs, `TaskDaemon` and its `run` iteration |
| `backend.dfy` | `Backend` | `find_nearest_pickleable_exception`, `prepare_exception`, the store, `wait_for` |
| `pool.dfy` | `Pool` | `TaskPool`: lifecycle, `apply_async`, `on_ready`, `on_worker_error` |

Several things outside the core are modelled as data or as parameters:

- **Broker.** Every broker call that changes broker state becomes an `Event` appended to `Connection.log`: declare, publish, ack, reject, consumer creation and close. The `task_sent` signal is not a broker call; it is recorded in the same log so that its order relative to the publish is visible. What `fetch()` returns (a message, or None for an empty queue) is an input to the worker, not an event.
- **Clock.** A single integer reading `now` replaces `datetime.now()` and `time.time()`.
  - `isoformat()` text stays abstract as `VIso(t)`.
  - `TimeoutTimer` becomes a tick budget.
- **Task ids.** `gen_unique_id()` becomes the `freshId` parameter.
- **Pickling.** `pickle.dumps` and class construction become function parameters (`dumps`, `constructs`).
- **Callbacks.** Whether a callback raises is a parameter (`raises`).
- **Pool acceptance.** Whether the pool's `apply_async` accepts a call is a parameter (`poolAccepts`).

Behaviour reproduced as the code has it:

- **Swapped logging kwargs.** `execute` and `execute_using_pool` call `extend_kwargs_with_logging(logfile, loglevel)`. That method takes `(loglevel, logfile)`. So the `"logfile"` key of the submitted kwargs carries the daemon's log level, and the `"loglevel"` key its log file (`Worker.TaskCall`).
- **Failed submission in `run`.** When submission fails, `execute_next_task` returns `None`. Unpacking it in `run` raises a `TypeError`, not the `ValueError` its comment expects. The iteration therefore ends in the generic "Message queue raised" branch (`Worker.TaskDaemon.RunOnce`).
- **Undecodable body.** Such a body raises `ValueError` from `from_message`. `run` drops it silently: the message is neither acked nor rejected.
- **Queue defaults.** A queue's missing `binding_key` defaults to `CELERY_DEFAULT_EXCHANGE`, as `get_queues` writes it, not to the queue's own exchange.
- **`stop` on a non-running pool.** `stop` does nothing unless the pool's state is `RUN`, so a closed-but-not-dropped pool stays in `_pool`.
- **Error propagation in `on_worker_error`.** It calls the errbacks directly. The first errback that raises stops the rest, and its exception propagates.

## Model

| member | source | states |
|---|---|---|
| Amqp.ExtractMsgOptions | celery/app/amqp.py:12-16 | the result has exactly the six message option keys; each is the caller's value when given, None otherwise |
| Amqp.TaskEnvelope | celery/app/amqp.py:36-64 | ValueError exactly when the (false-defaulted) args are not a list/tuple or the kwargs not a dict, with the args error checked first; otherwise the body has exactly the seven keys plus `taskset` only for a true taskset id; the id is the given one when true, else the fresh one; a true countdown gives eta = now + countdown, else the given eta; an integer expires is relative to the same `now`; retries defaults to 0 |
| Amqp.ExchangeDeclaredAtMostOnce | celery/app/amqp.py:19-29 | over any series of `declare()` calls, an exchange reaches the broker once if it was not yet declared in the process and some call names it, and never otherwise; the memo ends as the old memo plus every exchange named |
| Amqp.TaskPublisher.constructor | celery/app/amqp.py:152-153 | a publisher takes exchange, exchange type, routing key and serializer from its options and declares nothing (auto_declare off) |
| Amqp.TaskPublisher.Declare | celery/app/amqp.py:26-29 | the broker declaration and the memo update are exactly one `DeclareOnce` step |
| Amqp.TaskPublisher.DelayTask | celery/app/amqp.py:31-74 | on ValueError nothing is sent and the publisher is unchanged; otherwise true exchange/type arguments overwrite the publisher's, then exactly the envelope is published with the extracted message options, followed by `task_sent` carrying the same body, and the task id is returned |
| Amqp.QueueDefaults | celery/app/amqp.py:119-124 | every queue ends with exchange, exchange type, binding key and routing key; existing values are kept; binding key defaults to the default exchange; routing key to the binding key |
| Amqp.ResolvedQueues | celery/app/amqp.py:126-127 | same queue names, each with its defaults filled in |
| Amqp.ResolvedQueuesIdempotent | celery/app/amqp.py:115-127 | filling defaults twice equals filling them once, so repeated `get_queues` calls agree |
| Amqp.ConsumerOptions | celery/app/amqp.py:170-172 | the binding key is removed and becomes the routing key (None when absent); every other option is kept |
| Amqp.Merge | celery/app/amqp.py:153 | as assumed for `app.merge`: keys of both sides; a non-None option wins, a None or missing one keeps the default, and a key only the caller gives keeps the caller's value, None included |
| Amqp.ReceivePipeline | celery/app/amqp.py:92-103 | ack happens iff auto-ack is on and the message was not acknowledged; exactly one of dispatch/raise happens; a decoded body goes to `receive`, a decode error to `on_decode_error` if set, otherwise it propagates |
| Amqp.ConsumerSet.ReceiveCallback | celery/app/amqp.py:92-103 | the broker log, the dispatched handlers and the returned error are those `ReceivePipeline` decides; the message ends acknowledged exactly when it already was or the pipeline acked it |
| Amqp.ConsumerSet.AddConsumers | celery/app/amqp.py:169-175 | exactly one consumer per queue, no queue twice, each created with its queue's consumer options, and each creation logged in order |
| Amqp.ConsumerSet.Close | celery/app/amqp.py:158-159 | closing logs the queues of the set's consumers |
| Amqp.AMQP.GetQueues | celery/app/amqp.py:115-127 | returns the configured queues with defaults filled, and the configuration itself is updated in place to the same |
| Amqp.AMQP.GetDefaultQueue | celery/app/amqp.py:129-131 | the default queue's name and resolved options; KeyError when it is not configured |
| Amqp.AMQP.TaskConsumer | celery/app/amqp.py:139-144 | KeyError iff no default queue, creating nothing; otherwise the options are the queue name plus its options with binding key moved to routing key, merged under the caller's options, and exactly one consumer with those options is created on the connection |
| Amqp.AMQP.GetConsumerSet | celery/app/amqp.py:165-176 | a fresh set with one consumer per queue of the given (true) queues or else of all resolved configured queues, logged in order |
| Amqp.AMQP.DeclareQueuesOnce | celery/app/amqp.py:155-160 | the first call in the process opens a consumer set over every queue and closes it, later calls do nothing; the flag ends set |
| Amqp.AMQP.TaskPublisher | celery/app/amqp.py:146-163 | KeyError iff no default queue, with no publisher and no broker event, the queue configuration being resolved in place; otherwise a fresh publisher with the merged settings, all queues declared the first time only, then its exchange declared once per process, with the complete broker log for both cases |
| Worker.DecodeTask | celery/worker.py:33-44 | ValueError exactly when the body is undecodable JSON, so every decoded body that fails raises something else; a wrapper exactly when the body is a dict with task, id, args, kwargs and a registered task name, carrying those fields and the registered callable; UnknownTask exactly when the four keys are present, the name is hashable and not registered; a KeyError names a missing key |
| Worker.TaskDaemon.FromMessage | celery/worker.py:33-44 | the result is `DecodeTask`'s, and the message is rejected exactly when the task is unknown, which leaves it acknowledged; otherwise its acknowledged flag is unchanged |
| Worker.ExtendKwargsWithLogging | celery/worker.py:46-50 | keys are the task kwargs plus logfile and loglevel; the task's own kwargs win on a clash; a non-dict kwargs raises |
| Worker.TaskCall | celery/worker.py:52-58 | the callable and args are the wrapper's; every task kwarg is passed unchanged; with the swapped argument order the `logfile` key holds the log level and `loglevel` the log file unless the task sets them |
| Worker.NextTaskOutcome | celery/worker.py:94-106 | EmptyQueue exactly when nothing was fetched; raised exactly when decoding fails, and then with the decoder's own error; dispatched exactly when the task decodes, its call can be built and the pool accepts it |
| Worker.TaskDaemon.FetchNextTask | celery/worker.py:83-92 | EmptyQueue for no message; otherwise the decoded wrapper with its message and a "Got task" notice, or the decode error with a reject only for an unknown task; the message ends acknowledged exactly when it already was or it was rejected |
| Worker.TaskDaemon.ExecuteNextTask | celery/worker.py:94-106 | a dispatched task is submitted and then acked, and its result entry returned; a failed submission logs, returns None and neither acks nor submits; fetch errors propagate; the message ends acknowledged exactly when it already was, was acked after dispatch, or was rejected as unknown |
| Worker.TaskDaemon.RunPeriodicTasks | celery/worker.py:108-116 | every waiting periodic task is delayed once, in order |
| Worker.PeriodicNotices | celery/worker.py:114-115 | one delay per waiting task, in order |
| Worker.OnEmptyQueue | celery/worker.py:132-140 | the notice is emitted exactly when `emit_every` is non-zero and either there is no (true) previous notice or more than `emit_every` has passed since it; an emission sets `last_empty_emit` to now, and no emission leaves it unchanged |
| Worker.EmissionsRateLimited | celery/worker.py:132-140 | over any run of empty polls, consecutive notices are more than `emit_every` apart, and the first one more than `emit_every` after a recorded earlier one |
| Worker.SilentRunNotDue | celery/worker.py:132-140 | with the notice enabled, a run of empty polls that logs nothing had an earlier notice recorded and every poll fell within `emit_every` of it, so a due poll always logs |
| Worker.NoEmissionsWhenDisabled | celery/worker.py:132-134 | with `empty_msg_emit_every` zero no notice is ever emitted |
| Worker.WithDefaults | celery/worker.py:71-77 | each true setting is kept, each false one takes the class default |
| Worker.WithDefaultsIdempotent | celery/worker.py:71-77 | defaulting already defaulted settings changes nothing |
| Worker.TaskDaemon.constructor | celery/worker.py:71-81 | the daemon's settings are the defaulted ones; nothing submitted, no results, no previous notice |
| Worker.TaskDaemon.RunOnce | celery/worker.py:118-149 | periodic tasks are delayed first; then, by outcome: a dispatched task is submitted, acked, announced and added to the results; an empty queue applies `OnEmptyQueue`, sleeps and touches no message; an undecodable body is dropped silently with no ack or reject; an unknown task is rejected and logged as ignored; a failed submission logs the worker exception and then the critical TypeError of unpacking None, with no ack; any other error is logged critically with no ack; `last_empty_emit` moves only on an empty queue, and nothing is submitted or added off the dispatch path; the fetched message ends acknowledged exactly when it already was, was dispatched, or was rejected as unknown, so a dropped undecodable message stays unacknowledged |
| Backend.Rebuilt | celery/backends/base.py:20 | the instance of the i-th MRO class has that class, the MRO from it on, and the original args as its single argument |
| Backend.FirstAccepted | celery/backends/base.py:18-25 | the first position in MRO order whose class constructs and pickles, and none before it; none when no class does |
| Backend.FindNearestPickleableException | celery/backends/base.py:10-26 | the instance rebuilt from the first class that constructs and pickles; `exc` itself when none does; the result pickles or is `exc` |
| Backend.Wrap | celery/backends/base.py:58-61 | the wrapper records the class module and name as given and has args (module, name, original args); it is an Exception, never SystemExit/KeyboardInterrupt |
| Backend.PrepareException | celery/backends/base.py:80-91 | the nearest exception when it pickles, a wrapper of it on PickleError, and any other pickling error propagates |
| Backend.PrepareExceptionWrapsOriginal | celery/backends/base.py:80-91 | a wrapper is only ever built for the original exception, and only when no MRO class was accepted and the original raised PickleError |
| Backend.PrepareExceptionOwnClass | celery/backends/base.py:18-25 | an exception whose own class rebuilds picklably is stored as that rebuilt instance |
| Backend.PrepareResult | celery/backends/base.py:102-106 | None becomes True; every other value is unchanged; the result is never None |
| Backend.PrepareResultIdempotent | celery/backends/base.py:102-106 | preparing twice equals preparing once |
| Backend.StoreIsolated | celery/backends/base.py:67-70 | storing one task's record leaves every other task's status and result unchanged |
| Backend.Backend.StoreResult | celery/backends/base.py:67-70 | the task's record becomes (status, result) |
| Backend.Backend.GetStatus | celery/backends/base.py:97-100 | the status last stored for the task; a task never stored is PENDING |
| Backend.Backend.GetResult | celery/backends/base.py:108-111 | the result last stored for the task; a task never stored has result None |
| Backend.Backend.IsDone | celery/backends/base.py:113-115 | true exactly when the task is stored with status DONE; a task never stored (PENDING) is not done |
| Backend.Backend.MarkAsDone | celery/backends/base.py:72-74 | stores (DONE, result) unchanged; afterwards `is_done` holds and the result reads back; no other task's status changes |
| Backend.Backend.MarkAsFailure | celery/backends/base.py:76-78 | stores (FAILURE, exc); afterwards `is_done` does not hold; no other task's status changes |
| Backend.Backend.MarkAsRetry | celery/backends/base.py:93-95 | stores (RETRY, exc); afterwards `is_done` does not hold; no other task's status changes |
| Backend.WaitFor | celery/backends/base.py:122-140 | the polling loop ends exactly as `Waited` describes |
| Backend.WaitStopsAtFirstTerminal | celery/backends/base.py:134-139 | the first poll seeing DONE returns its stored result and the first seeing FAILURE raises it, if the timer has not run out before |
| Backend.WaitTimesOut | celery/backends/base.py:133-140 | with timeout t, t + 1 non-terminal polls end in a timeout |
| Backend.WaitWithoutTimeout | celery/backends/base.py:133-140 | without a timeout the loop never times out |
| Backend.WaitResultWasStored | celery/backends/base.py:134-139 | whatever is returned or raised is the result some poll saw stored with status DONE (returned) or FAILURE (raised) |
| Pool.OrEmpty | celery/concurrency/processes/__init__.py:73-74 | missing callbacks/errbacks become the empty list; given ones are kept |
| Pool.ApplyArguments | celery/concurrency/processes/__init__.py:71-87 | false args and kwargs become [] and {}; missing callback lists become []; `putlocks` is passed as `waitforslot`; target and the accept/timeout callbacks pass through |
| Pool.ApplyArgumentsIdempotent | celery/concurrency/processes/__init__.py:71-74 | defaulting an already defaulted job changes nothing |
| Pool.TaskPool.constructor | celery/concurrency/processes/__init__.py:34-39 | a task pool starts with no process pool |
| Pool.TaskPool.Start | celery/concurrency/processes/__init__.py:41-47 | a new running process pool becomes `_pool`, created with the configured processes and options |
| Pool.TaskPool.Stop | celery/concurrency/processes/__init__.py:49-54 | a running pool is closed, joined and dropped, in that order; otherwise nothing happens |
| Pool.TaskPool.Terminate | celery/concurrency/processes/__init__.py:56-60 | any pool is terminated and dropped; no pool means nothing happens; afterwards there is no pool |
| Pool.TaskPool.ApplyAsync | celery/concurrency/processes/__init__.py:62-87 | with no pool it raises and nothing is submitted; otherwise exactly the defaulted job goes to the current pool |
| Pool.TaskPool.SafeApplyCallback | celery/concurrency/processes/__init__.py:113-119 | the callback is called once; if it raises, the error is logged and does not propagate |
| Pool.TaskPool.SafeApplyEach | celery/concurrency/processes/__init__.py:107-111 | every callback is called exactly once, in list order, with the same argument; the logged errors are the failures in order |
| Pool.FailuresAreTheRaisingCallbacks | celery/concurrency/processes/__init__.py:113-119 | the logged errors are exactly the callbacks that raised, at most one per call, and none exactly when none raised |
| Pool.TaskPool.OnReady | celery/concurrency/processes/__init__.py:99-111 | a SystemExit/KeyboardInterrupt is re-raised with no callback or errback run; any other exception goes to every errback; a return value to every callback; nothing else is called |
| Pool.FirstRaising | celery/concurrency/processes/__init__.py:95-97 | the position of the first errback that raises, none raising before it; none when no errback raises |
| Pool.TaskPool.OnWorkerError | celery/concurrency/processes/__init__.py:95-97 | errbacks are called in order with the exception wrapped in ExceptionInfo, up to and including the first that raises, whose exception propagates; no error is logged |

## Left out

- celery/bin/celerybeat.py and celery/bin/celeryev.py: command-line parsing, daemonisation and the event tools are I/O plumbing with no logic to state.
- The broker client (carrot): `send`, `declare`, `ack`, `reject`, consumer creation and `close` are each an event in the connection's log, and creating a consumer is taken to declare its queue. `fetch` is not an event: the message it returns, or None for an empty queue, is an input (`fetched`). The wire format is not modelled.
- JSON decoding: a message payload is either the decoded value or a decode failure.
- `pickle.dumps`, class construction and the MRO are parameters. The MRO of the i-th class of an exception's MRO is taken to be the rest of that MRO, which is exact for single inheritance.
- Amqp.TaskEnvelope: the `datetime`/`timedelta` arithmetic and `isoformat()` text are integer times and an abstract ISO value. A countdown and an integer expires share one clock reading.
- Amqp.Merge: the code of `app.merge` is not part of this model. The semantics in the table are assumed.
- `AMQP.Router`, `routes.Router` and the `task_sent` signal's receivers are not modelled. The signal is only recorded as an event.
- `gen_unique_id` uniqueness: the generated id is an input.
- Logging: messages are recorded as notices without their text, tracebacks or levels. `setup_logger` is not modelled.
- Worker.TaskDaemon.RunOnce: one iteration of the infinite `run` loop. It uses one clock reading for both the comparison and the new `last_empty_emit`; the source reads the clock twice. `time.sleep` is recorded as a notice. The `ProcessQueue` of results is the `results` sequence.
- The periodic-task store (`PeriodicTaskMeta.objects.get_waiting_tasks`) is an input list. `delay()` on a periodic task is recorded as a notice.
- `TaskWrapper.execute` running the task function in-process: only the call it makes (`Worker.TaskCall`) is modelled.
- Worker.DecodeTask: the exact exception raised for a body that is not a dict (TypeError for a list, AttributeError otherwise) does not matter to any caller and is approximate. The task registry is keyed by strings.
- Worker.ExtendKwargsWithLogging: `dict.update` also accepts a sequence of pairs. The model treats every non-dict kwargs as an error.
- Backend.Backend.StoreResult, Backend.Backend.GetStatus and Backend.Backend.GetResult: in the base class all three raise NotImplementedError. The model gives them the behaviour every concrete backend has: a map from task id to (status, result), with PENDING and None for an unknown task. `cleanup` is not modelled and a write-once status is not enforced.
- Backend.WaitFor: the code of `TimeoutTimer` is not part of this model; it is read as a tick budget of one tick per poll, so `timeout=0` allows one poll and then raises TimeoutError. The stores the successive polls observe are an input, because other processes write them. `Unresolved` means the given polls ran out.
- The process pool internals (`multiprocessing`, `Pool`), `grow`, `shrink` and the `info` property are foreign objects and concurrency. Only the `_pool` lifecycle state and the calls made on it are kept.
- Whether a callback, an errback or the pool's `apply_async` raises is a parameter. Their effects beyond being called are not modelled.
