/**
 * The message envelope protocol and the publisher/consumer bookkeeping of
 * celery/app/amqp.py: building a task envelope, declaring each exchange once
 * per process, declaring all queues once, filling in queue defaults and
 * turning queues into consumers, and the consumer set's receive pipeline.
 */
module Amqp {
  import opened Python
  import opened Broker

  // ---------------------------------------------------------------------------
  // Message options and the task envelope
  // ---------------------------------------------------------------------------

  /** The keyword arguments of `delay_task` that are passed on to `send`. */
  const MsgOptions: seq<string> := ["mandatory", "priority", "immediate", "routing_key", "serializer", "delivery_mode"]

  /** `extract_msg_options(d)`: exactly the six message options, each read from `d` or None. */
  function ExtractMsgOptions(d: map<string, Value>): (r: map<string, Value>)
    ensures r.Keys == set k | k in MsgOptions
    ensures forall k :: k in r && k in d ==> r[k] == d[k]
    ensures forall k :: k in r && k !in d ==> r[k] == VNone
  {
    map k | k in MsgOptions :: Get(d, k)
  }

  /** The `expires` argument: absent, a number of seconds from now, or an absolute time. */
  datatype Expires = NoExpiry | ExpiresIn(seconds: int) | ExpiresAt(t: int)

  /** What `delay_task` sends: the task id it returns and the message body. */
  datatype Envelope = Envelope(id: string, body: map<string, Value>)

  /** The keys every envelope body has. */
  const EnvelopeKeys: set<string> := {"task", "id", "args", "kwargs", "retries", "eta", "expires"}

  const ArgsError := "task args must be a list or tuple"
  const KwargsError := "task kwargs must be a dictionary"

  /** `x.isoformat()` of an optional absolute time, None when absent. */
  function IsoOrNone(t: Option<int>): Value {
    if t.Some? then VIso(t.value) else VNone
  }

  predicate IsListOrTuple(v: Value) {
    v.VList? || v.VTuple?
  }

  /**
   * The envelope `delay_task` builds, or the ValueError it raises. `now` is the
   * single clock reading used for both the countdown and the integer `expires`,
   * `freshId` what `gen_unique_id()` would give, and `options` the remaining
   * keyword arguments (which may carry `retries`).
   */
  function TaskEnvelope(taskName: string, taskArgs: Value, taskKwargs: Value,
                        countdown: Option<int>, eta: Option<int>, taskId: Option<string>,
                        tasksetId: Option<string>, expires: Expires, options: map<string, Value>,
                        now: int, freshId: string): (r: Result<Envelope, string>)
    // `None` (or any other false value) becomes `[]` / `{}` before the type checks.
    ensures r.Err? <==> !IsListOrTuple(Or(taskArgs, VList([]))) || !Or(taskKwargs, VDict(map[])).VDict?
    ensures r.Err? ==> r.error == if IsListOrTuple(Or(taskArgs, VList([]))) then KwargsError else ArgsError
    ensures r.Ok? ==> r.value.body.Keys == EnvelopeKeys + (if Given(tasksetId) then {"taskset"} else {})
    ensures r.Ok? ==> r.value.id == (if Given(taskId) then taskId.value else freshId)
    ensures r.Ok? ==> r.value.body["id"] == VStr(r.value.id) && r.value.body["task"] == VStr(taskName)
    ensures r.Ok? ==> r.value.body["args"] == Or(taskArgs, VList([])) && r.value.body["kwargs"] == Or(taskKwargs, VDict(map[]))
    ensures r.Ok? ==> r.value.body["retries"] == (if "retries" in options then options["retries"] else VInt(0))
    // A true countdown overrides `eta`; otherwise the given `eta` is kept.
    ensures r.Ok? && GivenInt(countdown) ==> r.value.body["eta"] == VIso(now + countdown.value)
    ensures r.Ok? && !GivenInt(countdown) ==> r.value.body["eta"] == IsoOrNone(eta)
    // An integer `expires` is relative to the same `now`.
    ensures r.Ok? && expires.ExpiresIn? ==> r.value.body["expires"] == VIso(now + expires.seconds)
    ensures r.Ok? && expires.ExpiresAt? ==> r.value.body["expires"] == VIso(expires.t)
    ensures r.Ok? && expires.NoExpiry? ==> r.value.body["expires"] == VNone
    ensures r.Ok? && Given(tasksetId) ==> r.value.body["taskset"] == VStr(tasksetId.value)
  {
    var id := if Given(taskId) then taskId.value else freshId;
    var args := Or(taskArgs, VList([]));
    var kwargs := Or(taskKwargs, VDict(map[]));
    var resolvedEta := if GivenInt(countdown) then Some(now + countdown.value) else eta;
    if !IsListOrTuple(args) then Err(ArgsError)
    else if !kwargs.VDict? then Err(KwargsError)
    else
      var resolvedExpires :=
        match expires
        case NoExpiry => None
        case ExpiresIn(seconds) => Some(now + seconds)
        case ExpiresAt(t) => Some(t);
      var body := map[
        "task" := VStr(taskName),
        "id" := VStr(id),
        "args" := Or(args, VList([])),
        "kwargs" := Or(kwargs, VDict(map[])),
        "retries" := if "retries" in options then options["retries"] else VInt(0),
        "eta" := IsoOrNone(resolvedEta),
        "expires" := IsoOrNone(resolvedExpires)];
      Ok(Envelope(id, if Given(tasksetId) then body["taskset" := VStr(tasksetId.value)] else body))
  }

  // ---------------------------------------------------------------------------
  // Declaring exchanges once per process
  // ---------------------------------------------------------------------------

  /** The set of declared exchanges and the broker calls made, after some declarations. */
  datatype Declaration = Declaration(memo: set<Value>, events: seq<Event>)

  /** One `TaskPublisher.declare()` for `exchange`, given the exchanges already declared. */
  function DeclareOnce(memo: set<Value>, exchange: Value, exchangeType: Value): Declaration {
    if exchange in memo then Declaration(memo, [])
    else Declaration(memo + {exchange}, [ExchangeDeclared(exchange, exchangeType)])
  }

  /** `declare()` called by a series of publishers, each for its (exchange, exchange type). */
  function DeclareEach(memo: set<Value>, requests: seq<(Value, Value)>): Declaration
    decreases |requests|
  {
    if requests == [] then Declaration(memo, [])
    else
      var first := DeclareOnce(memo, requests[0].0, requests[0].1);
      var rest := DeclareEach(first.memo, requests[1..]);
      Declaration(rest.memo, first.events + rest.events)
  }

  /** The exchanges named in a series of declare requests. */
  function Exchanges(requests: seq<(Value, Value)>): set<Value> {
    set i | 0 <= i < |requests| :: requests[i].0
  }

  /** How many broker-level declarations of `exchange` the events hold. */
  function DeclarationsOf(events: seq<Event>, exchange: Value): nat
    decreases |events|
  {
    if events == [] then 0
    else (if events[0].ExchangeDeclared? && events[0].exchange == exchange then 1 else 0)
         + DeclarationsOf(events[1..], exchange)
  }

  lemma {:induction false} DeclarationsOfAppend(a: seq<Event>, b: seq<Event>, exchange: Value)
    ensures DeclarationsOf(a + b, exchange) == DeclarationsOf(a, exchange) + DeclarationsOf(b, exchange)
    decreases |a|
  {
    if a != [] {
      assert (a + b)[0] == a[0];
      assert (a + b)[1..] == a[1..] + b;
      DeclarationsOfAppend(a[1..], b, exchange);
    } else {
      assert a + b == b;
    }
  }

  /**
   * However many publishers declare, each exchange reaches the broker at most
   * once per process: exactly once when it was not yet declared and some
   * publisher asks for it, never otherwise. Afterwards every requested exchange
   * is remembered.
   */
  lemma {:induction false} ExchangeDeclaredAtMostOnce(memo: set<Value>, requests: seq<(Value, Value)>, exchange: Value)
    ensures DeclareEach(memo, requests).memo == memo + Exchanges(requests)
    ensures DeclarationsOf(DeclareEach(memo, requests).events, exchange)
            == if exchange !in memo && exchange in Exchanges(requests) then 1 else 0
    decreases |requests|
  {
    if requests != [] {
      var first := DeclareOnce(memo, requests[0].0, requests[0].1);
      ExchangeDeclaredAtMostOnce(first.memo, requests[1..], exchange);
      DeclarationsOfAppend(first.events, DeclareEach(first.memo, requests[1..]).events, exchange);
      assert Exchanges(requests) == {requests[0].0} + Exchanges(requests[1..]) by {
        forall x | x in Exchanges(requests) ensures x in {requests[0].0} + Exchanges(requests[1..]) {
          var i :| 0 <= i < |requests| && requests[i].0 == x;
          if i > 0 { assert requests[1..][i - 1].0 == x; }
        }
        forall x | x in Exchanges(requests[1..]) ensures x in Exchanges(requests) {
          var i :| 0 <= i < |requests[1..]| && requests[1..][i].0 == x;
          assert requests[i + 1].0 == x;
        }
      }
      assert DeclarationsOf(first.events, exchange) == if exchange == requests[0].0 && exchange !in memo then 1 else 0 by {
        if first.events != [] { assert first.events[1..] == []; }
      }
    } else {
      assert Exchanges(requests) == {};
    }
  }

  /** The module-level state of celery/app/amqp.py: `_exchanges_declared` and `_queues_declared`. */
  class AmqpGlobals {
    var exchangesDeclared: set<Value>
    var queuesDeclared: bool

    constructor ()
      ensures exchangesDeclared == {} && !queuesDeclared
    {
      exchangesDeclared, queuesDeclared := {}, false;
    }
  }

  /** A publisher of task envelopes. */
  class TaskPublisher {
    const connection: Connection
    const globals: AmqpGlobals
    var exchange: Value
    var exchangeType: Value
    const routingKey: Value
    const serializer: Value

    /** A publisher built with `auto_declare` off: constructing it declares nothing. */
    constructor (connection: Connection, globals: AmqpGlobals, options: map<string, Value>)
      ensures this.connection == connection && this.globals == globals
      ensures exchange == Get(options, "exchange") && exchangeType == Get(options, "exchange_type")
      ensures routingKey == Get(options, "routing_key") && serializer == Get(options, "serializer")
    {
      this.connection, this.globals := connection, globals;
      exchange, exchangeType := Get(options, "exchange"), Get(options, "exchange_type");
      routingKey, serializer := Get(options, "routing_key"), Get(options, "serializer");
    }

    /** Declares this publisher's exchange unless the process already has. */
    method Declare()
      modifies globals`exchangesDeclared, connection
      ensures globals.exchangesDeclared == DeclareOnce(old(globals.exchangesDeclared), exchange, exchangeType).memo
      ensures connection.log == old(connection.log) + DeclareOnce(old(globals.exchangesDeclared), exchange, exchangeType).events
    {
      if exchange !in globals.exchangesDeclared {
        connection.log := connection.log + [ExchangeDeclared(exchange, exchangeType)];
        globals.exchangesDeclared := globals.exchangesDeclared + {exchange};
      }
    }

    /**
     * `delay_task`: validates and sends one envelope and returns its task id. On a
     * ValueError nothing is sent and the publisher is unchanged; otherwise a true
     * `toExchange`/`toExchangeType` first replaces the publisher's own, then the
     * envelope is sent and the `task_sent` signal carries the same body.
     */
    method DelayTask(taskName: string, taskArgs: Value, taskKwargs: Value,
                     countdown: Option<int>, eta: Option<int>, taskId: Option<string>,
                     tasksetId: Option<string>, expires: Expires,
                     toExchange: Value, toExchangeType: Value, options: map<string, Value>,
                     now: int, freshId: string) returns (r: Result<string, string>)
      modifies this, connection
      ensures var env := TaskEnvelope(taskName, taskArgs, taskKwargs, countdown, eta, taskId, tasksetId, expires, options, now, freshId);
        && (env.Err? ==> r == Err(env.error) && connection.log == old(connection.log)
                         && exchange == old(exchange) && exchangeType == old(exchangeType))
        && (env.Ok? ==> r == Ok(env.value.id)
                        && exchange == (if Truthy(toExchange) then toExchange else old(exchange))
                        && exchangeType == (if Truthy(toExchangeType) then toExchangeType else old(exchangeType))
                        && connection.log == old(connection.log)
                             + [Published(env.value.body, exchange, exchangeType, ExtractMsgOptions(options)),
                                TaskSent(taskName, env.value.body)])
    {
      var env := TaskEnvelope(taskName, taskArgs, taskKwargs, countdown, eta, taskId, tasksetId, expires, options, now, freshId);
      if env.Err? {
        return Err(env.error);
      }
      if Truthy(toExchange) {
        exchange := toExchange;
      }
      if Truthy(toExchangeType) {
        exchangeType := toExchangeType;
      }
      connection.log := connection.log + [Published(env.value.body, exchange, exchangeType, ExtractMsgOptions(options))];
      connection.log := connection.log + [TaskSent(taskName, env.value.body)];
      r := Ok(env.value.id);
    }
  }

  // ---------------------------------------------------------------------------
  // Queues, consumers and the consumer set
  // ---------------------------------------------------------------------------

  /** Queue options: the dictionary a queue is configured with. */
  type QueueOptions = map<string, Value>

  /**
   * `_defaults(opts)` of `get_queues`: every queue ends up with an exchange, an
   * exchange type, a binding key and a routing key. Values already present are
   * kept; a missing binding key is the configured default exchange, and a
   * missing routing key is the (resolved) binding key.
   */
  function QueueDefaults(opts: QueueOptions, defaultExchange: Value, defaultExchangeType: Value): (r: QueueOptions)
    ensures r.Keys == opts.Keys + {"exchange", "exchange_type", "binding_key", "routing_key"}
    ensures forall k :: k in opts ==> r[k] == opts[k]
    ensures "exchange" !in opts ==> r["exchange"] == defaultExchange
    ensures "exchange_type" !in opts ==> r["exchange_type"] == defaultExchangeType
    ensures "binding_key" !in opts ==> r["binding_key"] == defaultExchange
    ensures "routing_key" !in opts ==> r["routing_key"] == r["binding_key"]
  {
    var withExchange := if "exchange" in opts then opts else opts["exchange" := defaultExchange];
    var withType := if "exchange_type" in withExchange then withExchange
                    else withExchange["exchange_type" := defaultExchangeType];
    var withBinding := if "binding_key" in withType then withType
                       else withType["binding_key" := defaultExchange];
    if "routing_key" in withBinding then withBinding
    else withBinding["routing_key" := withBinding["binding_key"]]
  }

  /** Every configured queue with its defaults filled in. */
  function ResolvedQueues(queues: map<string, QueueOptions>, defaultExchange: Value, defaultExchangeType: Value)
    : (r: map<string, QueueOptions>)
    ensures r.Keys == queues.Keys
    ensures forall q :: q in r ==> r[q] == QueueDefaults(queues[q], defaultExchange, defaultExchangeType)
  {
    map q | q in queues :: QueueDefaults(queues[q], defaultExchange, defaultExchangeType)
  }

  /** Filling in queue defaults a second time changes nothing, so repeated `get_queues` calls agree. */
  lemma ResolvedQueuesIdempotent(queues: map<string, QueueOptions>, defaultExchange: Value, defaultExchangeType: Value)
    ensures ResolvedQueues(ResolvedQueues(queues, defaultExchange, defaultExchangeType), defaultExchange, defaultExchangeType)
            == ResolvedQueues(queues, defaultExchange, defaultExchangeType)
  {
    var once := ResolvedQueues(queues, defaultExchange, defaultExchangeType);
    var twice := ResolvedQueues(once, defaultExchange, defaultExchangeType);
    forall q | q in once ensures twice[q] == once[q] {
      var o := once[q];
      var oo := QueueDefaults(o, defaultExchange, defaultExchangeType);
      assert oo.Keys == o.Keys;
      assert forall k :: k in o ==> oo[k] == o[k];
    }
  }

  /**
   * The options a consumer is created with: the queue's options with
   * `binding_key` popped and put under `routing_key` (None when absent).
   */
  function ConsumerOptions(opts: QueueOptions): (r: QueueOptions)
    ensures r.Keys == opts.Keys - {"binding_key"} + {"routing_key"}
    ensures r["routing_key"] == Get(opts, "binding_key")
    ensures forall k :: k in opts && k != "binding_key" && k != "routing_key" ==> r[k] == opts[k]
  {
    (opts - {"binding_key"})["routing_key" := Get(opts, "binding_key")]
  }

  /**
   * `app.merge(defaults, options)`: the options win, except that an option whose
   * value is None keeps the default.
   */
  function Merge(defaults: map<string, Value>, options: map<string, Value>): (r: map<string, Value>)
    ensures r.Keys == defaults.Keys + options.Keys
    ensures forall k :: k in options && options[k] != VNone ==> r[k] == options[k]
    ensures forall k :: k in defaults && Get(options, k) == VNone ==> r[k] == defaults[k]
    ensures forall k :: k in options && k !in defaults ==> r[k] == options[k]
  {
    map k | k in defaults.Keys + options.Keys ::
      if k in defaults && Get(options, k) == VNone then defaults[k] else options[k]
  }

  datatype Consumer = Consumer(queue: string, options: QueueOptions)

  function QueuesOf(consumers: seq<Consumer>): seq<string> {
    seq(|consumers|, i requires 0 <= i < |consumers| => consumers[i].queue)
  }

  function ConsumerEvents(consumers: seq<Consumer>): seq<Event> {
    seq(|consumers|, i requires 0 <= i < |consumers| => ConsumerDeclared(VStr(consumers[i].queue), consumers[i].options))
  }

  lemma ConsumerAppended(consumers: seq<Consumer>, c: Consumer)
    ensures QueuesOf(consumers + [c]) == QueuesOf(consumers) + [c.queue]
    ensures ConsumerEvents(consumers + [c]) == ConsumerEvents(consumers) + [ConsumerDeclared(VStr(c.queue), c.options)]
  {
  }

  /** `consumers` holds exactly one consumer per queue of `queues`, built from that queue's options. */
  ghost predicate OneConsumerPerQueue(consumers: seq<Consumer>, queues: map<string, QueueOptions>) {
    && |consumers| == |queues.Keys|
    && (forall i :: 0 <= i < |consumers| ==>
          consumers[i].queue in queues && consumers[i].options == ConsumerOptions(queues[consumers[i].queue]))
    && (forall i, j :: 0 <= i < j < |consumers| ==> consumers[i].queue != consumers[j].queue)
    && (forall q :: q in queues ==> q in QueuesOf(consumers))
  }

  /** What receiving one message did: acknowledge it first, then dispatch it or raise. */
  datatype Reception = Reception(ack: bool, dispatch: Option<Dispatch>, raised: Option<string>)

  /** A decoded message handed to the receive handler, or a decode failure handed to `on_decode_error`. */
  datatype Dispatch = Received(body: Value, deliveryTag: nat) | DecodeErrorHandled(deliveryTag: nat, reason: string)

  /**
   * `ConsumerSet._receive_callback`: with auto-ack on, a message not yet
   * acknowledged is acked before it is decoded. Then exactly one of three
   * things happens: the decoded body goes to the receive handler, a decode
   * error goes to `on_decode_error`, or (without that handler) the decode
   * error propagates.
   */
  function ReceivePipeline(autoAck: bool, acknowledged: bool, hasDecodeErrorHandler: bool,
                           deliveryTag: nat, payload: Payload): (r: Reception)
    ensures r.ack <==> autoAck && !acknowledged
    ensures r.dispatch.Some? != r.raised.Some?
    ensures r.raised.Some? <==> payload.Undecodable? && !hasDecodeErrorHandler
    ensures payload.Decoded? ==> r.dispatch == Some(Received(payload.data, deliveryTag))
    ensures payload.Undecodable? && hasDecodeErrorHandler ==> r.dispatch == Some(DecodeErrorHandled(deliveryTag, payload.reason))
    ensures payload.Undecodable? && !hasDecodeErrorHandler ==> r.raised == Some(payload.reason)
  {
    var ack := autoAck && !acknowledged;
    match payload
    case Decoded(data) => Reception(ack, Some(Received(data, deliveryTag)), None)
    case Undecodable(reason) =>
      if hasDecodeErrorHandler then Reception(ack, Some(DecodeErrorHandled(deliveryTag, reason)), None)
      else Reception(ack, None, Some(reason))
  }

  /** A set of consumers sharing one receive pipeline. */
  class ConsumerSet {
    const connection: Connection
    const autoAck: bool
    const hasDecodeErrorHandler: bool
    var consumers: seq<Consumer>
    /** What the pipeline handed to the receive handler or the decode-error handler, in order. */
    var dispatched: seq<Dispatch>

    constructor (connection: Connection, autoAck: bool, hasDecodeErrorHandler: bool)
      ensures this.connection == connection && this.autoAck == autoAck
      ensures this.hasDecodeErrorHandler == hasDecodeErrorHandler
      ensures consumers == [] && dispatched == []
    {
      this.connection, this.autoAck, this.hasDecodeErrorHandler := connection, autoAck, hasDecodeErrorHandler;
      consumers, dispatched := [], [];
    }

    method ReceiveCallback(message: Message) returns (r: Result<(), string>)
      requires message.connection == connection
      modifies message, connection, this`dispatched
      ensures var p := ReceivePipeline(autoAck, old(message.acknowledged), hasDecodeErrorHandler,
                                       message.deliveryTag, message.payload);
        && connection.log == old(connection.log) + (if p.ack then [Acked(message.deliveryTag)] else [])
        && dispatched == old(dispatched) + (if p.dispatch.Some? then [p.dispatch.value] else [])
        && r == (if p.raised.Some? then Err(p.raised.value) else Ok(()))
        && message.acknowledged == (old(message.acknowledged) || p.ack)
    {
      if autoAck && !message.acknowledged {
        message.Ack();
      }
      match message.payload
      case Undecodable(reason) =>
        if hasDecodeErrorHandler {
          dispatched := dispatched + [DecodeErrorHandled(message.deliveryTag, reason)];
          r := Ok(());
        } else {
          r := Err(reason);
        }
      case Decoded(data) =>
        dispatched := dispatched + [Received(data, message.deliveryTag)];
        r := Ok(());
    }

    /** Appends one consumer per queue of `queues`, each created with that queue's binding key as routing key. */
    method AddConsumers(queues: map<string, QueueOptions>)
      requires consumers == []
      modifies this`consumers, connection
      ensures OneConsumerPerQueue(consumers, queues)
      ensures connection.log == old(connection.log) + ConsumerEvents(consumers)
    {
      var added: seq<Consumer> := [];
      var remaining := queues.Keys;
      while remaining != {}
        invariant remaining <= queues.Keys
        invariant |added| + |remaining| == |queues.Keys|
        invariant forall i :: 0 <= i < |added| ==>
                    added[i].queue in queues && added[i].queue !in remaining
                    && added[i].options == ConsumerOptions(queues[added[i].queue])
        invariant forall i, j :: 0 <= i < j < |added| ==> added[i].queue != added[j].queue
        invariant forall q :: q in queues && q !in remaining ==> q in QueuesOf(added)
        invariant connection.log == old(connection.log) + ConsumerEvents(added)
        invariant consumers == added
        decreases remaining
      {
        var q :| q in remaining;
        var consumer := Consumer(q, ConsumerOptions(queues[q]));
        ConsumerAppended(added, consumer);
        connection.log := connection.log + [ConsumerDeclared(VStr(q), consumer.options)];
        added := added + [consumer];
        consumers := added;
        remaining := remaining - {q};
      }
    }

    method Close()
      modifies connection
      ensures connection.log == old(connection.log) + [ConsumerSetClosed(QueuesOf(consumers))]
    {
      connection.log := connection.log + [ConsumerSetClosed(QueuesOf(consumers))];
    }
  }

  /** The application's broker settings; `get_queues` fills in the queue options in place. */
  class Conf {
    /** CELERY_QUEUES */
    var queues: map<string, QueueOptions>
    const defaultQueue: string
    const defaultExchange: Value
    const defaultExchangeType: Value
    const defaultRoutingKey: Value
    const taskSerializer: Value

    constructor (queues: map<string, QueueOptions>, defaultQueue: string, defaultExchange: Value,
                 defaultExchangeType: Value, defaultRoutingKey: Value, taskSerializer: Value)
      ensures this.queues == queues && this.defaultQueue == defaultQueue
      ensures this.defaultExchange == defaultExchange && this.defaultExchangeType == defaultExchangeType
      ensures this.defaultRoutingKey == defaultRoutingKey && this.taskSerializer == taskSerializer
    {
      this.queues, this.defaultQueue := queues, defaultQueue;
      this.defaultExchange, this.defaultExchangeType := defaultExchange, defaultExchangeType;
      this.defaultRoutingKey, this.taskSerializer := defaultRoutingKey, taskSerializer;
    }

    function Resolved(): map<string, QueueOptions>
      reads this
    {
      ResolvedQueues(queues, defaultExchange, defaultExchangeType)
    }
  }

  /** The broker-facing part of the application. */
  class AMQP {
    const conf: Conf
    const globals: AmqpGlobals

    constructor (conf: Conf, globals: AmqpGlobals)
      ensures this.conf == conf && this.globals == globals
    {
      this.conf, this.globals := conf, globals;
    }

    /** `get_queues`: fills in every queue's defaults, in the configuration itself too. */
    method GetQueues() returns (r: map<string, QueueOptions>)
      modifies conf`queues
      ensures r == old(conf.Resolved()) && conf.queues == r
    {
      r := ResolvedQueues(conf.queues, conf.defaultExchange, conf.defaultExchangeType);
      conf.queues := r;
    }

    /** `get_default_queue`: the default queue's name and resolved options; KeyError when it is not configured. */
    method GetDefaultQueue() returns (r: Result<(string, QueueOptions), string>)
      modifies conf`queues
      ensures conf.queues == old(conf.Resolved())
      ensures conf.defaultQueue in conf.queues ==> r == Ok((conf.defaultQueue, conf.queues[conf.defaultQueue]))
      ensures conf.defaultQueue !in conf.queues ==> r == Err("KeyError")
    {
      var queues := GetQueues();
      if conf.defaultQueue in queues {
        r := Ok((conf.defaultQueue, queues[conf.defaultQueue]));
      } else {
        r := Err("KeyError");
      }
    }

    /**
     * `TaskConsumer`: a consumer of the default queue, created on `connection`
     * with the queue name, the queue's options with the binding key as routing
     * key, then the caller's options on top. Returns the options it was created
     * with; KeyError, creating nothing, when there is no default queue.
     */
    method TaskConsumer(connection: Connection, options: map<string, Value>) returns (r: Result<map<string, Value>, string>)
      modifies conf`queues, connection
      ensures conf.queues == old(conf.Resolved())
      ensures r.Err? <==> conf.defaultQueue !in conf.queues
      ensures r.Err? ==> connection.log == old(connection.log)
      ensures r.Ok? ==>
        && r.value == Merge(ConsumerOptions(map["queue" := VStr(conf.defaultQueue)] + conf.queues[conf.defaultQueue]), options)
        && connection.log == old(connection.log) + [ConsumerDeclared(Get(r.value, "queue"), r.value - {"queue"})]
    {
      var dq := GetDefaultQueue();
      if dq.Err? {
        return Err(dq.error);
      }
      var (name, queue) := dq.value;
      var defaults := ConsumerOptions(map["queue" := VStr(name)] + queue);
      var settings := Merge(defaults, options);
      connection.log := connection.log + [ConsumerDeclared(Get(settings, "queue"), settings - {"queue"})];
      r := Ok(settings);
    }

    /**
     * `get_consumer_set`: one consumer per queue (the given queues, or all
     * configured ones when none are given), each created with its queue's
     * binding key as routing key.
     */
    method GetConsumerSet(connection: Connection, queues: Option<map<string, QueueOptions>>) returns (cset: ConsumerSet)
      modifies conf`queues, connection
      ensures fresh(cset) && cset.connection == connection && !cset.autoAck && !cset.hasDecodeErrorHandler
      ensures cset.dispatched == []
      ensures queues.Some? && queues.value != map[] ==> conf.queues == old(conf.queues)
      ensures queues.None? || queues.value == map[] ==> conf.queues == old(conf.Resolved())
      ensures OneConsumerPerQueue(cset.consumers,
                                  if queues.Some? && queues.value != map[] then queues.value else conf.queues)
      ensures connection.log == old(connection.log) + ConsumerEvents(cset.consumers)
    {
      var qs: map<string, QueueOptions>;
      if queues.Some? && queues.value != map[] {
        qs := queues.value;
      } else {
        qs := GetQueues();
      }
      cset := new ConsumerSet(connection, false, false);
      cset.AddConsumers(qs);
    }

    /** The first time in the process, opens and closes a consumer set over every configured queue. */
    method DeclareQueuesOnce(connection: Connection) returns (ghost openedSet: seq<Consumer>)
      requires conf.queues == conf.Resolved()
      modifies conf`queues, globals`queuesDeclared, connection
      ensures conf.queues == old(conf.queues) && globals.queuesDeclared
      ensures old(globals.queuesDeclared) ==> openedSet == [] && connection.log == old(connection.log)
      ensures !old(globals.queuesDeclared) ==>
                OneConsumerPerQueue(openedSet, conf.queues)
                && connection.log == old(connection.log) + ConsumerEvents(openedSet) + [ConsumerSetClosed(QueuesOf(openedSet))]
    {
      openedSet := [];
      if !globals.queuesDeclared {
        var consumers := GetConsumerSet(connection, None);
        consumers.Close();
        openedSet := consumers.consumers;
        globals.queuesDeclared := true;
      }
    }

    /**
     * `TaskPublisher`: a publisher for the default queue's exchange. The first
     * call in the process also opens and closes a consumer set over every
     * configured queue so that all queues exist; every call then declares the
     * publisher's exchange (once per process).
     */
    method TaskPublisher(connection: Connection, options: map<string, Value>)
      returns (r: Result<TaskPublisher, string>, ghost openedSet: seq<Consumer>)
      modifies conf`queues, globals, connection
      ensures conf.queues == old(conf.Resolved())
      ensures r.Err? <==> conf.defaultQueue !in conf.queues
      ensures r.Err? ==> (connection.log == old(connection.log)
                          && globals.queuesDeclared == old(globals.queuesDeclared)
                          && globals.exchangesDeclared == old(globals.exchangesDeclared))
      ensures r.Ok? ==>
        var p := r.value;
        var dq := conf.queues[conf.defaultQueue];
        var settings := Merge(map["exchange" := dq["exchange"], "exchange_type" := dq["exchange_type"],
                                  "routing_key" := conf.defaultRoutingKey, "serializer" := conf.taskSerializer], options);
        var declared := DeclareOnce(old(globals.exchangesDeclared), p.exchange, p.exchangeType);
        && fresh(p) && p.connection == connection && p.globals == globals
        && p.exchange == settings["exchange"] && p.exchangeType == settings["exchange_type"]
        && p.routingKey == settings["routing_key"] && p.serializer == settings["serializer"]
        && globals.queuesDeclared
        && globals.exchangesDeclared == declared.memo
        && (old(globals.queuesDeclared) ==> openedSet == [] && connection.log == old(connection.log) + declared.events)
        && (!old(globals.queuesDeclared) ==>
              OneConsumerPerQueue(openedSet, conf.queues)
              && connection.log == old(connection.log) + ConsumerEvents(openedSet)
                                   + [ConsumerSetClosed(QueuesOf(openedSet))] + declared.events)
    {
      openedSet := [];
      var dq := GetDefaultQueue();
      if dq.Err? {
        return Err(dq.error), openedSet;
      }
      var queue := dq.value.1;
      var settings := Merge(map["exchange" := queue["exchange"], "exchange_type" := queue["exchange_type"],
                                "routing_key" := conf.defaultRoutingKey, "serializer" := conf.taskSerializer], options);
      var publisher := new TaskPublisher(connection, globals, settings);
      ResolvedQueuesIdempotent(old(conf.queues), conf.defaultExchange, conf.defaultExchangeType);
      openedSet := DeclareQueuesOnce(connection);
      publisher.Declare();
      r := Ok(publisher);
    }
  }
}
