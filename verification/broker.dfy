/**
 * The message broker as the core sees it. Every call the core makes into the
 * broker client (declaring, publishing, acknowledging, rejecting) is recorded
 * as an event appended to the connection's log; the wire protocol itself is
 * not modelled.
 */
module Broker {
  import opened Python

  datatype Event =
      /** An exchange declared on the broker. */
    | ExchangeDeclared(exchange: Value, exchangeType: Value)
      /** A consumer created for `queue` with its other options; creating a consumer declares its queue and binding. */
    | ConsumerDeclared(queue: Value, options: map<string, Value>)
      /** A consumer set closed; `queues` are the queues of its consumers, in order. */
    | ConsumerSetClosed(queues: seq<string>)
      /** An envelope sent to `exchange` with the given message options. */
    | Published(body: map<string, Value>, exchange: Value, exchangeType: Value, options: map<string, Value>)
      /** The `task_sent` signal, carrying the envelope that was sent. */
    | TaskSent(sender: string, body: map<string, Value>)
    | Acked(deliveryTag: nat)
    | Rejected(deliveryTag: nat)

  /** A broker connection: the log of everything done through it. */
  class Connection {
    var log: seq<Event>

    constructor ()
      ensures log == []
    {
      log := [];
    }
  }

  /** What decoding a message body gives: the decoded value, or the reason decoding failed. */
  datatype Payload = Decoded(data: Value) | Undecodable(reason: string)

  /** A message received from the broker. */
  class Message {
    const deliveryTag: nat
    const payload: Payload
    const connection: Connection
    var acknowledged: bool

    constructor (tag: nat, payload: Payload, connection: Connection)
      ensures deliveryTag == tag && this.payload == payload && this.connection == connection
      ensures !acknowledged
    {
      deliveryTag, this.payload, this.connection := tag, payload, connection;
      acknowledged := false;
    }

    method Ack()
      modifies this, connection
      ensures acknowledged
      ensures connection.log == old(connection.log) + [Acked(deliveryTag)]
    {
      connection.log := connection.log + [Acked(deliveryTag)];
      acknowledged := true;
    }

    method Reject()
      modifies this, connection
      ensures acknowledged
      ensures connection.log == old(connection.log) + [Rejected(deliveryTag)]
    {
      connection.log := connection.log + [Rejected(deliveryTag)];
      acknowledged := true;
    }
  }
}
