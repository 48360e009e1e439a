/**
 * The queue consumer (CreditEngineWorker/Services/RabbitMQService.cs): its connection
 * and channel flags, its start and stop sequences, and the ack or nack it gives each
 * delivery. Calls into the broker client are recorded in a log of operations; whether
 * such a call throws is an input.
 */
module RabbitMQ {
  import opened Wrappers
  import opened QueueMessages
  import opened Api
  import CreditEngine

  /** A delivery handed to the consumer callback: its tag and its raw body. */
  datatype Delivery = Delivery(deliveryTag: nat, body: seq<bv8>)

  /**
   * What UTF-8 decoding followed by `JsonSerializer.Deserialize<QueueMessage>` makes
   * of a body: a literal JSON `null`, a message, or an exception (any body that is
   * not JSON, or JSON of the wrong shape).
   */
  datatype Decoded = JsonNull | Message(request: RequestView) | Malformed(reason: string)

  /** One completed call into the broker client. */
  datatype BrokerOp =
    | CreateConnection
    | CreateModel
    | QueueDeclare(queue: string, durable: bool, exclusive: bool, autoDelete: bool)
    | BasicConsume(queue: string, autoAck: bool)
    | BasicAck(deliveryTag: nat, multiple: bool)
    | BasicNack(deliveryTag: nat, multiple: bool, requeue: bool)
    | CloseChannel
    | CloseConnection
    | DisposeChannel
    | DisposeConnection

  /** The broker's view of a connection or a channel. */
  datatype Handle = Handle(isOpen: bool, disposed: bool)

  const OpenHandle := Handle(true, false)

  /** `h?.IsOpen == true`. */
  predicate IsOpen(h: Option<Handle>)
  {
    h.Some? && h.value.isOpen
  }

  /** A handle after `Close()`. */
  function Closed(h: Option<Handle>): (c: Option<Handle>)
    ensures c.Some? <==> h.Some?
    ensures c.Some? ==> !c.value.isOpen && c.value.disposed == h.value.disposed
  {
    if h.Some? then Some(h.value.(isOpen := false)) else None
  }

  /** A handle after `Close()` then `Dispose()`. */
  function Retired(h: Option<Handle>): (c: Option<Handle>)
    ensures c.Some? <==> h.Some?
    ensures c.Some? ==> !c.value.isOpen && c.value.disposed
  {
    if h.Some? then Some(Handle(false, true)) else None
  }

  /** The ack or nack for one delivery and the gateway calls made while handling it, in order. */
  datatype Handling = Handling(settlement: BrokerOp, calls: seq<ApiCall>)

  /**
   * `ProcessMessageAsync` on one delivery. A JSON `null` is acked unprocessed. A
   * message is processed, the processed request is persisted, and the delivery is
   * acked, even when persisting gives nothing back. Any exception on the way (a body
   * that does not deserialize, a processor that throws, a persist that throws) gives
   * a nack that never asks for redelivery. Both use the delivery's own tag and never
   * settle several deliveries at once.
   */
  function HandleDelivery(d: Delivery, decode: seq<bv8> -> Decoded, api: ApiService, now: Instant): (h: Handling)
    ensures h.settlement.BasicAck? || h.settlement.BasicNack?
    ensures h.settlement.deliveryTag == d.deliveryTag && !h.settlement.multiple
    ensures h.settlement.BasicNack? ==> !h.settlement.requeue
    ensures h.settlement.BasicAck? <==>
              || decode(d.body).JsonNull?
              || (&& decode(d.body).Message?
                  && decode(d.body).request.creditEngineStatus.Some?
                  && !api.updateCreditEngineStatus(CreditEngine.ProcessOutcome(decode(d.body).request, api, now).value).Fault?)
    ensures !decode(d.body).Message? ==> h.calls == []
    ensures decode(d.body).Malformed? ==> h.settlement.BasicNack?
    ensures decode(d.body).Message? && decode(d.body).request.creditEngineStatus.None? ==> h.calls == []
    ensures decode(d.body).Message? && decode(d.body).request.creditEngineStatus.Some? ==>
              var r := decode(d.body).request;
              h.calls == CreditEngine.Pipeline(r, api).calls
                         + [UpdateCreditEngineStatus(CreditEngine.ProcessOutcome(r, api, now).value)]
  {
    var ack := BasicAck(d.deliveryTag, false);
    var nack := BasicNack(d.deliveryTag, false, false);
    match decode(d.body)
    case JsonNull => Handling(ack, [])
    case Malformed(_) => Handling(nack, [])
    case Message(r) =>
      match CreditEngine.ProcessOutcome(r, api, now)
      case Failure(_) => Handling(nack, CreditEngine.CallsMade(r, api))
      case Success(processed) =>
        var calls := CreditEngine.CallsMade(r, api) + [UpdateCreditEngineStatus(processed)];
        if api.updateCreditEngineStatus(processed).Fault? then Handling(nack, calls) else Handling(ack, calls)
  }

  /**
   * The settlements of a stream of deliveries, one callback after another: exactly one
   * per delivery, in delivery order, each with that delivery's tag, none requeued.
   */
  function Settlements(ds: seq<Delivery>, decode: seq<bv8> -> Decoded, api: ApiService, now: Instant): (s: seq<BrokerOp>)
    ensures |s| == |ds|
    ensures forall i | 0 <= i < |ds| :: (s[i].BasicAck? || s[i].BasicNack?) && s[i].deliveryTag == ds[i].deliveryTag && !s[i].multiple
    ensures forall i | 0 <= i < |ds| :: s[i].BasicNack? ==> !s[i].requeue
  {
    if ds == [] then []
    else Settlements(ds[..|ds| - 1], decode, api, now) + [HandleDelivery(ds[|ds| - 1], decode, api, now).settlement]
  }

  /** The steps of `StartConsumingAsync` that can throw. */
  datatype StartStep = Connect | OpenChannel | DeclareQueue | Consume

  /** The broker calls of a start that completes, in order: consumption is registered last, with manual acknowledgment. */
  function StartSequence(queue: string): (ops: seq<BrokerOp>)
    ensures |ops| == 4 && ops[3] == BasicConsume(queue, false)
  {
    [CreateConnection, CreateModel, QueueDeclare(queue, true, false, false), BasicConsume(queue, false)]
  }

  /** How many broker calls of the start sequence complete before the failing one. */
  function StepsDone(failsAt: Option<StartStep>): (n: nat)
    ensures n <= 4
    ensures n == 4 <==> failsAt.None?
  {
    match failsAt
    case None => 4
    case Some(Connect) => 0
    case Some(OpenChannel) => 1
    case Some(DeclareQueue) => 2
    case Some(Consume) => 3
  }

  class RabbitMQService {
    const queue: string
    var connection: Option<Handle>
    var channel: Option<Handle>
    /** Whether `_consumer` has been assigned. */
    var consumer: bool
    var disposed: bool
    /** The completed broker calls, oldest first. */
    var ops: seq<BrokerOp>

    constructor (queue: string)
      ensures this.queue == queue
      ensures connection.None? && channel.None? && !consumer && !disposed && ops == []
    {
      this.queue := queue;
      connection, channel := None, None;
      consumer, disposed := false, false;
      ops := [];
    }

    /** `IsConnectedAsync`: both the connection and the channel exist and are open. */
    predicate IsConnected()
      reads this
      ensures IsConnected() ==> connection.Some? && channel.Some?
    {
      IsOpen(connection) && IsOpen(channel)
    }

    /** `_channel?.X(...)`: the call reaches the broker only when there is a channel. */
    method OnChannel(op: BrokerOp)
      modifies this`ops
      ensures ops == old(ops) + (if channel.Some? then [op] else [])
    {
      if channel.Some? {
        ops := ops + [op];
      }
    }

    /**
     * `StartConsumingAsync`: connect, open a channel, declare the queue, create the
     * consumer and register it. A step that throws ends the start and the exception
     * reaches the caller (`ok` is false); the steps before it have taken effect.
     */
    method StartConsuming(failsAt: Option<StartStep>) returns (ok: bool)
      modifies this
      ensures ok <==> failsAt.None?
      ensures ops == old(ops) + StartSequence(queue)[..StepsDone(failsAt)]
      ensures connection == (if StepsDone(failsAt) >= 1 then Some(OpenHandle) else old(connection))
      ensures channel == (if StepsDone(failsAt) >= 2 then Some(OpenHandle) else old(channel))
      ensures consumer == (StepsDone(failsAt) >= 3 || old(consumer))
      ensures disposed == old(disposed)
      ensures ok ==> IsConnected() && consumer
    {
      ok := false;
      var done := StepsDone(failsAt);
      var steps := StartSequence(queue);
      // ConnectAsync
      if done == 0 {
        return;
      }
      connection := Some(OpenHandle);
      ops := ops + [CreateConnection];
      if done == 1 {
        assert steps[..1] == [CreateConnection];
        return;
      }
      channel := Some(OpenHandle);
      ops := ops + [CreateModel];
      // SetupQueueAsync
      if done == 2 {
        assert steps[..2] == [CreateConnection, CreateModel];
        return;
      }
      ops := ops + [QueueDeclare(queue, true, false, false)];
      // StartConsumerAsync: the consumer object is assigned before it is registered
      consumer := true;
      if done == 3 {
        assert steps[..3] == [CreateConnection, CreateModel, QueueDeclare(queue, true, false, false)];
        return;
      }
      ops := ops + [BasicConsume(queue, false)];
      ok := true;
    }

    /**
     * `StopConsumingAsync`: close the channel if it is open, then the connection if it
     * is open. A close that throws is logged and ends the stop; nothing reaches the
     * caller.
     */
    method StopConsuming(channelCloseFails: bool, connectionCloseFails: bool)
      modifies this
      ensures var closeChannel := IsOpen(old(channel)) && !channelCloseFails;
              var closeConnection := !(IsOpen(old(channel)) && channelCloseFails) && IsOpen(old(connection)) && !connectionCloseFails;
              && channel == (if closeChannel then Closed(old(channel)) else old(channel))
              && connection == (if closeConnection then Closed(old(connection)) else old(connection))
              && ops == old(ops) + (if closeChannel then [CloseChannel] else []) + (if closeConnection then [CloseConnection] else [])
      ensures consumer == old(consumer) && disposed == old(disposed)
      ensures !channelCloseFails && !connectionCloseFails ==> !IsConnected()
    {
      if IsOpen(channel) {
        if channelCloseFails {
          return;
        }
        channel := Closed(channel);
        ops := ops + [CloseChannel];
      }
      if IsOpen(connection) {
        if connectionCloseFails {
          return;
        }
        connection := Closed(connection);
        ops := ops + [CloseConnection];
      }
    }

    /**
     * `ProcessMessageAsync`: settles the delivery on the channel as `HandleDelivery`
     * decides, after making the gateway calls it lists; the connection flags do not
     * change.
     */
    method ProcessMessage(delivery: Delivery, decode: seq<bv8> -> Decoded, api: ApiService, now: Instant) returns (calls: seq<ApiCall>)
      modifies this
      ensures var h := HandleDelivery(delivery, decode, api, now);
              calls == h.calls && ops == old(ops) + (if channel.Some? then [h.settlement] else [])
      ensures connection == old(connection) && channel == old(channel)
      ensures consumer == old(consumer) && disposed == old(disposed)
    {
      var tag := delivery.deliveryTag;
      calls := [];
      var decoded := decode(delivery.body);
      if decoded.Malformed? {
        OnChannel(BasicNack(tag, false, false));
      } else if decoded.JsonNull? {
        OnChannel(BasicAck(tag, false));
      } else {
        var message := new QueueMessage.FromView(decoded.request);
        var response, processCalls := CreditEngine.ProcessCreditRequest(message, api, now);
        calls := processCalls;
        if response.Failure? {
          OnChannel(BasicNack(tag, false, false));
          return;
        }
        var processed := response.value.View();
        var persisted := api.updateCreditEngineStatus(processed);
        calls := calls + [UpdateCreditEngineStatus(processed)];
        if persisted.Fault? {
          OnChannel(BasicNack(tag, false, false));
        } else {
          OnChannel(BasicAck(tag, false));
        }
      }
    }

    /**
     * `Dispose`: the first call that returns closes and disposes the channel and the
     * connection that exist and marks the service disposed; every later call changes
     * nothing. A close that throws escapes before the service is marked disposed.
     */
    method Dispose(channelCloseFails: bool, connectionCloseFails: bool) returns (threw: bool)
      modifies this
      ensures old(disposed) ==> !threw && unchanged(this)
      ensures threw <==> !old(disposed) && ((old(channel).Some? && channelCloseFails) || (old(connection).Some? && connectionCloseFails))
      ensures consumer == old(consumer)
      ensures threw ==> !disposed
      ensures threw && old(channel).Some? && channelCloseFails ==> unchanged(this)
      ensures threw && !(old(channel).Some? && channelCloseFails) ==>
                && channel == Closed(old(channel)) && connection == old(connection)
                && ops == old(ops) + (if old(channel).Some? then [CloseChannel] else [])
      ensures !threw ==> disposed
      ensures !old(disposed) && !threw ==> !IsConnected()
      ensures !old(disposed) && !threw ==>
                && channel == Retired(old(channel)) && connection == Retired(old(connection))
                && ops == old(ops) + (if old(channel).Some? then [CloseChannel] else [])
                                   + (if old(connection).Some? then [CloseConnection] else [])
                                   + (if old(channel).Some? then [DisposeChannel] else [])
                                   + (if old(connection).Some? then [DisposeConnection] else [])
    {
      threw := false;
      if !disposed {
        if channel.Some? {
          if channelCloseFails {
            threw := true;
            return;
          }
          channel := Closed(channel);
          ops := ops + [CloseChannel];
        }
        if connection.Some? {
          if connectionCloseFails {
            threw := true;
            return;
          }
          connection := Closed(connection);
          ops := ops + [CloseConnection];
        }
        if channel.Some? {
          channel := Some(channel.value.(disposed := true));
          ops := ops + [DisposeChannel];
        }
        if connection.Some? {
          connection := Some(connection.value.(disposed := true));
          ops := ops + [DisposeConnection];
        }
        disposed := true;
      }
    }
  }
}
