/**
  The self-healing channel holder `Amqpx` of amqpd.go over an abstract broker.

  The process-wide `Connection` variable is a `Transport` object; whether
  `Init` and `Connection.Channel()` succeed is decided by the environment and
  passed in as a flag, and so is every broker reply. Every broker call an
  instance makes is appended to its `log`, so the fixed flag arguments of the
  pass-through operations and the order of the channel replacement steps are
  part of the state that the contracts describe.
 */
module Amqpd {
  import opened Options

  newtype byte = x: int | 0 <= x < 256

  type Body = seq<byte>

  /** One inbound message: its delivery tag and its payload. */
  datatype Delivery = Delivery(tag: nat, body: Body)

  datatype Publishing = Publishing(contentType: string, body: Body)

  /** What `QueueDeclare` reports about a queue. */
  datatype QueueInfo = QueueInfo(name: string, messages: nat, consumers: nat)

  /** A call made on the broker, with the flag arguments it was given. */
  datatype Call =
    | InitCall
    | OpenChannelCall
    | CloseCall(ch: Channel)
    | ExchangeDeclareCall(ch: Channel, name: string, kind: string,
                          durable: bool, autoDelete: bool, internal: bool, noWait: bool)
    | QueueDeclareCall(ch: Channel, name: string,
                       durable: bool, autoDelete: bool, exclusive: bool, noWait: bool)
    | QueueBindCall(ch: Channel, name: string, key: string, exchange: string, noWait: bool)
    | PublishCall(ch: Channel, exchange: string, key: string,
                  mandatory: bool, immediate: bool, msg: Publishing)
    | ConsumeCall(ch: Channel, queue: string, consumer: string,
                  autoAck: bool, exclusive: bool, noLocal: bool, noWait: bool)
    | CancelCall(ch: Channel, consumer: string, noWait: bool)
    | AckCall(tag: nat, multiple: bool)
    | RejectCall(tag: nat, requeue: bool)

  /** The flags the client always sends: durable declarations, manual acknowledgement,
      plain-text publishing, one-at-a-time acknowledgement and rejection with requeue. */
  predicate FixedFlags(c: Call) {
    match c
    case ExchangeDeclareCall(_, _, _, durable, autoDelete, internal, noWait) =>
      durable && !autoDelete && !internal && !noWait
    case QueueDeclareCall(_, _, durable, autoDelete, exclusive, noWait) =>
      durable && !autoDelete && !exclusive && !noWait
    case QueueBindCall(_, _, _, _, noWait) => !noWait
    case PublishCall(_, _, _, mandatory, immediate, msg) =>
      !mandatory && !immediate && msg.contentType == "text/plain"
    case ConsumeCall(_, _, _, autoAck, exclusive, noLocal, noWait) =>
      !autoAck && !exclusive && !noLocal && !noWait
    case CancelCall(_, _, noWait) => !noWait
    case AckCall(_, multiple) => !multiple
    case RejectCall(_, requeue) => requeue
    case _ => true
  }

  /** Every call of `log` carries the fixed flags. */
  ghost predicate AllFixed(log: seq<Call>) {
    forall i :: 0 <= i < |log| ==> FixedFlags(log[i])
  }

  /** A shared broker connection. */
  class Connection {
    var closed: bool

    constructor ()
      ensures !closed
    {
      closed := false;
    }

    /** `Connection.Channel()`: a fresh open channel, or an error. */
    method Channel(ok: bool) returns (ch: Channel?)
      ensures ok ==> ch != null && fresh(ch) && !ch.closed
      ensures !ok ==> ch == null
    {
      if ok {
        ch := new Channel();
      } else {
        ch := null;
      }
    }
  }

  /** A broker channel; it is closed by `Close` or by the broker. */
  class Channel {
    var closed: bool

    constructor ()
      ensures !closed
    {
      closed := false;
    }

    method Close()
      modifies this
      ensures closed
    {
      closed := true;
    }
  }

  /** The process-wide `Connection` variable. */
  class Transport {
    var conn: Connection?

    constructor (conn: Connection?)
      ensures this.conn == conn
    {
      this.conn := conn;
    }

    predicate Live()
      reads this, conn
    {
      conn != null && !conn.closed
    }

    /** `Init`: on success a fresh open connection; on failure the variable is left alone. */
    method Init(ok: bool) returns (err: bool)
      modifies this
      ensures err == !ok
      ensures ok ==> Live() && fresh(conn)
      ensures !ok ==> conn == old(conn)
    {
      if ok {
        conn := new Connection();
      }
      err := !ok;
    }
  }

  datatype CloseOutcome = Closed(err: bool) | Blocked

  class Amqpx {
    var channel: Channel?
    /** The `redial` task is alive and will receive on `stop`. */
    var redialing: bool
    /** The broker calls this instance has made, oldest first. */
    var log: seq<Call>
    /** Every channel this instance has owned. */
    ghost var owned: set<Channel>

    /** No channel this instance owned is open except the current one. */
    ghost predicate Valid()
      reads this, owned
    {
      && (channel != null ==> channel in owned)
      && (forall c :: c in owned && c != channel ==> c.closed)
    }

    /** A constructed instance: valid and holding a channel. */
    ghost predicate Ready()
      reads this, owned
    {
      Valid() && channel != null
    }

    /** The channels of this instance that are open: at most one, the current channel. */
    ghost function OpenChannels(): (s: set<Channel>)
      reads this, owned
      requires Valid()
      ensures |s| <= 1
      ensures s != {} ==> s == {channel}
    {
      var s := set c | c in owned && !c.closed;
      assert channel != null && !channel.closed ==> s == {channel};
      assert channel == null || channel.closed ==> s == {};
      s
    }

    constructor ()
      ensures Valid() && channel == null && !redialing && log == [] && owned == {}
    {
      channel := null;
      redialing := false;
      log := [];
      owned := {};
    }

    /** `New`: an instance holding a freshly owned channel, with its `redial` task started,
        or no instance when `initChannel` fails. */
    static method New(t: Transport, initOk: bool, openOk: bool) returns (ad: Amqpx?)
      modifies t
      ensures ad == null <==> !((old(t.Live()) || initOk) && openOk)
      ensures old(t.Live()) || initOk ==> t.Live()
      ensures old(t.Live()) ==> t.conn == old(t.conn)
      ensures ad != null ==> fresh(ad) && ad.Ready() && ad.redialing
      ensures ad != null ==> fresh(ad.channel) && !ad.channel.closed && ad.owned == {ad.channel}
    {
      ad := new Amqpx();
      var err := ad.InitChannel(t, initOk, openOk);
      if err {
        return null;
      }
      ad.redialing := true;
    }

    /** `initChannel`: re-initialise the shared connection when it is absent or closed,
        close a still-open previous channel, then open a new one; the channel field
        changes only when the open succeeds. */
    method InitChannel(t: Transport, initOk: bool, openOk: bool) returns (err: bool)
      requires Valid()
      modifies this`channel, this`owned, this`log, t, channel
      ensures Valid()
      ensures var reached := old(t.Live()) || initOk;
        && (reached ==> t.Live())
        && (old(t.Live()) ==> t.conn == old(t.conn))
        && (!old(t.Live()) && initOk ==> fresh(t.conn))
        && (!reached ==> t.conn == old(t.conn))
        && (err <==> !reached || !openOk)
        && (reached && old(channel) != null ==> old(channel).closed)
        && log == old(log)
                  + (if old(t.Live()) then [] else [InitCall])
                  + (if reached && old(channel != null && !channel.closed) then [CloseCall(old(channel))] else [])
                  + (if reached then [OpenChannelCall] else [])
      ensures err ==> channel == old(channel) && owned == old(owned)
      ensures !old(t.Live()) && !initOk && channel != null ==> channel.closed == old(channel.closed)
      ensures !err ==> channel != null && fresh(channel) && !channel.closed
      ensures !err ==> owned == old(owned) + {channel}
    {
      if t.conn == null || t.conn.closed {
        log := log + [InitCall];
        var initErr := t.Init(initOk);
        if initErr {
          return true;
        }
      }
      if channel != null && !channel.closed {
        log := log + [CloseCall(channel)];
        channel.Close();
      }
      log := log + [OpenChannelCall];
      var ch := t.conn.Channel(openOk);
      if ch == null {
        return true;
      }
      channel := ch;
      owned := owned + {ch};
      err := false;
    }

    /** Record the acknowledgement or rejection of a delivery received on this client's channel. */
    method Dispose(c: Call)
      requires Ready() && (c.AckCall? || c.RejectCall?)
      modifies this`log
      ensures Ready()
      ensures log == old(log) + [c]
    {
      log := log + [c];
    }

    /** `Cancel`: stop deliveries to a consumer, waiting for the broker's confirmation. */
    method Cancel(consumer: string, brokerErr: bool) returns (err: bool)
      requires Ready()
      modifies this`log
      ensures Ready()
      ensures log == old(log) + [CancelCall(channel, consumer, false)]
      ensures err == brokerErr
    {
      log := log + [CancelCall(channel, consumer, false)];
      err := brokerErr;
    }

    /** `Close`: signal the `redial` task to stop, then close the channel. The signal is an
        unbuffered send, so once the task has stopped a further `Close` never returns. */
    method Close(brokerErr: bool) returns (r: CloseOutcome)
      requires Ready()
      modifies this`redialing, this`log, channel
      ensures Ready()
      ensures r == if old(redialing) then Closed(brokerErr) else Blocked
      ensures old(redialing) ==> !redialing && channel.closed && log == old(log) + [CloseCall(channel)]
      ensures !old(redialing) ==> !redialing && channel.closed == old(channel.closed) && log == old(log)
    {
      if !redialing {
        return Blocked;
      }
      redialing := false;
      log := log + [CloseCall(channel)];
      channel.Close();
      r := Closed(brokerErr);
    }

    /** `ExchangeDeclare`: always durable, not auto-deleted, not internal, waiting for the broker. */
    method ExchangeDeclare(name: string, kind: string, brokerErr: bool) returns (err: bool)
      requires Ready()
      modifies this`log
      ensures Ready()
      ensures log == old(log) + [ExchangeDeclareCall(channel, name, kind, true, false, false, false)]
      ensures err == brokerErr
    {
      log := log + [ExchangeDeclareCall(channel, name, kind, true, false, false, false)];
      err := brokerErr;
    }

    /** `Publish`: never mandatory nor immediate, content type "text/plain", body unchanged. */
    method Publish(exchange: string, key: string, body: Body, brokerErr: bool) returns (err: bool)
      requires Ready()
      modifies this`log
      ensures Ready()
      ensures log == old(log) + [PublishCall(channel, exchange, key, false, false, Publishing("text/plain", body))]
      ensures err == brokerErr
    {
      log := log + [PublishCall(channel, exchange, key, false, false, Publishing("text/plain", body))];
      err := brokerErr;
    }

    /** `QueueDeclare`: always durable, not auto-deleted, not exclusive, waiting for the broker. */
    method QueueDeclare(name: string, reply: Option<QueueInfo>) returns (r: Option<QueueInfo>)
      requires Ready()
      modifies this`log
      ensures Ready()
      ensures log == old(log) + [QueueDeclareCall(channel, name, true, false, false, false)]
      ensures r == reply
    {
      log := log + [QueueDeclareCall(channel, name, true, false, false, false)];
      r := reply;
    }

    /** `QueueBind`: waiting for the broker. */
    method QueueBind(name: string, key: string, exchange: string, brokerErr: bool) returns (err: bool)
      requires Ready()
      modifies this`log
      ensures Ready()
      ensures log == old(log) + [QueueBindCall(channel, name, key, exchange, false)]
      ensures err == brokerErr
    {
      log := log + [QueueBindCall(channel, name, key, exchange, false)];
      err := brokerErr;
    }

    /** `Consume`: always manual acknowledgement, not exclusive, not local-only, waiting. */
    method Consume(queue: string, consumer: string, reply: Option<seq<Delivery>>)
      returns (r: Option<seq<Delivery>>)
      requires Ready()
      modifies this`log
      ensures Ready()
      ensures log == old(log) + [ConsumeCall(channel, queue, consumer, false, false, false, false)]
      ensures r == reply
    {
      log := log + [ConsumeCall(channel, queue, consumer, false, false, false, false)];
      r := reply;
    }
  }
}
