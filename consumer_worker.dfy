/**
 * The `ConsumerWorker` background service (ConsumerWorker.cs): it opens a
 * connection and a channel to the local RabbitMQ broker, declares the queue
 * `hello`, consumes it with manual acknowledgement, runs the `Received`
 * handler on each delivery, and tears the channel and the connection down in
 * `Dispose`. The client objects are reduced to their open/closed state, the
 * broker to the state of module `Broker`, and the calls the worker makes are
 * recorded, in order, in `ops`.
 */
module Consumer {
  import opened Wrappers
  import opened Envelope
  import opened Broker
  import opened AckPolicy

  const QueueName: string := "hello"
  const HostName: string := "127.0.0.1"
  const Port: nat := 5672

  /** A field holding a client object: never assigned, or an object that is open or closed. */
  datatype Handle = Null | Open | Closed

  /** The guarded steps of `Dispose`, in the order the source lists them. */
  datatype TeardownStep = DeleteQueue | CloseChannel | DisposeChannel | CloseConnection | DisposeConnection
  {
    predicate OnChannel() { DeleteQueue? || CloseChannel? || DisposeChannel? }
  }

  /** A call the worker makes on the client library. */
  datatype Op =
    | CreateConnection(host: string, port: nat)
    | CreateModel
    | QueueDeclare(queue: string, durable: bool, exclusive: bool, autoDelete: bool)
    | BasicConsume(queue: string, autoAck: bool)
    | Resolution(call: Call)
    | TeardownCall(step: TeardownStep)    // `DeleteQueue` deletes `QueueName`
    | BaseDispose

  /** Which call of `InitializeRabbitMQ` throws, if any. */
  datatype InitFailure = NoFailure | ConnectFails | ChannelFails | DeclareFails

  /** How `ExecuteAsync` ends its start-up part (everything before the endless wait). */
  datatype ExecOutcome = Listening | CancelledAtStart | ConsumeFailed

  /** The worker's connection and channel and the broker they talk to. */
  datatype Snapshot = Snapshot(connection: Handle, channel: Handle, broker: State)

  /** The calls of `InitializeRabbitMQ`, in program order. */
  function InitCalls(): (ops: seq<Op>)
    ensures |ops| == 3
  {
    [CreateConnection(HostName, Port), CreateModel, QueueDeclare(QueueName, false, false, false)]
  }

  /** How many calls of `InitializeRabbitMQ` are made: up to and including the one that throws. */
  function InitAttempts(failure: InitFailure): (n: nat)
    ensures 1 <= n <= 3
  {
    match failure
    case ConnectFails => 1
    case ChannelFails => 2
    case DeclareFails => 3
    case NoFailure => 3
  }

  /** The calls made up to each of the three points where `InitializeRabbitMQ` can stop. */
  lemma InitPrefixes()
    ensures InitCalls()[..1] == [] + [CreateConnection(HostName, Port)]
    ensures InitCalls()[..2] == [] + [CreateConnection(HostName, Port)] + [CreateModel]
    ensures InitCalls()[..3] == [] + [CreateConnection(HostName, Port)] + [CreateModel] + [QueueDeclare(QueueName, false, false, false)]
  {
  }

  /**
   * The guarded teardown steps that `Dispose` means to run: the channel steps
   * when the channel is open, then the connection steps when the connection
   * is open.
   */
  function Plan(channel: Handle, connection: Handle): (steps: seq<TeardownStep>)
    ensures |steps| == (if channel == Open then 3 else 0) + (if connection == Open then 2 else 0)
    ensures forall i :: 0 <= i < |steps| ==>
              if steps[i].OnChannel() then channel == Open else connection == Open
  {
    (if channel == Open then [DeleteQueue, CloseChannel, DisposeChannel] else [])
      + (if connection == Open then [CloseConnection, DisposeConnection] else [])
  }

  /**
   * The steps of a plan that are started: the single try block is left at
   * the first exception, so they run up to and including the step that
   * throws.
   */
  function Attempted(steps: seq<TeardownStep>, failing: Option<TeardownStep>): seq<TeardownStep>
    decreases |steps|
  {
    if steps == [] then []
    else if failing == Some(steps[0]) then [steps[0]]
    else [steps[0]] + Attempted(steps[1..], failing)
  }

  /** The started steps that take effect: those before the step that throws. */
  function Effective(steps: seq<TeardownStep>, failing: Option<TeardownStep>): seq<TeardownStep>
    decreases |steps|
  {
    if steps == [] then []
    else if failing == Some(steps[0]) then []
    else [steps[0]] + Effective(steps[1..], failing)
  }

  /**
   * The started steps are a prefix of the plan: all of it when no step of
   * the plan throws, and otherwise the steps up to the throwing one, which
   * is started once, last.
   */
  lemma {:induction false} AttemptedStopsAtFailure(steps: seq<TeardownStep>, failing: Option<TeardownStep>)
    ensures var a := Attempted(steps, failing);
      && a <= steps
      && (failing.None? || failing.value !in steps ==> a == steps)
      && (failing.Some? && failing.value in steps ==>
            a != [] && a[|a| - 1] == failing.value && failing.value !in a[..|a| - 1])
    decreases |steps|
  {
    if steps != [] && failing != Some(steps[0]) {
      var rest := Attempted(steps[1..], failing);
      AttemptedStopsAtFailure(steps[1..], failing);
      assert steps == [steps[0]] + steps[1..];
      if failing.Some? && failing.value in steps {
        assert failing.value in steps[1..];
        assert ([steps[0]] + rest)[..|rest|] == [steps[0]] + rest[..|rest| - 1];
      }
    }
  }

  /** The steps that take effect are the started ones less the one that throws. */
  lemma {:induction false} EffectiveBeforeFailure(steps: seq<TeardownStep>, failing: Option<TeardownStep>)
    ensures failing.None? || failing.value !in steps ==> Effective(steps, failing) == Attempted(steps, failing)
    ensures failing.Some? && failing.value in steps ==>
              Effective(steps, failing) + [failing.value] == Attempted(steps, failing)
    decreases |steps|
  {
    if steps != [] && failing != Some(steps[0]) {
      EffectiveBeforeFailure(steps[1..], failing);
      assert steps == [steps[0]] + steps[1..];
      if failing.Some? && failing.value in steps {
        assert failing.value in steps[1..];
      }
    }
  }

  /**
   * What one teardown step does. Deleting the queue drops its waiting
   * messages and cancels its consumer; closing the channel hands its
   * outstanding deliveries back to the broker; closing the connection closes
   * a channel still open on it. Disposing a closed object changes nothing.
   */
  function StepEffect(e: Snapshot, step: TeardownStep): Snapshot
  {
    match step
    case DeleteQueue => e.(broker := QueueDelete(e.broker))
    case CloseChannel => e.(channel := Closed, broker := ChannelClosed(e.broker))
    case DisposeChannel => e
    case CloseConnection =>
      if e.channel == Open then Snapshot(Closed, Closed, ChannelClosed(e.broker)) else e.(connection := Closed)
    case DisposeConnection => e
  }

  /** The effect of a series of teardown steps, in order. */
  function Teardown(e: Snapshot, steps: seq<TeardownStep>): Snapshot
    decreases |steps|
  {
    if steps == [] then e else Teardown(StepEffect(e, steps[0]), steps[1..])
  }

  /** No step leaves the worker incoherent. */
  lemma StepKeepsCoherent(e: Snapshot, step: TeardownStep)
    requires Coherent(e)
    ensures Coherent(StepEffect(e, step))
  {
    match step
    case DeleteQueue => QueueDeleteKeepsInv(e.broker);
    case CloseChannel => ClosedKeepsInv(e.broker);
    case CloseConnection => ClosedKeepsInv(e.broker);
    case _ =>
  }

  /** No series of steps leaves the worker incoherent. */
  lemma {:induction false} TeardownKeepsCoherent(e: Snapshot, steps: seq<TeardownStep>)
    requires Coherent(e)
    ensures Coherent(Teardown(e, steps))
    decreases |steps|
  {
    if steps != [] {
      StepKeepsCoherent(e, steps[0]);
      TeardownKeepsCoherent(StepEffect(e, steps[0]), steps[1..]);
    }
  }

  /** Every channel step precedes every connection step, and the queue is deleted before the channel closes. */
  lemma PlanOrder(channel: Handle, connection: Handle)
    ensures var p := Plan(channel, connection);
      && (forall i, j :: 0 <= i < |p| && 0 <= j < |p| && p[i].OnChannel() && !p[j].OnChannel() ==> i < j)
      && (forall i, j :: 0 <= i < |p| && 0 <= j < |p| && p[i] == DeleteQueue && p[j] == CloseChannel ==> i < j)
      && (DeleteQueue in p <==> channel == Open) && (CloseConnection in p <==> connection == Open)
  {
  }

  /**
   * A throwing channel step ends the try block before the connection is
   * looked at: no connection step is even started.
   */
  lemma ChannelFailureSkipsConnection(channel: Handle, connection: Handle, failing: TeardownStep)
    requires channel == Open && failing.OnChannel()
    ensures forall st :: st in Attempted(Plan(channel, connection), Some(failing)) ==> st.OnChannel()
  {
    var p := Plan(channel, connection);
    var a := Attempted(p, Some(failing));
    AttemptedStopsAtFailure(p, Some(failing));
    var f :| 0 <= f < 3 && p[f] == failing;

  }

  /**
   * A `Dispose` in which nothing throws leaves neither the channel nor the
   * connection open. When the channel was open the queue is gone, and since
   * the queue is deleted before the channel closes, the deliveries still
   * outstanding are lost with the waiting messages instead of being returned.
   */
  lemma CleanDisposeReleasesAll(e: Snapshot)
    requires e.channel == Open ==> e.connection == Open
    ensures var r := Teardown(e, Plan(e.channel, e.connection));
      && r.channel != Open && r.connection != Open
      && (e.channel == Open ==>
            && !r.broker.declared && r.broker.ready == [] && r.broker.unacked == []
            && r.broker.purged == e.broker.purged + e.broker.ready + Messages(e.broker.unacked)
            && r.broker.ledger == ReturnPending(e.broker.ledger)
            && r.broker.acked == e.broker.acked && r.broker.dropped == e.broker.dropped)
      && (e.channel != Open ==> r.broker == e.broker)
  {
    if e.channel == Open {
      var conn := Plan(Null, e.connection);
      var d := e.(broker := QueueDelete(e.broker));
      var c := d.(channel := Closed, broker := ChannelClosed(d.broker));
      assert StepEffect(e, DeleteQueue) == d && StepEffect(d, CloseChannel) == c && StepEffect(c, DisposeChannel) == c;
      assert Plan(e.channel, e.connection) == [DeleteQueue] + ([CloseChannel] + ([DisposeChannel] + conn));
      TeardownCons(e, DeleteQueue, [CloseChannel] + ([DisposeChannel] + conn));
      TeardownCons(d, CloseChannel, [DisposeChannel] + conn);
      TeardownCons(c, DisposeChannel, conn);
      CleanConnectionSteps(c);
    } else {
      assert Plan(e.channel, e.connection) == Plan(Null, e.connection);
      CleanConnectionSteps(e);
    }
  }

  /** The connection steps of a clean `Dispose` close the connection and touch nothing on a closed channel. */
  lemma CleanConnectionSteps(e: Snapshot)
    requires e.channel != Open
    ensures var r := Teardown(e, Plan(Null, e.connection));
      r.channel == e.channel && r.connection != Open && r.broker == e.broker
  {
    if e.connection == Open {
      var c := e.(connection := Closed);
      assert StepEffect(e, CloseConnection) == c && StepEffect(c, DisposeConnection) == c;
      assert Plan(Null, e.connection) == [CloseConnection] + ([DisposeConnection] + []);
      TeardownCons(e, CloseConnection, [DisposeConnection] + []);
      TeardownCons(c, DisposeConnection, []);
    }
  }

  /** One step at the front of a series. */
  lemma TeardownCons(e: Snapshot, step: TeardownStep, rest: seq<TeardownStep>)
    ensures Teardown(e, [step] + rest) == Teardown(StepEffect(e, step), rest)
  {
    assert ([step] + rest)[1..] == rest;
  }

  /** Once neither object is open, `Dispose` has nothing to tear down: it only runs the base class's `Dispose`. */
  lemma SecondDisposeIsNoop(e: Snapshot, failing: Option<TeardownStep>)
    requires e.channel != Open && e.connection != Open
    ensures Attempted(Plan(e.channel, e.connection), failing) == []
    ensures Teardown(e, Effective(Plan(e.channel, e.connection), failing)) == e
  {
  }

  /**
   * Taking the next step of a plan: a throwing step is the last one started
   * and takes no effect; any other step takes effect and the rest of the plan
   * follows.
   */
  lemma PlanStep(e: Snapshot, step: TeardownStep, rest: seq<TeardownStep>, failing: Option<TeardownStep>)
    ensures TeardownOps(Attempted([step] + rest, failing))
              == [TeardownCall(step)] + (if failing == Some(step) then [] else TeardownOps(Attempted(rest, failing)))
    ensures Teardown(e, Effective([step] + rest, failing))
              == if failing == Some(step) then e else Teardown(StepEffect(e, step), Effective(rest, failing))
  {
    var steps := [step] + rest;
    assert steps[0] == step && steps[1..] == rest;
    if failing == Some(step) {
      assert [step][1..] == [];
    } else {
      TeardownCons(e, step, Effective(rest, failing));
      var a := Attempted(rest, failing);
      assert ([step] + a)[1..] == a;
    }
  }

  lemma AppendOps(o: seq<Op>, x: seq<Op>, y: seq<Op>)
    ensures o + x + y == o + (x + y)
  {
  }

  /** The handler's two phases: the try block's call, if any, then the catch block's reject if anything threw. */
  lemma HandlerPhases(s: State, ea: Delivery, processing: Processing, fault: ChannelFault)
    requires Inv(s) && ea in s.unacked
    ensures var a := TryCall(ea.tag, ea.message.payload, processing);
      var first := if a.Attempt? && fault != LostBeforeBroker then Resolve(s, a.call) else s;
      && ea.tag in Tags(s.unacked)
      && (ea.tag in Tags(first.unacked) <==> !(a.Attempt? && fault != LostBeforeBroker))
      && HandlerEffect(s, ea, processing, fault)
           == (if Threw(a, fault) then Resolve(first, Reject(ea.tag, true)) else first)
  {
    DeliveredIsOutstanding(s, ea);
    ReachedCases(ea.tag, ea.message.payload, processing, fault);
    var a := TryCall(ea.tag, ea.message.payload, processing);
    var reject := Reject(ea.tag, true);
    if a.Attempt? && fault != LostBeforeBroker {
      SettleKeepsInv(s, a.call);
      if Threw(a, fault) {
        ApplyTwo(s, a.call, reject);
      } else {
        ApplyOne(s, a.call);
      }
    } else {
      ApplyOne(s, reject);
    }
  }

  /**
   * The handler leaves the worker coherent: the channel stays open unless two
   * calls reach the broker, and then the broker has closed it, taking the
   * consumer and every outstanding delivery with it.
   */
  lemma HandlerKeepsCoherent(e: Snapshot, ea: Delivery, processing: Processing, fault: ChannelFault)
    requires Coherent(e) && e.channel == Open && ea in e.broker.unacked
    ensures Coherent(Snapshot(e.connection,
                              if |Reached(ea.tag, ea.message.payload, processing, fault)| == 2 then Closed else Open,
                              HandlerEffect(e.broker, ea, processing, fault)))
  {
    HandlerKeepsInv(e.broker, ea, processing, fault);
    var a := TryCall(ea.tag, ea.message.payload, processing);
    if |Reached(ea.tag, ea.message.payload, processing, fault)| == 2 {
      DoubleResolutionClosesChannel(e.broker, ea, processing);
    }
  }

  /** The channel calls of the handler: the try block's call, if any, then the catch block's reject. */
  lemma HandlerOps(tag: DeliveryTag, payload: Decoded, processing: Processing, fault: ChannelFault)
    ensures var a := TryCall(tag, payload, processing);
      ResolutionOps(HandlerCalls(tag, payload, processing, fault))
        == (if a.Attempt? then [Resolution(a.call)] else [])
           + (if Threw(a, fault) then [Resolution(Reject(tag, true))] else [])
  {
    var a := TryCall(tag, payload, processing);
    var reject := Reject(tag, true);
    var tried := if a.Attempt? then [a.call] else [];
    var caught := if Threw(a, fault) then [reject] else [];
    ResolutionOpsConcat(tried, caught);
    if a.Attempt? {
      SingleResolutionOps(a.call);
    }
    SingleResolutionOps(reject);
  }

  /** The calls of two runs of the handler's code, one after the other, are the calls of each. */
  lemma {:induction false} ResolutionOpsConcat(xs: seq<Call>, ys: seq<Call>)
    ensures ResolutionOps(xs + ys) == ResolutionOps(xs) + ResolutionOps(ys)
    decreases |xs|
  {
    if xs == [] {
      assert xs + ys == ys;
    } else {
      assert (xs + ys)[0] == xs[0] && (xs + ys)[1..] == xs[1..] + ys;
      ResolutionOpsConcat(xs[1..], ys);
    }
  }

  lemma SingleResolutionOps(c: Call)
    ensures ResolutionOps([c]) == [Resolution(c)] && ResolutionOps([]) == []
  {
    assert [c][1..] == [];
  }

  /** A routed message leaves the worker coherent. */
  lemma PublishKeepsCoherent(e: Snapshot, m: Message)
    requires Coherent(e)
    ensures Coherent(e.(broker := Publish(e.broker, m)))
  {
    PublishKeepsInv(e.broker, m);
  }

  /** A delivery to the open channel leaves the worker coherent. */
  lemma DeliverKeepsCoherent(e: Snapshot)
    requires Coherent(e) && e.channel == Open && CanDeliver(e.broker)
    ensures Coherent(e.(broker := Deliver(e.broker)))
  {
    DeliverKeepsInv(e.broker);
  }

  /** A coherent worker: consistent broker, and the channel and consumer states fit the connection's. */
  ghost predicate Coherent(e: Snapshot) {
    && Inv(e.broker)
    && (e.channel == Open ==> e.connection == Open)
    && (e.channel != Open ==> e.broker.unacked == [] && e.broker.consumer == NoConsumer)
    && (e.broker.consumer.Consumer? ==> e.broker.consumer == Consumer(false))
  }

  class ConsumerWorker {
    var connection: Handle
    var channel: Handle
    /** The broker as this worker's channel sees it. */
    var broker: State
    /** The calls made on the client library so far. */
    var ops: seq<Op>

    function Now(): Snapshot
      reads this`connection, this`channel, this`broker
    {
      Snapshot(connection, channel, broker)
    }

    /**
     * The broker is consistent; a channel is open only on an open
     * connection; without an open channel nothing is outstanding and no
     * consumer is registered; and the only consumer ever registered is the
     * manual-acknowledgement one of `ExecuteAsync`.
     */
    ghost predicate Valid()
      reads this`connection, this`channel, this`broker
    {
      Coherent(Now())
    }

    /**
     * The constructor runs `InitializeRabbitMQ`. `world` is the broker before
     * the worker connects, as its new channel sees it: no consumer on the
     * channel and no tag issued on it yet; `failure`
     * says which client call throws, in which case the constructor throws
     * after the calls made so far.
     */
    constructor (world: State, failure: InitFailure)
      requires Inv(world) && world.unacked == [] && world.consumer == NoConsumer
      requires world.ledger == map[] && world.nextTag == 1
      ensures Valid()
      ensures ops == InitCalls()[..InitAttempts(failure)]
      ensures connection == (if failure == ConnectFails then Null else Open)
      ensures channel == (match failure
                          case NoFailure => Open
                          case DeclareFails => Closed
                          case _ => Null)
      ensures broker == (if failure == NoFailure then Declare(world) else world)
    {
      connection, channel, broker, ops := Null, Null, world, [];
      new;
      InitializeRabbitMQ(failure);
    }

    /**
     * Connects, opens a channel on the connection, and declares the queue
     * non-durable, non-exclusive and not auto-deleted. A failing declare is a
     * channel error: the broker closes the channel.
     */
    method InitializeRabbitMQ(failure: InitFailure)
      requires connection == Null && channel == Null && ops == []
      requires Inv(broker) && broker.unacked == [] && broker.consumer == NoConsumer
      modifies this
      ensures Valid()
      ensures ops == InitCalls()[..InitAttempts(failure)]
      ensures connection == (if failure == ConnectFails then Null else Open)
      ensures channel == (match failure
                          case NoFailure => Open
                          case DeclareFails => Closed
                          case _ => Null)
      ensures broker == (if failure == NoFailure then Declare(old(broker)) else old(broker))
    {
      InitPrefixes();
      ops := ops + [CreateConnection(HostName, Port)];
      if failure == ConnectFails {
        return;
      }
      connection := Open;
      ops := ops + [CreateModel];
      if failure == ChannelFails {
        return;
      }
      channel := Open;
      ops := ops + [QueueDeclare(QueueName, false, false, false)];
      if failure == DeclareFails {
        channel := Closed;
        return;
      }
      DeclareKeepsInv(broker);
      broker := Declare(broker);
    }

    /**
     * The start-up part of `ExecuteAsync`: a stop already requested ends it
     * before anything happens; otherwise the handler is attached and the
     * queue is consumed with `autoAck: false`. Consuming a queue that does
     * not exist is a channel error that closes the channel; a closed channel
     * makes the call throw; a channel never created makes it fail before any
     * client call.
     */
    method ExecuteAsync(cancellationRequested: bool) returns (outcome: ExecOutcome)
      requires Valid()
      modifies this
      ensures Valid() && connection == old(connection)
      ensures cancellationRequested ==> outcome == CancelledAtStart && Now() == old(Now()) && ops == old(ops)
      ensures outcome == Listening <==> !cancellationRequested && old(channel) == Open && old(broker).declared
      ensures outcome == Listening ==>
                && broker == Consume(old(broker), false) && channel == Open
                && ops == old(ops) + [BasicConsume(QueueName, false)]
      ensures !cancellationRequested && old(channel) == Open && !old(broker).declared ==>
                && outcome == ConsumeFailed && channel == Closed && broker == ChannelClosed(old(broker))
                && ops == old(ops) + [BasicConsume(QueueName, false)]
      ensures !cancellationRequested && old(channel) != Open ==>
                && outcome == ConsumeFailed && Now() == old(Now())
                && ops == old(ops) + (if old(channel) == Closed then [BasicConsume(QueueName, false)] else [])
    {
      if cancellationRequested {
        return CancelledAtStart;
      }
      if channel == Null {
        return ConsumeFailed;
      }
      ops := ops + [BasicConsume(QueueName, false)];
      if channel == Closed {
        return ConsumeFailed;
      }
      if !broker.declared {
        ClosedKeepsInv(broker);
        broker := ChannelClosed(broker);
        channel := Closed;
        return ConsumeFailed;
      }
      ConsumeKeepsInv(broker, false);
      broker := Consume(broker, false);
      outcome := Listening;
    }

    /** A producer publishes a message to the queue. */
    method BrokerPublishes(m: Message)
      requires Valid()
      modifies this
      ensures Valid() && broker == Publish(old(broker), m)
      ensures connection == old(connection) && channel == old(channel) && ops == old(ops)
    {
      ghost var e := Now();
      PublishKeepsCoherent(e, m);
      broker := Publish(broker, m);
      assert Now() == e.(broker := Publish(e.broker, m));
    }

    /**
     * The broker pushes the head of the queue to the worker's consumer.
     * Because the consumer does not auto-acknowledge, the message only moves
     * from waiting to outstanding: nothing is acknowledged or dropped.
     */
    method BrokerDelivers() returns (ea: Delivery)
      requires Valid() && channel == Open && CanDeliver(broker)
      modifies this
      ensures Valid() && broker == Deliver(old(broker))
      ensures ea == NextDelivery(old(broker)) && ea in broker.unacked
      ensures broker.unacked == old(broker).unacked + [ea] && broker.ready == old(broker).ready[1..]
      ensures broker.ledger == old(broker).ledger[ea.tag := Pending]
      ensures broker.acked == old(broker).acked && broker.dropped == old(broker).dropped
      ensures connection == old(connection) && channel == old(channel) && ops == old(ops)
    {
      ghost var e := Now();
      DeliverKeepsCoherent(e);
      ea := NextDelivery(broker);
      broker := Deliver(broker);
      assert Now() == e.(broker := Deliver(e.broker));
    }

    /**
     * One resolution call on the open channel. Unless it is lost before
     * reaching the broker, the broker resolves it, and a call on a tag that
     * is not outstanding makes the broker close the channel. `threw` says
     * whether the call throws in the worker.
     */
    method Issue(c: Call, fault: ChannelFault) returns (threw: bool)
      requires channel == Open
      modifies this
      ensures connection == old(connection)
      ensures threw <==> fault != NoFault
      ensures ops == old(ops) + [Resolution(c)]
      ensures broker == (if fault == LostBeforeBroker then old(broker) else Resolve(old(broker), c))
      ensures channel == (if fault == LostBeforeBroker || c.tag in Tags(old(broker).unacked) then Open else Closed)
    {
      ops := ops + [Resolution(c)];
      if fault != LostBeforeBroker {
        if c.tag !in Tags(broker.unacked) {
          channel := Closed;
        }
        broker := Resolve(broker, c);
      }
      threw := fault != NoFault;
    }

    /**
     * The `Received` handler for delivery `ea`: the try block decides, from
     * how decoding and processing end, which resolution call to make, if any
     * (`TryCall`), and makes it; anything thrown on the way ends in the catch
     * block's reject with requeue. `processing` says how the
     * processing step ends and `fault` how the try block's own resolution
     * call fares. The calls made are exactly `HandlerCalls`, the broker ends
     * as `HandlerEffect` says, and the channel is closed by the broker
     * exactly when two calls reach it.
     */
    method Received(ea: Delivery, processing: Processing, fault: ChannelFault)
      requires Valid() && channel == Open && ea in broker.unacked
      modifies this
      ensures Valid() && connection == old(connection)
      ensures ops == old(ops) + ResolutionOps(HandlerCalls(ea.tag, ea.message.payload, processing, fault))
      ensures broker == HandlerEffect(old(broker), ea, processing, fault)
      ensures channel == (if |Reached(ea.tag, ea.message.payload, processing, fault)| == 2 then Closed else Open)
    {
      ghost var e := Now();
      HandlerPhases(broker, ea, processing, fault);
      HandlerOps(ea.tag, ea.message.payload, processing, fault);
      ghost var a := TryCall(ea.tag, ea.message.payload, processing);
      ghost var tried := if a.Attempt? then [Resolution(a.call)] else [];
      ghost var caught := if Threw(a, fault) then [Resolution(Reject(ea.tag, true))] else [];
      AppendOps(old(ops), tried, caught);
      var threw := TryBlock(ea, processing, fault);
      if threw {
        var rethrown := Issue(Reject(ea.tag, true), NoFault);
      }
      assert ops == old(ops) + tried + caught;
      HandlerLeavesValid(e, ea, processing, fault);
    }

    /** A worker in the state the handler leaves behind, from a valid worker with the delivery outstanding, is valid. */
    ghost method HandlerLeavesValid(start: Snapshot, ea: Delivery, processing: Processing, fault: ChannelFault)
      requires Coherent(start) && start.channel == Open && ea in start.broker.unacked
      requires Now() == Snapshot(start.connection,
                                 if |Reached(ea.tag, ea.message.payload, processing, fault)| == 2 then Closed else Open,
                                 HandlerEffect(start.broker, ea, processing, fault))
      ensures Valid()
    {
      HandlerKeepsCoherent(start, ea, processing, fault);
    }

    /**
     * The handler's try block: decodes the payload and, as `TryCall` decides,
     * acknowledges, rejects without requeue, or makes no call; `threw` says
     * whether the block ends in an exception. The delivery is still
     * outstanding when the block starts, so its call never closes the channel.
     */
    method TryBlock(ea: Delivery, processing: Processing, fault: ChannelFault) returns (threw: bool)
      requires channel == Open && ea in broker.unacked
      modifies this
      ensures connection == old(connection) && channel == Open
      ensures var a := TryCall(ea.tag, ea.message.payload, processing);
        && (threw <==> Threw(a, fault))
        && ops == old(ops) + (if a.Attempt? then [Resolution(a.call)] else [])
        && broker == (if a.Attempt? && fault != LostBeforeBroker then Resolve(old(broker), a.call) else old(broker))
    {
      var attempt := TryCall(ea.tag, ea.message.payload, processing);
      threw := true;
      if attempt.Attempt? {
        assert attempt.call.tag in Tags(broker.unacked) by {
          var i :| 0 <= i < |broker.unacked| && broker.unacked[i] == ea;
        }
        threw := Issue(attempt.call, fault);
      }
    }

    /**
     * `Dispose`: within one try block, the channel steps when the channel is
     * open, then the connection steps when the connection is open; an
     * exception (`failing` names the step that throws) is caught and logged,
     * and the base class's `Dispose` always runs last.
     */
    method Dispose(failing: Option<TeardownStep>)
      requires Valid()
      modifies this
      ensures Valid()
      ensures var plan := Plan(old(channel), old(connection));
        && Now() == Teardown(old(Now()), Effective(plan, failing))
        && ops == old(ops) + TeardownOps(Attempted(plan, failing)) + [BaseDispose]
    {
      ghost var plan := Plan(channel, connection);
      ghost var goal := Teardown(Now(), Effective(plan, failing));
      ghost var opsGoal := ops + TeardownOps(Attempted(plan, failing));
      var threw := ChannelSteps(failing, goal, opsGoal);
      if !threw {
        threw := ConnectionSteps(failing, goal, opsGoal);
      }
      assert Now() == goal && ops == opsGoal;
      TeardownLeavesValid(old(Now()), Effective(plan, failing));
      ops := ops + [BaseDispose];
    }

    /** The channel guard of `Dispose`: delete the queue, close and dispose the channel, if it is open. */
    method ChannelSteps(failing: Option<TeardownStep>, ghost goal: Snapshot, ghost opsGoal: seq<Op>) returns (threw: bool)
      requires OnTrack(goal, opsGoal, Plan(channel, connection), failing, false)
      modifies this
      ensures connection == old(connection)
      ensures OnTrack(goal, opsGoal, Plan(Null, connection), failing, threw)
    {
      ghost var conn := Plan(Null, connection);
      threw := false;
      if channel == Open {
        assert Plan(channel, connection) == [DeleteQueue] + ([CloseChannel] + ([DisposeChannel] + conn));
        threw := Perform(DeleteQueue, failing, goal, opsGoal, [CloseChannel] + ([DisposeChannel] + conn));
        if !threw {
          threw := Perform(CloseChannel, failing, goal, opsGoal, [DisposeChannel] + conn);
        }
        if !threw {
          threw := Perform(DisposeChannel, failing, goal, opsGoal, conn);
        }
      } else {
        assert Plan(channel, connection) == conn;
      }
    }

    /** The connection guard of `Dispose`: close and dispose the connection, if it is open. */
    method ConnectionSteps(failing: Option<TeardownStep>, ghost goal: Snapshot, ghost opsGoal: seq<Op>) returns (threw: bool)
      requires OnTrack(goal, opsGoal, Plan(Null, connection), failing, false)
      modifies this
      ensures OnTrack(goal, opsGoal, [], failing, threw)
    {
      threw := false;
      if connection == Open {
        assert Plan(Null, connection) == [CloseConnection] + ([DisposeConnection] + []);
        threw := Perform(CloseConnection, failing, goal, opsGoal, [DisposeConnection] + []);
        if !threw {
          threw := Perform(DisposeConnection, failing, goal, opsGoal, []);
        }
      } else {
        assert Plan(Null, connection) == [];
      }
    }

    /** A worker that got where it is by teardown steps from a coherent state is valid. */
    ghost method TeardownLeavesValid(start: Snapshot, steps: seq<TeardownStep>)
      requires Coherent(start) && Now() == Teardown(start, steps)
      ensures Valid()
    {
      TeardownKeepsCoherent(start, steps);
    }

    /**
     * Whether `Dispose` is on course to end in `goal` having made the calls
     * `opsGoal`: after an exception it is already there; otherwise the steps
     * of `rest` still lead there.
     */
    ghost predicate OnTrack(goal: Snapshot, opsGoal: seq<Op>, rest: seq<TeardownStep>,
                            failing: Option<TeardownStep>, threw: bool)
      reads this
    {
      if threw then Now() == goal && ops == opsGoal
      else goal == Teardown(Now(), Effective(rest, failing)) && opsGoal == ops + TeardownOps(Attempted(rest, failing))
    }

    /**
     * One teardown step, `step` followed by `rest` being what remains of the
     * plan; `threw` says whether it throws, in which case it has no effect.
     */
    method Perform(step: TeardownStep, failing: Option<TeardownStep>,
                   ghost goal: Snapshot, ghost opsGoal: seq<Op>, ghost rest: seq<TeardownStep>) returns (threw: bool)
      requires OnTrack(goal, opsGoal, [step] + rest, failing, false)
      modifies this
      ensures OnTrack(goal, opsGoal, rest, failing, threw)
      ensures threw <==> failing == Some(step)
      ensures ops == old(ops) + [TeardownCall(step)]
      ensures Now() == (if threw then old(Now()) else StepEffect(old(Now()), step))
    {
      ghost var before := ops;
      PlanStep(Now(), step, rest, failing);
      ops := ops + [TeardownCall(step)];
      threw := failing == Some(step);
      if !threw {
        var r := StepEffect(Now(), step);
        connection, channel, broker := r.connection, r.channel, r.broker;
        assert Now() == r;
      } else {
        assert Now() == old(Now());
      }
      AppendOps(before, [TeardownCall(step)], if threw then [] else TeardownOps(Attempted(rest, failing)));
    }
  }

  /** The channel calls that make the given resolutions. */
  function ResolutionOps(calls: seq<Call>): (ops: seq<Op>)
    decreases |calls|
  {
    if calls == [] then [] else [Resolution(calls[0])] + ResolutionOps(calls[1..])
  }

  function TeardownOps(steps: seq<TeardownStep>): (ops: seq<Op>)
    decreases |steps|
  {
    if steps == [] then [] else [TeardownCall(steps[0])] + TeardownOps(steps[1..])
  }
}
