/**
 * The broker side of the consumer's world, as far as the worker can observe
 * it through AMQP: the queue, the deliveries it has pushed and not yet had
 * resolved, and a ledger that records what became of every delivery tag.
 * The worker changes this state only through the calls it issues on its
 * channel; every transition keeps the invariant `Inv`, which says in
 * particular that no message is ever lost or duplicated.
 */
module Broker {
  import opened Envelope

  /** Delivery tags are issued per channel, starting at 1. */
  type DeliveryTag = nat

  /** What happened to one delivery. */
  datatype Status =
    | Pending            // delivered, not yet acknowledged or rejected
    | Acked              // acknowledged: removed from the queue for good
    | Rejected(requeue: bool)
    | ReturnedOnClose    // the channel closed while the delivery was pending
  {
    /** Resolved by the consumer itself, by an ack or a reject. */
    predicate Terminal() { Acked? || Rejected? }
  }

  /**
   * A resolution call on the channel. The worker always sends `BasicAck` with
   * `multiple: false` (ConsumerWorker.cs:80), so an `Ack` names exactly one
   * delivery.
   */
  datatype Call = Ack(tag: DeliveryTag) | Reject(tag: DeliveryTag, requeue: bool)

  /** The event arguments of one delivery: its tag and its message. */
  datatype Delivery = Delivery(tag: DeliveryTag, message: Message)

  /** The consumer the worker registers on the queue over its own channel, with its auto-acknowledge flag; other consumers of the queue are not modelled. */
  datatype Subscription = NoConsumer | Consumer(autoAck: bool)

  datatype State = State(
    declared: bool,               // the queue exists
    ready: seq<Message>,          // waiting in the queue, head first
    consumer: Subscription,
    unacked: seq<Delivery>,       // delivered and awaiting resolution, oldest first
    ledger: map<DeliveryTag, Status>,
    nextTag: DeliveryTag,
    published: seq<Message>,      // everything ever routed into the queue
    acked: seq<Message>,          // removed by an acknowledgement
    dropped: seq<Message>,        // removed by a reject without requeue
    purged: seq<Message>)         // lost with the queue when it was deleted

  /** The messages of a list of deliveries, as a bag. */
  function Bag(ds: seq<Delivery>): multiset<Message>
    decreases |ds|
  {
    if ds == [] then multiset{} else multiset{ds[0].message} + Bag(ds[1..])
  }

  lemma {:induction false} BagAppend(a: seq<Delivery>, b: seq<Delivery>)
    ensures Bag(a + b) == Bag(a) + Bag(b)
    decreases |a|
  {
    if a != [] {
      assert (a + b)[0] == a[0];
      assert (a + b)[1..] == a[1..] + b;
      BagAppend(a[1..], b);
    } else {
      assert a + b == b;
    }
  }

  /** The messages of a list of deliveries, in delivery order. */
  function Messages(ds: seq<Delivery>): (ms: seq<Message>)
    ensures |ms| == |ds|
    decreases |ds|
  {
    if ds == [] then [] else [ds[0].message] + Messages(ds[1..])
  }

  lemma {:induction false} MessagesBag(ds: seq<Delivery>)
    ensures multiset(Messages(ds)) == Bag(ds)
    decreases |ds|
  {
    if ds != [] {
      MessagesBag(ds[1..]);
    }
  }

  function Tags(ds: seq<Delivery>): set<DeliveryTag> {
    set i | 0 <= i < |ds| :: ds[i].tag
  }

  predicate Outstanding(s: State, tag: DeliveryTag) {
    tag in s.ledger && s.ledger[tag] == Pending
  }

  /**
   * The ledger knows exactly the tags issued so far (tags are never reused),
   * and the pending tags are exactly the outstanding deliveries, each once.
   */
  ghost predicate TagsConsistent(ledger: map<DeliveryTag, Status>, nextTag: DeliveryTag, unacked: seq<Delivery>) {
    && nextTag >= 1
    && (forall t :: t in ledger ==> 1 <= t < nextTag)
    && (forall t :: 1 <= t < nextTag ==> t in ledger)
    && (forall i :: 0 <= i < |unacked| ==> unacked[i].tag in ledger && ledger[unacked[i].tag] == Pending)
    && (forall t :: t in ledger && ledger[t] == Pending ==> t in Tags(unacked))
    && (forall i, j :: 0 <= i < j < |unacked| ==> unacked[i].tag != unacked[j].tag)
  }

  /** Every message is in exactly one place: waiting, outstanding, or gone for one of three reasons. */
  ghost predicate Conserved(published: seq<Message>, ready: seq<Message>, unacked: seq<Delivery>,
                            acked: seq<Message>, dropped: seq<Message>, purged: seq<Message>) {
    multiset(published)
      == multiset(ready) + Bag(unacked) + multiset(acked) + multiset(dropped) + multiset(purged)
  }

  ghost predicate Inv(s: State) {
    && TagsConsistent(s.ledger, s.nextTag, s.unacked)
    && (!s.declared ==> s.ready == [] && s.consumer == NoConsumer)
    && Conserved(s.published, s.ready, s.unacked, s.acked, s.dropped, s.purged)
  }

  /**
   * `QueueDeclare` with the parameters the queue already has: creates an empty
   * queue if there is none, and otherwise changes nothing.
   */
  function Declare(s: State): (r: State)
    ensures r.declared
    ensures s.declared ==> r == s
    ensures r.ready == s.ready && r.unacked == s.unacked && r.ledger == s.ledger
    ensures r.consumer == s.consumer
  {
    s.(declared := true)
  }

  lemma DeclareKeepsInv(s: State)
    requires Inv(s)
    ensures Inv(Declare(s))
  {
  }

  /** A producer publishes to the queue through the default exchange; with no queue the message is unroutable. */
  function Publish(s: State, m: Message): (r: State)
    ensures s.declared ==> r.ready == s.ready + [m] && r.published == s.published + [m]
    ensures !s.declared ==> r == s
    ensures r.unacked == s.unacked && r.ledger == s.ledger && r.consumer == s.consumer
  {
    if s.declared then s.(ready := s.ready + [m], published := s.published + [m]) else s
  }

  /** A routed message is counted once as published and once as waiting. */
  lemma PublishKeepsInv(s: State, m: Message)
    requires Inv(s)
    ensures Inv(Publish(s, m))
  {
  }

  /** `BasicConsume` on an existing queue registers the consumer. */
  function Consume(s: State, autoAck: bool): (r: State)
    requires s.declared
    ensures r.consumer == Consumer(autoAck)
    ensures r.ready == s.ready && r.unacked == s.unacked && r.ledger == s.ledger
  {
    s.(consumer := Consumer(autoAck))
  }

  lemma ConsumeKeepsInv(s: State, autoAck: bool)
    requires Inv(s) && s.declared
    ensures Inv(Consume(s, autoAck))
  {
  }

  predicate CanDeliver(s: State) {
    s.consumer.Consumer? && s.ready != []
  }

  /** The delivery the broker pushes next: the head of the queue under a fresh tag. */
  function NextDelivery(s: State): (d: Delivery)
    requires CanDeliver(s)
    ensures d.tag == s.nextTag && d.message == s.ready[0]
  {
    Delivery(s.nextTag, s.ready[0])
  }

  /** The tag of the next delivery has never been issued: it is in no ledger entry and names no outstanding delivery. */
  lemma NextTagUnused(s: State)
    requires Inv(s) && CanDeliver(s)
    ensures NextDelivery(s).tag !in s.ledger && NextDelivery(s).tag !in Tags(s.unacked)
  {
  }

  /**
   * The broker pushes the head of the queue to the consumer. With manual
   * acknowledgement the message stays on the broker, outstanding under its
   * new tag; only an auto-acknowledging consumer makes delivery remove it.
   */
  function Deliver(s: State): (r: State)
    requires CanDeliver(s)
    ensures r.ready == s.ready[1..] && r.nextTag == s.nextTag + 1
    ensures r.consumer == s.consumer && r.declared == s.declared
    ensures !s.consumer.autoAck ==>
              && r.unacked == s.unacked + [NextDelivery(s)]
              && r.ledger == s.ledger[s.nextTag := Pending]
              && r.acked == s.acked && r.dropped == s.dropped && r.purged == s.purged
    ensures s.consumer.autoAck ==>
              && r.unacked == s.unacked
              && r.ledger == s.ledger[s.nextTag := Acked]
              && r.acked == s.acked + [s.ready[0]]
  {
    var m := s.ready[0];
    var t := s.nextTag;
    if s.consumer.autoAck then
      s.(ready := s.ready[1..], nextTag := t + 1, ledger := s.ledger[t := Acked], acked := s.acked + [m])
    else
      s.(ready := s.ready[1..], nextTag := t + 1, ledger := s.ledger[t := Pending],
         unacked := s.unacked + [Delivery(t, m)])
  }

  lemma DeliverKeepsInv(s: State)
    requires Inv(s) && CanDeliver(s)
    ensures Inv(Deliver(s))
  {
    if s.consumer.autoAck {
      AutoAckKeepsInv(s);
    } else {
      ManualDeliveryKeepsInv(s);
    }
  }

  lemma AutoAckKeepsInv(s: State)
    requires Inv(s) && s.ready != []
    ensures var t := s.nextTag;
      Inv(s.(ready := s.ready[1..], nextTag := t + 1, ledger := s.ledger[t := Acked], acked := s.acked + [s.ready[0]]))
  {
    TagsAfterAutoAck(s.ledger, s.nextTag, s.unacked);
    ReadyHead(s.ready);
  }

  lemma ManualDeliveryKeepsInv(s: State)
    requires Inv(s) && s.ready != []
    ensures var t, m := s.nextTag, s.ready[0];
      Inv(s.(ready := s.ready[1..], nextTag := t + 1, ledger := s.ledger[t := Pending],
             unacked := s.unacked + [Delivery(t, m)]))
  {
    var t, m := s.nextTag, s.ready[0];
    TagsAfterDelivery(s.ledger, t, s.unacked, m);
    ReadyHead(s.ready);
    BagAppend(s.unacked, [Delivery(t, m)]);
    assert Bag([Delivery(t, m)]) == multiset{m};
  }

  lemma ReadyHead(ready: seq<Message>)
    requires ready != []
    ensures multiset(ready) == multiset{ready[0]} + multiset(ready[1..])
  {
    assert ready == [ready[0]] + ready[1..];
  }

  lemma TagsAfterDelivery(ledger: map<DeliveryTag, Status>, t: DeliveryTag, unacked: seq<Delivery>, m: Message)
    requires TagsConsistent(ledger, t, unacked)
    ensures TagsConsistent(ledger[t := Pending], t + 1, unacked + [Delivery(t, m)])
  {
    var ledger', unacked' := ledger[t := Pending], unacked + [Delivery(t, m)];
    forall tg | tg in ledger' && ledger'[tg] == Pending ensures tg in Tags(unacked') {
      if tg != t {
        var i :| 0 <= i < |unacked| && unacked[i].tag == tg;
        assert unacked'[i] == unacked[i];
      } else {
        assert unacked'[|unacked|].tag == t;
      }
    }
  }

  lemma TagsAfterAutoAck(ledger: map<DeliveryTag, Status>, t: DeliveryTag, unacked: seq<Delivery>)
    requires TagsConsistent(ledger, t, unacked)
    ensures TagsConsistent(ledger[t := Acked], t + 1, unacked)
  {
  }

  /** The position of an outstanding tag among the outstanding deliveries. */
  function IndexOf(ds: seq<Delivery>, tag: DeliveryTag): (i: nat)
    requires tag in Tags(ds)
    ensures i < |ds| && ds[i].tag == tag
  {
    if ds[0].tag == tag then 0
    else
      assert tag in Tags(ds[1..]) by {
        var k :| 0 <= k < |ds| && ds[k].tag == tag;
        assert ds[1..][k - 1] == ds[k];
      }
      IndexOf(ds[1..], tag) + 1
  }

  /** A message put back by a requeue goes to the head of the queue; with the queue deleted it is lost. */
  function Requeue(s: State, m: Message): (r: State)
    ensures s.declared ==> r.ready == [m] + s.ready && r.purged == s.purged
    ensures !s.declared ==> r.ready == s.ready && r.purged == s.purged + [m]
    ensures r.unacked == s.unacked && r.ledger == s.ledger && r.nextTag == s.nextTag
    ensures r.declared == s.declared && r.consumer == s.consumer && r.published == s.published
    ensures r.acked == s.acked && r.dropped == s.dropped
  {
    if s.declared then s.(ready := [m] + s.ready) else s.(purged := s.purged + [m])
  }

  /** The status a resolution call gives its delivery. */
  function StatusAfter(c: Call): (st: Status)
    ensures st.Terminal()
    ensures st == Acked <==> c.Ack?
  {
    match c
    case Ack(_) => Acked
    case Reject(_, requeue) => Rejected(requeue)
  }

  /** Does the call take the message off the broker for good? */
  predicate Removes(c: Call) {
    c.Ack? || !c.requeue
  }

  /** The deliveries other than the one at position i, in their order. */
  function Without(ds: seq<Delivery>, i: nat): seq<Delivery>
    requires i < |ds|
  {
    ds[..i] + ds[i + 1..]
  }

  /** The message of an outstanding delivery. */
  function MessageOf(s: State, tag: DeliveryTag): Message
    requires tag in Tags(s.unacked)
  {
    s.unacked[IndexOf(s.unacked, tag)].message
  }

  lemma BagRemoveAt(ds: seq<Delivery>, i: nat)
    requires i < |ds|
    ensures Bag(ds) == Bag(ds[..i] + ds[i + 1..]) + multiset{ds[i].message}
  {
    var front, back := ds[..i], ds[i..];
    assert ds == front + back;
    BagAppend(front, back);
    assert back[0] == ds[i] && back[1..] == ds[i + 1..];
    BagAppend(front, ds[i + 1..]);
  }

  lemma TagsAfterSettle(ledger: map<DeliveryTag, Status>, n: DeliveryTag, unacked: seq<Delivery>, i: nat, st: Status)
    requires TagsConsistent(ledger, n, unacked) && i < |unacked| && st != Pending
    ensures TagsConsistent(ledger[unacked[i].tag := st], n, unacked[..i] + unacked[i + 1..])
    ensures Tags(unacked[..i] + unacked[i + 1..]) == Tags(unacked) - {unacked[i].tag}
  {
    var rest := unacked[..i] + unacked[i + 1..];
    var t := unacked[i].tag;
    assert forall k :: 0 <= k < |rest| ==> rest[k] == unacked[if k < i then k else k + 1];
    forall tg | tg in Tags(unacked) - {t} ensures tg in Tags(rest) {
      var k :| 0 <= k < |unacked| && unacked[k].tag == tg;
      assert rest[if k < i then k else k - 1] == unacked[k];
    }
    forall k | 0 <= k < |rest| ensures rest[k].tag != t {
      assert rest[k] == unacked[if k < i then k else k + 1];
    }
  }

  /**
   * The broker applies an acknowledgement or a reject to an outstanding
   * delivery: the tag gets its terminal status and no other tag changes
   * (that the delivery is then no longer outstanding is `SettleKeepsInv`,
   * where its message goes is `SettleMovesMessage`).
   */
  function Settle(s: State, c: Call): (r: State)
    requires c.tag in Tags(s.unacked)
    ensures r.ledger == s.ledger[c.tag := StatusAfter(c)]
    ensures r.nextTag == s.nextTag && r.declared == s.declared && r.consumer == s.consumer
  {
    var i := IndexOf(s.unacked, c.tag);
    Place(s.(unacked := Without(s.unacked, i), ledger := s.ledger[c.tag := StatusAfter(c)]), c, s.unacked[i].message)
  }

  /** Settling keeps the invariant, and the settled tag is no longer among the outstanding deliveries. */
  lemma SettleKeepsInv(s: State, c: Call)
    requires Inv(s) && c.tag in Tags(s.unacked)
    ensures Inv(Settle(s, c)) && Tags(Settle(s, c).unacked) == Tags(s.unacked) - {c.tag}
  {
    var i := IndexOf(s.unacked, c.tag);
    SettledStateInv(s, c, i, Settle(s, c));
  }

  /** Puts the message of a settled delivery where the call sends it. */
  function Place(s: State, c: Call, m: Message): (r: State)
    ensures r.acked == s.acked + (if c.Ack? then [m] else [])
    ensures r.dropped == s.dropped + (if c.Reject? && !c.requeue then [m] else [])
    ensures !Removes(c) && s.declared ==> r.ready == [m] + s.ready && r.purged == s.purged
    ensures !Removes(c) && !s.declared ==> r.ready == s.ready && r.purged == s.purged + [m]
    ensures Removes(c) ==> r.ready == s.ready && r.purged == s.purged
    ensures r.unacked == s.unacked && r.ledger == s.ledger && r.nextTag == s.nextTag
    ensures r.declared == s.declared && r.consumer == s.consumer && r.published == s.published
  {
    match c
    case Ack(_) => s.(acked := s.acked + [m])
    case Reject(_, false) => s.(dropped := s.dropped + [m])
    case Reject(_, true) => Requeue(s, m)
  }

  /** Placing a message adds exactly that message to the places a message can be. */
  lemma PlaceAccounts(s: State, c: Call, m: Message)
    ensures var r := Place(s, c, m);
      multiset(r.ready) + multiset(r.acked) + multiset(r.dropped) + multiset(r.purged)
        == multiset(s.ready) + multiset(s.acked) + multiset(s.dropped) + multiset(s.purged) + multiset{m}
  {
  }

  lemma SettledStateInv(s: State, c: Call, i: nat, r: State)
    requires Inv(s) && i < |s.unacked| && s.unacked[i].tag == c.tag
    requires r == Place(s.(unacked := Without(s.unacked, i), ledger := s.ledger[c.tag := StatusAfter(c)]), c, s.unacked[i].message)
    ensures Inv(r) && Tags(r.unacked) == Tags(s.unacked) - {c.tag}
  {
    var m := s.unacked[i].message;
    assert Without(s.unacked, i) == s.unacked[..i] + s.unacked[i + 1..];
    TagsAfterSettle(s.ledger, s.nextTag, s.unacked, i, StatusAfter(c));
    BagRemoveAt(s.unacked, i);
    PlaceAccounts(s.(unacked := Without(s.unacked, i), ledger := s.ledger[c.tag := StatusAfter(c)]), c, m);
    MoveConserved(s.published, s.ready, s.acked, s.dropped, s.purged, r.ready, r.acked, r.dropped, r.purged,
                  Bag(s.unacked), Bag(r.unacked), m);
  }

  /**
   * Where a settled delivery's message goes: an ack removes it for good, a
   * reject without requeue drops it, and a reject with requeue puts it back at
   * the head of the queue (or loses it with a deleted queue). The other
   * outstanding deliveries keep their order.
   */
  lemma SettleMovesMessage(s: State, c: Call)
    requires c.tag in Tags(s.unacked)
    ensures var r, m := Settle(s, c), MessageOf(s, c.tag);
      && r.unacked == Without(s.unacked, IndexOf(s.unacked, c.tag))
      && r.acked == s.acked + (if c.Ack? then [m] else [])
      && r.dropped == s.dropped + (if c.Reject? && !c.requeue then [m] else [])
      && (!Removes(c) && s.declared ==> r.ready == [m] + s.ready && r.purged == s.purged)
      && (!Removes(c) && !s.declared ==> r.ready == s.ready && r.purged == s.purged + [m])
      && (Removes(c) ==> r.ready == s.ready && r.purged == s.purged)
  {
  }

  lemma MoveConserved(p: seq<Message>, ready: seq<Message>, acked: seq<Message>, dropped: seq<Message>, purged: seq<Message>,
                      ready': seq<Message>, acked': seq<Message>, dropped': seq<Message>, purged': seq<Message>,
                      u: multiset<Message>, u': multiset<Message>, m: Message)
    requires multiset(p) == multiset(ready) + u + multiset(acked) + multiset(dropped) + multiset(purged)
    requires u == u' + multiset{m}
    requires multiset(ready') + multiset(acked') + multiset(dropped') + multiset(purged')
          == multiset(ready) + multiset(acked) + multiset(dropped) + multiset(purged) + multiset{m}
    ensures multiset(p) == multiset(ready') + u' + multiset(acked') + multiset(dropped') + multiset(purged')
  {
    var lhs, rhs := multiset(p), multiset(ready') + u' + multiset(acked') + multiset(dropped') + multiset(purged');
    forall x ensures lhs[x] == rhs[x] {
      assert lhs[x] == multiset(ready)[x] + u[x] + multiset(acked)[x] + multiset(dropped)[x] + multiset(purged)[x];
      assert u[x] == u'[x] + multiset{m}[x];
      var before := multiset(ready) + multiset(acked) + multiset(dropped) + multiset(purged) + multiset{m};
      var after := multiset(ready') + multiset(acked') + multiset(dropped') + multiset(purged');
      assert after[x] == before[x];
    }
    assert lhs == rhs;
  }

  /** The ledger once the channel has closed: every pending delivery was returned, every other status stays. */
  function ReturnPending(ledger: map<DeliveryTag, Status>): (r: map<DeliveryTag, Status>)
    ensures r.Keys == ledger.Keys
    ensures forall t :: t in ledger ==> r[t] == (if ledger[t] == Pending then ReturnedOnClose else ledger[t])
  {
    map t | t in ledger :: if ledger[t] == Pending then ReturnedOnClose else ledger[t]
  }

  /**
   * The channel closes (a channel error, or the worker closes it): every
   * outstanding delivery goes back to the head of its queue in delivery order,
   * or is lost if the queue is gone, and the consumer is cancelled.
   */
  function ChannelClosed(s: State): (r: State)
    ensures r.unacked == [] && r.consumer == NoConsumer
    ensures r.declared == s.declared && r.nextTag == s.nextTag && r.published == s.published
    ensures r.acked == s.acked && r.dropped == s.dropped
    ensures r.ledger == ReturnPending(s.ledger)
    ensures s.declared ==> r.ready == Messages(s.unacked) + s.ready && r.purged == s.purged
    ensures !s.declared ==> r.ready == s.ready && r.purged == s.purged + Messages(s.unacked)
  {
    var base := s.(unacked := [], ledger := ReturnPending(s.ledger), consumer := NoConsumer);
    if s.declared then base.(ready := Messages(s.unacked) + s.ready)
    else base.(purged := s.purged + Messages(s.unacked))
  }

  /** Closing the channel keeps every message accounted for and leaves no tag pending. */
  lemma ClosedKeepsInv(s: State)
    requires Inv(s)
    ensures Inv(ChannelClosed(s))
  {
    ClosedStateInv(s, ChannelClosed(s));
  }

  lemma ClosedStateInv(s: State, r: State)
    requires Inv(s)
    requires r.unacked == [] && r.consumer == NoConsumer && r.ledger == ReturnPending(s.ledger)
    requires r.declared == s.declared && r.nextTag == s.nextTag && r.published == s.published
    requires r.acked == s.acked && r.dropped == s.dropped
    requires s.declared ==> r.ready == Messages(s.unacked) + s.ready && r.purged == s.purged
    requires !s.declared ==> r.ready == s.ready && r.purged == s.purged + Messages(s.unacked)
    ensures Inv(r)
  {
    MessagesBag(s.unacked);
    assert TagsConsistent(r.ledger, r.nextTag, r.unacked) by {
      forall t | t in r.ledger ensures r.ledger[t] != Pending {
      }
    }
    var returned := multiset(Messages(s.unacked));
    if s.declared {
      assert multiset(r.ready) == returned + multiset(s.ready);
    } else {
      assert multiset(r.purged) == multiset(s.purged) + returned;
    }
  }

  /** `QueueDelete`: the waiting messages are lost and the queue's consumer is cancelled. */
  function QueueDelete(s: State): (r: State)
    ensures !r.declared && r.ready == [] && r.consumer == NoConsumer
    ensures r.purged == s.purged + s.ready
    ensures r.unacked == s.unacked && r.ledger == s.ledger && r.nextTag == s.nextTag
    ensures r.acked == s.acked && r.dropped == s.dropped
  {
    s.(declared := false, ready := [], consumer := NoConsumer, purged := s.purged + s.ready)
  }

  lemma QueueDeleteKeepsInv(s: State)
    requires Inv(s)
    ensures Inv(QueueDelete(s))
  {
  }

  /**
   * The broker's answer to a resolution call: it looks the tag up among the
   * channel's unacknowledged deliveries and settles that delivery; a tag it
   * does not find (already resolved, or never issued) is a channel error
   * (PRECONDITION_FAILED, "unknown delivery tag"), and the broker closes the
   * channel.
   */
  function Resolve(s: State, c: Call): (r: State)
    ensures r.nextTag == s.nextTag && r.declared == s.declared && r.published == s.published
    ensures c.tag in Tags(s.unacked) ==>
              r.ledger == s.ledger[c.tag := StatusAfter(c)] && r.consumer == s.consumer
    ensures c.tag !in Tags(s.unacked) ==>
              r.ledger == ReturnPending(s.ledger) && r.consumer == NoConsumer && r.unacked == []
              && r.acked == s.acked && r.dropped == s.dropped
  {
    if c.tag in Tags(s.unacked) then Settle(s, c) else ChannelClosed(s)
  }

  /** While the invariant holds, the broker's lookup agrees with its ledger: a tag is found exactly when it is pending. */
  lemma OutstandingIsUnacked(s: State, t: DeliveryTag)
    requires Inv(s)
    ensures Outstanding(s, t) <==> t in Tags(s.unacked)
  {
    if t in Tags(s.unacked) {
      var i :| 0 <= i < |s.unacked| && s.unacked[i].tag == t;
    }
  }

  lemma ResolveKeepsInv(s: State, c: Call)
    requires Inv(s)
    ensures Inv(Resolve(s, c))
  {
    if c.tag in Tags(s.unacked) {
      SettleKeepsInv(s, c);
    } else {
      ClosedKeepsInv(s);
    }
  }

  /** The broker's answers to a series of calls, in order. */
  function ApplyAll(s: State, calls: seq<Call>): (r: State)
    decreases |calls|
    ensures r.nextTag == s.nextTag && r.declared == s.declared
    ensures r.consumer == s.consumer || r.consumer == NoConsumer
  {
    if calls == [] then s else ApplyAll(Resolve(s, calls[0]), calls[1..])
  }

  lemma {:induction false} ApplyAllKeepsInv(s: State, calls: seq<Call>)
    requires Inv(s)
    ensures Inv(ApplyAll(s, calls))
    decreases |calls|
  {
    if calls != [] {
      ResolveKeepsInv(s, calls[0]);
      ApplyAllKeepsInv(Resolve(s, calls[0]), calls[1..]);
    }
  }
}
