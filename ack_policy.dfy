/**
 * The decision procedure of the `Received` handler (ConsumerWorker.cs:60-89):
 * which resolution calls it issues for one delivery, given how decoding and
 * processing end and whether its own resolution call throws, and what the
 * broker makes of those calls.
 */
module AckPolicy {
  import opened Envelope
  import opened Broker

  /** How the stand-in processing step, a 10-second delay bound to the stopping token, ends. */
  datatype Processing = Completed | Faulted | Cancelled

  /**
   * How the resolution call inside the try block fares: it succeeds, it throws
   * before reaching the broker, or it throws after the broker received it.
   */
  datatype ChannelFault = NoFault | LostBeforeBroker | FailedAfterBroker

  /** The resolution call the try block makes, if it gets that far. */
  datatype Attempt = NoAttempt | Attempt(call: Call)

  /**
   * A null payload is rejected without requeue (ConsumerWorker.cs:68-73); a
   * decoded payload whose processing completes is acknowledged (:76-80); a
   * decode that throws, or processing that throws or is cancelled, never gets
   * to a call in the try block.
   */
  function TryCall(tag: DeliveryTag, payload: Decoded, processing: Processing): (a: Attempt)
    ensures a.Attempt? ==> a.call.tag == tag
    ensures a == Attempt(Reject(tag, false)) <==> payload.DecodeNull?
    ensures a == Attempt(Ack(tag)) <==> payload.DecodeOk? && processing == Completed
  {
    match payload
    case DecodeThrows => NoAttempt
    case DecodeNull => Attempt(Reject(tag, false))
    case DecodeOk(_) => if processing == Completed then Attempt(Ack(tag)) else NoAttempt
  }

  /** Control reaches the catch block (ConsumerWorker.cs:82-88). */
  predicate Threw(a: Attempt, fault: ChannelFault) {
    a.NoAttempt? || fault != NoFault
  }

  /**
   * Handling the payload always ends in the catch block: it can never be
   * decoded, or it decodes and processing does not complete (it throws, or
   * the stopping token is already cancelled, which makes the delay throw at
   * once).
   */
  predicate AlwaysFails(payload: Decoded, processing: Processing) {
    payload.DecodeThrows? || (payload.DecodeOk? && processing != Completed)
  }

  /**
   * The calls the handler issues on the channel for one delivery, in order:
   * the try block's call, if any, then the catch block's reject with requeue
   * if anything threw. Every call names the delivery's own tag, there is an
   * ack exactly when the payload decoded and processing completed, and a
   * second call happens exactly when the try block's own call threw.
   */
  function HandlerCalls(tag: DeliveryTag, payload: Decoded, processing: Processing, fault: ChannelFault): (calls: seq<Call>)
    ensures 1 <= |calls| <= 2
    ensures forall i :: 0 <= i < |calls| ==> calls[i].tag == tag
    ensures Ack(tag) in calls <==> payload.DecodeOk? && processing == Completed
    ensures Reject(tag, false) in calls <==> payload.DecodeNull?
    ensures |calls| == 2 <==> TryCall(tag, payload, processing).Attempt? && fault != NoFault
    ensures calls[|calls| - 1] == Reject(tag, true) <==> Threw(TryCall(tag, payload, processing), fault)
  {
    var a := TryCall(tag, payload, processing);
    (if a.Attempt? then [a.call] else []) + (if Threw(a, fault) then [Reject(tag, true)] else [])
  }

  /** The calls that reach the broker: a call that throws before reaching it has no effect there. */
  function Reached(tag: DeliveryTag, payload: Decoded, processing: Processing, fault: ChannelFault): (calls: seq<Call>)
    ensures var a := TryCall(tag, payload, processing);
      |calls| == (if fault == FailedAfterBroker && a.Attempt? then 2 else 1)
    ensures forall i :: 0 <= i < |calls| ==> calls[i].tag == tag
  {
    var a := TryCall(tag, payload, processing);
    (if a.Attempt? && fault != LostBeforeBroker then [a.call] else [])
      + (if Threw(a, fault) then [Reject(tag, true)] else [])
  }

  /**
   * The calls reaching the broker are the calls the handler issues, except
   * that a try-block call lost before the broker is missing.
   */
  lemma ReachedOfIssued(tag: DeliveryTag, payload: Decoded, processing: Processing, fault: ChannelFault)
    ensures var a := TryCall(tag, payload, processing);
      var issued := HandlerCalls(tag, payload, processing, fault);
      Reached(tag, payload, processing, fault) == if fault == LostBeforeBroker && a.Attempt? then issued[1..] else issued
  {
    var a := TryCall(tag, payload, processing);
    if fault == LostBeforeBroker && a.Attempt? {
      assert HandlerCalls(tag, payload, processing, fault)[1..] == [Reject(tag, true)];
    }
  }

  /** The calls reaching the broker, case by case: the try block's call unless lost, then the catch block's reject if anything threw. */
  lemma ReachedCases(tag: DeliveryTag, payload: Decoded, processing: Processing, fault: ChannelFault)
    ensures var a, r := TryCall(tag, payload, processing), Reached(tag, payload, processing, fault);
      && (a.Attempt? && fault != LostBeforeBroker && Threw(a, fault) ==> r == [a.call, Reject(tag, true)])
      && (a.Attempt? && fault != LostBeforeBroker && !Threw(a, fault) ==> r == [a.call])
      && (!(a.Attempt? && fault != LostBeforeBroker) ==> r == [Reject(tag, true)])
  {
  }

  /**
   * The broker after the handler has run for delivery `ea`: no tag is used
   * up, the queue stays as it was declared, and the consumer is either kept
   * or, after a channel error, cancelled.
   */
  function HandlerEffect(s: State, ea: Delivery, processing: Processing, fault: ChannelFault): (r: State)
    ensures r.nextTag == s.nextTag && r.declared == s.declared
    ensures r.consumer == s.consumer || r.consumer == NoConsumer
  {
    ApplyAll(s, Reached(ea.tag, ea.message.payload, processing, fault))
  }

  lemma HandlerKeepsInv(s: State, ea: Delivery, processing: Processing, fault: ChannelFault)
    requires Inv(s)
    ensures Inv(HandlerEffect(s, ea, processing, fault))
  {
    ApplyAllKeepsInv(s, Reached(ea.tag, ea.message.payload, processing, fault));
  }

  lemma ApplyOne(s: State, c: Call)
    ensures ApplyAll(s, [c]) == Resolve(s, c)
  {
    assert [c][1..] == [];
  }

  lemma ApplyTwo(s: State, c: Call, d: Call)
    ensures ApplyAll(s, [c, d]) == Resolve(Resolve(s, c), d)
  {
    assert [c, d][1..] == [d];
    ApplyOne(Resolve(s, c), d);
  }

  /** A delivery the broker has pushed and not yet seen resolved is outstanding under its tag. */
  lemma DeliveredIsOutstanding(s: State, ea: Delivery)
    requires Inv(s) && ea in s.unacked
    ensures Outstanding(s, ea.tag) && ea.tag in Tags(s.unacked)
    ensures MessageOf(s, ea.tag) == ea.message
  {
    var i :| 0 <= i < |s.unacked| && s.unacked[i] == ea;
    assert ea.tag in Tags(s.unacked);
    var j := IndexOf(s.unacked, ea.tag);
    assert i == j;
  }

  /**
   * A payload that decodes to null is rejected without requeue, the
   * processing step never runs (so how it would have ended makes no
   * difference) and no ack is issued for that tag.
   */
  lemma NullPayloadDropped(s: State, ea: Delivery, processing: Processing, other: Processing)
    requires Inv(s) && ea in s.unacked && ea.message.payload == DecodeNull
    ensures HandlerCalls(ea.tag, DecodeNull, processing, NoFault) == [Reject(ea.tag, false)]
    ensures HandlerEffect(s, ea, processing, NoFault) == HandlerEffect(s, ea, other, NoFault)
    ensures var r := HandlerEffect(s, ea, processing, NoFault);
      && r.ledger == s.ledger[ea.tag := Rejected(false)]
      && r.dropped == s.dropped + [ea.message]
      && r.acked == s.acked && r.ready == s.ready
  {
    OnlyCall(ea.tag, DecodeNull, processing, NoFault, Reject(ea.tag, false));
    OnlyCall(ea.tag, DecodeNull, other, NoFault, Reject(ea.tag, false));
    var c := SettledBySingleCall(s, ea, processing, NoFault);
    DeliveredIsOutstanding(s, ea);
    SettleMovesMessage(s, c);
  }

  /** The handler's only call, when it makes just one. */
  lemma OnlyCall(tag: DeliveryTag, payload: Decoded, processing: Processing, fault: ChannelFault, c: Call)
    requires c == (if payload.DecodeNull? then Reject(tag, false)
                   else if payload.DecodeOk? && processing == Completed then Ack(tag)
                   else Reject(tag, true))
    requires fault == NoFault || TryCall(tag, payload, processing).NoAttempt?
    ensures HandlerCalls(tag, payload, processing, fault) == [c]
    ensures Reached(tag, payload, processing, fault) == [c]
  {
  }

  /** A payload that decodes and is processed to completion is acknowledged once, under its own tag. */
  lemma CompletedAckedOnce(s: State, ea: Delivery)
    requires Inv(s) && ea in s.unacked && ea.message.payload.DecodeOk?
    ensures HandlerCalls(ea.tag, ea.message.payload, Completed, NoFault) == [Ack(ea.tag)]
    ensures var r := HandlerEffect(s, ea, Completed, NoFault);
      && r.ledger == s.ledger[ea.tag := Acked]
      && r.acked == s.acked + [ea.message]
      && r.dropped == s.dropped && r.ready == s.ready
  {
    OnlyCall(ea.tag, ea.message.payload, Completed, NoFault, Ack(ea.tag));
    var c := SettledBySingleCall(s, ea, Completed, NoFault);
    DeliveredIsOutstanding(s, ea);
    SettleMovesMessage(s, c);
  }

  /**
   * A decode that throws (malformed JSON, a missing required member) and a
   * processing step that throws or is cancelled all end in one reject with
   * requeue, whatever the channel does: the message goes back to the head of
   * the queue and nothing is acknowledged or dropped. Note that this includes
   * payloads that can never decode.
   */
  lemma FailureRequeued(s: State, ea: Delivery, processing: Processing, fault: ChannelFault)
    requires Inv(s) && ea in s.unacked
    requires AlwaysFails(ea.message.payload, processing)
    ensures HandlerCalls(ea.tag, ea.message.payload, processing, fault) == [Reject(ea.tag, true)]
    ensures var r := HandlerEffect(s, ea, processing, fault);
      && r.ledger == s.ledger[ea.tag := Rejected(true)]
      && r.acked == s.acked && r.dropped == s.dropped
      && (s.declared ==> r.ready == [ea.message] + s.ready)
  {
    OnlyCall(ea.tag, ea.message.payload, processing, fault, Reject(ea.tag, true));
    var c := SettledBySingleCall(s, ea, processing, fault);
    DeliveredIsOutstanding(s, ea);
    SettleMovesMessage(s, c);
  }

  /**
   * Unless the try block's call throws after reaching the broker, exactly one
   * resolution reaches the broker: the handled tag moves from Pending to a
   * terminal status and every other tag keeps its status.
   */
  lemma ExactlyOneResolution(s: State, ea: Delivery, processing: Processing, fault: ChannelFault)
    requires Inv(s) && ea in s.unacked && fault != FailedAfterBroker
    ensures |Reached(ea.tag, ea.message.payload, processing, fault)| == 1
    ensures Outstanding(s, ea.tag)
    ensures var r := HandlerEffect(s, ea, processing, fault);
      exists st: Status :: st.Terminal() && r.ledger == s.ledger[ea.tag := st]
    ensures Tags(HandlerEffect(s, ea, processing, fault).unacked) == Tags(s.unacked) - {ea.tag}
  {
    var c := SettledBySingleCall(s, ea, processing, fault);
    assert StatusAfter(c).Terminal();
    SettleKeepsInv(s, c);
  }

  /** With a single call reaching the broker, the handler's effect is that call settling the delivery. */
  lemma SettledBySingleCall(s: State, ea: Delivery, processing: Processing, fault: ChannelFault) returns (c: Call)
    requires Inv(s) && ea in s.unacked
    requires fault != FailedAfterBroker || TryCall(ea.tag, ea.message.payload, processing).NoAttempt?
    ensures Reached(ea.tag, ea.message.payload, processing, fault) == [c]
    ensures c.tag == ea.tag && Outstanding(s, ea.tag)
    ensures HandlerEffect(s, ea, processing, fault) == Settle(s, c)
  {
    DeliveredIsOutstanding(s, ea);
    var calls := Reached(ea.tag, ea.message.payload, processing, fault);
    c := calls[0];
    assert c.tag == ea.tag by {
      assert HandlerCalls(ea.tag, ea.message.payload, processing, fault)[|calls| - 1].tag == ea.tag;
    }
    assert calls == [c];
    ApplyOne(s, c);
  }

  /**
   * The double-resolution path: when the try block's ack or reject reaches the
   * broker and still throws, the catch block rejects the same tag again. The
   * broker no longer knows that tag, so it closes the channel, which cancels
   * the consumer and returns every other outstanding delivery to the queue.
   */
  lemma DoubleResolutionClosesChannel(s: State, ea: Delivery, processing: Processing)
    requires Inv(s) && ea in s.unacked
    requires TryCall(ea.tag, ea.message.payload, processing).Attempt?
    ensures var c := TryCall(ea.tag, ea.message.payload, processing).call;
      Reached(ea.tag, ea.message.payload, processing, FailedAfterBroker) == [c, Reject(ea.tag, true)]
    ensures var c := TryCall(ea.tag, ea.message.payload, processing).call;
      var r := HandlerEffect(s, ea, processing, FailedAfterBroker);
      && r.ledger == ReturnPending(s.ledger[ea.tag := StatusAfter(c)])
      && r.consumer == NoConsumer && r.unacked == []
  {
    DeliveredIsOutstanding(s, ea);
    var c := TryCall(ea.tag, ea.message.payload, processing).call;
    ResolvedTwice(s, ea, processing);
    SecondResolutionCloses(s, c, Reject(ea.tag, true));
  }

  /** The try block's call and the catch block's reject both reach the broker. */
  lemma ResolvedTwice(s: State, ea: Delivery, processing: Processing)
    requires Inv(s)
    requires TryCall(ea.tag, ea.message.payload, processing).Attempt?
    ensures var c := TryCall(ea.tag, ea.message.payload, processing).call;
      && Reached(ea.tag, ea.message.payload, processing, FailedAfterBroker) == [c, Reject(ea.tag, true)]
      && HandlerEffect(s, ea, processing, FailedAfterBroker) == ApplyAll(s, [c, Reject(ea.tag, true)])
  {
  }

  /** Any second resolution of a tag that the first call settled is a channel error. */
  lemma SecondResolutionCloses(s: State, c: Call, d: Call)
    requires Inv(s) && Outstanding(s, c.tag) && d.tag == c.tag
    ensures ApplyAll(s, [c, d]) == ChannelClosed(Settle(s, c))
  {
    OutstandingIsUnacked(s, c.tag);
    SettleKeepsInv(s, c);
    ApplyTwo(s, c, d);
  }

  /** One round of consumption: the broker pushes the head of the queue and the handler deals with it. */
  function Round(s: State, processing: Processing, fault: ChannelFault): State
    requires CanDeliver(s)
  {
    HandlerEffect(Deliver(s), NextDelivery(s), processing, fault)
  }

  lemma RoundKeepsInv(s: State, processing: Processing, fault: ChannelFault)
    requires Inv(s) && CanDeliver(s)
    ensures Inv(Round(s, processing, fault))
  {
    DeliverKeepsInv(s);
    HandlerKeepsInv(Deliver(s), NextDelivery(s), processing, fault);
  }

  /** The queue's head is a message whose handling fails, and the consumer acknowledges manually. */
  ghost predicate PoisonAtHead(s: State, processing: Processing) {
    Inv(s) && s.consumer == Consumer(false) && s.ready != [] && AlwaysFails(s.ready[0].payload, processing)
  }

  /**
   * One round with a poison message at the head puts the broker back where it
   * was, except that one more tag has been used up and ended rejected with
   * requeue.
   */
  lemma PoisonRound(s: State, processing: Processing, fault: ChannelFault)
    requires PoisonAtHead(s, processing)
    ensures Round(s, processing, fault) == s.(nextTag := s.nextTag + 1, ledger := s.ledger[s.nextTag := Rejected(true)])
  {
    var r := Round(s, processing, fault);
    PoisonRoundQueue(s, processing, fault);
    PoisonRoundLedger(s, processing, fault);
    PoisonRoundSinks(s, processing, fault);
  }

  /** The poison message is back at the head and no delivery is left outstanding for it. */
  lemma PoisonRoundQueue(s: State, processing: Processing, fault: ChannelFault)
    requires PoisonAtHead(s, processing)
    ensures Round(s, processing, fault).ready == s.ready
    ensures Round(s, processing, fault).unacked == s.unacked
  {
    var d := Deliver(s);
    var t := s.nextTag;
    RoundRequeues(s, processing, fault);
    SettleMovesMessage(d, Reject(t, true));
    DeliverKeepsInv(s);
    LastDeliveryIndex(d, s.unacked, NextDelivery(s));
    HeadThenRest(s.ready);
    WithoutLast(s.unacked, NextDelivery(s));
  }

  lemma HeadThenRest(q: seq<Message>)
    requires q != []
    ensures [q[0]] + q[1..] == q
  {
  }

  lemma WithoutLast(older: seq<Delivery>, ea: Delivery)
    ensures Without(older + [ea], |older|) == older
  {
    assert (older + [ea])[..|older|] == older;
  }

  /** The round's fresh tag ends rejected with requeue; no other tag changes. */
  lemma PoisonRoundLedger(s: State, processing: Processing, fault: ChannelFault)
    requires PoisonAtHead(s, processing)
    ensures var r := Round(s, processing, fault);
      && r.ledger == s.ledger[s.nextTag := Rejected(true)]
      && r.nextTag == s.nextTag + 1 && r.consumer == s.consumer && r.declared == s.declared
  {
    RoundRequeues(s, processing, fault);
    OverwrittenUpdate(s.ledger, s.nextTag, Pending, Rejected(true));
  }

  /** Nothing is acknowledged, dropped or lost in a poison round. */
  lemma PoisonRoundSinks(s: State, processing: Processing, fault: ChannelFault)
    requires PoisonAtHead(s, processing)
    ensures var r := Round(s, processing, fault);
      r.acked == s.acked && r.dropped == s.dropped && r.purged == s.purged && r.published == s.published
  {
    var d := Deliver(s);
    RoundRequeues(s, processing, fault);
    SettleMovesMessage(d, Reject(s.nextTag, true));
  }

  /** A second update of the same key hides the first. */
  lemma OverwrittenUpdate(ledger: map<DeliveryTag, Status>, t: DeliveryTag, first: Status, second: Status)
    ensures ledger[t := first][t := second] == ledger[t := second]
  {
  }

  /** In a poison round the broker delivers the head and the handler's only call requeues it. */
  lemma RoundRequeues(s: State, processing: Processing, fault: ChannelFault)
    requires PoisonAtHead(s, processing)
    ensures Outstanding(Deliver(s), s.nextTag) && s.nextTag in Tags(Deliver(s).unacked)
    ensures Round(s, processing, fault) == Settle(Deliver(s), Reject(s.nextTag, true))
  {
    var d := Deliver(s);
    var ea := NextDelivery(s);
    assert d.unacked[|s.unacked|] == ea;
    assert Reached(ea.tag, ea.message.payload, processing, fault) == [Reject(s.nextTag, true)];
    ApplyOne(d, Reject(s.nextTag, true));
  }

  /** The newest outstanding delivery sits at the end of the list. */
  lemma LastDeliveryIndex(s: State, older: seq<Delivery>, ea: Delivery)
    requires Inv(s) && s.unacked == older + [ea]
    ensures ea.tag in Tags(s.unacked)
    ensures IndexOf(s.unacked, ea.tag) == |older| && MessageOf(s, ea.tag) == ea.message
  {
    assert s.unacked[|older|] == ea;
    var i := IndexOf(s.unacked, ea.tag);
    assert s.unacked[i].tag == s.unacked[|older|].tag;
  }

  /**
   * The broker after n rounds with the same poison message at the head of the
   * queue: one that can never be decoded, or one whose processing keeps
   * failing or being cancelled. With no attempt counter the message is
   * requeued forever: after any number of rounds the broker is exactly where
   * it started (the message still at the head of the queue, the consumer
   * still registered, nothing acknowledged, dropped or lost), except that
   * every round used up a fresh tag that ended rejected with requeue.
   */
  function PoisonRounds(s: State, n: nat, processing: Processing, fault: ChannelFault): (r: State)
    requires PoisonAtHead(s, processing)
    ensures PoisonAtHead(r, processing)
    ensures r == s.(nextTag := s.nextTag + n, ledger := RequeuedRun(s.ledger, s.nextTag, n))
    decreases n
  {
    if n == 0 then s
    else
      var m: nat := n - 1;
      var before := PoisonRounds(s, m, processing, fault);
      PoisonRound(before, processing, fault);
      RoundKeepsInv(before, processing, fault);
      RequeuedStateStep(s, before, Round(before, processing, fault), m, n);
      Round(before, processing, fault)
  }

  /** The ledger with the n tags from `first` on recorded as rejected with requeue. */
  function RequeuedRun(ledger: map<DeliveryTag, Status>, first: DeliveryTag, n: nat): map<DeliveryTag, Status>
    decreases n
  {
    if n == 0 then ledger else RequeuedRun(ledger[first := Rejected(true)], first + 1, n - 1)
  }

  /** A run one longer is the run followed by rejecting the next tag. */
  lemma {:induction false} RequeuedRunLast(ledger: map<DeliveryTag, Status>, first: DeliveryTag, n: nat)
    ensures RequeuedRun(ledger, first, n + 1) == RequeuedRun(ledger, first, n)[first + n := Rejected(true)]
    decreases n
  {
    if n > 0 {
      var m: nat := n - 1;
      var rest := ledger[first := Rejected(true)];
      var next: DeliveryTag := first + 1;
      RequeuedRunLast(rest, next, m);
      assert m + 1 == n && next + m == first + n;
      assert RequeuedRun(ledger, first, n + 1) == RequeuedRun(rest, next, n);
      assert RequeuedRun(ledger, first, n) == RequeuedRun(rest, next, m);
    } else {
      assert RequeuedRun(ledger, first, n + 1) == RequeuedRun(ledger[first := Rejected(true)], first + 1, 0);
    }
  }

  /** `RequeuedRun` adds exactly the run's tags, all rejected with requeue, and keeps every other entry. */
  lemma {:induction false} RequeuedRunEntries(ledger: map<DeliveryTag, Status>, first: DeliveryTag, n: nat)
    ensures var r := RequeuedRun(ledger, first, n);
      && (forall t :: t in r <==> t in ledger || first <= t < first + n)
      && (forall t :: first <= t < first + n ==> r[t] == Rejected(true))
      && (forall t :: t in ledger && !(first <= t < first + n) ==> r[t] == ledger[t])
    decreases n
  {
    if n > 0 {
      var m: nat := n - 1;
      var rest := ledger[first := Rejected(true)];
      var next: DeliveryTag := first + 1;
      RequeuedRunEntries(rest, next, m);
      var r := RequeuedRun(ledger, first, n);
      assert r == RequeuedRun(rest, next, m);
      forall t ensures t in r <==> t in ledger || first <= t < first + n {
        assert t in rest <==> t == first || t in ledger;
      }
      forall t | first <= t < first + n ensures r[t] == Rejected(true) {
        if t == first {
          assert r[t] == rest[t];
        }
      }
      forall t | t in ledger && !(first <= t < first + n) ensures r[t] == ledger[t] {
        assert r[t] == rest[t];
      }
    }
  }

  /** Composing the first m rounds with one more gives the first m + 1. */
  lemma RequeuedStateStep(s: State, before: State, after: State, m: nat, n: nat)
    requires n == m + 1
    requires before == s.(nextTag := s.nextTag + m, ledger := RequeuedRun(s.ledger, s.nextTag, m))
    requires after == before.(nextTag := before.nextTag + 1, ledger := before.ledger[before.nextTag := Rejected(true)])
    ensures after == s.(nextTag := s.nextTag + n, ledger := RequeuedRun(s.ledger, s.nextTag, n))
  {
    RequeuedRunLast(s.ledger, s.nextTag, m);
  }

}
