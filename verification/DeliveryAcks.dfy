/** Every delivery is acknowledged, or waits for the application to do so: the converse of acknowledging only
  what was delivered. */
module DeliveryAcks {
  import opened Prelude
  import opened ReplayBuffer
  import opened InboundExchanges
  import opened Inbound
  import opened InboundOrder
  import opened DrainOrder
  import opened LiveDeliveries

  /** The acknowledgement of section 4.3 of MQTT Version 5.0 is out, or the message waits for its `ack()`. */
  predicate AckedOne(wire: seq<Packet>, unacked: map<Publish, Recipient>, d: (Publish, Recipient)) {
    match d.0.qos
    case AtMostOnce => true
    case AtLeastOnce => Puback(d.0) in wire || (!AutoAck(d.1) && d.0 in unacked)
    case ExactlyOnce =>
      if AutoAck(d.1) then Pubrec(d.0) in wire && Pubcomp(d.0) in wire else Pubrec(d.0) in wire || d.0 in unacked
  }

  /** What the read loop has in hand is acknowledged with its delivery, or was before it. */
  predicate ReaderAcks(reader: Reader, wire: seq<Packet>) {
    match reader
    case Putting(p, r, afterPut) =>
      (AcksAtOnce(p, r) ==> afterPut.ThenPuback?) && (p.qos == ExactlyOnce && AutoAck(r) ==> Pubrec(p) in wire && Pubcomp(p) in wire)
    case Sending(ThenDeliver(p, r)) => p.qos == ExactlyOnce && AutoAck(r) && Pubrec(p) in wire && Pubcomp(p) in wire
    case _ => true
  }

  ghost predicate AllAcked(x: Exchanges) {
    (forall d :: d in x.delivered ==> AckedOne(x.wire, x.unacked, d)) && ReaderAcks(x.reader, x.wire)
  }

  /** Acknowledgements stay, and who no longer waits for an `ack()` has had it sent. */
  lemma MoreAcked(x: Exchanges, y: Exchanges, more: HandOvers)
    requires AllAcked(x) && y.delivered == x.delivered + more && x.wire <= y.wire && ReaderAcks(y.reader, y.wire)
    requires forall p :: p in x.unacked && p !in y.unacked ==>
      (p.qos == AtLeastOnce && Puback(p) in y.wire) || (p.qos == ExactlyOnce && Pubrec(p) in y.wire)
    requires forall d :: d in more ==> AckedOne(y.wire, y.unacked, d)
    ensures AllAcked(y)
  {
    forall d | d in y.delivered ensures AckedOne(y.wire, y.unacked, d) {
      if d in x.delivered { assert AckedOne(x.wire, x.unacked, d); }
    }
  }

  lemma ReaderChanges(x: Exchanges, y: Exchanges)
    requires AllAcked(x) && y.delivered == x.delivered && x.wire <= y.wire && y.unacked == x.unacked
    requires ReaderAcks(y.reader, y.wire)
    ensures AllAcked(y)
  {
    assert x.delivered + [] == x.delivered;
    MoreAcked(x, y, []);
  }

  lemma PutAcks(x: Exchanges, p: Publish, r: Recipient, afterPut: AfterPut)
    requires AllAcked(x) && (AcksAtOnce(p, r) ==> afterPut.ThenPuback?)
    requires p.qos == ExactlyOnce && AutoAck(r) ==> Pubrec(p) in x.wire && Pubcomp(p) in x.wire
    ensures AllAcked(AfterLivePut(HandOver(x, p, r), p, afterPut))
  {
    var y := AfterLivePut(HandOver(x, p, r), p, afterPut);
    if r.Nobody? { assert x.delivered + [] == x.delivered; }
    assert Puback(p) in [Puback(p)];
    MoreAcked(x, y, DeliveryOf(p, r));
  }

  lemma LivePutAcks(x: Exchanges, p: Publish, r: Recipient, full: bool, afterPut: AfterPut)
    requires AllAcked(x) && (AcksAtOnce(p, r) ==> afterPut.ThenPuback?)
    requires p.qos == ExactlyOnce && AutoAck(r) ==> Pubrec(p) in x.wire && Pubcomp(p) in x.wire
    ensures AllAcked(LivePut(x, p, r, full, afterPut))
  {
    hide AfterLivePut, HandOver, AckedOne;
    if r.Subscription? && full {
      ReaderChanges(x, x.(reader := Putting(p, r, afterPut)));
    } else {
      PutAcks(x, p, r, afterPut);
    }
  }

  lemma ReleaseAcks(x: Exchanges, pid: int)
    requires AllAcked(x) && pid in x.inflight && FlightsOk(x.inflight, x.wire)
    ensures AllAcked(TakePubrel(x, pid))
  {
    hide AckedOne;
    var flight := x.inflight[pid];
    assert (x.wire + [Pubcomp(flight.publish)])[|x.wire|] == Pubcomp(flight.publish);
    if flight.delivered {}
    ReaderChanges(x, TakePubrel(x, pid));
  }

  lemma AckAcks(x: Exchanges, p: Publish)
    requires AllAcked(x) && p in x.unacked && p.pid.Some? && p.qos != AtMostOnce
    ensures AllAcked(Acknowledge(x, p))
  {
    var y := Acknowledge(x, p);
    assert y.wire[|x.wire|] == if p.qos == ExactlyOnce then Pubrec(p) else Puback(p);
    assert x.delivered + [] == x.delivered;
    ReaderAcksMore(x.reader, x.wire, y.wire);
    MoreAcked(x, y, []);
  }

  lemma ReaderAcksMore(reader: Reader, wire: seq<Packet>, more: seq<Packet>)
    requires ReaderAcks(reader, wire) && wire <= more
    ensures ReaderAcks(reader, more)
  {}

  lemma ReaderEventAcks(x: Exchanges, e: Event, waiting: set<Publish>, inHand: Option<Publish>)
    requires ExchangesOk(x, waiting, inHand) && AllAcked(x) && IsReaderEvent(e)
    ensures AllAcked(ReaderResult(x, e))
  {
    hide AcksOwned, PubrecsOk, PubrecSent, OpenTracked, DistinctIds, Budget, TablesDisjoint, AckedOne, FlightsOk;
    hide TakePubrel, Acknowledge, LivePut, AfterLivePut, HandOver;
    match e
    case Pubrel(id) =>
      if x.reader == Ready {
        if id in x.inflight { ReleaseAcks(x, id); } else { ReaderChanges(x, x.(reader := Stopped)); }
      }
    case PutEnds => if x.reader.Putting? { PutAcks(x, x.reader.publish, x.reader.recipient, x.reader.afterPut); }
    case SendEnds(full) =>
      if x.reader.Sending? {
        if x.reader.afterSend.ThenDeliver? {
          LivePutAcks(x, x.reader.afterSend.publish, x.reader.afterSend.recipient, full, PutDone);
        } else {
          ReaderChanges(x, x.(reader := Ready));
        }
      }
    case ReaderFails => ReaderChanges(x, x.(reader := Stopped));
    case Ack(p) => if p in x.unacked && p.pid.Some? { AckAcks(x, p); }
  }

  lemma LiveAcks(x: Exchanges, p: Publish, r: Recipient, full: bool)
    requires AllAcked(x) && PidOk(p) && x.reader == Ready
    ensures AllAcked(LiveHandOver(Admit(x, p), p, r, full))
  {
    hide LivePut, AckedOne;
    var y := Admit(x, p);
    ReaderChanges(x, y);
    match p.qos
    case AtMostOnce => LivePutAcks(y, p, r, full, PutDone);
    case AtLeastOnce => LivePutAcks(y, p, r, full, if AutoAck(r) then ThenPuback else PutDone);
    case ExactlyOnce =>
      if AutoAck(r) {
        ReaderChanges(y, RecordFlight(y, p, r, false).(reader := Sending(SendDone)));
      } else {
        var z := y.(pendingAck := y.pendingAck + {p.pid.value});
        ReaderChanges(y, z);
        LivePutAcks(z, p, r, full, PutDone);
      }
  }

  lemma ArrivalAcks(f: Flow, e: Event)
    requires FlowOk(f) && e.Arrive? && AllAcked(f.x)
    ensures AllAcked(Step(f, e).x)
  {
    hide FlowOk, Advance, AllAcked, LiveHandOver, HoldIn, JudgeIn;
    FlowsAreReplays();
    var p, x := Arriving(f, e), f.x;
    if x.reader == Ready {
      ReadyChanges(x, x.(reader := Stopped));
      if PidOk(p) {
        ReadyChanges(x, Admit(x, p));
        if IsQos2(p) && p.pid.value in x.inflight {
          ReadyChanges(x, x.(wire := x.wire + [Pubrec(x.inflight[p.pid.value].publish)], reader := Sending(SendDone)));
        } else {
          LiveAcks(x, p, e.offer.recipient, e.offer.full);
        }
      }
    }
  }

  lemma ReadyChanges(x: Exchanges, y: Exchanges)
    requires AllAcked(x) && y.delivered == x.delivered && x.wire <= y.wire && y.unacked == x.unacked
    requires y.reader == Ready || y.reader == Stopped || y.reader == Sending(SendDone)
    ensures AllAcked(y)
  {
    hide AckedOne;
    ReaderChanges(x, y);
  }

  lemma ReplayAcks(x: Exchanges, p: Publish, r: Recipient)
    requires AllAcked(x) && PidOk(p) && !r.Nobody?
    ensures AllAcked(ReplayHandOver(x, p, r))
  {
    var y := ReplayHandOver(x, p, r);
    ReaderAcksMore(x.reader, x.wire, y.wire);
    assert Puback(p) in [Puback(p)];
    if p.qos == ExactlyOnce && AutoAck(r) {
      assert x.delivered + [] == x.delivered;
      MoreAcked(x, y, []);
    } else {
      MoreAcked(x, y, [(p, r)]);
    }
  }

  lemma {:induction false} PassAcks(b: Buffer, x: Exchanges, l: Ledger, unmatched: seq<Publish>, pending: seq<Publish>,
                                    expiring: bool, choose: Publish -> Offer)
    requires PassOk(b, unmatched, pending) && AllAcked(x)
    ensures AllAcked(Advance(b, x, l, unmatched, pending, expiring, choose).x)
    decreases |b.publishes|, |pending|
  {
    hide CountersOk, HeldOk, ReplayHandOver, AllAcked;
    if pending == [] {
      if b.publishes != [] {
        PassTurns(b, unmatched);
        PassAcks(b.(publishes := []), x, l, unmatched, b.publishes, expiring, choose);
      }
    } else {
      var p := pending[0];
      var to := choose(p).recipient;
      PassLeaves(b, unmatched, pending);
      PassTakes(b, unmatched, pending);
      if !Deliverable(choose(p)) {
        PassAcks(b, x, l, unmatched + [p], pending[1..], expiring, choose);
      } else {
        ReplayAcks(x, p, to);
        if !Suspends(p, to) {
          PassAcks(Discard(b, p), ReplayHandOver(x, p, to), Hand(l, p, to), unmatched, pending[1..], expiring, choose);
        }
      }
    }
  }

  lemma ConcludedAcks(f: Flow, r: Progress, expiring: bool)
    requires AllAcked(r.x)
    ensures AllAcked(Conclude(f, r, expiring).x)
  {
    hide AckedOne;
    ReaderChanges(r.x, Conclude(f, r, expiring).x);
  }

  lemma PassEventAcks(f: Flow, e: Event)
    requires FlowOk(f) && (e.Drain? || e.DeliveryEnds?) && AllAcked(f.x)
    ensures AllAcked(Step(f, e).x)
  {
    hide FlowOk, Step, Advance, Conclude, PassOk, AllAcked;
    FlowsAreReplays();
    if e.Drain? && f.replay.Buffering? && f.replay.frame.NoFrame? {
      DrainIs(f, e);
      PassAcks(f.replay.buffer, f.x, f.ledger, [], [], e.expiring, e.choose);
      ConcludedAcks(f, Advance(f.replay.buffer, f.x, f.ledger, [], [], e.expiring, e.choose), e.expiring);
    } else if e.DeliveryEnds? && Suspended(f) {
      DeliveryEndIs(f, e);
      var fr := f.replay.frame;
      var b, l := Discard(f.replay.buffer, fr.inHand), Hand(f.ledger, fr.inHand, fr.recipient);
      PassAcks(b, f.x, l, fr.unmatched, fr.pending, fr.expiring, e.choose);
      ConcludedAcks(f, Advance(b, f.x, l, fr.unmatched, fr.pending, fr.expiring, e.choose), fr.expiring);
    } else {
      NoPass(f, e);
    }
  }

  lemma EndsAck(f: Flow, e: Event)
    requires FlowOk(f) && (e.DeliveryFails? || e.SessionEnds?) && AllAcked(f.x)
    ensures AllAcked(Step(f, e).x)
  {
    hide FlowOk, Advance, StillOpen, Taken, Resting, Elements, AckedOne;
    FlowsAreReplays();
    ReaderChanges(f.x, Step(f, e).x);
  }

  lemma StepAcks(f: Flow, e: Event)
    requires FlowOk(f) && AllAcked(f.x)
    ensures AllAcked(Step(f, e).x)
  {
    FlowParts(f);
    hide FlowOk, Step, AllAcked, ReaderResult, ExchangesOk;
    FlowsAreReplays();
    if e.Arrive? {
      ArrivalAcks(f, e);
    } else if e.Drain? || e.DeliveryEnds? {
      PassEventAcks(f, e);
    } else if IsReaderEvent(e) {
      ReaderEventStep(f, e);
      ReaderEventAcks(f.x, e, Elements(Resting(f.replay)), InHand(f.replay));
    } else {
      EndsAck(f, e);
    }
  }

  lemma {:induction false} RunsAck(sessionPresent: bool, limit: nat, events: seq<Event>)
    ensures AllAcked(Run(sessionPresent, limit, events).x)
  {
    hide FlowOk, Step, AckedOne;
    if events != [] {
      RunsAck(sessionPresent, limit, events[..|events| - 1]);
      StepAcks(Run(sessionPresent, limit, events[..|events| - 1]), events[|events| - 1]);
    }
  }

  /** In every run: a delivered QoS 1 message has had its PUBACK sent, and a QoS 2 message its PUBREC, when it is
    acknowledged automatically also its PUBCOMP; but for messages that wait for their manual `ack()`. */
  lemma DeliveredIsAcknowledged(sessionPresent: bool, limit: nat, events: seq<Event>, p: Publish, r: Recipient)
    requires (p, r) in Run(sessionPresent, limit, events).x.delivered
    ensures var x := Run(sessionPresent, limit, events).x;
      && (p.qos == AtLeastOnce ==> Puback(p) in x.wire || (!AutoAck(r) && p in x.unacked))
      && (p.qos == ExactlyOnce ==> Pubrec(p) in x.wire || (!AutoAck(r) && p in x.unacked))
      && (p.qos == ExactlyOnce && AutoAck(r) ==> Pubcomp(p) in x.wire)
  {
    hide FlowOk, Run;
    RunsAck(sessionPresent, limit, events);
    assert AckedOne(Run(sessionPresent, limit, events).x.wire, Run(sessionPresent, limit, events).x.unacked, (p, r));
  }
}
