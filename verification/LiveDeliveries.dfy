/** The live path delivers: what becomes of every message that is passed on to a recipient, in every run, and
  what each event of the read loop does to the queues, the wire and the messages that wait for an `ack()`. */
module LiveDeliveries {
  import opened Prelude
  import opened ReplayBuffer
  import opened InboundExchanges
  import opened Inbound
  import opened InboundTheorems
  import opened InboundOrder
  import opened DrainOrder
  import opened Interruptions
  import opened AckedDeliveries

  /** The message that an arrival brings. */
  function Arriving(f: Flow, e: Event): Publish
    requires e.Arrive?
  {
    Publish(f.x.arrived, e.topic, e.qos, if e.qos == AtMostOnce then None else e.pid)
  }

  /** Buffering or expecting to, a message waits when nobody takes it, or when a message on its topic waits already. */
  ghost predicate Waits(f: Flow, p: Publish, r: Recipient) {
    f.replay != NoSession && !r.Request? && (r.Nobody? || exists q :: q in Held(f.replay) && q.topic == p.topic)
  }

  /** It has an identifier if it needs one, and repeats no open exchange and no held message. */
  ghost predicate Fresh(f: Flow, p: Publish) {
    && PidOk(p) && (IsQos2(p) ==> p.pid.value !in f.x.inflight && p.pid.value !in f.x.pendingAck)
    && (p.pid.Some? ==> p.pid.value !in HeldIds(Held(f.replay)))
  }

  /** The read loop takes it, it is new, and it does not have to wait. */
  ghost predicate PassedOn(f: Flow, e: Event)
    requires e.Arrive?
  {
    f.x.reader == Ready && Fresh(f, Arriving(f, e)) && !Waits(f, Arriving(f, e), e.offer.recipient)
  }

  // ----- Which messages wait -----

  lemma VerdictIs(f: Flow, p: Publish, r: Recipient)
    requires ReplayOk(f.replay)
    ensures JudgeIn(f.replay, f.limit, p, r) == Pass <==> !Waits(f, p, r)
    ensures p.pid.Some? ==> (HeldId(f.replay, p.pid.value) <==> p.pid.value in HeldIds(Held(f.replay)))
    ensures Waits(f, p, r) && p.pid.Some? && p.pid.value in HeldIds(Held(f.replay)) ==> JudgeIn(f.replay, f.limit, p, r) == Ignore
    ensures Waits(f, p, r) && (p.pid.Some? ==> p.pid.value !in HeldIds(Held(f.replay))) ==>
      JudgeIn(f.replay, f.limit, p, r) == if f.limit != 0 && |Held(f.replay)| >= f.limit then Overflow else Hold
  {
    hide HeldOk;
    TopicCountZero(Held(f.replay), p.topic);
  }

  /** A new message that has to wait goes behind all held ones, and nothing else happens; one that finds the
    buffer at its limit stops the read loop, as does one without the identifier that its QoS needs. */
  lemma WaitingMeaning(f: Flow, e: Event)
    requires FlowOk(f) && e.Arrive? && f.x.reader == Ready
    ensures var p, g := Arriving(f, e), Step(f, e);
      && (!PidOk(p) ==> g == f.(x := f.x.(reader := Stopped)))
      && (Fresh(f, p) && Waits(f, p, e.offer.recipient) ==>
            if f.limit != 0 && |Held(f.replay)| >= f.limit then g == f.(x := f.x.(reader := Stopped))
            else
              && Held(g.replay) == Held(f.replay) + [p] && InHand(g.replay) == InHand(f.replay)
              && g.ledger == f.ledger.(accepted := f.ledger.accepted + {p}) && g.left == f.left
              && g.x == f.x.(arrived := f.x.arrived + 1, open := if IsQos2(p) then f.x.open[p.pid.value := p] else f.x.open))
  {
    hide ExchangesOk, LedgerOk, LimitOk, AcceptedSeen, CountersOk, HeldOk, Judge, LiveHandOver;
    FlowsAreReplays();
    var p := Arriving(f, e);
    VerdictIs(f, p, e.offer.recipient);
    HeldBehind(f.replay, p);
  }

  lemma HeldBehind(replay: Replay, p: Publish)
    ensures Held(HoldIn(replay, p)) == Held(replay) + [p] && InHand(HoldIn(replay, p)) == InHand(replay)
  {}

  // ----- One event at a time -----

  /** QoS 1 that is acknowledged as soon as it is in its queue. */
  predicate AcksAtOnce(p: Publish, r: Recipient) { p.qos == AtLeastOnce && AutoAck(r) }

  function PubackFor(p: Publish, r: Recipient): seq<Packet> { if AcksAtOnce(p, r) then [Puback(p)] else [] }

  function DeliveryOf(p: Publish, r: Recipient): HandOvers { if r.Nobody? then [] else [(p, r)] }

  /** The message went to its recipient, once, and to nobody else; with manual acknowledgement it now waits for
    its `ack()`, and an automatic PUBACK is out. */
  ghost predicate PutOnce(x: Exchanges, y: Exchanges, p: Publish, r: Recipient) {
    && y.delivered == x.delivered + DeliveryOf(p, r) && y.wire == x.wire + PubackFor(p, r)
    && y.unacked == (if p.qos != AtMostOnce && !AutoAck(r) then x.unacked[p := r] else x.unacked)
    && y.inflight == x.inflight
    && y.reader == if AcksAtOnce(p, r) then Sending(SendDone) else Ready
  }

  /** Every arrival that is passed on: an automatically acknowledged QoS 2 message is recorded with its recipient and
    its PUBREC goes out; any other message goes to its recipient, now or, when the queue is full, as soon as there is room. */
  lemma ArrivalMeaning(f: Flow, e: Event)
    requires FlowOk(f) && e.Arrive? && PassedOn(f, e)
    ensures var p, r, g := Arriving(f, e), e.offer.recipient, Step(f, e);
      && g.replay == f.replay && g.ledger == f.ledger
      && if p.qos == ExactlyOnce && AutoAck(r) then
           && g.x.delivered == f.x.delivered && g.x.unacked == f.x.unacked && g.x.wire == f.x.wire + [Pubrec(p)]
           && g.x.inflight == f.x.inflight[p.pid.value := InFlight(p, r, false)] && g.x.reader == Sending(SendDone)
         else if r.Subscription? && e.offer.full then
           && g.x.delivered == f.x.delivered && g.x.wire == f.x.wire && g.x.unacked == f.x.unacked
           && g.x.inflight == f.x.inflight
           && g.x.reader.Putting? && FlowOk(g) && PutOnce(g.x, Step(g, PutEnds).x, p, r)
         else PutOnce(f.x, g.x, p, r)
  {
    StepKeeps(f, e);
    hide FlowOk, Advance;
    FlowsAreReplays();
    var p, r, g := Arriving(f, e), e.offer.recipient, Step(f, e);
    ArrivalIsLive(f, e);
    LiveMeaning(f.x, p, r, e.offer.full);
    if g.x.reader.Putting? { PutEndIs(g); }
  }

  lemma ArrivalIsLive(f: Flow, e: Event)
    requires ReplayOk(f.replay) && e.Arrive? && PassedOn(f, e)
    ensures Step(f, e) == f.(x := LiveHandOver(Admit(f.x, Arriving(f, e)), Arriving(f, e), e.offer.recipient, e.offer.full))
  {
    VerdictIs(f, Arriving(f, e), e.offer.recipient);
    hide ReplayOk, Advance, LiveHandOver, Admit;
  }

  lemma PutEndIs(f: Flow)
    requires ReplayOk(f.replay) && f.x.reader.Putting?
    ensures Step(f, PutEnds).x == ReaderResult(f.x, PutEnds)
  {
    ReaderEventStep(f, PutEnds);
  }

  lemma LiveMeaning(x: Exchanges, p: Publish, r: Recipient, full: bool)
    requires PidOk(p) && x.reader == Ready
    ensures var y := LiveHandOver(Admit(x, p), p, r, full);
      if p.qos == ExactlyOnce && AutoAck(r) then
        && y.delivered == x.delivered && y.unacked == x.unacked && y.wire == x.wire + [Pubrec(p)]
        && y.inflight == x.inflight[p.pid.value := InFlight(p, r, false)] && y.reader == Sending(SendDone)
      else if r.Subscription? && full then
        && y.delivered == x.delivered && y.wire == x.wire && y.unacked == x.unacked && y.inflight == x.inflight
        && y.reader.Putting? && PutOnce(y, ReaderResult(y, PutEnds), p, r)
      else PutOnce(x, y, p, r)
  {
    assert x.delivered + [] == x.delivered && x.wire + [] == x.wire;
    match p.qos
    case AtMostOnce => if r.Subscription? && full {}
    case AtLeastOnce => if r.Subscription? && full {}
    case ExactlyOnce => if r.Subscription? && full {}
  }

  /** `ack()`: the message waits no more, and its PUBACK or PUBREC goes out; nothing is delivered. */
  lemma AckMeaning(f: Flow, p: Publish)
    requires FlowOk(f) && p in f.x.unacked && PidOk(p) && p.qos != AtMostOnce
    ensures var g := Step(f, Ack(p));
      && g.x.unacked == f.x.unacked - {p} && g.x.delivered == f.x.delivered && g.x.reader == f.x.reader
      && if p.qos == AtLeastOnce then g.x.wire == f.x.wire + [Puback(p)] && g.x.inflight == f.x.inflight
         else
           && g.x.wire == f.x.wire + [Pubrec(p)] && p.pid.value !in g.x.pendingAck
           && g.x.inflight == f.x.inflight[p.pid.value := InFlight(p, f.x.unacked[p], true)]
  {
    hide FlowOk, Advance;
    FlowsAreReplays();
    ReaderEventStep(f, Ack(p));
  }

  /** PUBREL: PUBCOMP goes out and the exchange is over; a message that was not delivered yet goes to its own
    recipient, once, after that send. One for no exchange stops the read loop. */
  lemma PubrelMeaning(f: Flow, pid: int)
    requires FlowOk(f) && f.x.reader == Ready
    ensures pid !in f.x.inflight ==> Step(f, Pubrel(pid)) == f.(x := f.x.(reader := Stopped))
    ensures pid in f.x.inflight ==>
      var flight, g := f.x.inflight[pid], Step(f, Pubrel(pid));
      && g.x.wire == f.x.wire + [Pubcomp(flight.publish)] && g.x.inflight == f.x.inflight - {pid}
      && g.x.delivered == f.x.delivered
      && FlowOk(g)
      && Step(g, SendEnds(false)).x.delivered
         == f.x.delivered + (if flight.delivered then [] else DeliveryOf(flight.publish, flight.recipient))
      && Step(g, SendEnds(false)).x.reader == Ready
  {
    hide FlowOk, Step, ReaderResult;
    StepKeeps(f, Pubrel(pid));
    FlowsAreReplays();
    ReaderEventStep(f, Pubrel(pid));
    ReleaseMeaning(f.x, pid);
    if pid in f.x.inflight { ReaderEventStep(Step(f, Pubrel(pid)), SendEnds(false)); }
  }

  lemma ReleaseMeaning(x: Exchanges, pid: int)
    requires x.reader == Ready
    ensures pid !in x.inflight ==> ReaderResult(x, Pubrel(pid)) == x.(reader := Stopped)
    ensures pid in x.inflight ==>
      var flight, y := x.inflight[pid], ReaderResult(x, Pubrel(pid));
      && y.wire == x.wire + [Pubcomp(flight.publish)] && y.inflight == x.inflight - {pid} && y.delivered == x.delivered
      && ReaderResult(y, SendEnds(false)).delivered
         == x.delivered + (if flight.delivered then [] else DeliveryOf(flight.publish, flight.recipient))
      && ReaderResult(y, SendEnds(false)).reader == Ready
  {
    if pid in x.inflight {
      assert x.delivered + [] == x.delivered;
      if x.inflight[pid].delivered {}
    }
  }

  // ----- Over runs: nothing is lost -----

  ghost function PassedBy(f: Flow, e: Event): set<(Publish, Recipient)> {
    if e.Arrive? && PassedOn(f, e) && !e.offer.recipient.Nobody? then {(Arriving(f, e), e.offer.recipient)} else {}
  }

  /** Everything that was ever passed on to a recipient. */
  ghost function Passed(sessionPresent: bool, limit: nat, events: seq<Event>): set<(Publish, Recipient)> {
    if events == [] then {}
    else
      var before := events[..|events| - 1];
      Passed(sessionPresent, limit, before) + PassedBy(Run(sessionPresent, limit, before), events[|events| - 1])
  }

  /** Delivered, with the read loop, with it when it stopped, or in flight for its recipient with its PUBREC out. */
  ghost predicate Safe(x: Exchanges, lost: set<Publish>, d: (Publish, Recipient)) {
    || d in x.delivered || HeldByReader(x.reader, d) || d.0 in lost
    || (Deferred(d) && Recorded(x.inflight, d) && Pubrec(d.0) in x.wire)
  }

  /** A message of the live path: it was never buffered. */
  ghost predicate IsLive(f: Flow, d: (Publish, Recipient)) {
    d.0.serial < f.x.arrived && PidOk(d.0) && d.0 !in f.ledger.accepted
  }

  ghost predicate BrokenWereHeld(f: Flow) { forall p :: p in f.x.broken ==> p in f.ledger.accepted }

  lemma OwnRecordStays(x: Exchanges, y: Exchanges, lost: set<Publish>, d: (Publish, Recipient))
    requires Safe(x, lost, d) && x.delivered <= y.delivered && x.wire <= y.wire
    requires HeldByReader(x.reader, d) ==> d in y.delivered || HeldByReader(y.reader, d) || d.0 in lost
    requires Deferred(d) && Recorded(x.inflight, d) ==> Recorded(y.inflight, d) || HeldByReader(y.reader, d)
    ensures Safe(y, lost, d)
  {
    hide Recorded, HeldByReader, Deferred;
  }

  lemma PutShape(x: Exchanges, p: Publish, r: Recipient, afterPut: AfterPut)
    ensures var y := AfterLivePut(HandOver(x, p, r), p, afterPut);
      && y.delivered == x.delivered + DeliveryOf(p, r) && x.wire <= y.wire && y.inflight == x.inflight
      && y.broken == x.broken && y.arrived == x.arrived
      && (!r.Nobody? ==> (p, r) in y.delivered)
  {
    if r.Nobody? {
      assert x.delivered + [] == x.delivered;
    } else {
      assert (x.delivered + [(p, r)])[|x.delivered|] == (p, r);
    }
    if afterPut.ThenPuback? {}
  }

  lemma PutSafe(x: Exchanges, lost: set<Publish>, d: (Publish, Recipient), p: Publish, r: Recipient, afterPut: AfterPut)
    requires Safe(x, lost, d) && (HeldByReader(x.reader, d) ==> d == (p, r)) && !d.1.Nobody?
    ensures Safe(AfterLivePut(HandOver(x, p, r), p, afterPut), lost, d)
  {
    hide Recorded, HeldByReader, AfterLivePut, HandOver, Safe;
    PutShape(x, p, r, afterPut);
    OwnRecordStays(x, AfterLivePut(HandOver(x, p, r), p, afterPut), lost, d);
  }

  lemma LivePutSafe(x: Exchanges, lost: set<Publish>, d: (Publish, Recipient), p: Publish, r: Recipient, full: bool,
                    afterPut: AfterPut)
    requires Safe(x, lost, d) && (HeldByReader(x.reader, d) ==> d == (p, r)) && !d.1.Nobody?
    ensures Safe(LivePut(x, p, r, full, afterPut), lost, d)
  {
    hide Recorded, AfterLivePut, HandOver, Safe;
    if r.Subscription? && full {
      OwnRecordStays(x, x.(reader := Putting(p, r, afterPut)), lost, d);
    } else {
      PutSafe(x, lost, d, p, r, afterPut);
    }
  }

  // ----- Every event keeps the live messages safe -----

  lemma ReleaseSafe(x: Exchanges, lost: set<Publish>, d: (Publish, Recipient), pid: int)
    requires Safe(x, lost, d) && pid in x.inflight && x.reader == Ready && FlightsOk(x.inflight, x.wire)
    ensures Safe(TakePubrel(x, pid), lost, d)
  {
    OwnRecordStays(x, TakePubrel(x, pid), lost, d);
  }

  lemma FlightIsNotPending(x: Exchanges, d: (Publish, Recipient), waiting: set<Publish>, inHand: Option<Publish>)
    requires TablesDisjoint(x.inflight, x.pendingAck, x.broken, waiting, inHand) && d.0 !in x.broken
    requires Deferred(d) && Recorded(x.inflight, d)
    ensures d.0.pid.value !in x.pendingAck
  {
    var pid := d.0.pid.value;
    assert pid in x.inflight && x.inflight[pid].publish == d.0;
  }

  /** A message that waits for its `ack()` does not share its identifier with a live flight. */
  lemma AckSafe(x: Exchanges, lost: set<Publish>, d: (Publish, Recipient), p: Publish, waiting: set<Publish>,
                inHand: Option<Publish>)
    requires ExchangesOk(x, waiting, inHand) && Safe(x, lost, d) && p in x.unacked && p.pid.Some? && d.0 !in x.broken
    ensures Safe(Acknowledge(x, p), lost, d)
  {
    hide AllSeen, FlightsOk, PubrecsOk, PubrecSent, OpenTracked, DistinctIds, Budget, TablesDisjoint;
    if p.qos == ExactlyOnce {
      assert IsQos2(p) && p.pid.value in x.pendingAck;
      if Deferred(d) && Recorded(x.inflight, d) { FlightIsNotPending(x, d, waiting, inHand); }
    }
    OwnRecordStays(x, Acknowledge(x, p), lost, d);
  }

  lemma ReaderEventSafe(x: Exchanges, e: Event, lost: set<Publish>, d: (Publish, Recipient), waiting: set<Publish>,
                        inHand: Option<Publish>)
    requires ExchangesOk(x, waiting, inHand) && IsReaderEvent(e) && Safe(x, lost, d) && d.0 !in x.broken && !d.1.Nobody?
    requires e.ReaderFails? ==> ReaderHeld(x.reader) <= lost
    ensures Safe(ReaderResult(x, e), lost, d)
  {
    hide Safe, AllSeen, AcksOwned, PubrecsOk, PubrecSent, OpenTracked, DistinctIds, Budget, TablesDisjoint, Recorded;
    hide TakePubrel, Acknowledge, LivePut, AfterLivePut, HandOver;
    match e
    case Pubrel(id) =>
      if x.reader == Ready {
        if id in x.inflight { ReleaseSafe(x, lost, d, id); } else { OwnRecordStays(x, x.(reader := Stopped), lost, d); }
      }
    case PutEnds => if x.reader.Putting? { PutSafe(x, lost, d, x.reader.publish, x.reader.recipient, x.reader.afterPut); }
    case SendEnds(full) =>
      if x.reader.Sending? {
        if x.reader.afterSend.ThenDeliver? {
          LivePutSafe(x, lost, d, x.reader.afterSend.publish, x.reader.afterSend.recipient, full, PutDone);
        } else {
          OwnRecordStays(x, x.(reader := Ready), lost, d);
        }
      }
    case ReaderFails => OwnRecordStays(x, x.(reader := Stopped), lost, d);
    case Ack(p) => if p in x.unacked && p.pid.Some? { AckSafe(x, lost, d, p, waiting, inHand); }
  }

  /** A new arrival leaves the others alone. */
  lemma LiveLeavesSafe(x: Exchanges, lost: set<Publish>, d: (Publish, Recipient), p: Publish, r: Recipient, full: bool)
    requires Safe(x, lost, d) && PidOk(p) && x.reader == Ready && (IsQos2(p) ==> p.pid.value !in x.inflight) && !d.1.Nobody?
    ensures Safe(LiveHandOver(Admit(x, p), p, r, full), lost, d)
  {
    hide LivePut;
    var y := Admit(x, p);
    OwnRecordStays(x, y, lost, d);
    match p.qos
    case AtMostOnce => LivePutSafe(y, lost, d, p, r, full, PutDone);
    case AtLeastOnce => LivePutSafe(y, lost, d, p, r, full, if AutoAck(r) then ThenPuback else PutDone);
    case ExactlyOnce =>
      if AutoAck(r) {
        OwnRecordStays(y, RecordFlight(y, p, r, false).(reader := Sending(SendDone)), lost, d);
      } else {
        var z := y.(pendingAck := y.pendingAck + {p.pid.value});
        OwnRecordStays(y, z, lost, d);
        LivePutSafe(z, lost, d, p, r, full, PutDone);
      }
  }

  lemma ArrivalLeavesSafe(f: Flow, e: Event, lost: set<Publish>, d: (Publish, Recipient))
    requires FlowOk(f) && e.Arrive? && Safe(f.x, lost, d) && !d.1.Nobody?
    ensures Safe(Step(f, e).x, lost, d)
  {
    hide FlowOk, Advance, Safe, LiveHandOver, Admit, HoldIn, JudgeIn;
    FlowsAreReplays();
    var p := Arriving(f, e);
    var x := f.x;
    if x.reader == Ready {
      OwnRecordStays(x, x.(reader := Stopped), lost, d);
      if PidOk(p) {
        AdmittedSafe(x, lost, d, p);
        if IsQos2(p) && p.pid.value in x.inflight { ResentSafe(x, lost, d, x.inflight[p.pid.value].publish); }
        else { LiveLeavesSafe(x, lost, d, p, e.offer.recipient, e.offer.full); }
      }
    }
  }

  lemma AdmittedSafe(x: Exchanges, lost: set<Publish>, d: (Publish, Recipient), p: Publish)
    requires Safe(x, lost, d)
    ensures Safe(Admit(x, p), lost, d)
  {
    OwnRecordStays(x, Admit(x, p), lost, d);
  }

  lemma ResentSafe(x: Exchanges, lost: set<Publish>, d: (Publish, Recipient), p: Publish)
    requires Safe(x, lost, d) && x.reader == Ready
    ensures Safe(x.(wire := x.wire + [Pubrec(p)], reader := Sending(SendDone)), lost, d)
  {
    OwnRecordStays(x, x.(wire := x.wire + [Pubrec(p)], reader := Sending(SendDone)), lost, d);
  }

  lemma {:induction false} AdvanceExtendsWire(b: Buffer, x: Exchanges, l: Ledger, unmatched: seq<Publish>,
                                              pending: seq<Publish>,
                                              expiring: bool, choose: Publish -> Offer)
    requires PassOk(b, unmatched, pending)
    ensures x.wire <= Advance(b, x, l, unmatched, pending, expiring, choose).x.wire
    decreases |b.publishes|, |pending|
  {
    hide CountersOk, HeldOk;
    if pending == [] {
      if b.publishes != [] {
        PassTurns(b, unmatched);
        AdvanceExtendsWire(b.(publishes := []), x, l, unmatched, b.publishes, expiring, choose);
      }
    } else {
      var p := pending[0];
      var to := choose(p).recipient;
      PassLeaves(b, unmatched, pending);
      PassTakes(b, unmatched, pending);
      if !Deliverable(choose(p)) {
        AdvanceExtendsWire(b, x, l, unmatched + [p], pending[1..], expiring, choose);
      } else if !Suspends(p, to) {
        AdvanceExtendsWire(Discard(b, p), ReplayHandOver(x, p, to), Hand(l, p, to), unmatched, pending[1..], expiring, choose);
      }
    }
  }

  /** A pass records the flight of a held message only, and that shares its identifier with no live one. */
  lemma RecordingLeavesSafe(x: Exchanges, y: Exchanges, waiting: set<Publish>, p: Publish, r: Recipient, lost: set<Publish>,
                            d: (Publish, Recipient))
    requires ExchangesOk(x, waiting, None) && p in waiting && IsQos2(p) && Safe(x, lost, d) && d.0 !in waiting
    requires y.inflight == x.inflight[p.pid.value := InFlight(p, r, false)]
    requires y.reader == x.reader && x.delivered <= y.delivered && x.wire <= y.wire
    ensures Safe(y, lost, d)
  {
    hide AllSeen, FlightsOk, AcksOwned, PubrecsOk, PubrecSent, OpenTracked, DistinctIds, Budget;
    OwnRecordStays(x, y, lost, d);
  }

  lemma PassLeavesSafe(f: Flow, b: Buffer, l: Ledger, unmatched: seq<Publish>, pending: seq<Publish>, expiring: bool,
                       choose: Publish -> Offer, lost: set<Publish>, d: (Publish, Recipient))
    requires PassKept(b, f.x, l, unmatched, pending) && Safe(f.x, lost, d) && d.0 !in unmatched + pending + b.publishes
    ensures var r := Advance(b, f.x, l, unmatched, pending, expiring, choose); Safe(Conclude(f, r, expiring).x, lost, d)
  {
    hide ExchangesOk, LedgerOk, PassOk, Advance, Safe;
    var r := Advance(b, f.x, l, unmatched, pending, expiring, choose);
    AdvanceExtends(b, f.x, l, unmatched, pending, expiring, choose);
    AdvanceRecords(b, f.x, l, unmatched, pending, expiring, choose);
    AdvanceExtendsWire(b, f.x, l, unmatched, pending, expiring, choose);
    var waiting := Elements(unmatched + pending + b.publishes);
    if r.frame.Frame? && r.frame.inHand.qos == ExactlyOnce {
      RecordingLeavesSafe(f.x, r.x, waiting, r.frame.inHand, r.frame.recipient, lost, d);
    } else {
      OwnRecordStays(f.x, r.x, lost, d);
    }
    OwnRecordStays(r.x, Conclude(f, r, expiring).x, lost, d);
  }

  /** The events of a pass, as passes. */
  lemma DrainIs(f: Flow, e: Event)
    requires FlowOk(f) && e.Drain? && f.replay.Buffering? && f.replay.frame.NoFrame?
    ensures PassOk(f.replay.buffer, [], [])
    ensures Step(f, e) == Conclude(f, Advance(f.replay.buffer, f.x, f.ledger, [], [], e.expiring, e.choose), e.expiring)
  {
    StartsAPass(f);
    hide FlowOk, Advance, Conclude, PassOk;
    FlowsAreReplays();
  }

  lemma DeliveryEndIs(f: Flow, e: Event)
    requires FlowOk(f) && e.DeliveryEnds? && Suspended(f)
    ensures var fr, b := f.replay.frame, f.replay.buffer;
      && fr.inHand.topic in b.topics && PassOk(Discard(b, fr.inHand), fr.unmatched, fr.pending)
      && Step(f, e) == Conclude(f, Advance(Discard(b, fr.inHand), f.x, Hand(f.ledger, fr.inHand, fr.recipient),
                                           fr.unmatched, fr.pending, fr.expiring, e.choose), fr.expiring)
  {
    hide FlowOk, Advance, Conclude, PassOk, Discard, Forget, Taken, Elements, Resting, Route;
    FlowsAreReplays();
    ResumesAPass(f);
  }

  lemma NoPass(f: Flow, e: Event)
    requires ReplayOk(f.replay) && ((e.Drain? && !(f.replay.Buffering? && f.replay.frame.NoFrame?)) || (e.DeliveryEnds? && !Suspended(f)))
    ensures Step(f, e).x == f.x
  {}

  lemma PassEventLeavesSafe(f: Flow, e: Event, lost: set<Publish>, d: (Publish, Recipient))
    requires FlowOk(f) && (e.Drain? || e.DeliveryEnds?) && Safe(f.x, lost, d) && d.0 !in f.ledger.accepted
    ensures Safe(Step(f, e).x, lost, d)
  {
    hide FlowOk, Step, Advance, Conclude, PassKept, PassOk, Safe;
    FlowsAreReplays();
    HeldAreAccepted(f);
    if e.Drain? && f.replay.Buffering? && f.replay.frame.NoFrame? {
      DrainKept(f);
      DrainIs(f, e);
      assert [] + [] + f.replay.buffer.publishes == Held(f.replay);
      PassLeavesSafe(f, f.replay.buffer, f.ledger, [], [], e.expiring, e.choose, lost, d);
    } else if e.DeliveryEnds? && Suspended(f) {
      ResumedKept(f);
      DeliveryEndIs(f, e);
      AroundInHand(f.replay);
      var fr := f.replay.frame;
      PassLeavesSafe(f, Discard(f.replay.buffer, fr.inHand), Hand(f.ledger, fr.inHand, fr.recipient), fr.unmatched, fr.pending,
                     fr.expiring, e.choose, lost, d);
    } else {
      NoPass(f, e);
    }
  }

  lemma HeldAreAccepted(f: Flow)
    requires FlowOk(f)
    ensures forall p :: p in Held(f.replay) ==> p in f.ledger.accepted
  {}

  lemma EndsLeaveSafe(f: Flow, e: Event, lost: set<Publish>, d: (Publish, Recipient))
    requires FlowOk(f) && (e.DeliveryFails? || e.SessionEnds?) && Safe(f.x, lost, d)
    ensures Safe(Step(f, e).x, lost, d)
  {
    hide FlowOk, Advance, StillOpen, Taken, Resting, Elements;
    FlowsAreReplays();
    OwnRecordStays(f.x, Step(f, e).x, lost, d);
  }

  lemma StepLeavesSafe(f: Flow, e: Event, lost: set<Publish>, d: (Publish, Recipient))
    requires FlowOk(f) && BrokenWereHeld(f) && Safe(f.x, lost, d) && d.0 !in f.ledger.accepted && !d.1.Nobody?
    requires e.ReaderFails? ==> ReaderHeld(f.x.reader) <= lost
    ensures Safe(Step(f, e).x, lost, d)
  {
    FlowParts(f);
    hide FlowOk, Step, Safe, ReaderResult, ExchangesOk, ReaderHeld;
    FlowsAreReplays();
    if e.Arrive? {
      ArrivalLeavesSafe(f, e, lost, d);
    } else if e.Drain? || e.DeliveryEnds? {
      PassEventLeavesSafe(f, e, lost, d);
    } else if IsReaderEvent(e) {
      ReaderEventStep(f, e);
      ReaderEventSafe(f.x, e, lost, d, Elements(Resting(f.replay)), InHand(f.replay));
    } else {
      EndsLeaveSafe(f, e, lost, d);
    }
  }

  lemma FlowParts(f: Flow)
    requires FlowOk(f)
    ensures ExchangesOk(f.x, Elements(Resting(f.replay)), InHand(f.replay))
  {}

  // ----- The ledger of the live path -----

  lemma StepAccepts(f: Flow, e: Event)
    requires FlowOk(f)
    ensures var g := Step(f, e);
      && f.ledger.accepted <= g.ledger.accepted && f.x.arrived <= g.x.arrived
      && (forall p :: p in g.ledger.accepted && p !in f.ledger.accepted ==>
            e.Arrive? && p == Arriving(f, e) && !PassedOn(f, e) && g.x.arrived == f.x.arrived + 1)
      && (e.Arrive? && PassedOn(f, e) ==> g.x.arrived == f.x.arrived + 1)
      && (forall p :: p in g.x.broken ==> p in f.x.broken || p in Held(f.replay))
  {
    hide FlowOk, Step;
    if e.Arrive? { ArrivalAccepts(f, e); }
    else if e.Drain? || e.DeliveryEnds? { PassAccepts(f, e); }
    else { OthersAccept(f, e); }
  }

  lemma ArrivalAccepts(f: Flow, e: Event)
    requires FlowOk(f) && e.Arrive?
    ensures var g := Step(f, e);
      && f.ledger.accepted <= g.ledger.accepted && f.x.arrived <= g.x.arrived && g.x.broken == f.x.broken
      && (forall p :: p in g.ledger.accepted && p !in f.ledger.accepted ==>
            p == Arriving(f, e) && !PassedOn(f, e) && g.x.arrived == f.x.arrived + 1)
      && (PassedOn(f, e) ==> g.x.arrived == f.x.arrived + 1)
  {
    hide FlowOk, Advance, LiveHandOver, HoldIn, JudgeIn;
    FlowsAreReplays();
    VerdictIs(f, Arriving(f, e), e.offer.recipient);
    var p := Arriving(f, e);
    if PidOk(p) {
      AdmittedMore(f.x, p, e.offer.recipient, e.offer.full);
      LiveBreaksNothing();
    }
  }

  lemma PassAccepts(f: Flow, e: Event)
    requires FlowOk(f) && (e.Drain? || e.DeliveryEnds?)
    ensures var g := Step(f, e); g.ledger.accepted == f.ledger.accepted && f.x.arrived == g.x.arrived && g.x.broken == f.x.broken
  {
    hide FlowOk, Advance, Conclude;
    FlowsAreReplays();
    if (e.Drain? && f.replay.Buffering? && f.replay.frame.NoFrame?) || (e.DeliveryEnds? && Suspended(f)) { PassIsPass(f, e); }
  }

  lemma OthersAccept(f: Flow, e: Event)
    requires FlowOk(f) && !e.Arrive? && !e.Drain? && !e.DeliveryEnds?
    ensures var g := Step(f, e);
      && g.ledger.accepted == f.ledger.accepted && f.x.arrived == g.x.arrived
      && (forall p :: p in g.x.broken ==> p in f.x.broken || p in Held(f.replay))
  {
    hide FlowOk, Advance, Taken, Elements, StillOpen;
    FlowsAreReplays();
  }

  ghost predicate PassedOk(f: Flow, passed: set<(Publish, Recipient)>, lost: set<Publish>) {
    && BrokenWereHeld(f)
    && forall d :: d in passed ==> IsLive(f, d) && !d.1.Nobody? && Safe(f.x, lost, d)
  }

  lemma NewIsSafe(f: Flow, e: Event, lost: set<Publish>)
    requires FlowOk(f) && e.Arrive? && PassedOn(f, e) && !e.offer.recipient.Nobody?
    ensures Safe(Step(f, e).x, lost, (Arriving(f, e), e.offer.recipient))
  {
    hide FlowOk, Step;
    FlowsAreReplays();
    ArrivalMeaning(f, e);
    ArrivalHolds(f, e);
    var p, r, g := Arriving(f, e), e.offer.recipient, Step(f, e);
    if !(p.qos == ExactlyOnce && AutoAck(r)) && !(r.Subscription? && e.offer.full) {
      assert g.x.delivered[|f.x.delivered|] == (p, r);
    } else if p.qos == ExactlyOnce && AutoAck(r) {
      assert g.x.wire[|f.x.wire|] == Pubrec(p);
    }
  }

  lemma ArrivalHolds(f: Flow, e: Event)
    requires FlowOk(f) && e.Arrive? && PassedOn(f, e)
    ensures Step(f, e).x.reader.Putting? ==> HeldByReader(Step(f, e).x.reader, (Arriving(f, e), e.offer.recipient))
  {
    hide FlowOk, Advance;
    FlowsAreReplays();
    ArrivalIsLive(f, e);
  }

  lemma MoreLost(x: Exchanges, lost: set<Publish>, more: set<Publish>, d: (Publish, Recipient))
    requires Safe(x, lost, d) && lost <= more
    ensures Safe(x, more, d)
  {}

  lemma StepKeepsPassed(f: Flow, e: Event, passed: set<(Publish, Recipient)>, lost: set<Publish>, more: set<Publish>)
    requires FlowOk(f) && PassedOk(f, passed, lost) && lost <= more && (e.ReaderFails? ==> ReaderHeld(f.x.reader) <= more)
    ensures PassedOk(Step(f, e), passed + PassedBy(f, e), more)
  {
    HeldAreAccepted(f);
    AcceptedArrived(f);
    hide FlowOk, Step, Safe, PassedOn;
    var g := Step(f, e);
    StepAccepts(f, e);
    forall d | d in passed + PassedBy(f, e) ensures IsLive(g, d) && !d.1.Nobody? && Safe(g.x, more, d) {
      if d in passed {
        MoreLost(f.x, lost, more, d);
        StepLeavesSafe(f, e, more, d);
      } else {
        NewIsSafe(f, e, more);
        PassedPidOk(f, e);
      }
    }
  }

  lemma PassedPidOk(f: Flow, e: Event)
    requires e.Arrive? && PassedOn(f, e)
    ensures PidOk(Arriving(f, e))
  {}

  lemma AcceptedArrived(f: Flow)
    requires FlowOk(f)
    ensures forall p :: p in f.ledger.accepted ==> p.serial < f.x.arrived
  {}

  lemma {:induction false} RunsKeepPassed(sessionPresent: bool, limit: nat, events: seq<Event>)
    ensures PassedOk(Run(sessionPresent, limit, events), Passed(sessionPresent, limit, events), Excused(sessionPresent, limit, events).lost)
  {
    hide FlowOk, Step, Safe, PassedBy, UnclaimedBy, ReaderHeld;
    if events == [] {
      NothingPassed(sessionPresent, limit);
    } else {
      var before, e := events[..|events| - 1], events[|events| - 1];
      RunsKeepPassed(sessionPresent, limit, before);
      StepKeepsPassed(Run(sessionPresent, limit, before), e, Passed(sessionPresent, limit, before),
                      Excused(sessionPresent, limit, before).lost, Excused(sessionPresent, limit, events).lost);
    }
  }

  lemma NothingPassed(sessionPresent: bool, limit: nat)
    ensures PassedOk(NewFlow(sessionPresent, limit), {}, {})
  {}

  /** In every run: whatever was passed on to a recipient is delivered to that recipient, or with the read loop on its
    way to it, or in flight for it with its PUBREC out, or was with the read loop when that stopped. */
  lemma NoPassedMessageIsLost(sessionPresent: bool, limit: nat, events: seq<Event>, p: Publish, r: Recipient)
    requires (p, r) in Passed(sessionPresent, limit, events)
    ensures var x := Run(sessionPresent, limit, events).x;
      || (p, r) in x.delivered || HeldByReader(x.reader, (p, r)) || LostAt(sessionPresent, limit, events, p)
      || (IsQos2(p) && AutoAck(r) && p.pid.value in x.inflight && x.inflight[p.pid.value] == InFlight(p, r, false) && Pubrec(p) in x.wire)
  {
    hide FlowOk, Run, Passed, Excused, LostAt;
    RunsKeepPassed(sessionPresent, limit, events);
    LostAtMostOne(sessionPresent, limit, events);
  }
}
