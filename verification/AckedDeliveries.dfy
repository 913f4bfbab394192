/** The other half of QoS 1 and 2: what was acknowledged has reached the application, and exactly when
  a message is lost although its exchange was completed. */
module AckedDeliveries {
  import opened Prelude
  import opened ReplayBuffer
  import opened InboundExchanges
  import opened Inbound
  import opened InboundOrder
  import opened DrainOrder
  import opened Interruptions

  predicate Got(delivered: HandOvers, p: Publish) { Times(delivered, p) >= 1 }

  /** Messages that nobody was selected for, and those in the read loop's hands when it stopped. */
  datatype Excuses = Excuses(unclaimed: set<Publish>, lost: set<Publish>)

  /** Acknowledged messages were delivered, or nobody was there to take them; a completed QoS 2 exchange
    may also still have its message in the hands of the read loop, or have lost it there. */
  ghost predicate AckedOk(x: Exchanges, excused: Excuses) {
    && (forall p :: Puback(p) in x.wire ==> Got(x.delivered, p) || p in excused.unclaimed)
    && (forall p :: Pubcomp(p) in x.wire ==>
          Got(x.delivered, p) || p in excused.unclaimed || ReaderHolds(x.reader, p) || p in excused.lost)
    && (forall p :: p in x.unacked ==> Got(x.delivered, p))
    && (forall pid :: pid in x.inflight ==>
          (x.inflight[pid].delivered ==> Got(x.delivered, x.inflight[pid].publish))
          && (x.inflight[pid].recipient.Nobody? && !x.inflight[pid].delivered ==> x.inflight[pid].publish in excused.unclaimed))
    && ReaderClaims(x.reader, excused)
  }

  ghost predicate ReaderClaims(reader: Reader, excused: Excuses) {
    match reader
    case Putting(p, r, _) => r.Nobody? ==> p in excused.unclaimed
    case Sending(ThenDeliver(p, r)) => r.Nobody? ==> p in excused.unclaimed
    case _ => true
  }

  function ReaderHeld(reader: Reader): set<Publish> {
    match reader
    case Putting(p, _, _) => {p}
    case Sending(ThenDeliver(p, _)) => {p}
    case _ => {}
  }

  lemma HandOverGets(x: Exchanges, p: Publish, r: Recipient)
    ensures forall q :: Got(x.delivered, q) ==> Got(HandOver(x, p, r).delivered, q)
    ensures !r.Nobody? ==> Got(HandOver(x, p, r).delivered, p)
  {
    if !r.Nobody? {
      forall q ensures Times(x.delivered + [(p, r)], q) == Times(x.delivered, q) + One(p == q) {
        TimesAppend(x.delivered, p, r, q);
      }
    }
  }

  lemma HandOverAcked(x: Exchanges, p: Publish, r: Recipient, excused: Excuses)
    requires AckedOk(x, excused)
    ensures AckedOk(HandOver(x, p, r), excused)
  {
    hide Got;
    HandOverGets(x, p, r);
  }

  lemma PubackAcked(x: Exchanges, p: Publish, excused: Excuses)
    requires AckedOk(x, excused) && (Got(x.delivered, p) || p in excused.unclaimed)
    ensures AckedOk(x.(wire := x.wire + [Puback(p)]), excused)
  {
    hide Got;
  }

  /** The read loop lets go of what it delivered, or had nothing. */
  lemma ReaderLetsGo(x: Exchanges, reader: Reader, excused: Excuses)
    requires AckedOk(x, excused) && ReaderClaims(reader, excused)
    requires forall p :: ReaderHolds(x.reader, p) ==>
      Got(x.delivered, p) || p in excused.unclaimed || ReaderHolds(reader, p) || p in excused.lost
    ensures AckedOk(x.(reader := reader), excused)
  {
    hide Got;
  }

  lemma PutAcked(x: Exchanges, p: Publish, r: Recipient, full: bool, afterPut: AfterPut, excused: Excuses)
    requires AckedOk(x, excused) && (r.Nobody? ==> p in excused.unclaimed) && x.reader != Stopped
    requires forall q :: ReaderHolds(x.reader, q) ==> q == p
    ensures AckedOk(LivePut(x, p, r, full, afterPut), excused)
    ensures AckedOk(AfterLivePut(HandOver(x, p, r), p, afterPut), excused)
  {
    hide AckedOk, Got;
    if r.Subscription? && full { ReaderLetsGo(x, Putting(p, r, afterPut), excused); }
    var y := HandOver(x, p, r);
    HandOverAcked(x, p, r, excused);
    HandOverGets(x, p, r);
    if afterPut.ThenPuback? {
      PubackAcked(y, p, excused);
      ReaderLetsGo(y.(wire := y.wire + [Puback(p)]), Sending(SendDone), excused);
    } else {
      ReaderLetsGo(y, Ready, excused);
    }
  }

  lemma PubrelAcked(x: Exchanges, pid: int, excused: Excuses)
    requires AckedOk(x, excused) && pid in x.inflight && x.reader == Ready
    ensures AckedOk(TakePubrel(x, pid), excused)
  {
    hide Got;
  }

  lemma AckAcked(x: Exchanges, p: Publish, excused: Excuses)
    requires AckedOk(x, excused) && p in x.unacked && p.pid.Some?
    ensures AckedOk(Acknowledge(x, p), excused)
  {
    hide Got;
  }

  lemma ReaderEventAcked(x: Exchanges, e: Event, excused: Excuses)
    requires AckedOk(x, excused) && IsReaderEvent(e) && (e.ReaderFails? ==> ReaderHeld(x.reader) <= excused.lost)
    ensures AckedOk(ReaderResult(x, e), excused)
  {
    hide AckedOk, Got, TakePubrel, Acknowledge, LivePut, AfterLivePut, HandOver;
    ClaimsOf(x, excused);
    match e
    case Pubrel(id) =>
      if x.reader == Ready {
        if id in x.inflight { PubrelAcked(x, id, excused); } else { ReaderLetsGo(x, Stopped, excused); }
      }
    case PutEnds => if x.reader.Putting? { PutAcked(x, x.reader.publish, x.reader.recipient, false, x.reader.afterPut, excused); }
    case SendEnds(full) =>
      if x.reader.Sending? {
        if x.reader.afterSend.ThenDeliver? {
          PutAcked(x, x.reader.afterSend.publish, x.reader.afterSend.recipient, full, PutDone, excused);
        } else {
          ReaderLetsGo(x, Ready, excused);
        }
      }
    case ReaderFails => ReaderLetsGo(x, Stopped, excused);
    case Ack(p) => if p in x.unacked && p.pid.Some? { AckAcked(x, p, excused); }
  }

  lemma ClaimsOf(x: Exchanges, excused: Excuses)
    requires AckedOk(x, excused)
    ensures ReaderClaims(x.reader, excused)
  {}

  lemma RecordAcked(x: Exchanges, p: Publish, r: Recipient, excused: Excuses)
    requires AckedOk(x, excused) && p.pid.Some? && (r.Nobody? ==> p in excused.unclaimed)
    ensures AckedOk(RecordFlight(x, p, r, false), excused)
  {
    hide Got;
  }

  lemma ReplayAcked(x: Exchanges, p: Publish, r: Recipient, excused: Excuses)
    requires AckedOk(x, excused) && PidOk(p) && !r.Nobody?
    ensures AckedOk(ReplayHandOver(x, p, r), excused)
  {
    hide AckedOk, Got, HandOver;
    HandOverAcked(x, p, r, excused);
    HandOverGets(x, p, r);
    if p.qos == AtLeastOnce && AutoAck(r) {
      PubackAcked(HandOver(x, p, r), p, excused);
    } else if p.qos == ExactlyOnce && AutoAck(r) {
      RecordAcked(x, p, r, excused);
    } else if p.qos == ExactlyOnce {
      PendingIgnored(x, x.(pendingAck := x.pendingAck + {p.pid.value}), excused);
      HandOverAcked(x.(pendingAck := x.pendingAck + {p.pid.value}), p, r, excused);
    }
  }

  /** The other parts of the tables do not matter here. */
  lemma PendingIgnored(x: Exchanges, y: Exchanges, excused: Excuses)
    requires AckedOk(x, excused)
    requires y.wire == x.wire && y.delivered == x.delivered && y.reader == x.reader
    requires y.unacked == x.unacked && y.inflight == x.inflight
    ensures AckedOk(y, excused)
  {}

  lemma {:induction false} PassAcked(b: Buffer, x: Exchanges, l: Ledger, unmatched: seq<Publish>, pending: seq<Publish>,
                                     expiring: bool, choose: Publish -> Offer, excused: Excuses)
    requires PassOk(b, unmatched, pending) && AckedOk(x, excused)
    ensures AckedOk(Advance(b, x, l, unmatched, pending, expiring, choose).x, excused)
    decreases |b.publishes|, |pending|
  {
    hide CountersOk, HeldOk, ReplayHandOver, AckedOk;
    if pending == [] {
      if b.publishes != [] {
        PassTurns(b, unmatched);
        PassAcked(b.(publishes := []), x, l, unmatched, b.publishes, expiring, choose, excused);
      }
    } else {
      var p := pending[0];
      var to := choose(p).recipient;
      PassLeaves(b, unmatched, pending);
      PassTakes(b, unmatched, pending);
      if !Deliverable(choose(p)) {
        PassAcked(b, x, l, unmatched + [p], pending[1..], expiring, choose, excused);
      } else {
        ReplayAcked(x, p, to, excused);
        if !Suspends(p, to) {
          PassAcked(Discard(b, p), ReplayHandOver(x, p, to), Hand(l, p, to), unmatched, pending[1..], expiring, choose, excused);
        }
      }
    }
  }

  // ----- Over runs -----

  /** The message an arrival starts, when it goes through the read loop and nobody takes it. */
  ghost function UnclaimedBy(f: Flow, e: Event): set<Publish>
    requires ReplayOk(f.replay)
  {
    match e
    case Arrive(topic, qos, pid, offer) =>
      var p := Publish(f.x.arrived, topic, qos, if qos == AtMostOnce then None else pid);
      if offer.recipient.Nobody? && JudgeIn(f.replay, f.limit, p, Nobody) == Pass && Step(f, e).x.arrived > f.x.arrived
      then {p} else {}
    case _ => {}
  }

  /** What one event excuses. */
  ghost function ExcusedBy(f: Flow, e: Event): Excuses
    requires ReplayOk(f.replay)
  {
    Excuses(UnclaimedBy(f, e), if e.ReaderFails? then ReaderHeld(f.x.reader) else {})
  }

  ghost function Excused(sessionPresent: bool, limit: nat, events: seq<Event>): Excuses {
    if events == [] then Excuses({}, {})
    else
      var before := Excused(sessionPresent, limit, events[..|events| - 1]);
      var now := ExcusedBy(Run(sessionPresent, limit, events[..|events| - 1]), events[|events| - 1]);
      Excuses(before.unclaimed + now.unclaimed, before.lost + now.lost)
  }

  lemma MoreExcused(x: Exchanges, some: Excuses, more: Excuses)
    requires AckedOk(x, some) && some.unclaimed <= more.unclaimed && some.lost <= more.lost
    ensures AckedOk(x, more)
  {}

  lemma LiveAcked(x: Exchanges, p: Publish, r: Recipient, full: bool, excused: Excuses)
    requires AckedOk(x, excused) && PidOk(p) && x.reader == Ready && (r.Nobody? ==> p in excused.unclaimed)
    ensures AckedOk(LiveHandOver(Admit(x, p), p, r, full), excused)
  {
    hide AckedOk, LivePut;
    var y := Admit(x, p);
    PendingIgnored(x, y, excused);
    if p.qos != ExactlyOnce {
      PutAcked(y, p, r, full, if p.qos == AtLeastOnce && AutoAck(r) then ThenPuback else PutDone, excused);
    } else if AutoAck(r) {
      RecordAcked(y, p, r, excused);
      ReaderLetsGo(RecordFlight(y, p, r, false), Sending(SendDone), excused);
    } else {
      var z := y.(pendingAck := y.pendingAck + {p.pid.value});
      PendingIgnored(y, z, excused);
      PutAcked(z, p, r, full, PutDone, excused);
    }
  }

  lemma ResentAcked(x: Exchanges, p: Publish, excused: Excuses)
    requires AckedOk(x, excused) && x.reader == Ready
    ensures AckedOk(x.(wire := x.wire + [Pubrec(p)], reader := Sending(SendDone)), excused)
  {}

  lemma ArriveAcked(f: Flow, e: Event, excused: Excuses)
    requires FlowOk(f) && AckedOk(f.x, excused) && e.Arrive? && UnclaimedBy(f, e) <= excused.unclaimed
    ensures AckedOk(Step(f, e).x, excused)
  {
    hide ExchangesOk, LedgerOk, LimitOk, AcceptedSeen, ReplayOk, Advance, AckedOk, LiveHandOver, HoldIn;
    var p := Publish(f.x.arrived, e.topic, e.qos, if e.qos == AtMostOnce then None else e.pid);
    if f.x.reader == Ready {
      if !PidOk(p) {
        ReaderLetsGo(f.x, Stopped, excused);
      } else if e.qos == ExactlyOnce && e.pid.value in f.x.inflight {
        ResentAcked(f.x, f.x.inflight[e.pid.value].publish, excused);
      } else if e.qos == ExactlyOnce && e.pid.value in f.x.pendingAck {
      } else if e.qos != AtMostOnce && HeldId(f.replay, e.pid.value) {
      } else {
        ReaderLetsGo(f.x, Stopped, excused);
        PendingIgnored(f.x, Admit(f.x, p), excused);
        AdmittedMore(f.x, p, e.offer.recipient, e.offer.full);
        if JudgeIn(f.replay, f.limit, p, e.offer.recipient) == Pass && Step(f, e).x.arrived > f.x.arrived {
          LiveAcked(f.x, p, e.offer.recipient, e.offer.full, excused);
        }
      }
    }
  }

  lemma PassEventAcked(f: Flow, e: Event, excused: Excuses)
    requires FlowOk(f) && AckedOk(f.x, excused) && (e.Drain? || e.DeliveryEnds?)
    ensures AckedOk(Step(f, e).x, excused)
  {
    hide ExchangesOk, LedgerOk, LimitOk, AcceptedSeen, ReplayOk, Advance, AckedOk, Conclude, PassOk;
    if e.Drain? && f.replay.Buffering? && f.replay.frame.NoFrame? {
      StartsAPass(f);
      PassAcked(f.replay.buffer, f.x, f.ledger, [], [], e.expiring, e.choose, excused);
      ConcludedAcked(f, Advance(f.replay.buffer, f.x, f.ledger, [], [], e.expiring, e.choose), e.expiring, excused);
    } else if e.DeliveryEnds? && Suspended(f) {
      ResumesAPass(f);
      var fr := f.replay.frame;
      var b, l := Discard(f.replay.buffer, fr.inHand), Hand(f.ledger, fr.inHand, fr.recipient);
      PassAcked(b, f.x, l, fr.unmatched, fr.pending, fr.expiring, e.choose, excused);
      ConcludedAcked(f, Advance(b, f.x, l, fr.unmatched, fr.pending, fr.expiring, e.choose), fr.expiring, excused);
    }
  }

  lemma ConcludedAcked(f: Flow, r: Progress, expiring: bool, excused: Excuses)
    requires AckedOk(r.x, excused)
    ensures AckedOk(Conclude(f, r, expiring).x, excused)
  {
    PendingIgnored(r.x, Conclude(f, r, expiring).x, excused);
  }

  lemma EndAcked(f: Flow, e: Event, excused: Excuses)
    requires FlowOk(f) && AckedOk(f.x, excused) && (e.DeliveryFails? || e.SessionEnds?)
    ensures AckedOk(Step(f, e).x, excused)
  {
    hide ExchangesOk, LedgerOk, LimitOk, AcceptedSeen, ReplayOk, AckedOk, StillOpen;
    PendingIgnored(f.x, Step(f, e).x, excused);
  }

  lemma StepAcked(f: Flow, e: Event, excused: Excuses)
    requires FlowOk(f) && AckedOk(f.x, excused)
    requires ExcusedBy(f, e).unclaimed <= excused.unclaimed && ExcusedBy(f, e).lost <= excused.lost
    ensures AckedOk(Step(f, e).x, excused)
  {
    hide ExchangesOk, LedgerOk, LimitOk, AcceptedSeen, ReplayOk, AckedOk, Step, ReaderResult, UnclaimedBy, ReaderHeld;
    if e.Arrive? {
      ArriveAcked(f, e, excused);
    } else if e.Drain? || e.DeliveryEnds? {
      PassEventAcked(f, e, excused);
    } else if IsReaderEvent(e) {
      ReaderEventStep(f, e);
      ReaderEventAcked(f.x, e, excused);
    } else {
      EndAcked(f, e, excused);
    }
  }

  lemma {:induction false} ReachableFlowsAreAcked(sessionPresent: bool, limit: nat, events: seq<Event>)
    ensures AckedOk(Run(sessionPresent, limit, events).x, Excused(sessionPresent, limit, events))
  {
    hide FlowOk, AckedOk, Step, ExcusedBy;
    if events == [] {
      NothingAcked(sessionPresent, limit);
    } else {
      var front, e := events[..|events| - 1], events[|events| - 1];
      var f := Run(sessionPresent, limit, front);
      ReachableFlowsAreAcked(sessionPresent, limit, front);
      MoreExcused(f.x, Excused(sessionPresent, limit, front), Excused(sessionPresent, limit, events));
      StepAcked(f, e, Excused(sessionPresent, limit, events));
    }
  }

  lemma NothingAcked(sessionPresent: bool, limit: nat)
    ensures AckedOk(NewFlow(sessionPresent, limit).x, Excuses({}, {}))
  {}

  lemma StoppedStaysStopped(f: Flow, e: Event)
    requires FlowOk(f) && f.x.reader == Stopped
    ensures Step(f, e).x.reader == Stopped
  {
    hide FlowOk, Step, ReaderResult, IsReaderEvent;
    FlowsAreReplays();
    if e.Drain? || e.DeliveryEnds? {
      PassReader(f, e);
    } else if IsReaderEvent(e) {
      ReaderEventStep(f, e);
      StoppedIgnores(f.x, e);
    } else {
      OtherEventsLeaveReader(f, e);
    }
  }

  lemma StoppedIgnores(x: Exchanges, e: Event)
    requires IsReaderEvent(e) && x.reader == Stopped
    ensures ReaderResult(x, e).reader == Stopped
  {}

  lemma OtherEventsLeaveReader(f: Flow, e: Event)
    requires FlowOk(f) && f.x.reader == Stopped && !IsReaderEvent(e) && !e.Drain? && !e.DeliveryEnds?
    ensures Step(f, e).x.reader == Stopped
  {
    hide FlowOk, Advance, LiveHandOver;
    FlowsAreReplays();
  }

  lemma PassReader(f: Flow, e: Event)
    requires FlowOk(f) && (e.Drain? || e.DeliveryEnds?)
    ensures Step(f, e).x.reader == f.x.reader
  {
    hide FlowOk, Advance, Conclude, PassShape;
    FlowsAreReplays();
    if (e.Drain? && f.replay.Buffering? && f.replay.frame.NoFrame?) || (e.DeliveryEnds? && Suspended(f)) { PassIsPass(f, e); }
  }

  /** At most one message is ever lost: the one that the read loop held when it stopped. */
  lemma {:induction false} LostAtMostOne(sessionPresent: bool, limit: nat, events: seq<Event>)
    ensures var lost := Excused(sessionPresent, limit, events).lost;
      && (lost != {} ==> Run(sessionPresent, limit, events).x.reader == Stopped)
      && (forall p, q :: p in lost && q in lost ==> p == q)
      && (forall p :: p in lost ==> LostAt(sessionPresent, limit, events, p))
  {
    hide FlowOk, Step, UnclaimedBy, LostAt;
    if events != [] {
      var front, e := events[..|events| - 1], events[|events| - 1];
      var f := Run(sessionPresent, limit, front);
      LostAtMostOne(sessionPresent, limit, front);
      if f.x.reader == Stopped { StoppedStaysStopped(f, e); }
      if e.ReaderFails? { ReaderFailsStops(f); }
      forall p | p in Excused(sessionPresent, limit, events).lost ensures LostAt(sessionPresent, limit, events, p) {
        LostStays(sessionPresent, limit, events, p);
      }
    }
  }

  lemma ReaderFailsStops(f: Flow)
    requires FlowOk(f)
    ensures Step(f, ReaderFails).x.reader == Stopped
  {}

  ghost predicate LostAt(sessionPresent: bool, limit: nat, events: seq<Event>, p: Publish) {
    exists k :: 0 <= k < |events| && events[k].ReaderFails? && ReaderHolds(Run(sessionPresent, limit, events[..k]).x.reader, p)
  }

  lemma LostStays(sessionPresent: bool, limit: nat, events: seq<Event>, p: Publish)
    requires events != []
    requires var front, e := events[..|events| - 1], events[|events| - 1];
      LostAt(sessionPresent, limit, front, p) || (e.ReaderFails? && p in ReaderHeld(Run(sessionPresent, limit, front).x.reader))
    ensures LostAt(sessionPresent, limit, events, p)
  {
    hide FlowOk, Run;
    var front, n := events[..|events| - 1], |events| - 1;
    if LostAt(sessionPresent, limit, front, p) {
      var k :| 0 <= k < n && front[k].ReaderFails? && ReaderHolds(Run(sessionPresent, limit, front[..k]).x.reader, p);
      assert events[..k] == front[..k] && events[k] == front[k];
    } else {
      assert events[..n] == front;
    }
  }

  /** In every run: a message whose PUBACK is on the wire was delivered, or nobody took it; one whose
    PUBCOMP is on the wire may also still be held by the read loop, or have been held by it when it stopped. */
  lemma AcknowledgedIsDelivered(sessionPresent: bool, limit: nat, events: seq<Event>, p: Publish)
    requires p !in Excused(sessionPresent, limit, events).unclaimed
    ensures var x := Run(sessionPresent, limit, events).x;
      && (Puback(p) in x.wire ==> Got(x.delivered, p))
      && (Pubcomp(p) in x.wire ==>
            Got(x.delivered, p) || ReaderHolds(x.reader, p) || LostAt(sessionPresent, limit, events, p))
  {
    hide FlowOk, Run, LostAt, Got;
    ReachableFlowsAreAcked(sessionPresent, limit, events);
    LostAtMostOne(sessionPresent, limit, events);
  }

  /** In every run at most one message that somebody was selected for is undelivered with its PUBCOMP sent. */
  lemma AtMostOneCompletedIsUndelivered(sessionPresent: bool, limit: nat, events: seq<Event>, p: Publish, q: Publish)
    requires var x, excused := Run(sessionPresent, limit, events).x, Excused(sessionPresent, limit, events);
      && Pubcomp(p) in x.wire && p !in excused.unclaimed && !Got(x.delivered, p)
      && Pubcomp(q) in x.wire && q !in excused.unclaimed && !Got(x.delivered, q)
    ensures p == q
  {
    hide FlowOk, Run, Excused, LostAt, Got;
    ReachableFlowsAreAcked(sessionPresent, limit, events);
    LostAtMostOne(sessionPresent, limit, events);
  }

  // ----- When a released message is lost -----

  /** Nothing in the flow can bring the message to the application any more. */
  ghost predicate Gone(f: Flow, p: Publish) {
    && p.serial < f.x.arrived && IsQos2(p) && p !in Held(f.replay)
    && !InFlightFor(f.x.inflight, p) && !ReaderHolds(f.x.reader, p)
  }

  lemma OthersDelivered(x: Exchanges, q: Publish, r: Recipient, p: Publish)
    requires q != p
    ensures Times(HandOver(x, q, r).delivered, p) == Times(x.delivered, p)
  {
    if !r.Nobody? { TimesAppend(x.delivered, q, r, p); }
  }

  lemma ReaderEventLeavesGone(x: Exchanges, e: Event, p: Publish)
    requires IsReaderEvent(e) && FlightsOk(x.inflight, x.wire) && IsQos2(p)
    requires !InFlightFor(x.inflight, p) && !ReaderHolds(x.reader, p)
    ensures var y := ReaderResult(x, e);
      !InFlightFor(y.inflight, p) && !ReaderHolds(y.reader, p) && Times(y.delivered, p) == Times(x.delivered, p)
  {
    hide Times;
    if x.reader.Putting? {
      OthersDelivered(x, x.reader.publish, x.reader.recipient, p);
    } else if x.reader.Sending? && x.reader.afterSend.ThenDeliver? {
      OthersDelivered(x, x.reader.afterSend.publish, x.reader.afterSend.recipient, p);
    }
  }

  lemma LiveLeavesGone(x: Exchanges, q: Publish, r: Recipient, full: bool, p: Publish)
    requires PidOk(q) && q != p && IsQos2(p) && !InFlightFor(x.inflight, p) && !ReaderHolds(x.reader, p)
    ensures var y := LiveHandOver(Admit(x, q), q, r, full);
      !InFlightFor(y.inflight, p) && !ReaderHolds(y.reader, p) && Times(y.delivered, p) == Times(x.delivered, p)
  {
    hide Times;
    OthersDelivered(x, q, r, p);
    if !r.Nobody? { TimesAppend(x.delivered, q, r, p); }
  }

  lemma NothingHeldByNoDelivery(reader: Reader, p: Publish)
    ensures !ReaderHolds(Ready, p) && !ReaderHolds(Stopped, p) && !ReaderHolds(Sending(SendDone), p)
  {}

  lemma RouteLeavesGone(f: Flow, q: Publish, offer: Offer, p: Publish)
    requires FlowOk(f) && Gone(f, p) && PidOk(q) && q.serial == f.x.arrived
    ensures Gone(Route(f, q, offer), p) && Times(Route(f, q, offer).x.delivered, p) == Times(f.x.delivered, p)
  {
    hide ExchangesOk, LedgerOk, LimitOk, AcceptedSeen, ReplayOk, LiveHandOver, Times, InFlightFor, ReaderHolds, JudgeIn;
    NothingHeldByNoDelivery(f.x.reader, p);
    LiveLeavesGone(f.x, q, offer.recipient, offer.full, p);
    AdmittedMore(f.x, q, offer.recipient, offer.full);
  }

  lemma ArriveLeavesGone(f: Flow, e: Event, p: Publish)
    requires FlowOk(f) && Gone(f, p) && e.Arrive?
    ensures Gone(Step(f, e), p) && Times(Step(f, e).x.delivered, p) == Times(f.x.delivered, p)
  {
    hide FlowOk, Times, InFlightFor, ReaderHolds, Route;
    NothingHeldByNoDelivery(f.x.reader, p);
    var q := Publish(f.x.arrived, e.topic, e.qos, if e.qos == AtMostOnce then None else e.pid);
    if PidOk(q) { RouteLeavesGone(f, q, e.offer, p); }
  }

  lemma {:induction false} TimesOfOthers(delivered: HandOvers, more: HandOvers, p: Publish)
    requires forall i :: 0 <= i < |more| ==> more[i].0 != p
    ensures Times(delivered + more, p) == Times(delivered, p)
  {
    if more == [] {
      assert delivered + more == delivered;
    } else {
      var n := |more| - 1;
      TimesOfOthers(delivered, more[..n], p);
      assert (delivered + more)[..|delivered| + n] == delivered + more[..n];
    }
  }

  /** What was not held before a pass is not held after it. */
  lemma PassHoldsNothingNew(f: Flow, g: Flow, p: Publish)
    requires FlowOk(f) && FlowOk(g) && PassShape(f, g) && p !in Held(f.replay)
    ensures p !in Held(g.replay)
    ensures forall k :: |Taken(f)| <= k < |Taken(g)| ==> Taken(g)[k].0 != p
  {
    hide ExchangesOk, LimitOk, AcceptedSeen, ReplayOk, Taken;
    forall k | |Taken(f)| <= k < |Taken(g)| ensures Taken(g)[k].0 != p {
      NewlyTakenRested(f, g, k);
      HeldIsRestingOrInHand(f.replay, Taken(g)[k].0);
    }
    if p in Held(g.replay) {
      assert p in g.ledger.accepted;
      TakenNotResting(f, g, p);
    }
  }

  lemma TakenNotResting(f: Flow, g: Flow, p: Publish)
    requires FlowOk(f) && FlowOk(g) && PassShape(f, g) && p in f.ledger.accepted && p !in Held(f.replay)
    ensures p !in Held(g.replay)
  {
    hide ExchangesOk, LimitOk, AcceptedSeen, ReplayOk;
    if p in HandedSet(f.ledger.handed) {
      var i :| 0 <= i < |f.ledger.handed| && f.ledger.handed[i].0 == p;
      assert g.ledger.handed[i] == f.ledger.handed[i];
      assert p in HandedSet(g.ledger.handed);
    }
  }

  lemma PassLeavesGone(f: Flow, e: Event, p: Publish)
    requires FlowOk(f) && Gone(f, p) && (e.Drain? || e.DeliveryEnds?)
    ensures Gone(Step(f, e), p) && Times(Step(f, e).x.delivered, p) == Times(f.x.delivered, p)
  {
    hide ExchangesOk, LedgerOk, LimitOk, AcceptedSeen, ReplayOk, Advance, Conclude, PassOk, Times, Filter, Taken, PassKept;
    if (e.Drain? && f.replay.Buffering? && f.replay.frame.NoFrame?) || (e.DeliveryEnds? && Suspended(f)) {
      var g := Step(f, e);
      StepKeeps(f, e);
      PassIsPass(f, e);
      PassHoldsNothingNew(f, g, p);
      var news := Taken(g)[|Taken(f)|..];
      forall i | 0 <= i < |Filter(news, AtOnce())| ensures Filter(news, AtOnce())[i].0 != p {
        var d := Filter(news, AtOnce())[i];
        assert d in news by { FilterKeeps(news, AtOnce(), d); }
        var k :| 0 <= k < |news| && news[k] == d;
        assert Taken(g)[|Taken(f)| + k] == d;
      }
      TimesOfOthers(f.x.delivered, Filter(news, AtOnce()), p);
      PassFlights(f, e, p);
    }
  }

  lemma FlightOfOther(inflight: map<int, InFlight>, q: Publish, r: Recipient, p: Publish)
    requires !InFlightFor(inflight, p) && q != p && IsQos2(q)
    ensures !InFlightFor(inflight[q.pid.value := InFlight(q, r, false)], p)
  {}

  lemma PassFlights(f: Flow, e: Event, p: Publish)
    requires FlowOk(f) && Gone(f, p)
    requires (e.Drain? && f.replay.Buffering? && f.replay.frame.NoFrame?) || (e.DeliveryEnds? && Suspended(f))
    ensures !InFlightFor(Step(f, e).x.inflight, p)
  {
    hide ExchangesOk, LedgerOk, LimitOk, AcceptedSeen, ReplayOk, Advance, Conclude, PassOk, InFlightFor;
    if e.Drain? {
      StartsAPass(f);
      var r := Advance(f.replay.buffer, f.x, f.ledger, [], [], e.expiring, e.choose);
      AdvanceRecords(f.replay.buffer, f.x, f.ledger, [], [], e.expiring, e.choose);
      assert [] + [] + f.replay.buffer.publishes == Held(f.replay);
      if r.frame.Frame? && r.frame.inHand.qos == ExactlyOnce {
        FlightOfOther(f.x.inflight, r.frame.inHand, r.frame.recipient, p);
      }
      ConcludedTaken(f, r, e.expiring);
    } else {
      ResumesAPass(f);
      var fr := f.replay.frame;
      var b, l := Discard(f.replay.buffer, fr.inHand), Hand(f.ledger, fr.inHand, fr.recipient);
      var r := Advance(b, f.x, l, fr.unmatched, fr.pending, fr.expiring, e.choose);
      AdvanceRecords(b, f.x, l, fr.unmatched, fr.pending, fr.expiring, e.choose);
      AroundInHand(f.replay);
      assert forall q :: q in fr.unmatched + fr.pending + b.publishes ==> q in Held(f.replay);
      if r.frame.Frame? && r.frame.inHand.qos == ExactlyOnce {
        FlightOfOther(f.x.inflight, r.frame.inHand, r.frame.recipient, p);
      }
      ConcludedTaken(f, r, fr.expiring);
    }
  }

  lemma StepLeavesGone(f: Flow, e: Event, p: Publish)
    requires FlowOk(f) && Gone(f, p)
    ensures Gone(Step(f, e), p) && Times(Step(f, e).x.delivered, p) == Times(f.x.delivered, p)
  {
    hide LedgerOk, LimitOk, AcceptedSeen, ReplayOk, Step, ReaderResult, Times, InFlightFor, ReaderHolds;
    if e.Arrive? {
      ArriveLeavesGone(f, e, p);
    } else if e.Drain? || e.DeliveryEnds? {
      PassLeavesGone(f, e, p);
    } else if IsReaderEvent(e) {
      ReaderEventStep(f, e);
      ReaderResultArrived(f.x, e);
      ReaderEventLeavesGone(f.x, e, p);
    } else {
      EndLeavesGone(f, e, p);
    }
  }

  lemma EndLeavesGone(f: Flow, e: Event, p: Publish)
    requires FlowOk(f) && Gone(f, p) && (e.DeliveryFails? || e.SessionEnds?)
    ensures Gone(Step(f, e), p) && Times(Step(f, e).x.delivered, p) == Times(f.x.delivered, p)
  {
    hide ExchangesOk, LedgerOk, LimitOk, AcceptedSeen, ReplayOk, StillOpen, Times, InFlightFor, ReaderHolds;
  }

  lemma {:induction false} GoneForGood(sessionPresent: bool, limit: nat, before: seq<Event>, after: seq<Event>, p: Publish)
    requires Gone(Run(sessionPresent, limit, before), p)
    ensures var f, g := Run(sessionPresent, limit, before), Run(sessionPresent, limit, before + after);
      Gone(g, p) && Times(g.x.delivered, p) == Times(f.x.delivered, p)
  {
    hide FlowOk, Step, Gone;
    if after == [] {
      assert before + after == before;
    } else {
      var n := |after| - 1;
      GoneForGood(sessionPresent, limit, before, after[..n], p);
      assert before + after == before + after[..n] + [after[n]];
      RunSnoc(sessionPresent, limit, before + after[..n], after[n]);
      StepLeavesGone(Run(sessionPresent, limit, before + after[..n]), after[n], p);
    }
  }

  /** The read loop holds a QoS 2 message that can still be delivered once. */
  ghost predicate HeldForDelivery(f: Flow, p: Publish) {
    && ReaderHolds(f.x.reader, p) && IsQos2(p) && p !in f.x.broken && InHand(f.replay) != Some(p)
    && (forall d :: HeldByReader(f.x.reader, d) ==> !d.1.Nobody?)
  }

  lemma NoOtherChance(f: Flow, p: Publish)
    requires FlowOk(f) && HeldForDelivery(f, p)
    ensures Times(f.x.delivered, p) == 0 && Gone(f.(x := f.x.(reader := Stopped)), p)
  {
    hide ReplayOk, LedgerOk, LimitOk, AcceptedSeen;
    HeldIsRestingOrInHand(f.replay, p);
    assert Budget(f.x.delivered, f.x.inflight, f.x.reader, f.x.broken, Elements(Resting(f.replay)));
    assert Seen(f.x.arrived, p);
  }

  lemma ReadyUpDelivers(x: Exchanges, p: Publish)
    requires ReaderHolds(x.reader, p) && forall d :: HeldByReader(x.reader, d) ==> !d.1.Nobody?
    ensures var y := ReaderResult(x, PutEnds); Got(ReaderResult(y, SendEnds(false)).delivered, p)
  {
    var d := match x.reader
      case Putting(q, r, _) => (q, r)
      case Sending(ThenDeliver(q, r)) => (q, r);
    assert HeldByReader(x.reader, d);
    HandOverGets(x, p, d.1);
  }

  lemma StillHeldOrDelivered(x: Exchanges, e: Event, p: Publish)
    requires ReaderHolds(x.reader, p) && (e.PutEnds? || e.SendEnds?)
    requires forall d :: HeldByReader(x.reader, d) ==> !d.1.Nobody?
    ensures var y := ReaderResult(x, e);
      Got(y.delivered, p) || (ReaderHolds(y.reader, p) && forall d :: HeldByReader(y.reader, d) ==> !d.1.Nobody?)
  {
    var d := match x.reader
      case Putting(q, r, _) => (q, r)
      case Sending(ThenDeliver(q, r)) => (q, r);
    assert HeldByReader(x.reader, d);
    HandOverGets(x, p, d.1);
  }

  /** A QoS 2 message in the hands of the read loop, its PUBCOMP sent or not, can still reach the
    application if and only if the read loop does not stop there. */
  lemma LostExactlyWhenReaderStops(sessionPresent: bool, limit: nat, before: seq<Event>, e: Event, p: Publish)
    requires HeldForDelivery(Run(sessionPresent, limit, before), p)
    requires e.PutEnds? || e.SendEnds? || e.ReaderFails?
    ensures (exists after: seq<Event> :: Got(Run(sessionPresent, limit, before + [e] + after).x.delivered, p)) <==> !e.ReaderFails?
  {
    hide FlowOk, Step, Gone, ReaderResult, Times, HeldForDelivery;
    var f, g := Run(sessionPresent, limit, before), Run(sessionPresent, limit, before + [e]);
    FlowsAreReplays();
    RunSnoc(sessionPresent, limit, before, e);
    ReaderEventStep(f, e);
    NoOtherChance(f, p);
    if e.ReaderFails? {
      StoppedReader(f.x);
      forall after: seq<Event> ensures !Got(Run(sessionPresent, limit, before + [e] + after).x.delivered, p) {
        GoneForGood(sessionPresent, limit, before + [e], after, p);
      }
    } else {
      HeldParts(f, p);
      var after := DeliveredIfItGoesOn(sessionPresent, limit, before, e, p);
    }
  }

  lemma DeliveredIfItGoesOn(sessionPresent: bool, limit: nat, before: seq<Event>, e: Event,
                            p: Publish) returns (after: seq<Event>)
    requires var x := Run(sessionPresent, limit, before).x;
      ReaderHolds(x.reader, p) && forall d :: HeldByReader(x.reader, d) ==> !d.1.Nobody?
    requires e.PutEnds? || e.SendEnds?
    ensures Got(Run(sessionPresent, limit, before + [e] + after).x.delivered, p)
  {
    hide FlowOk, Step, ReaderResult, Got, Run, HeldByReader, ReaderHolds;
    var f, g := Run(sessionPresent, limit, before), Run(sessionPresent, limit, before + [e]);
    FlowsAreReplays();
    RunSnoc(sessionPresent, limit, before, e);
    ReaderEventStep(f, e);
    StillHeldOrDelivered(f.x, e, p);
    if Got(g.x.delivered, p) {
      after := [];
      assert before + [e] + [] == before + [e];
    } else {
      after := ReadyUp;
      RunSnoc(sessionPresent, limit, before + [e], PutEnds);
      RunSnoc(sessionPresent, limit, before + [e] + [PutEnds], SendEnds(false));
      ReaderEventStep(g, PutEnds);
      ReaderEventStep(Run(sessionPresent, limit, before + [e] + [PutEnds]), SendEnds(false));
      ReadyUpDelivers(g.x, p);
      Appended(before + [e], [PutEnds], SendEnds(false));
      assert [PutEnds] + [SendEnds(false)] == ReadyUp;
    }
  }

  lemma StoppedReader(x: Exchanges)
    ensures ReaderResult(x, ReaderFails) == x.(reader := Stopped)
  {}

  lemma HeldParts(f: Flow, p: Publish)
    requires HeldForDelivery(f, p)
    ensures ReaderHolds(f.x.reader, p) && forall d :: HeldByReader(f.x.reader, d) ==> !d.1.Nobody?
  {}
}
