/** In which order held messages leave the replay buffer and enter the queues, over drains that are
  interleaved with arrivals, releases and acknowledgements at every suspension. */
module InboundOrder {
  import opened Prelude
  import opened ReplayBuffer
  import opened InboundExchanges
  import opened Inbound

  type HandOvers = seq<(Publish, Recipient)>

  /** A QoS 2 message with automatic acknowledgement: a pass only records its flight, and it enters
    its queue when its PUBREL comes. */
  predicate Deferred(d: (Publish, Recipient)) { IsQos2(d.0) && AutoAck(d.1) }

  function AtOnce(): ((Publish, Recipient)) -> bool { (d: (Publish, Recipient)) => !Deferred(d) }

  function OnRelease(): ((Publish, Recipient)) -> bool { (d: (Publish, Recipient)) => Deferred(d) }

  /** Deliveries of buffered messages that a pass made itself. */
  function Direct(accepted: set<Publish>): ((Publish, Recipient)) -> bool {
    (d: (Publish, Recipient)) => d.0 in accepted && !Deferred(d)
  }

  function Messages(s: HandOvers): (r: seq<Publish>)
    ensures |r| == |s| && forall i :: 0 <= i < |s| ==> r[i] == s[i].0
  {
    seq(|s|, i requires 0 <= i < |s| => s[i].0)
  }

  /** In arrival order. */
  predicate Ascending(s: seq<Publish>) { forall i, j :: 0 <= i < j < |s| ==> s[i].serial < s[j].serial }

  // ----- One pass -----

  /** The hand-overs made and begun when a pass stops. */
  function TakenBy(r: Progress): HandOvers {
    match r.frame
    case NoFrame => r.ledger.handed
    case Frame(_, _, inHand, recipient, _) => r.ledger.handed + [(inHand, recipient)]
  }

  lemma HandOverAppends(x: Exchanges, p: Publish, r: Recipient)
    requires PidOk(p) && !r.Nobody?
    ensures ReplayHandOver(x, p, r).delivered == x.delivered + Filter([(p, r)], AtOnce())
    ensures ReplayHandOver(x, p, r).reader == x.reader && ReplayHandOver(x, p, r).broken == x.broken
    ensures ReplayHandOver(x, p, r).inflight
         == if Deferred((p, r)) then x.inflight[p.pid.value := InFlight(p, r, false)] else x.inflight
  {
    var one := [(p, r)];
    assert one[1..] == [];
    assert Filter(one, AtOnce()) == if Deferred((p, r)) then [] else one;
    assert x.delivered + [] == x.delivered;
  }

  /** A pass extends what was handed over, puts into the queues exactly what it does not defer, in
    that order, and leaves the read loop alone. */
  lemma {:induction false} AdvanceExtends(b: Buffer, x: Exchanges, l: Ledger, unmatched: seq<Publish>,
                                          pending: seq<Publish>,
                                          expiring: bool, choose: Publish -> Offer)
    requires PassOk(b, unmatched, pending)
    ensures var r := Advance(b, x, l, unmatched, pending, expiring, choose);
      && l.handed <= TakenBy(r)
      && r.x.delivered == x.delivered + Filter(TakenBy(r)[|l.handed|..], AtOnce())
      && r.x.reader == x.reader && r.x.broken == x.broken
      && r.ledger.accepted == l.accepted && r.ledger.dropped == l.dropped
    decreases |b.publishes|, |pending|
  {
    hide CountersOk, HeldOk, ReplayHandOver, Filter;
    var r := Advance(b, x, l, unmatched, pending, expiring, choose);
    if pending == [] {
      if b.publishes == [] {
        FilterNone(TakenBy(r)[|l.handed|..], AtOnce());
        assert x.delivered + [] == x.delivered;
      } else {
        PassTurns(b, unmatched);
        AdvanceExtends(b.(publishes := []), x, l, unmatched, b.publishes, expiring, choose);
      }
    } else {
      var p := pending[0];
      var to := choose(p).recipient;
      PassLeaves(b, unmatched, pending);
      PassTakes(b, unmatched, pending);
      if !Deliverable(choose(p)) {
        AdvanceExtends(b, x, l, unmatched + [p], pending[1..], expiring, choose);
      } else {
        HandOverAppends(x, p, to);
        if Suspends(p, to) {
          assert TakenBy(r)[|l.handed|..] == [(p, to)];
        } else {
          AdvanceExtends(Discard(b, p), ReplayHandOver(x, p, to), Hand(l, p, to), unmatched, pending[1..], expiring, choose);
          var later := TakenBy(r)[|l.handed| + 1..];
          assert TakenBy(r)[|l.handed|..] == [(p, to)] + later;
          FilterConcat([(p, to)], later, AtOnce());
          assert x.delivered + Filter([(p, to)], AtOnce()) + Filter(later, AtOnce())
              == x.delivered + (Filter([(p, to)], AtOnce()) + Filter(later, AtOnce()));
        }
      }
    }
  }

  lemma AscendingWithout(a: seq<Publish>, p: Publish, c: seq<Publish>)
    requires Ascending(a + [p] + c)
    ensures Ascending(a + c)
  {
    var all, less := a + [p] + c, a + c;
    forall i | 0 <= i < |less| ensures less[i] == all[if i < |a| then i else i + 1] {}
  }

  /** Only the message in hand is recorded as a flight by its pass. */
  lemma {:induction false} AdvanceRecords(b: Buffer, x: Exchanges, l: Ledger, unmatched: seq<Publish>,
                                          pending: seq<Publish>,
                                          expiring: bool, choose: Publish -> Offer)
    requires PassOk(b, unmatched, pending)
    ensures var r := Advance(b, x, l, unmatched, pending, expiring, choose);
      && l.handed <= r.ledger.handed
      && (forall i :: |l.handed| <= i < |r.ledger.handed| ==> !Deferred(r.ledger.handed[i]))
      && (forall i :: |l.handed| <= i < |TakenBy(r)| ==> !TakenBy(r)[i].1.Nobody?)
      && (r.frame.Frame? ==> Suspends(r.frame.inHand, r.frame.recipient))
      && (r.frame.Frame? && r.frame.inHand.qos == ExactlyOnce ==>
            Deferred((r.frame.inHand, r.frame.recipient))
            && r.frame.inHand in unmatched + pending + b.publishes
            && r.x.inflight == x.inflight[r.frame.inHand.pid.value := InFlight(r.frame.inHand, r.frame.recipient, false)])
      && (!(r.frame.Frame? && r.frame.inHand.qos == ExactlyOnce) ==> r.x.inflight == x.inflight)
    decreases |b.publishes|, |pending|
  {
    hide CountersOk, HeldOk, ReplayHandOver;
    if pending == [] {
      if b.publishes != [] {
        PassTurns(b, unmatched);
        assert unmatched + [] + b.publishes == unmatched + b.publishes + [];
        AdvanceRecords(b.(publishes := []), x, l, unmatched, b.publishes, expiring, choose);
      }
    } else {
      var p := pending[0];
      var to := choose(p).recipient;
      assert p in unmatched + pending + b.publishes;
      PassLeaves(b, unmatched, pending);
      PassTakes(b, unmatched, pending);
      if !Deliverable(choose(p)) {
        assert unmatched + pending + b.publishes == unmatched + [p] + pending[1..] + b.publishes;
        AdvanceRecords(b, x, l, unmatched + [p], pending[1..], expiring, choose);
      } else {
        HandOverAppends(x, p, to);
        if !Suspends(p, to) {
          AdvanceRecords(Discard(b, p), ReplayHandOver(x, p, to), Hand(l, p, to), unmatched, pending[1..], expiring, choose);
        }
      }
    }
  }

  lemma FrontShifts(taken: seq<Publish>, p: Publish, rest: seq<Publish>, queue: seq<Publish>)
    ensures taken + ([p] + rest) + queue == taken + [p] + (rest + queue) == taken + [p] + rest + queue
    ensures taken + (rest + queue) == taken + rest + queue
  {}

  lemma TakenShifts(taken: seq<Publish>, p: Publish, all: HandOvers, n: nat)
    requires n < |all| && all[n].0 == p
    ensures taken + [p] + Messages(all[n + 1..]) == taken + Messages(all[n..])
  {}

  /** A pass takes messages in arrival order, and everything it has still before it is younger. */
  lemma {:induction false} AdvanceAscends(b: Buffer, x: Exchanges, l: Ledger, unmatched: seq<Publish>,
                                          pending: seq<Publish>,
                                          expiring: bool, choose: Publish -> Offer, taken: seq<Publish>)
    requires PassOk(b, unmatched, pending) && Ascending(taken + pending + b.publishes)
    ensures var r := Advance(b, x, l, unmatched, pending, expiring, choose);
      && l.handed <= TakenBy(r)
      && match r.frame
         case NoFrame => Ascending(taken + Messages(TakenBy(r)[|l.handed|..]))
         case Frame(_, _, _, _, rest) => Ascending(taken + Messages(TakenBy(r)[|l.handed|..]) + rest + r.buffer.publishes)
    decreases |b.publishes|, |pending|
  {
    hide CountersOk, HeldOk, ReplayHandOver, Ascending;
    var r := Advance(b, x, l, unmatched, pending, expiring, choose);
    if pending == [] {
      if b.publishes == [] {
        assert taken + [] + b.publishes == taken + Messages(TakenBy(r)[|l.handed|..]);
      } else {
        PassTurns(b, unmatched);
        assert taken + [] + b.publishes == taken + b.publishes + [];
        AdvanceAscends(b.(publishes := []), x, l, unmatched, b.publishes, expiring, choose, taken);
      }
    } else {
      var p, back := pending[0], pending[1..] + b.publishes;
      var to := choose(p).recipient;
      assert pending == [p] + pending[1..];
      PassLeaves(b, unmatched, pending);
      PassTakes(b, unmatched, pending);
      FrontShifts(taken, p, pending[1..], b.publishes);
      if !Deliverable(choose(p)) {
        AscendingWithout(taken, p, back);
        AdvanceAscends(b, x, l, unmatched + [p], pending[1..], expiring, choose, taken);
      } else if Suspends(p, to) {
        assert Messages(TakenBy(r)[|l.handed|..]) == [p];
      } else {
        AdvanceAscends(Discard(b, p), ReplayHandOver(x, p, to), Hand(l, p, to), unmatched, pending[1..], expiring, choose,
                       taken + [p]);
        TakenShifts(taken, p, TakenBy(r), |l.handed|);
      }
    }
  }

  // ----- What every reachable state keeps -----

  /** Without interruptions, the queues got from the passes exactly what the passes did not defer. */
  ghost predicate DirectMatches(f: Flow) {
    f.x.broken == multiset{} ==> Filter(f.x.delivered, Direct(f.ledger.accepted)) == Filter(Taken(f), AtOnce())
  }

  /** The read loop delivers live messages and released ones. */
  ghost predicate ReaderFits(reader: Reader, accepted: set<Publish>) {
    match reader
    case Putting(p, r, _) => p !in accepted || Deferred((p, r))
    case Sending(ThenDeliver(p, r)) => Deferred((p, r))
    case _ => true
  }

  predicate HeldByReader(reader: Reader, d: (Publish, Recipient)) {
    match reader
    case Putting(p, r, _) => (p, r) == d
    case Sending(ThenDeliver(p, r)) => (p, r) == d
    case _ => false
  }

  predicate Recorded(inflight: map<int, InFlight>, d: (Publish, Recipient))
    requires Deferred(d)
  {
    d.0.pid.value in inflight && inflight[d.0.pid.value] == InFlight(d.0, d.1, false)
  }

  /** Where a deferred message is: in flight, in the read loop's hands, delivered, or with a read loop that stopped. */
  ghost predicate Tracked(x: Exchanges, d: (Publish, Recipient)) {
    Deferred(d) && d.0 !in x.broken ==>
      Recorded(x.inflight, d) || HeldByReader(x.reader, d) || d in x.delivered || x.reader == Stopped
  }

  ghost predicate TakenTracked(x: Exchanges, taken: HandOvers) {
    forall i :: 0 <= i < |taken| ==> !taken[i].1.Nobody? && Tracked(x, taken[i])
  }

  /** A delivery is suspended only in the send of an acknowledgement. */
  ghost predicate FrameFits(replay: Replay) {
    replay.Buffering? && replay.frame.Frame? ==> Suspends(replay.frame.inHand, replay.frame.recipient)
  }

  ghost predicate OrderOk(f: Flow) {
    && DirectMatches(f) && ReaderFits(f.x.reader, f.ledger.accepted) && TakenTracked(f.x, Taken(f))
    && FrameFits(f.replay)
  }

  lemma OneMoreDelivered(delivered: HandOvers, d: (Publish, Recipient), accepted: set<Publish>)
    requires d.0 !in accepted || Deferred(d)
    ensures Filter(delivered + [d], Direct(accepted)) == Filter(delivered, Direct(accepted))
  {
    FilterConcat(delivered, [d], Direct(accepted));
    FilterNone([d], Direct(accepted));
    assert Filter(delivered, Direct(accepted)) + [] == Filter(delivered, Direct(accepted));
  }

  /** The read loop's part of a step: it delivers at most what it holds, or what it just got. */
  ghost predicate ReaderStep(x: Exchanges, y: Exchanges, accepted: set<Publish>) {
    && y.broken == x.broken && ReaderFits(y.reader, accepted)
    && (y.delivered == x.delivered
        || (|y.delivered| == |x.delivered| + 1 && y.delivered[..|x.delivered|] == x.delivered
            && var d := y.delivered[|x.delivered|]; d.0 !in accepted || Deferred(d)))
    && (forall d :: Deferred(d) && d.0 !in x.broken && !d.1.Nobody? && d.0.serial < x.arrived && Tracked(x, d) ==> Tracked(y, d))
  }

  lemma ReaderStepKeeps(f: Flow, g: Flow)
    requires OrderOk(f) && g.replay == f.replay && g.ledger == f.ledger && ReaderStep(f.x, g.x, f.ledger.accepted)
    requires forall i :: 0 <= i < |Taken(f)| ==> Taken(f)[i].0.serial < f.x.arrived
    ensures OrderOk(g)
  {
    hide Filter;
    if g.x.delivered != f.x.delivered {
      var d := g.x.delivered[|f.x.delivered|];
      assert g.x.delivered == f.x.delivered + [d];
      OneMoreDelivered(f.x.delivered, d, f.ledger.accepted);
    }
  }

  lemma TakenArrived(f: Flow)
    requires FlowOk(f)
    ensures forall i :: 0 <= i < |Taken(f)| ==> Taken(f)[i].0 in f.ledger.accepted && Taken(f)[i].0.serial < f.x.arrived
  {
    hide ExchangesOk, ReplayOk;
    forall i | 0 <= i < |Taken(f)| ensures Taken(f)[i].0 in f.ledger.accepted {
      if i < |f.ledger.handed| {
        assert f.ledger.handed[i].0 in HandedSet(f.ledger.handed);
      } else {
        assert f.replay.frame.inHand in Held(f.replay);
      }
    }
  }

  lemma PutIsReaderStep(x: Exchanges, p: Publish, r: Recipient, full: bool, afterPut: AfterPut, accepted: set<Publish>)
    requires p !in accepted || Deferred((p, r))
    requires HeldByReader(x.reader, (p, r)) || forall d :: !HeldByReader(x.reader, d)
    requires x.reader != Stopped
    ensures ReaderStep(x, LivePut(x, p, r, full, afterPut), accepted)
    ensures HeldByReader(x.reader, (p, r)) && !full ==> ReaderStep(x, AfterLivePut(HandOver(x, p, r), p, afterPut), accepted)
  {}

  lemma PubrelIsReaderStep(x: Exchanges, pid: int, accepted: set<Publish>)
    requires FlightsOk(x.inflight, x.wire) && pid in x.inflight && x.reader == Ready
    ensures ReaderStep(x, TakePubrel(x, pid), accepted)
  {}

  lemma RecordedWaitsForNoAck(x: Exchanges, d: (Publish, Recipient), waiting: set<Publish>, inHand: Option<Publish>)
    requires TablesDisjoint(x.inflight, x.pendingAck, x.broken, waiting, inHand)
    requires Deferred(d) && d.0 !in x.broken && Recorded(x.inflight, d)
    ensures d.0.pid.value !in x.pendingAck
  {
    var pid := d.0.pid.value;
    assert x.inflight[pid].publish == d.0;
  }

  lemma AckIsReaderStep(x: Exchanges, p: Publish, waiting: set<Publish>, inHand: Option<Publish>, accepted: set<Publish>)
    requires TablesDisjoint(x.inflight, x.pendingAck, x.broken, waiting, inHand)
    requires AcksOwned(x.unacked, x.pendingAck, x.reader)
    requires p in x.unacked && p.pid.Some? && ReaderFits(x.reader, accepted)
    ensures ReaderStep(x, Acknowledge(x, p), accepted)
  {
    var y := Acknowledge(x, p);
    forall d | Deferred(d) && d.0 !in x.broken && Recorded(x.inflight, d) ensures Recorded(y.inflight, d) {
      RecordedWaitsForNoAck(x, d, waiting, inHand);
    }
  }

  lemma StoppingIsReaderStep(x: Exchanges, accepted: set<Publish>)
    ensures ReaderStep(x, x.(reader := Stopped), accepted)
  {}

  lemma ReadyIsReaderStep(x: Exchanges, accepted: set<Publish>)
    requires forall d :: !HeldByReader(x.reader, d)
    requires x.reader != Stopped
    ensures ReaderStep(x, x.(reader := Ready), accepted)
  {}

  predicate IsReaderEvent(e: Event) { e.Pubrel? || e.PutEnds? || e.SendEnds? || e.ReaderFails? || e.Ack? }

  /** What a step of the read loop or an `ack()` does: only the exchanges change. */
  function ReaderResult(x: Exchanges, e: Event): Exchanges
    requires IsReaderEvent(e)
  {
    match e
    case Pubrel(id) =>
      if x.reader != Ready then x else if id !in x.inflight then x.(reader := Stopped) else TakePubrel(x, id)
    case PutEnds =>
      if !x.reader.Putting? then x
      else AfterLivePut(HandOver(x, x.reader.publish, x.reader.recipient), x.reader.publish, x.reader.afterPut)
    case SendEnds(full) => if !x.reader.Sending? then x else FinishSend(x, x.reader.afterSend, full)
    case ReaderFails => x.(reader := Stopped)
    case Ack(p) => if p in x.unacked && p.pid.Some? then Acknowledge(x, p) else x
  }

  lemma ReaderEventStep(f: Flow, e: Event)
    requires ReplayOk(f.replay) && IsReaderEvent(e)
    ensures Step(f, e) == f.(x := ReaderResult(f.x, e))
  {
    hide Advance, ReplayOk, TakePubrel, AfterLivePut, HandOver, FinishSend, Acknowledge;
  }

  lemma NothingIsReaderStep(x: Exchanges, accepted: set<Publish>)
    requires ReaderFits(x.reader, accepted)
    ensures ReaderStep(x, x, accepted)
  {}

  lemma ReaderResultIsReaderStep(x: Exchanges, e: Event, waiting: set<Publish>, inHand: Option<Publish>,
                                 accepted: set<Publish>)
    requires ExchangesOk(x, waiting, inHand) && ReaderFits(x.reader, accepted) && IsReaderEvent(e)
    ensures ReaderStep(x, ReaderResult(x, e), accepted)
  {
    hide ReaderStep, FlightsOk, AcksOwned, TablesDisjoint, TakePubrel, AfterLivePut, HandOver, LivePut, Acknowledge,
         AllSeen, PubrecsOk, PubrecSent, OpenTracked, DistinctIds, Budget;
    NothingIsReaderStep(x, accepted);
    match e
    case Pubrel(id) =>
      StoppingIsReaderStep(x, accepted);
      if x.reader == Ready && id in x.inflight { PubrelIsReaderStep(x, id, accepted); }
    case PutEnds =>
      if x.reader.Putting? { PutIsReaderStep(x, x.reader.publish, x.reader.recipient, false, x.reader.afterPut, accepted); }
    case SendEnds(full) =>
      if x.reader.Sending? && x.reader.afterSend.ThenDeliver? {
        PutIsReaderStep(x, x.reader.afterSend.publish, x.reader.afterSend.recipient, full, PutDone, accepted);
      } else if x.reader.Sending? {
        ReadyIsReaderStep(x, accepted);
      }
    case ReaderFails => StoppingIsReaderStep(x, accepted);
    case Ack(p) => if p in x.unacked && p.pid.Some? { AckIsReaderStep(x, p, waiting, inHand, accepted); }
  }

  lemma ReaderEventKeeps(f: Flow, e: Event)
    requires FlowOk(f) && OrderOk(f) && IsReaderEvent(e)
    ensures OrderOk(Step(f, e))
  {
    hide ExchangesOk, OrderOk, ReaderStep, Step, Taken, ReplayOk, ReaderResult;
    OrderParts(f);
    TakenArrived(f);
    ReaderEventStep(f, e);
    ReaderResultIsReaderStep(f.x, e, Elements(Resting(f.replay)), InHand(f.replay), f.ledger.accepted);
    ReaderStepKeeps(f, Step(f, e));
  }

  lemma OrderParts(f: Flow)
    requires OrderOk(f)
    ensures ReaderFits(f.x.reader, f.ledger.accepted) && TakenTracked(f.x, Taken(f))
  {}

  // ----- Arrivals -----

  lemma NewFlightIsReaderStep(x: Exchanges, p: Publish, r: Recipient, accepted: set<Publish>)
    requires IsQos2(p) && p.pid.value !in x.inflight && x.reader == Ready
    ensures ReaderStep(x, RecordFlight(x, p, r, false).(reader := Sending(SendDone)), accepted)
  {}

  lemma ReaderStepFrom(x: Exchanges, y: Exchanges, z: Exchanges, accepted: set<Publish>)
    requires ReaderStep(y, z, accepted)
    requires y.inflight == x.inflight && y.reader == x.reader && y.delivered == x.delivered && y.broken == x.broken
    requires y.arrived >= x.arrived
    ensures ReaderStep(x, z, accepted)
  {}

  /** A message that was not buffered on its way through the read loop. */
  lemma LiveIsReaderStep(x: Exchanges, p: Publish, r: Recipient, full: bool, accepted: set<Publish>)
    requires PidOk(p) && p !in accepted && x.reader == Ready && (IsQos2(p) ==> p.pid.value !in x.inflight)
    ensures ReaderStep(x, LiveHandOver(Admit(x, p), p, r, full), accepted)
  {
    hide Tracked, LivePut, ReaderStep;
    var y := Admit(x, p);
    var after := LiveHandOver(y, p, r, full);
    if p.qos != ExactlyOnce {
      PutIsReaderStep(y, p, r, full, if p.qos == AtLeastOnce && AutoAck(r) then ThenPuback else PutDone, accepted);
      ReaderStepFrom(x, y, after, accepted);
    } else if !AutoAck(r) {
      var z := y.(pendingAck := y.pendingAck + {p.pid.value});
      PutIsReaderStep(z, p, r, full, PutDone, accepted);
      ReaderStepFrom(x, z, after, accepted);
    } else {
      NewFlightIsReaderStep(y, p, r, accepted);
      ReaderStepFrom(x, y, after, accepted);
    }
  }

  lemma ResendIsReaderStep(x: Exchanges, packet: Packet, accepted: set<Publish>)
    requires x.reader == Ready
    ensures ReaderStep(x, x.(wire := x.wire + [packet], reader := Sending(SendDone)), accepted)
  {}

  /** A message that is buffered: nothing known so far becomes a direct delivery. */
  lemma HoldingKeepsOrder(f: Flow, p: Publish)
    requires FlowOk(f) && OrderOk(f) && PidOk(p) && p.serial == f.x.arrived && f.x.reader == Ready
    ensures OrderOk(f.(replay := HoldIn(f.replay, p), x := Admit(f.x, p),
                       ledger := f.ledger.(accepted := f.ledger.accepted + {p})))
  {
    hide Filter, ReplayOk, LedgerOk, LimitOk;
    var g := f.(replay := HoldIn(f.replay, p), x := Admit(f.x, p), ledger := f.ledger.(accepted := f.ledger.accepted + {p}));
    assert Taken(g) == Taken(f);
    forall d | d in f.x.delivered ensures d.0 != p {
      var i :| 0 <= i < |f.x.delivered| && f.x.delivered[i] == d;
      assert Seen(f.x.arrived, f.x.delivered[i].0);
    }
    FilterCongruence(f.x.delivered, Direct(f.ledger.accepted), Direct(g.ledger.accepted));
    forall i | 0 <= i < |Taken(f)| ensures Tracked(g.x, Taken(f)[i]) {
      assert Tracked(f.x, Taken(f)[i]);
    }
  }

  lemma RouteKeepsOrder(f: Flow, p: Publish, offer: Offer)
    requires FlowOk(f) && OrderOk(f) && PidOk(p) && p.serial == f.x.arrived && f.x.reader == Ready
    requires IsQos2(p) ==> p.pid.value !in f.x.inflight
    ensures OrderOk(Route(f, p, offer))
  {
    hide ExchangesOk, OrderOk, ReaderStep, ReplayOk, LiveHandOver, Admit;
    TakenArrived(f);
    assert p !in f.ledger.accepted;
    match JudgeIn(f.replay, f.limit, p, offer.recipient)
    case Pass =>
      LiveIsReaderStep(f.x, p, offer.recipient, offer.full, f.ledger.accepted);
      ReaderStepKeeps(f, Route(f, p, offer));
    case Hold => HoldingKeepsOrder(f, p);
    case Ignore =>
    case Overflow =>
      StoppingIsReaderStep(f.x, f.ledger.accepted);
      ReaderStepKeeps(f, Route(f, p, offer));
  }

  lemma ArriveKeepsOrder(f: Flow, topic: string, qos: Qos, pid: Option<int>, offer: Offer)
    requires FlowOk(f) && OrderOk(f)
    ensures OrderOk(Step(f, Arrive(topic, qos, pid, offer)))
  {
    hide ExchangesOk, OrderOk, ReaderStep, ReplayOk, Route, Advance, LedgerOk, LimitOk, Taken;
    if f.x.reader == Ready {
      TakenArrived(f);
      var p := Publish(f.x.arrived, topic, qos, if qos == AtMostOnce then None else pid);
      var g := Step(f, Arrive(topic, qos, pid, offer));
      if !PidOk(p) {
        StoppingIsReaderStep(f.x, f.ledger.accepted);
        ReaderStepKeeps(f, g);
      } else if qos == ExactlyOnce && pid.value in f.x.inflight {
        ResendIsReaderStep(f.x, Pubrec(f.x.inflight[pid.value].publish), f.ledger.accepted);
        ReaderStepKeeps(f, g);
      } else if qos == ExactlyOnce && pid.value in f.x.pendingAck {
      } else if qos != AtMostOnce && HeldId(f.replay, pid.value) {
      } else {
        RouteKeepsOrder(f, p, offer);
      }
    }
  }

  // ----- Passes -----

  /** Recording the flight of a waiting message replaces no flight that still matters. */
  lemma RecordingKeepsTracked(x: Exchanges, y: Exchanges, waiting: set<Publish>, p: Publish, r: Recipient,
                              d: (Publish, Recipient))
    requires ExchangesOk(x, waiting, None) && p in waiting && IsQos2(p) && Tracked(x, d)
    requires y.inflight == x.inflight[p.pid.value := InFlight(p, r, false)]
    requires y.reader == x.reader && y.broken == x.broken && x.delivered <= y.delivered
    ensures Tracked(y, d)
  {
    hide AllSeen, FlightsOk, AcksOwned, PubrecsOk, PubrecSent, OpenTracked, DistinctIds, Budget;
  }

  /** What a pass leaves tracks everything that was taken before it and in it. */
  lemma PassTracks(b: Buffer, x: Exchanges, l: Ledger, unmatched: seq<Publish>, pending: seq<Publish>,
                   expiring: bool, choose: Publish -> Offer)
    requires PassKept(b, x, l, unmatched, pending) && TakenTracked(x, l.handed)
    ensures var r := Advance(b, x, l, unmatched, pending, expiring, choose); TakenTracked(r.x, TakenBy(r))
  {
    hide ExchangesOk, LedgerOk, PassOk, Advance;
    AdvanceExtends(b, x, l, unmatched, pending, expiring, choose);
    AdvanceRecords(b, x, l, unmatched, pending, expiring, choose);
    var r := Advance(b, x, l, unmatched, pending, expiring, choose);
    var waiting := Elements(unmatched + pending + b.publishes);
    hide PassKept, Elements;
    forall i | 0 <= i < |TakenBy(r)| ensures !TakenBy(r)[i].1.Nobody? && Tracked(r.x, TakenBy(r)[i]) {
      if i < |l.handed| {
        assert TakenBy(r)[i] == l.handed[i];
        if r.frame.Frame? && r.frame.inHand.qos == ExactlyOnce {
          RecordingKeepsTracked(x, r.x, waiting, r.frame.inHand, r.frame.recipient, l.handed[i]);
        }
      }
    }
  }

  /** The ways a pass concludes differ in the buffer only. */
  lemma ConcludedTaken(f: Flow, r: Progress, expiring: bool)
    ensures var g := Conclude(f, r, expiring);
      && (g.replay.Buffering? ==> g.replay.frame == r.frame)
      && Taken(g) == TakenBy(r) && g.ledger.handed == r.ledger.handed && g.ledger.accepted == r.ledger.accepted
      && r.ledger.dropped <= g.ledger.dropped
      && g.x.delivered == r.x.delivered && g.x.reader == r.x.reader && g.x.inflight == r.x.inflight
      && g.x.broken == r.x.broken
  {}

  lemma TakenByAccepted(r: Progress, size: nat)
    requires ProgressOk(r, size)
    ensures forall i :: 0 <= i < |TakenBy(r)| ==> TakenBy(r)[i].0 in r.ledger.accepted
  {
    hide ExchangesOk, ReplayOk;
    forall i | 0 <= i < |TakenBy(r)| ensures TakenBy(r)[i].0 in r.ledger.accepted {
      if i < |r.ledger.handed| {
        assert r.ledger.handed[i].0 in HandedSet(r.ledger.handed);
      } else {
        assert r.frame.inHand in Held(Buffering(r.buffer, r.frame));
      }
    }
  }

  lemma DirectAfterPass(delivered: HandOvers, taken: HandOvers, n: nat, accepted: set<Publish>)
    requires n <= |taken| && forall i :: 0 <= i < |taken| ==> taken[i].0 in accepted
    requires Filter(delivered, Direct(accepted)) == Filter(taken[..n], AtOnce())
    ensures Filter(delivered + Filter(taken[n..], AtOnce()), Direct(accepted)) == Filter(taken, AtOnce())
  {
    hide Filter;
    var fresh_ := Filter(taken[n..], AtOnce());
    FilterConcat(delivered, fresh_, Direct(accepted));
    forall d | d in fresh_ ensures Direct(accepted)(d) {
      FilterKeeps(taken[n..], AtOnce(), d);
    }
    FilterAll(fresh_, Direct(accepted));
    assert taken == taken[..n] + taken[n..];
    FilterConcat(taken[..n], taken[n..], AtOnce());
  }

  lemma PassKeepsOrder(f: Flow, b: Buffer, l: Ledger, unmatched: seq<Publish>, pending: seq<Publish>,
                       expiring: bool, choose: Publish -> Offer)
    requires OrderOk(f) && PassKept(b, f.x, l, unmatched, pending) && l.handed == Taken(f)
    requires l.accepted == f.ledger.accepted
    ensures OrderOk(Conclude(f, Advance(b, f.x, l, unmatched, pending, expiring, choose), expiring))
  {
    hide Filter, ExchangesOk, LedgerOk, Conclude, Advance, CountersOk, HeldOk, ProgressOk, Taken;
    var r := Advance(b, f.x, l, unmatched, pending, expiring, choose);
    ConcludedTaken(f, r, expiring);
    AdvanceKeeps(b, f.x, l, unmatched, pending, expiring, choose);
    AdvanceExtends(b, f.x, l, unmatched, pending, expiring, choose);
    TakenByAccepted(r, |unmatched + pending + b.publishes|);
    PassTracks(b, f.x, l, unmatched, pending, expiring, choose);
    AdvanceRecords(b, f.x, l, unmatched, pending, expiring, choose);
    assert TakenBy(r)[..|l.handed|] == l.handed;
    if f.x.broken == multiset{} { DirectAfterPass(f.x.delivered, TakenBy(r), |l.handed|, l.accepted); }
    SameTracked(r.x, Conclude(f, r, expiring).x, TakenBy(r));
  }

  lemma SameTracked(x: Exchanges, y: Exchanges, taken: HandOvers)
    requires TakenTracked(x, taken)
    requires y.inflight == x.inflight && y.reader == x.reader && y.delivered == x.delivered && y.broken == x.broken
    ensures TakenTracked(y, taken)
  {
    forall i | 0 <= i < |taken| ensures Tracked(y, taken[i]) {
      assert Tracked(x, taken[i]);
    }
  }

  lemma LeftoversDoNotMatter(f: Flow, left: Leftover)
    ensures Taken(f.(left := left)) == Taken(f)
    ensures OrderOk(f) ==> OrderOk(f.(left := left))
  {
    hide Filter, Tracked, ReaderFits;
  }

  lemma PassEventKeepsOrder(f: Flow, e: Event)
    requires FlowOk(f) && OrderOk(f) && (e.Drain? || e.DeliveryEnds?)
    ensures OrderOk(Step(f, e))
  {
    hide OrderOk, Conclude, Advance, PassKept, ReplayOk, PassOk;
    match e
    case Drain(expiring, choose) =>
      if f.replay.Buffering? && f.replay.frame.NoFrame? {
        DrainKept(f);
        PassKeepsOrder(f, f.replay.buffer, f.ledger, [], [], expiring, choose);
      }
    case DeliveryEnds(choose) =>
      if f.replay.Buffering? && f.replay.frame.Frame? {
        var fr := f.replay.frame;
        ResumedKept(f);
        PassKeepsOrder(f, Discard(f.replay.buffer, fr.inHand), Hand(f.ledger, fr.inHand, fr.recipient),
                       fr.unmatched, fr.pending, fr.expiring, choose);
      } else {
        LeftoversDoNotMatter(f, SendEnded(f.left));
      }
    case _ =>
  }

  lemma SessionEndKeepsOrder(f: Flow)
    requires FlowOk(f) && OrderOk(f)
    ensures OrderOk(Step(f, SessionEnds))
  {
    hide ExchangesOk, LedgerOk, LimitOk, AcceptedSeen, ReplayOk, Filter, StillOpen, TakenTracked;
    SameTracked(f.x, Step(f, SessionEnds).x, Taken(f));
  }

  lemma FailureKeepsOrder(f: Flow)
    requires FlowOk(f) && OrderOk(f)
    ensures OrderOk(Step(f, DeliveryFails))
  {
    hide ExchangesOk, LedgerOk, LimitOk, AcceptedSeen, ReplayOk, Filter, Tracked, ReaderFits;
    var g := Step(f, DeliveryFails);
    if f.replay.Buffering? && f.replay.frame.Frame? {
      assert g.x.broken != multiset{} by { assert f.replay.frame.inHand in g.x.broken; }
      forall i | 0 <= i < |Taken(g)| ensures !Taken(g)[i].1.Nobody? && Tracked(g.x, Taken(g)[i]) {
        assert Taken(g)[i] == Taken(f)[i];
        MoreBroken(f.x, multiset{f.replay.frame.inHand}, Taken(f)[i]);
      }
    }
  }

  lemma MoreBroken(x: Exchanges, more: multiset<Publish>, d: (Publish, Recipient))
    requires Tracked(x, d)
    ensures Tracked(x.(broken := x.broken + more), d)
  {}

  lemma StepKeepsOrder(f: Flow, e: Event)
    requires FlowOk(f) && OrderOk(f)
    ensures OrderOk(Step(f, e))
  {
    hide FlowOk, OrderOk, Step;
    match e
    case Arrive(topic, qos, pid, offer) => ArriveKeepsOrder(f, topic, qos, pid, offer);
    case Drain(_, _) => PassEventKeepsOrder(f, e);
    case DeliveryEnds(_) => PassEventKeepsOrder(f, e);
    case DeliveryFails => FailureKeepsOrder(f);
    case SessionEnds => SessionEndKeepsOrder(f);
    case _ => ReaderEventKeeps(f, e);
  }

  lemma {:induction false} ReachableFlowsAreOrdered(sessionPresent: bool, limit: nat, events: seq<Event>)
    ensures OrderOk(Run(sessionPresent, limit, events))
  {
    hide FlowOk, OrderOk, Step;
    if events == [] {
      assert OrderOk(NewFlow(sessionPresent, limit)) by { NewFlowIsOrdered(sessionPresent, limit); }
    } else {
      ReachableFlowsAreOrdered(sessionPresent, limit, events[..|events| - 1]);
      StepKeepsOrder(Run(sessionPresent, limit, events[..|events| - 1]), events[|events| - 1]);
    }
  }

  lemma NewFlowIsOrdered(sessionPresent: bool, limit: nat)
    ensures OrderOk(NewFlow(sessionPresent, limit))
  {}
}
