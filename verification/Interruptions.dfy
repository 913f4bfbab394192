/** What an interrupted replay delivery does to a QoS 2 message, exactly: how often it can reach the
  application, and which tables and packets it breaks. */
module Interruptions {
  import opened Prelude
  import opened ReplayBuffer
  import opened InboundExchanges
  import opened Inbound
  import opened InboundTheorems
  import opened InboundOrder
  import opened DrainOrder

  // ----- A drain that finds a recipient for one message only -----

  function OnlyTo(p: Publish, r: Recipient): Publish -> Offer {
    (q: Publish) => Offer(if q == p then r else Nobody, false)
  }

  lemma {:induction false} PassFindsOnly(b: Buffer, x: Exchanges, l: Ledger, unmatched: seq<Publish>, pending: seq<Publish>,
                                         p: Publish, r: Recipient)
    requires PassOk(b, unmatched, pending) && p in pending + b.publishes && Suspends(p, r) && !r.Nobody? && PidOk(p)
    ensures var s := Advance(b, x, l, unmatched, pending, false, OnlyTo(p, r));
      && s.frame.Frame? && s.frame.inHand == p && s.frame.recipient == r
      && s.x == ReplayHandOver(x, p, r) && s.ledger == l
    decreases |b.publishes|, |pending|
  {
    hide CountersOk, HeldOk, ReplayHandOver;
    if pending == [] {
      PassTurns(b, unmatched);
      PassFindsOnly(b.(publishes := []), x, l, unmatched, b.publishes, p, r);
    } else {
      PassLeaves(b, unmatched, pending);
      PassTakes(b, unmatched, pending);
      assert pending == [pending[0]] + pending[1..];
      if pending[0] != p {
        PassFindsOnly(b, x, l, unmatched + [pending[0]], pending[1..], p, r);
      }
    }
  }

  /** The message rests in the buffer, and neither a drain nor the read loop is busy. */
  ghost predicate AtRest(f: Flow, p: Publish) {
    && f.replay.Buffering? && f.replay.frame.NoFrame? && p in f.replay.buffer.publishes
    && IsQos2(p) && f.x.reader == Ready
  }

  /** The message is in hand, its flight recorded, and the read loop is idle. */
  ghost predicate JustRecorded(f: Flow, p: Publish, r: Recipient) {
    && Suspended(f) && f.replay.frame.inHand == p && f.replay.frame.recipient == r
    && IsQos2(p) && AutoAck(r) && !r.Nobody? && Recorded(f.x.inflight, (p, r)) && f.x.reader == Ready
  }

  lemma DrainRecords(f: Flow, p: Publish, r: Recipient)
    requires FlowOk(f) && AtRest(f, p) && AutoAck(r) && !r.Nobody?
    ensures var g := Step(f, Drain(false, OnlyTo(p, r)));
      && FlowOk(g) && JustRecorded(g, p, r)
      && g.x.delivered == f.x.delivered && g.x.broken == f.x.broken
  {
    hide ExchangesOk, LedgerOk, LimitOk, AcceptedSeen, ReplayOk, Advance, PassOk;
    StepKeeps(f, Drain(false, OnlyTo(p, r)));
    StartsAPass(f);
    assert p in [] + f.replay.buffer.publishes;
    PassFindsOnly(f.replay.buffer, f.x, f.ledger, [], [], p, r);
  }

  lemma InterruptionReturns(f: Flow, p: Publish, r: Recipient)
    requires FlowOk(f) && JustRecorded(f, p, r)
    ensures var g := Step(f, DeliveryFails);
      && FlowOk(g) && g.replay.Buffering? && g.replay.frame.NoFrame? && p in g.replay.buffer.publishes
      && g.x == f.x.(broken := f.x.broken + multiset{p})
  {
    hide ExchangesOk, LedgerOk, LimitOk, AcceptedSeen, ReplayOk, Advance, Recorded;
    StepKeeps(f, DeliveryFails);
    HandIsHeld(f);
  }

  lemma HandIsHeld(f: Flow)
    requires Suspended(f)
    ensures f.replay.frame.inHand in Held(f.replay)
  {}

  /** One interrupted delivery, and the release of the flight it left behind. */
  function Round(p: Publish, r: Recipient): seq<Event>
    requires IsQos2(p)
  {
    [Drain(false, OnlyTo(p, r)), DeliveryFails, Pubrel(p.pid.value), SendEnds(false)]
  }

  lemma Appended(before: seq<Event>, some: seq<Event>, e: Event)
    ensures before + some + [e] == before + (some + [e])
  {}

  lemma RunFour(sessionPresent: bool, limit: nat, before: seq<Event>, a: Event, b: Event, c: Event, d: Event)
    ensures var f := Run(sessionPresent, limit, before);
      FlowOk(Step(f, a)) && FlowOk(Step(Step(f, a), b)) && FlowOk(Step(Step(Step(f, a), b), c))
      && Run(sessionPresent, limit, before + [a, b, c, d]) == Step(Step(Step(Step(f, a), b), c), d)
  {
    hide FlowOk, Step, Run;
    FlowsAreReplays();
    RunIsOk(sessionPresent, limit, before);
    RunSnoc(sessionPresent, limit, before, a);
    RunSnoc(sessionPresent, limit, before + [a], b);
    Appended(before, [a], b);
    RunSnoc(sessionPresent, limit, before + [a, b], c);
    Appended(before, [a, b], c);
    RunSnoc(sessionPresent, limit, before + [a, b, c], d);
    Appended(before, [a, b, c], d);
    assert [a] + [b] == [a, b] && [a, b] + [c] == [a, b, c] && [a, b, c] + [d] == [a, b, c, d];
  }

  lemma RunIsOk(sessionPresent: bool, limit: nat, events: seq<Event>)
    ensures FlowOk(Run(sessionPresent, limit, events))
  {}

  /** A round puts the message back where it was, one delivery and one interruption later. */
  lemma RoundRepeats(sessionPresent: bool, limit: nat, before: seq<Event>, p: Publish, r: Recipient)
    requires AtRest(Run(sessionPresent, limit, before), p) && AutoAck(r) && !r.Nobody?
    ensures var f, g := Run(sessionPresent, limit, before), Run(sessionPresent, limit, before + Round(p, r));
      && AtRest(g, p) && g.x.delivered == f.x.delivered + [(p, r)] && g.x.broken == f.x.broken + multiset{p}
  {
    hide FlowOk, Step;
    var f := Run(sessionPresent, limit, before);
    RunFour(sessionPresent, limit, before, Drain(false, OnlyTo(p, r)), DeliveryFails, Pubrel(p.pid.value), SendEnds(false));
    FlowsAreReplays();
    DrainRecords(f, p, r);
    var g := Step(f, Drain(false, OnlyTo(p, r)));
    InterruptionReturns(g, p, r);
    OneRelease(Step(g, DeliveryFails), (p, r));
  }

  function Rounds(n: nat, p: Publish, r: Recipient): seq<Event>
    requires IsQos2(p)
  {
    if n == 0 then [] else Rounds(n - 1, p, r) + Round(p, r)
  }

  lemma {:induction false} RoundsRepeat(sessionPresent: bool, limit: nat, before: seq<Event>, n: nat, p: Publish,
                                        r: Recipient)
    requires AtRest(Run(sessionPresent, limit, before), p) && AutoAck(r) && !r.Nobody?
    ensures var f, g := Run(sessionPresent, limit, before), Run(sessionPresent, limit, before + Rounds(n, p, r));
      && AtRest(g, p) && Times(g.x.delivered, p) == Times(f.x.delivered, p) + n && g.x.broken[p] == f.x.broken[p] + n
  {
    hide FlowOk, Step;
    if n == 0 {
      assert before + Rounds(n, p, r) == before;
    } else {
      RoundsRepeat(sessionPresent, limit, before, n - 1, p, r);
      var earlier := before + Rounds(n - 1, p, r);
      RoundRepeats(sessionPresent, limit, earlier, p, r);
      TimesAppend(Run(sessionPresent, limit, earlier).x.delivered, p, r, p);
      assert before + Rounds(n, p, r) == earlier + Round(p, r);
    }
  }

  /** The last delivery, which goes well. */
  lemma LastDelivery(sessionPresent: bool, limit: nat, before: seq<Event>, p: Publish, r: Recipient)
    requires AtRest(Run(sessionPresent, limit, before), p) && AutoAck(r) && !r.Nobody?
    ensures var f, g := Run(sessionPresent, limit, before),
        Run(sessionPresent, limit, before + [Drain(false, OnlyTo(p, r)), Pubrel(p.pid.value), SendEnds(false)]);
      g.x.delivered == f.x.delivered + [(p, r)] && g.x.broken == f.x.broken
  {
    hide FlowOk, Step;
    var f := Run(sessionPresent, limit, before);
    var a, b, c := Drain(false, OnlyTo(p, r)), Pubrel(p.pid.value), SendEnds(false);
    RunSnoc(sessionPresent, limit, before, a);
    RunSnoc(sessionPresent, limit, before + [a], b);
    RunSnoc(sessionPresent, limit, before + [a] + [b], c);
    assert before + [a] + [b] + [c] == before + [a, b, c];
    FlowsAreReplays();
    DrainRecords(f, p, r);
    OneRelease(Step(f, a), (p, r));
  }

  /** From every reachable state with a held QoS 2 message and an idle read loop, and for every n: n
    interruptions can bring n + 1 deliveries, so the bound of one plus one for each is attained. */
  lemma EveryInterruptionCanDeliverAgain(sessionPresent: bool, limit: nat, before: seq<Event>, n: nat, p: Publish,
                                         r: Recipient)
    requires AtRest(Run(sessionPresent, limit, before), p) && AutoAck(r) && !r.Nobody?
    ensures exists after: seq<Event> {:trigger before + after} ::
      var f, g := Run(sessionPresent, limit, before), Run(sessionPresent, limit, before + after);
      Times(g.x.delivered, p) == Times(f.x.delivered, p) + n + 1 && g.x.broken[p] == f.x.broken[p] + n
  {
    hide FlowOk, Step;
    var rounds := before + Rounds(n, p, r);
    RoundsRepeat(sessionPresent, limit, before, n, p, r);
    LastDelivery(sessionPresent, limit, rounds, p, r);
    TimesAppend(Run(sessionPresent, limit, rounds).x.delivered, p, r, p);
    var last := [Drain(false, OnlyTo(p, r)), Pubrel(p.pid.value), SendEnds(false)];
    assert before + (Rounds(n, p, r) + last) == rounds + last;
  }

  /** For every n there is a run of a new connection with n interruptions and n + 1 deliveries. */
  lemma BoundIsAttained(n: nat)
    ensures exists events: seq<Event>, p: Publish {:trigger Times(Run(true, 0, events).x.delivered, p)} ::
      (p.qos == ExactlyOnce && Run(true, 0, events).x.broken[p] == n && Times(Run(true, 0, events).x.delivered, p) == n + 1)
  {
    hide FlowOk, Step, ReplayOk, Advance;
    var arrival := Arrive("t", ExactlyOnce, Some(1), Offer(Nobody, false));
    RunSnoc(true, 0, [], arrival);
    assert [] + [arrival] == [arrival];
    BothAreHeld();
    var f := Run(true, 0, [arrival]);
    assert f == HoldingOlder();
    EveryInterruptionCanDeliverAgain(true, 0, [arrival], n, Older, Queue);
    var after: seq<Event> :| var g := Run(true, 0, [arrival] + after);
      Times(g.x.delivered, Older) == Times(f.x.delivered, Older) + n + 1 && g.x.broken[Older] == f.x.broken[Older] + n;
    assert Times(Run(true, 0, [arrival] + after).x.delivered, Older) == n + 1;
  }

  // ----- At the branch -----

  lemma {:induction false} UninterruptedBreaksNoMore(sessionPresent: bool, limit: nat, before: seq<Event>,
                                                     after: seq<Event>)
    requires Uninterrupted(after)
    ensures Run(sessionPresent, limit, before + after).x.broken == Run(sessionPresent, limit, before).x.broken
  {
    hide FlowOk, Step;
    if after == [] {
      assert before + after == before;
    } else {
      var n := |after| - 1;
      UninterruptedBreaksNoMore(sessionPresent, limit, before, after[..n]);
      assert before + after == before + after[..n] + [after[n]];
      RunSnoc(sessionPresent, limit, before + after[..n], after[n]);
      StepBreaksOnlyByFailing(Run(sessionPresent, limit, before + after[..n]), after[n]);
    }
  }

  /** The read loop gets ready: a suspended put gets room, and then a suspended send ends. */
  const ReadyUp: seq<Event> := [PutEnds, SendEnds(false)]

  lemma GetsReady(x: Exchanges, d: (Publish, Recipient))
    requires x.reader != Stopped && Deferred(d) && !d.1.Nobody?
    requires Recorded(x.inflight, d) || HeldByReader(x.reader, d) || d in x.delivered
    ensures var y := ReaderResult(ReaderResult(x, PutEnds), SendEnds(false));
      && y.reader == Ready && y.broken == x.broken
      && (Recorded(y.inflight, d) || d in y.delivered)
  {
    var mid := ReaderResult(x, PutEnds);
    assert !mid.reader.Putting? && mid.reader != Stopped && mid.broken == x.broken;
    assert Recorded(mid.inflight, d) || HeldByReader(mid.reader, d) || d in mid.delivered;
    hide Recorded;
    var r := mid.reader;
    if r.Sending? { assert ReaderResult(mid, SendEnds(false)) == FinishSend(mid, r.afterSend, false); }
  }

  /** The message, when its interrupted delivery is back in the buffer, with its first delivery made. */
  lemma FirstDeliveryMade(sessionPresent: bool, limit: nat, before: seq<Event>, p: Publish,
                          r: Recipient) returns (after: seq<Event>)
    requires var f := Run(sessionPresent, limit, before);
      && f.replay.Buffering? && f.replay.frame.NoFrame? && p in f.replay.buffer.publishes && IsQos2(p)
      && AutoAck(r) && !r.Nobody? && f.x.reader != Stopped
      && (Recorded(f.x.inflight, (p, r)) || HeldByReader(f.x.reader, (p, r)) || (p, r) in f.x.delivered)
    ensures Uninterrupted(after)
    ensures var g := Run(sessionPresent, limit, before + after); AtRest(g, p) && (p, r) in g.x.delivered
  {
    hide FlowOk, Step, ReaderResult, Recorded, ReplayOk;
    var f := Run(sessionPresent, limit, before);
    FlowsAreReplays();
    RunSnoc(sessionPresent, limit, before, PutEnds);
    RunSnoc(sessionPresent, limit, before + [PutEnds], SendEnds(false));
    Appended(before, [PutEnds], SendEnds(false));
    assert [PutEnds] + [SendEnds(false)] == ReadyUp;
    ReaderEventStep(f, PutEnds);
    ReaderEventStep(Run(sessionPresent, limit, before + [PutEnds]), SendEnds(false));
    GetsReady(f.x, (p, r));
    var g := Run(sessionPresent, limit, before + ReadyUp);
    assert AtRest(g, p);
    if (p, r) in g.x.delivered {
      after := ReadyUp;
    } else {
      var pid := p.pid.value;
      RunSnoc(sessionPresent, limit, before + ReadyUp, Pubrel(pid));
      RunSnoc(sessionPresent, limit, before + ReadyUp + [Pubrel(pid)], SendEnds(false));
      OneRelease(g, (p, r));
      after := ReadyUp + [Pubrel(pid), SendEnds(false)];
      assert before + after == before + ReadyUp + [Pubrel(pid)] + [SendEnds(false)];
    }
  }

  /** From every reachable state with a QoS 2 message in hand that was never interrupted and a live read
    loop: an uninterrupted continuation can deliver it twice if and only if this delivery breaks off. */
  lemma DeliveredTwiceExactlyWhenInterrupted(sessionPresent: bool, limit: nat, before: seq<Event>, e: Event)
    requires var f := Run(sessionPresent, limit, before);
      && Suspended(f) && f.replay.frame.inHand.qos == ExactlyOnce && f.replay.frame.inHand !in f.x.broken
      && f.x.reader != Stopped
    requires e.DeliveryEnds? || e.DeliveryFails?
    ensures var p := Run(sessionPresent, limit, before).replay.frame.inHand;
      (exists after: seq<Event> ::
         Uninterrupted(after) && Times(Run(sessionPresent, limit, before + [e] + after).x.delivered, p) >= 2)
      <==> e.DeliveryFails?
  {
    hide FlowOk, Step, OrderOk;
    var f := Run(sessionPresent, limit, before);
    var p := f.replay.frame.inHand;
    if e.DeliveryFails? {
      var after := InterruptedCanRepeat(sessionPresent, limit, before);
    } else {
      forall after: seq<Event> | Uninterrupted(after)
        ensures Times(Run(sessionPresent, limit, before + [e] + after).x.delivered, p) <= 1
      {
        UninterruptedBreaksNoMore(sessionPresent, limit, before, [e]);
        UninterruptedBreaksNoMore(sessionPresent, limit, before + [e], after);
        DeliveredAtMostOncePlusInterruptions(sessionPresent, limit, before + [e] + after, p);
      }
    }
  }

  lemma InHandIsTracked(f: Flow)
    requires FlowOk(f) && OrderOk(f) && Suspended(f) && f.replay.frame.inHand.qos == ExactlyOnce
    requires f.replay.frame.inHand !in f.x.broken && f.x.reader != Stopped
    ensures var d := (f.replay.frame.inHand, f.replay.frame.recipient);
      Deferred(d) && !d.1.Nobody? && (Recorded(f.x.inflight, d) || HeldByReader(f.x.reader, d) || d in f.x.delivered)
  {
    hide ExchangesOk, ReplayOk, DirectMatches, ReaderFits, Recorded;
    var d := (f.replay.frame.inHand, f.replay.frame.recipient);
    assert d.0 in Held(f.replay) && PidOk(d.0) by { assert ReplayOk(f.replay); HeldAreIdentified(f.replay); }
    assert Taken(f)[|f.ledger.handed|] == d;
    assert Tracked(f.x, d);
  }

  lemma HeldAreIdentified(replay: Replay)
    requires ReplayOk(replay)
    ensures forall p :: p in Held(replay) ==> PidOk(p)
  {}

  lemma FailureReturns(f: Flow)
    requires FlowOk(f) && Suspended(f)
    ensures var p, g := f.replay.frame.inHand, Step(f, DeliveryFails);
      && g.replay.Buffering? && g.replay.frame.NoFrame? && p in g.replay.buffer.publishes
      && g.x == f.x.(broken := f.x.broken + multiset{p})
  {
    hide ExchangesOk, LedgerOk, LimitOk, AcceptedSeen, ReplayOk, Advance;
    HandIsHeld(f);
  }

  lemma InterruptedCanRepeat(sessionPresent: bool, limit: nat, before: seq<Event>) returns (after: seq<Event>)
    requires var f := Run(sessionPresent, limit, before);
      && Suspended(f) && f.replay.frame.inHand.qos == ExactlyOnce && f.replay.frame.inHand !in f.x.broken
      && f.x.reader != Stopped
    ensures Uninterrupted(after)
    ensures var p := Run(sessionPresent, limit, before).replay.frame.inHand;
      Times(Run(sessionPresent, limit, before + [DeliveryFails] + after).x.delivered, p) >= 2
  {
    hide FlowOk, Step, OrderOk, Recorded;
    var f := Run(sessionPresent, limit, before);
    var p, r := f.replay.frame.inHand, f.replay.frame.recipient;
    ReachableFlowsAreOrdered(sessionPresent, limit, before);
    InHandIsTracked(f);
    FlowsAreReplays();
    FailureReturns(f);
    RunSnoc(sessionPresent, limit, before, DeliveryFails);
    var failed := before + [DeliveryFails];
    var first := FirstDeliveryMade(sessionPresent, limit, failed, p, r);
    var last := SecondDelivery(sessionPresent, limit, failed + first, p, r);
    after := first + last;
    Grouped(failed, first, last);
  }

  lemma Grouped(a: seq<Event>, b: seq<Event>, c: seq<Event>)
    ensures a + b + c == a + (b + c)
  {}

  lemma SecondDelivery(sessionPresent: bool, limit: nat, before: seq<Event>, p: Publish,
                       r: Recipient) returns (last: seq<Event>)
    requires AtRest(Run(sessionPresent, limit, before), p) && AutoAck(r) && !r.Nobody?
    requires (p, r) in Run(sessionPresent, limit, before).x.delivered
    ensures Uninterrupted(last) && Times(Run(sessionPresent, limit, before + last).x.delivered, p) >= 2
  {
    hide FlowOk, Step;
    last := [Drain(false, OnlyTo(p, r)), Pubrel(p.pid.value), SendEnds(false)];
    LastDelivery(sessionPresent, limit, before, p, r);
    var g := Run(sessionPresent, limit, before);
    DeliveredCounts(g.x.delivered, (p, r));
    TimesAppend(g.x.delivered, p, r, p);
  }

  // ----- Tables and packets -----

  /** At the same branch: afterwards the message is held with its identifier still in flight if and only
    if the delivery broke off before the message was released. */
  lemma IdentifierSharedExactlyWhenInterrupted(sessionPresent: bool, limit: nat, before: seq<Event>, e: Event)
    requires var f := Run(sessionPresent, limit, before);
      Suspended(f) && f.replay.frame.inHand.qos == ExactlyOnce && PidOk(f.replay.frame.inHand)
    requires e.DeliveryEnds? || e.DeliveryFails?
    ensures var f, g := Run(sessionPresent, limit, before), Run(sessionPresent, limit, before + [e]);
      var p := f.replay.frame.inHand;
      (p in Held(g.replay) && p.pid.value in g.x.inflight) <==> e.DeliveryFails? && p.pid.value in f.x.inflight
  {
    hide ExchangesOk, LimitOk, AcceptedSeen, ReplayOk, Step;
    var f := Run(sessionPresent, limit, before);
    var p := f.replay.frame.inHand;
    RunSnoc(sessionPresent, limit, before, e);
    if e.DeliveryFails? {
      FailureReturns(f);
    } else {
      EndedIsHandedOver(f, e.choose);
      var g := Run(sessionPresent, limit, before + [e]);
      var k :| 0 <= k < |g.ledger.handed| && g.ledger.handed[k].0 == p;
      assert p in HandedSet(g.ledger.handed);
    }
  }

  lemma EndedIsHandedOver(f: Flow, choose: Publish -> Offer)
    requires FlowOk(f) && Suspended(f)
    ensures var handed := Step(f, DeliveryEnds(choose)).ledger.handed;
      exists k :: 0 <= k < |handed| && handed[k].0 == f.replay.frame.inHand
  {
    hide ExchangesOk, LedgerOk, LimitOk, AcceptedSeen, ReplayOk, Advance, Conclude, PassOk;
    var fr := f.replay.frame;
    ResumesAPass(f);
    var b, l := Discard(f.replay.buffer, fr.inHand), Hand(f.ledger, fr.inHand, fr.recipient);
    var r := Advance(b, f.x, l, fr.unmatched, fr.pending, fr.expiring, choose);
    AdvanceRecords(b, f.x, l, fr.unmatched, fr.pending, fr.expiring, choose);
    ConcludedTaken(f, r, fr.expiring);
    var g := Step(f, DeliveryEnds(choose));
    assert g.ledger.handed[|f.ledger.handed|] == l.handed[|f.ledger.handed|];
  }

  lemma {:induction false} PassFindsNothing(b: Buffer, x: Exchanges, l: Ledger, unmatched: seq<Publish>,
                                            pending: seq<Publish>,
                                            p: Publish, r: Recipient)
    requires PassOk(b, unmatched, pending) && p !in pending + b.publishes
    ensures var s := Advance(b, x, l, unmatched, pending, false, OnlyTo(p, r)); s.frame == NoFrame && s.x == x
    decreases |b.publishes|, |pending|
  {
    hide CountersOk, HeldOk, ReplayHandOver;
    if pending == [] {
      if b.publishes != [] {
        PassTurns(b, unmatched);
        PassFindsNothing(b.(publishes := []), x, l, unmatched, b.publishes, p, r);
      }
    } else {
      PassLeaves(b, unmatched, pending);
      PassTakes(b, unmatched, pending);
      assert pending == [pending[0]] + pending[1..];
      PassFindsNothing(b, x, l, unmatched + [pending[0]], pending[1..], p, r);
    }
  }

  /** A recipient that acknowledges manually gets its one message, and the pass goes to its end. */
  lemma {:induction false} PassGivesOnly(b: Buffer, x: Exchanges, l: Ledger, unmatched: seq<Publish>, pending: seq<Publish>,
                                         p: Publish, r: Recipient)
    requires PassOk(b, unmatched, pending) && p in pending + b.publishes && !Suspends(p, r) && !r.Nobody? && PidOk(p)
    ensures var s := Advance(b, x, l, unmatched, pending, false, OnlyTo(p, r));
      s.frame == NoFrame && s.x == ReplayHandOver(x, p, r)
    decreases |b.publishes|, |pending|
  {
    hide CountersOk, ReplayHandOver;
    if pending == [] {
      PassTurns(b, unmatched);
      PassGivesOnly(b.(publishes := []), x, l, unmatched, b.publishes, p, r);
    } else {
      PassLeaves(b, unmatched, pending);
      PassTakes(b, unmatched, pending);
      assert pending == [pending[0]] + pending[1..];
      if pending[0] != p {
        PassGivesOnly(b, x, l, unmatched + [pending[0]], pending[1..], p, r);
      } else {
        assert unmatched + [p] + (pending[1..] + b.publishes) == unmatched + pending + b.publishes;
        OnceHeld(unmatched, p, pending[1..] + b.publishes);
        PassFindsNothing(Discard(b, p), ReplayHandOver(x, p, r), Hand(l, p, r), unmatched, pending[1..], p, r);
      }
    }
  }

  lemma OnceHeld(front: seq<Publish>, p: Publish, back: seq<Publish>)
    requires HeldOk(front + [p] + back)
    ensures p !in back
  {
    var held := front + [p] + back;
    assert held[|front|] == p;
    assert forall i :: 0 <= i < |back| ==> held[|front| + 1 + i] == back[i];
  }

  lemma ManualDrain(f: Flow, p: Publish, r: Recipient)
    requires FlowOk(f) && AtRest(f, p) && !AutoAck(r) && !r.Nobody?
    ensures Step(f, Drain(false, OnlyTo(p, r))).x == ReplayHandOver(f.x, p, r)
  {
    hide ExchangesOk, LedgerOk, LimitOk, AcceptedSeen, ReplayOk, Advance, PassOk, ReplayHandOver;
    StartsAPass(f);
    assert p in [] + f.replay.buffer.publishes;
    PassGivesOnly(f.replay.buffer, f.x, f.ledger, [], [], p, r);
  }

  /** From every reachable state with a held QoS 2 message and an idle read loop: an interrupted delivery
    leaves it held and in flight at once; given to a recipient that acknowledges manually, it then
    waits for its `ack()` with its PUBREC sent, and its identifier is in both tables. */
  lemma InterruptionSharesIdentifiers(sessionPresent: bool, limit: nat, before: seq<Event>, p: Publish, queue: nat)
    requires AtRest(Run(sessionPresent, limit, before), p)
    ensures var auto, manual := OnlyTo(p, Subscription(queue, false)), OnlyTo(p, Subscription(queue, true));
      var g := Run(sessionPresent, limit, before + [Drain(false, auto), DeliveryFails]);
      var h := Run(sessionPresent, limit, before + [Drain(false, auto), DeliveryFails] + [Drain(false, manual)]);
      && p in Held(g.replay) && p.pid.value in g.x.inflight
      && p in h.x.unacked && Pubrec(p) in h.x.wire
      && p.pid.value in h.x.inflight && p.pid.value in h.x.pendingAck
  {
    hide FlowOk, Step, Run;
    var auto, manual := Subscription(queue, false), Subscription(queue, true);
    var a, b := Drain(false, OnlyTo(p, auto)), DeliveryFails;
    var f := Run(sessionPresent, limit, before);
    FlowsAreReplays();
    RunSnoc(sessionPresent, limit, before, a);
    RunSnoc(sessionPresent, limit, before + [a], b);
    Appended(before, [a], b);
    assert [a] + [b] == [a, b];
    RunSnoc(sessionPresent, limit, before + [a, b], Drain(false, OnlyTo(p, manual)));
    DrainRecords(f, p, auto);
    InterruptionReturns(Step(f, a), p, auto);
    var g := Run(sessionPresent, limit, before + [a, b]);
    assert p in g.x.broken;
    InterruptedHasPubrec(g, p);
    ManualDrain(g, p, manual);
  }

  lemma InterruptedHasPubrec(f: Flow, p: Publish)
    requires FlowOk(f) && p in f.x.broken && IsQos2(p)
    ensures Pubrec(p) in f.x.wire
  {}
}
