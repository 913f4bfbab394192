/** What `clear()` does to a pass that is suspended in a delivery: the pass keeps its local variables,
  the buffer loses its counters, and the pass ends at the first counter it looks up. */
module ClearedPasses {
  import opened Prelude
  import opened ReplayBuffer
  import opened InboundExchanges
  import opened Inbound
  import opened InboundOrder
  import opened DrainOrder

  /** The buffer and the local variables of the pass that is suspended, in the session or after it. */
  function Working(f: Flow): Option<(Buffer, Frame)> {
    if Suspended(f) then Some((f.replay.buffer, f.replay.frame))
    else if f.left.frame.Frame? then Some((f.left.buffer, f.left.frame))
    else None
  }

  predicate EndsDelivery(e: Event) { e.DeliveryEnds? || e.DeliveryFails? }

  predicate StillSending(events: seq<Event>) { forall i :: 0 <= i < |events| ==> !EndsDelivery(events[i]) }

  /** Only a flow whose session is over has anything left of a pass, and what is suspended has no counters. */
  ghost predicate LeftOk(f: Flow) {
    && (f.replay != NoSession ==> f.left == NothingLeft)
    && (f.left.frame.Frame? ==> f.left.buffer == EmptyBuffer && !f.left.missed && !f.left.frame.expiring)
    && (f.left.missed ==> f.left.frame.NoFrame?)
  }

  lemma StepKeepsLeft(f: Flow, e: Event)
    requires FlowOk(f) && LeftOk(f)
    ensures LeftOk(Step(f, e))
  {
    hide FlowOk, Advance, Taken, Resting, Elements, LiveHandOver, Forget;
    FlowsAreReplays();
  }

  lemma {:induction false} LeftIsOk(sessionPresent: bool, limit: nat, events: seq<Event>)
    ensures LeftOk(Run(sessionPresent, limit, events))
  {
    hide FlowOk, Step, LeftOk;
    if events == [] {
      NothingIsLeft(sessionPresent, limit);
    } else {
      var n := |events| - 1;
      LeftIsOk(sessionPresent, limit, events[..n]);
      StepKeepsLeft(Run(sessionPresent, limit, events[..n]), events[n]);
    }
  }

  lemma NothingIsLeft(sessionPresent: bool, limit: nat)
    ensures LeftOk(NewFlow(sessionPresent, limit))
  {}

  /** Nothing but the end of its delivery moves a suspended pass; only `clear()` takes its counters away, and
    breaks an expiry off. */
  lemma StillSuspended(f: Flow, e: Event)
    requires FlowOk(f) && LeftOk(f) && Working(f).Some? && !EndsDelivery(e)
    ensures var g, fr := Step(f, e), Working(f).value.1;
      && (Suspended(g) <==> Suspended(f) && e != SessionEnds)
      && (Working(g).Some? <==> !(Suspended(f) && e == SessionEnds && fr.expiring))
      && (Working(g).Some? ==> Working(g).value.1 == fr)
      && !g.left.missed
  {
    hide FlowOk, Advance, Taken, Resting, Elements, LiveHandOver, Forget;
    FlowsAreReplays();
  }

  /** What is over stays over. */
  lemma StaysOver(f: Flow, e: Event)
    requires FlowOk(f) && LeftOk(f) && f.replay == NoSession && f.left.frame.NoFrame?
    ensures var g := Step(f, e); g.replay == NoSession && g.left == f.left
  {
    hide FlowOk, Advance, Taken, Resting, Elements, LiveHandOver, Forget;
    FlowsAreReplays();
  }

  /** Where a delivery that was suspended in the session is, as long as its send has not ended. */
  ghost predicate SendingStill(g: Flow, fr: Frame, cleared: bool)
    requires fr.Frame?
  {
    && (Suspended(g) <==> !cleared) && !g.left.missed
    && (cleared ==> g.replay == NoSession)
    && (if cleared && fr.expiring then g.left.frame.NoFrame? else Working(g).Some? && Working(g).value.1 == fr)
  }

  lemma SendingOn(g: Flow, e: Event, fr: Frame, cleared: bool)
    requires FlowOk(g) && LeftOk(g) && fr.Frame? && SendingStill(g, fr, cleared) && !EndsDelivery(e)
    ensures SendingStill(Step(g, e), fr, cleared || e == SessionEnds)
  {
    hide FlowOk, Step;
    if cleared { ClearedStays(g, e); }
    if cleared && fr.expiring { StaysOver(g, e); } else { StillSuspended(g, e); }
    if e == SessionEnds { ClearedIsOver(g); }
  }

  lemma ClearedIsOver(f: Flow)
    requires FlowOk(f)
    ensures Step(f, SessionEnds).replay == NoSession
  {}

  lemma ClearedStays(f: Flow, e: Event)
    requires FlowOk(f) && f.replay == NoSession
    ensures Step(f, e).replay == NoSession
  {
    hide FlowOk, Advance, Taken, Resting, Elements, LiveHandOver, Forget;
    FlowsAreReplays();
  }

  lemma {:induction false} SuspendedUntilCleared(sessionPresent: bool, limit: nat, before: seq<Event>, between: seq<Event>)
    requires Suspended(Run(sessionPresent, limit, before)) && StillSending(between)
    ensures var f, g := Run(sessionPresent, limit, before), Run(sessionPresent, limit, before + between);
      SendingStill(g, f.replay.frame, SessionEnds in between)
  {
    hide FlowOk, Step, LeftOk, Run, SendingStill;
    var f := Run(sessionPresent, limit, before);
    if between == [] {
      assert before + between == before;
      LeftIsOk(sessionPresent, limit, before);
      SendingNow(f);
    } else {
      var n := |between| - 1;
      SuspendedUntilCleared(sessionPresent, limit, before, between[..n]);
      assert between == between[..n] + [between[n]];
      assert before + between == before + between[..n] + [between[n]];
      RunSnoc(sessionPresent, limit, before + between[..n], between[n]);
      LeftIsOk(sessionPresent, limit, before + between[..n]);
      SendingOn(Run(sessionPresent, limit, before + between[..n]), between[n], f.replay.frame, SessionEnds in between[..n]);
    }
  }

  lemma SendingNow(f: Flow)
    requires Suspended(f) && LeftOk(f)
    ensures SendingStill(f, f.replay.frame, false)
  {}

  /** From every reachable state with a suspended delivery, whatever happens before its send ends: a `clear()`
    breaks an expiry off; a drain goes on, and when the send ends well, `_discard` finds the topic counter
    of the message if and only if no `clear()` came since the delivery was suspended. */
  lemma CounterFoundExactlyWithoutClear(sessionPresent: bool, limit: nat, before: seq<Event>, between: seq<Event>,
                                        choose: Publish -> Offer)
    requires Suspended(Run(sessionPresent, limit, before)) && StillSending(between)
    ensures var f, g := Run(sessionPresent, limit, before), Run(sessionPresent, limit, before + between);
      var fr, h := f.replay.frame, Run(sessionPresent, limit, before + between + [DeliveryEnds(choose)]);
      && (Working(g).None? <==> SessionEnds in between && fr.expiring)
      && (Working(g).Some? ==>
            Working(g).value.1 == fr && (CounterFound(Working(g).value.0, fr) <==> SessionEnds !in between))
      && (h.left.missed <==> SessionEnds in between && !fr.expiring)
  {
    hide FlowOk, Step, LeftOk, Run, Working;
    var g := Run(sessionPresent, limit, before + between);
    SuspendedUntilCleared(sessionPresent, limit, before, between);
    LeftIsOk(sessionPresent, limit, before + between);
    RunSnoc(sessionPresent, limit, before + between, DeliveryEnds(choose));
    WorkingOrNot(g);
    if Working(g).Some? { SendOfPassEnds(g, choose); } else { NoPassLeft(g, choose); }
  }

  lemma WorkingOrNot(f: Flow)
    ensures Working(f).None? <==> !Suspended(f) && f.left.frame.NoFrame?
  {}

  lemma NoPassLeft(f: Flow, choose: Publish -> Offer)
    requires FlowOk(f) && Working(f).None?
    ensures Step(f, DeliveryEnds(choose)) == f
  {
    hide FlowOk, Advance;
    FlowsAreReplays();
  }

  /** At a missing counter the pass stops: nothing is handed over any more, and what it still had is
    back in a buffer that counts to less than nothing. */
  lemma SendOfPassEnds(f: Flow, choose: Publish -> Offer)
    requires FlowOk(f) && LeftOk(f) && Working(f).Some?
    ensures var g, b, fr := Step(f, DeliveryEnds(choose)), Working(f).value.0, Working(f).value.1;
      && (CounterFound(b, fr) <==> Suspended(f))
      && (g.left.missed <==> !CounterFound(b, fr))
      && (!CounterFound(b, fr) ==>
            && g == f.(left := g.left) && Working(g).None?
            && g.left.buffer == EmptyBuffer.(publishes := fr.unmatched + fr.pending, count := -1))
  {
    hide FlowOk, Advance, Taken, Resting, Elements;
    FlowsAreReplays();
    if Suspended(f) {
      ResumedPass(f.replay);
    } else {
      assert f.left.frame.unmatched + f.left.frame.pending + [] == f.left.frame.unmatched + f.left.frame.pending;
    }
  }

  /** Every suspended delivery began inside the session: the condition covers every run. */
  lemma {:induction false} SuspendedSince(sessionPresent: bool, limit: nat, events: seq<Event>) returns (k: nat)
    requires Working(Run(sessionPresent, limit, events)).Some?
    ensures k <= |events| && Suspended(Run(sessionPresent, limit, events[..k])) && StillSending(events[k..])
  {
    hide FlowOk, Step, LeftOk;
    if Suspended(Run(sessionPresent, limit, events)) {
      k := |events|;
      assert events[..k] == events;
    } else {
      var n := |events| - 1;
      LeftIsOk(sessionPresent, limit, events[..n]);
        CutOffBefore(Run(sessionPresent, limit, events[..n]), events[n]);
      k := SuspendedSince(sessionPresent, limit, events[..n]);
      assert events[..n][..k] == events[..k];
      assert events[k..] == events[..n][k..] + [events[n]];
    }
  }

  lemma CutOffBefore(f: Flow, e: Event)
    requires FlowOk(f) && LeftOk(f) && Working(Step(f, e)).Some? && !Suspended(Step(f, e))
    ensures Working(f).Some? && !EndsDelivery(e)
  {
    hide FlowOk, Advance, Taken, Resting, Elements, LiveHandOver, Forget;
    FlowsAreReplays();
  }

  /** In every run: a delivery whose send ends well misses its counter if and only if `clear()` came since
    the last state in which its buffer was the session's. */
  lemma MissedExactlyAfterClear(sessionPresent: bool, limit: nat, events: seq<Event>,
                                choose: Publish -> Offer) returns (k: nat)
    requires Working(Run(sessionPresent, limit, events)).Some?
    ensures k <= |events| && Suspended(Run(sessionPresent, limit, events[..k])) && StillSending(events[k..])
    ensures Run(sessionPresent, limit, events + [DeliveryEnds(choose)]).left.missed <==> SessionEnds in events[k..]
  {
    hide FlowOk, Step, Run;
    k := SuspendedSince(sessionPresent, limit, events);
    CounterFoundExactlyWithoutClear(sessionPresent, limit, events[..k], events[k..], choose);
    assert events == events[..k] + events[k..];
  }

  /** A message is held, a drain is suspended in its delivery, `clear()` comes, and the send ends well. */
  function ClearedDrain(): seq<Event> { MixedRun()[..3] + [SessionEnds] + [DeliveryEnds(ToItsQueue())] }

  lemma ClearedDrainMissesItsCounter()
    ensures var g := Run(true, 0, ClearedDrain()); g.left.missed && g.left.buffer == Buffer([Younger], {}, map[], -1)
  {
    hide FlowOk, Step, Run;
    OlderIsInHandAfter();
    assert [SessionEnds] == [] + [SessionEnds];
    CounterFoundExactlyWithoutClear(true, 0, MixedRun()[..3], [SessionEnds], ToItsQueue());
    RunSnoc(true, 0, MixedRun()[..3] + [SessionEnds], DeliveryEnds(ToItsQueue()));
    LeftIsOk(true, 0, MixedRun()[..3] + [SessionEnds]);
    SendOfPassEnds(Run(true, 0, MixedRun()[..3] + [SessionEnds]), ToItsQueue());
  }

  // ----- What else ends a delivery -----

  /** A delivery that breaks off in the session: everything is held again, in its order, nothing is handed over, and
    the interruption is noted. One that breaks off after `clear()` goes back with what its pass still had. */
  lemma InterruptionMeaning(f: Flow)
    requires FlowOk(f) && LeftOk(f) && Working(f).Some?
    ensures var g, fr := Step(f, DeliveryFails), Working(f).value.1;
      && !Suspended(g) && Working(g).None? && !g.left.missed && g.ledger == f.ledger
      && Held(g.replay) == Held(f.replay)
      && if Suspended(f) then g.x == f.x.(broken := f.x.broken + multiset{fr.inHand}) && g.left == f.left
         else
           && g == f.(left := g.left)
           && g.left.buffer == EmptyBuffer.(publishes := fr.unmatched + [fr.inHand] + fr.pending)
  {
    hide FlowOk, Advance, Taken, Resting, Elements, LiveHandOver, Forget;
    FlowsAreReplays();
    var fr := Working(f).value.1;
    assert fr.unmatched + [fr.inHand] + fr.pending + [] == fr.unmatched + [fr.inHand] + fr.pending;
  }

  /** `clear()` touches no queue, no acknowledgement and no exchange that is in flight or waits for its `ack()`:
    it drops what is held, and the exchanges of what it drops. */
  lemma ClearMeaning(f: Flow)
    requires FlowOk(f)
    ensures var g := Step(f, SessionEnds);
      && g.replay == NoSession && Held(g.replay) == [] && g.x == f.x.(open := g.x.open)
      && (forall pid :: pid in g.x.open <==> pid in f.x.open && (pid in f.x.inflight || pid in f.x.pendingAck))
      && (forall pid :: pid in g.x.open ==> g.x.open[pid] == f.x.open[pid])
      && g.ledger.accepted == f.ledger.accepted && g.ledger.dropped == f.ledger.dropped + Elements(Resting(f.replay))
  {
    hide FlowOk, Advance, Taken, Resting, Elements, LiveHandOver;
    FlowsAreReplays();
  }
}
