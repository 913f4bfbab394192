/** What the inbound flow promises over every run. */
module InboundTheorems {
  import opened Prelude
  import opened ReplayBuffer
  import opened InboundExchanges
  import opened Inbound

  predicate Uninterrupted(events: seq<Event>) {
    forall i :: 0 <= i < |events| ==> !events[i].DeliveryFails?
  }

  lemma PassBreaksNothing(f: Flow, e: Event)
    requires FlowOk(f) && (e.Drain? || e.DeliveryEnds?)
    ensures Step(f, e).x.broken == f.x.broken
  {
    hide ExchangesOk, HeldOk, CountersOk, LedgerOk, Elements, Advance, Forget, LimitOk, AcceptedSeen;
    match e
    case Drain(expiring, choose) =>
      if f.replay.Buffering? && f.replay.frame.NoFrame? {
        DrainKept(f);
        AdvanceBreaksNothing(f.replay.buffer, f.x, f.ledger, [], [], expiring, choose);
        ForgettingBreaksNothing();
      }
    case DeliveryEnds(choose) =>
      if f.replay.Buffering? && f.replay.frame.Frame? {
        var fr := f.replay.frame;
        ResumedKept(f);
        AdvanceBreaksNothing(Discard(f.replay.buffer, fr.inHand), f.x,
          Hand(f.ledger, fr.inHand, fr.recipient), fr.unmatched, fr.pending, fr.expiring, choose);
        ForgettingBreaksNothing();
      }
    case _ =>
  }

  lemma ForgettingBreaksNothing()
    ensures forall x :: Forget(x).broken == x.broken
  {}

  lemma StepBreaksOnlyByFailing(f: Flow, e: Event)
    requires FlowOk(f)
    ensures !e.DeliveryFails? ==> Step(f, e).x.broken == f.x.broken
  {
    hide FlowOk, Advance, Step;
    if e.Drain? || e.DeliveryEnds? { PassBreaksNothing(f, e); } else if !e.DeliveryFails? { ReaderBreaksNothing(f, e); }
  }

  lemma ReaderBreaksNothing(f: Flow, e: Event)
    requires FlowOk(f) && !e.Drain? && !e.DeliveryEnds? && !e.DeliveryFails?
    ensures Step(f, e).x.broken == f.x.broken
  {
    hide FlowOk, Advance, Resting, Taken, LiveHandOver;
    FlowsAreReplays();
    if e.Arrive? { LiveBreaksNothing(); }
  }

  lemma LiveBreaksNothing()
    ensures forall x, p, r, full :: PidOk(p) ==> LiveHandOver(Admit(x, p), p, r, full).broken == x.broken
  {}

  lemma {:induction false} AdvanceBreaksNothing(b: Buffer, x: Exchanges, l: Ledger, unmatched: seq<Publish>,
                                                pending: seq<Publish>, expiring: bool, choose: Publish -> Offer)
    requires PassOk(b, unmatched, pending)
    ensures Advance(b, x, l, unmatched, pending, expiring, choose).x.broken == x.broken
    decreases |b.publishes|, |pending|
  {
    hide CountersOk, HeldOk;
    if pending == [] {
      if b.publishes != [] {
        PassTurns(b, unmatched);
        AdvanceBreaksNothing(b.(publishes := []), x, l, unmatched, b.publishes, expiring, choose);
      }
    } else {
      var p := pending[0];
      var r := choose(p).recipient;
      PassLeaves(b, unmatched, pending);
      PassTakes(b, unmatched, pending);
      if !Deliverable(choose(p)) {
        AdvanceBreaksNothing(b, x, l, unmatched + [p], pending[1..], expiring, choose);
      } else if !Suspends(p, r) {
        AdvanceBreaksNothing(Discard(b, p), ReplayHandOver(x, p, r), Hand(l, p, r),
                             unmatched, pending[1..], expiring, choose);
      }
    }
  }

  // ----- Section 4.3.3 of MQTT Version 5.0: at most once -----

  /** In every run a message of any QoS, once it has arrived, reaches the application at most once, plus once
    for each time its replay delivery was interrupted. */
  lemma DeliveredAtMostOncePlusInterruptions(sessionPresent: bool, limit: nat, events: seq<Event>, p: Publish)
    ensures var x := Run(sessionPresent, limit, events).x; Times(x.delivered, p) <= 1 + x.broken[p]
  {
    var f := Run(sessionPresent, limit, events);
    assert Budget(f.x.delivered, f.x.inflight, f.x.reader, f.x.broken, Elements(Resting(f.replay)));
  }

  /** A message whose own replay delivery was never interrupted: at most once. */
  lemma DeliveredAtMostOnce(sessionPresent: bool, limit: nat, events: seq<Event>, p: Publish)
    requires p !in Run(sessionPresent, limit, events).x.broken
    ensures Times(Run(sessionPresent, limit, events).x.delivered, p) <= 1
  {
    DeliveredAtMostOncePlusInterruptions(sessionPresent, limit, events, p);
  }

  /** A repeated PUBLISH of an open exchange starts nothing: at most the PUBREC is sent again. */
  lemma DuplicateStartsNothing(sessionPresent: bool, limit: nat, events: seq<Event>,
                               topic: string, pid: int, offer: Offer)
    ensures var f := Run(sessionPresent, limit, events);
      pid in f.x.open && f.x.reader == Ready ==>
        var g := Step(f, Arrive(topic, ExactlyOnce, Some(pid), offer));
        g == f
        || (pid in f.x.inflight
            && g == f.(x := f.x.(wire := f.x.wire + [Pubrec(f.x.inflight[pid].publish)], reader := Sending(SendDone))))
  {
    hide FlowOk, Run, Step;
    FlowsAreReplays();
    var f := Run(sessionPresent, limit, events);
    if pid in f.x.open && f.x.reader == Ready { OpenIsDuplicate(f, topic, pid, offer); }
  }

  lemma OpenIsRemembered(f: Flow, pid: int)
    requires FlowOk(f) && pid in f.x.open && pid !in f.x.inflight && pid !in f.x.pendingAck
    ensures HeldId(f.replay, pid)
  {
    var waiting := Elements(Resting(f.replay));
    assert OpenTracked(f.x.open, f.x.inflight, f.x.pendingAck, waiting);
    hide ExchangesOk, LedgerOk, AcceptedSeen, LimitOk;
    var p :| p in waiting && IsQos2(p) && p.pid.value == pid;
    HeldIsRestingOrInHand(f.replay, p);
    HeldHasItsId(Held(f.replay), p);
  }

  lemma OpenIsDuplicate(f: Flow, topic: string, pid: int, offer: Offer)
    requires FlowOk(f) && pid in f.x.open && f.x.reader == Ready
    ensures var g := Step(f, Arrive(topic, ExactlyOnce, Some(pid), offer));
      g == f
      || (pid in f.x.inflight
          && g == f.(x := f.x.(wire := f.x.wire + [Pubrec(f.x.inflight[pid].publish)], reader := Sending(SendDone))))
  {
    hide FlowOk, Route, Advance, HeldId;
    FlowsAreReplays();
    if pid !in f.x.inflight && pid !in f.x.pendingAck { OpenIsRemembered(f, pid); }
  }

  /** A manually acknowledged message that waits for its `ack()` has had a PUBREC exactly when it is a
    QoS 2 message whose earlier delivery was interrupted. */
  lemma PubrecBeforeAckExactlyAfterInterruption(sessionPresent: bool, limit: nat, events: seq<Event>, p: Publish)
    ensures var x := Run(sessionPresent, limit, events).x;
      p in x.unacked ==> (Pubrec(p) in x.wire <==> IsQos2(p) && p in x.broken)
  {}

  /** A QoS 2 identifier that two tables share at once belongs to a message whose delivery was
    interrupted, the message in the middle of its delivery aside. */
  lemma SharedIdentifiersWereInterrupted(sessionPresent: bool, limit: nat, events: seq<Event>, p: Publish, pid: int)
    ensures var f := Run(sessionPresent, limit, events);
      && (pid in f.x.inflight && pid in f.x.pendingAck ==> f.x.inflight[pid].publish in f.x.broken)
      && (p in Held(f.replay) && IsQos2(p) ==> p.pid.value !in f.x.pendingAck)
      && (p in Held(f.replay) && IsQos2(p) && InHand(f.replay) != Some(p) && p.pid.value in f.x.inflight ==>
            p in f.x.broken && f.x.inflight[p.pid.value].publish == p)
  {
    var f := Run(sessionPresent, limit, events);
    HeldIsRestingOrInHand(f.replay, p);
  }

  // ----- Conservation, order and bound of the replay buffer -----

  /** At every suspension: the counters are exact, the held messages are in arrival order and within
    the limit, and each message ever buffered is held, handed over or dropped, and only one of these. */
  lemma ReplayConserved(sessionPresent: bool, limit: nat, events: seq<Event>)
    ensures var f := Run(sessionPresent, limit, events);
      && (f.replay.Buffering? ==> CountersOk(f.replay.buffer, Held(f.replay)))
      && HeldOk(Held(f.replay))
      && (limit != 0 ==> |Held(f.replay)| <= limit)
      && LedgerOk(f.ledger, Elements(Held(f.replay)))
  {
    LimitKept(sessionPresent, limit, events);
  }

  lemma {:induction false} LimitKept(sessionPresent: bool, limit: nat, events: seq<Event>)
    ensures Run(sessionPresent, limit, events).limit == limit
  {
    hide ExchangesOk, HeldOk, CountersOk, LedgerOk, Step;
    if events != [] {
      LimitKept(sessionPresent, limit, events[..|events| - 1]);
      StepKeepsLimit(Run(sessionPresent, limit, events[..|events| - 1]), events[|events| - 1]);
    }
  }

  lemma StepKeepsLimit(f: Flow, e: Event)
    requires ReplayOk(f.replay)
    ensures Step(f, e).limit == f.limit
  {
    hide Advance, ReplayOk;
  }

  /** A live message goes to a subscription only when no held message has its topic. */
  lemma LiveNeverOvertakesHeld(sessionPresent: bool, limit: nat, events: seq<Event>, p: Publish, r: Recipient)
    requires r.Subscription?
    ensures var f := Run(sessionPresent, limit, events);
      JudgeIn(f.replay, f.limit, p, r) == Pass <==> forall i :: 0 <= i < |Held(f.replay)| ==> Held(f.replay)[i].topic != p.topic
  {
    var f := Run(sessionPresent, limit, events);
    if f.replay.Buffering? { PassedNeverOvertakes(f.replay.buffer, Held(f.replay), f.limit, p, r); }
  }

  /** An expiry that drops messages ends buffering ... */
  lemma DroppingEndsReplay(f: Flow, e: Event)
    requires FlowOk(f) && (e.Drain? || e.DeliveryEnds?)
    ensures Step(f, e).ledger.dropped != f.ledger.dropped ==> Step(f, e).replay == NoSession
  {
    hide ExchangesOk, HeldOk, CountersOk, LedgerOk, Elements, Advance;
    match e
    case Drain(expiring, choose) =>
      if f.replay.Buffering? && f.replay.frame.NoFrame? {
        DrainKept(f);
        AdvanceDropsNothing(f.replay.buffer, f.x, f.ledger, [], [], expiring, choose);
      }
    case DeliveryEnds(choose) =>
      if f.replay.Buffering? && f.replay.frame.Frame? {
        var fr := f.replay.frame;
        ResumedKept(f);
        AdvanceDropsNothing(Discard(f.replay.buffer, fr.inHand), f.x,
          Hand(f.ledger, fr.inHand, fr.recipient), fr.unmatched, fr.pending, fr.expiring, choose);
      }
    case _ =>
  }

  /** Where a pass leaves the session when it is not suspended: with nothing to replay when nothing is left; without
    replay exactly when it was an expiry that dropped what was left; a drain keeps what is left. */
  lemma PassEndMeaning(f: Flow, e: Event)
    requires FlowOk(f) && f.replay.Buffering?
    requires (e.Drain? && f.replay.frame.NoFrame?) || (e.DeliveryEnds? && f.replay.frame.Frame?)
    ensures var g, expiring := Step(f, e), if e.Drain? then e.expiring else f.replay.frame.expiring;
      && (g.replay == NoSession <==> g.ledger.dropped != f.ledger.dropped) && (g.replay == NoSession ==> expiring)
      && (g.replay.Buffering? && g.replay.frame.NoFrame? ==> !expiring && Held(g.replay) != [])
      && g.left == f.left && g.limit == f.limit
  {
    hide ExchangesOk, HeldOk, CountersOk, LedgerOk, Elements, Advance, Conclude;
    match e
    case Drain(expiring, choose) =>
      DrainKept(f);
      AdvanceDropsNothing(f.replay.buffer, f.x, f.ledger, [], [], expiring, choose);
      AdvanceKeeps(f.replay.buffer, f.x, f.ledger, [], [], expiring, choose);
      ConcludeMeaning(f, Advance(f.replay.buffer, f.x, f.ledger, [], [], expiring, choose), expiring);
    case DeliveryEnds(choose) =>
      var fr := f.replay.frame;
      ResumedKept(f);
      var b, l := Discard(f.replay.buffer, fr.inHand), Hand(f.ledger, fr.inHand, fr.recipient);
      AdvanceDropsNothing(b, f.x, l, fr.unmatched, fr.pending, fr.expiring, choose);
      AdvanceKeeps(b, f.x, l, fr.unmatched, fr.pending, fr.expiring, choose);
      ConcludeMeaning(f, Advance(b, f.x, l, fr.unmatched, fr.pending, fr.expiring, choose), fr.expiring);
  }

  lemma ConcludeMeaning(f: Flow, r: Progress, expiring: bool)
    requires ReplayOk(Buffering(r.buffer, r.frame)) && LedgerOk(r.ledger, Elements(Held(Buffering(r.buffer, r.frame))))
    requires r.ledger.dropped == f.ledger.dropped
    ensures var g := Conclude(f, r, expiring);
      && (g.replay == NoSession <==> g.ledger.dropped != f.ledger.dropped) && (g.replay == NoSession ==> expiring)
      && (g.replay.Buffering? && g.replay.frame.NoFrame? ==> !expiring && Held(g.replay) != [])
      && g.left == f.left && g.limit == f.limit
  {
    hide HeldOk;
    var held := r.buffer.publishes;
    if r.frame.NoFrame? && held != [] { assert held[0] in Elements(held) && held[0] !in r.ledger.dropped; }
  }

  lemma {:induction false} AdvanceDropsNothing(b: Buffer, x: Exchanges, l: Ledger, unmatched: seq<Publish>,
                                               pending: seq<Publish>, expiring: bool, choose: Publish -> Offer)
    requires PassOk(b, unmatched, pending)
    ensures Advance(b, x, l, unmatched, pending, expiring, choose).ledger.dropped == l.dropped
    decreases |b.publishes|, |pending|
  {
    hide CountersOk, HeldOk;
    if pending == [] {
      if b.publishes != [] {
        PassTurns(b, unmatched);
        AdvanceDropsNothing(b.(publishes := []), x, l, unmatched, b.publishes, expiring, choose);
      }
    } else {
      var p := pending[0];
      var r := choose(p).recipient;
      PassLeaves(b, unmatched, pending);
      PassTakes(b, unmatched, pending);
      if !Deliverable(choose(p)) {
        AdvanceDropsNothing(b, x, l, unmatched + [p], pending[1..], expiring, choose);
      } else if !Suspends(p, r) {
        AdvanceDropsNothing(Discard(b, p), ReplayHandOver(x, p, r), Hand(l, p, r),
                            unmatched, pending[1..], expiring, choose);
      }
    }
  }

  lemma EndedReplayStaysEnded(f: Flow, e: Event)
    requires ReplayOk(f.replay) && f.replay == NoSession
    ensures Step(f, e).replay == NoSession && Step(f, e).ledger.accepted == f.ledger.accepted
  {
    hide Advance;
  }

  lemma {:induction false} EndedForGood(sessionPresent: bool, limit: nat, before: seq<Event>, after: seq<Event>)
    requires Run(sessionPresent, limit, before).replay == NoSession
    ensures var g, h := Run(sessionPresent, limit, before), Run(sessionPresent, limit, before + after);
      h.replay == NoSession && h.ledger.accepted == g.ledger.accepted
  {
    hide FlowOk, Step, Run, ReplayOk;
    if after == [] {
      assert before + after == before;
    } else {
      var n := |after| - 1;
      EndedForGood(sessionPresent, limit, before, after[..n]);
      assert before + after == before + after[..n] + [after[n]];
      RunSnoc(sessionPresent, limit, before + after[..n], after[n]);
      FlowsAreReplays();
      EndedReplayStaysEnded(Run(sessionPresent, limit, before + after[..n]), after[n]);
    }
  }

  /** ... for the rest of the session: once a drain or an expiry has dropped messages, no message is
    ever buffered again, whatever follows. */
  lemma NothingHeldAfterDropping(sessionPresent: bool, limit: nat, before: seq<Event>, e: Event, after: seq<Event>)
    requires e.Drain? || e.DeliveryEnds?
    requires Run(sessionPresent, limit, before + [e]).ledger.dropped != Run(sessionPresent, limit, before).ledger.dropped
    ensures var g, h := Run(sessionPresent, limit, before + [e]), Run(sessionPresent, limit, before + [e] + after);
      h.replay == NoSession && h.ledger.accepted == g.ledger.accepted
  {
    hide FlowOk, Step, Run, ReplayOk;
    FlowsAreReplays();
    RunSnoc(sessionPresent, limit, before, e);
    DroppingEndsReplay(Run(sessionPresent, limit, before), e);
    EndedForGood(sessionPresent, limit, before + [e], after);
  }

  // ----- A drain without suspensions -----

  /** A drain whose sends all succeed and that nothing interleaves with. */
  ghost function DrainAll(b: Buffer, x: Exchanges, l: Ledger, unmatched: seq<Publish>, pending: seq<Publish>,
                          choose: Publish -> Offer): Progress
    requires PassOk(b, unmatched, pending)
    decreases |b.publishes|, |pending|
  {
    if pending == [] then
      if b.publishes == [] then Progress(b.(publishes := unmatched), NoFrame, x, l)
      else
        PassTurns(b, unmatched);
        DrainAll(b.(publishes := []), x, l, unmatched, b.publishes, choose)
    else
      var p := pending[0];
      PassLeaves(b, unmatched, pending);
      PassTakes(b, unmatched, pending);
      if !Deliverable(choose(p)) then DrainAll(b, x, l, unmatched + [p], pending[1..], choose)
      else DrainAll(Discard(b, p), ReplayHandOver(x, p, choose(p).recipient), Hand(l, p, choose(p).recipient),
                    unmatched, pending[1..], choose)
  }

  /** It is what the suspended passes do when each one resumes at once. */
  lemma {:induction false} DrainAllIsPassesInARow(b: Buffer, x: Exchanges, l: Ledger, unmatched: seq<Publish>,
                                                  pending: seq<Publish>, choose: Publish -> Offer)
    requires PassOk(b, unmatched, pending)
    ensures var r := Advance(b, x, l, unmatched, pending, false, choose);
      match r.frame
      case NoFrame => DrainAll(b, x, l, unmatched, pending, choose) == r
      case Frame(_, u, p, to, rest) =>
        p.topic in r.buffer.topics && PassOk(Discard(r.buffer, p), u, rest)
        && DrainAll(b, x, l, unmatched, pending, choose)
           == DrainAll(Discard(r.buffer, p), r.x, Hand(r.ledger, p, to), u, rest, choose)
    decreases |b.publishes|, |pending|
  {
    hide CountersOk, HeldOk, ReplayHandOver;
    if pending == [] {
      if b.publishes != [] {
        PassTurns(b, unmatched);
        DrainAllIsPassesInARow(b.(publishes := []), x, l, unmatched, b.publishes, choose);
      }
    } else {
      var p := pending[0];
      var r := choose(p).recipient;
      PassLeaves(b, unmatched, pending);
      PassTakes(b, unmatched, pending);
      if !Deliverable(choose(p)) {
        DrainAllIsPassesInARow(b, x, l, unmatched + [p], pending[1..], choose);
      } else if !Suspends(p, r) {
        DrainAllIsPassesInARow(Discard(b, p), ReplayHandOver(x, p, r), Hand(l, p, r),
                               unmatched, pending[1..], choose);
      }
    }
  }

  /** There is no recipient, or the queue of its subscription is full. */
  predicate NobodyTakes(offer: Offer) { offer.recipient.Nobody? || (offer.recipient.Subscription? && offer.full) }

  /** Such a drain is complete: whatever it leaves behind, it found undeliverable. */
  lemma {:induction false} DrainAllIsComplete(b: Buffer, x: Exchanges, l: Ledger, unmatched: seq<Publish>,
                                              pending: seq<Publish>, choose: Publish -> Offer, q: Publish)
    requires PassOk(b, unmatched, pending)
    requires q in DrainAll(b, x, l, unmatched, pending, choose).buffer.publishes
    ensures q in unmatched || NobodyTakes(choose(q))
    decreases |b.publishes|, |pending|
  {
    hide CountersOk, HeldOk, ReplayHandOver;
    if pending == [] {
      if b.publishes != [] {
        PassTurns(b, unmatched);
        DrainAllIsComplete(b.(publishes := []), x, l, unmatched, b.publishes, choose, q);
      }
    } else {
      var head := pending[0];
      PassLeaves(b, unmatched, pending);
      PassTakes(b, unmatched, pending);
      if !Deliverable(choose(head)) {
        DrainAllIsComplete(b, x, l, unmatched + [head], pending[1..], choose, q);
      } else {
        DrainAllIsComplete(Discard(b, head), ReplayHandOver(x, head, choose(head).recipient),
                           Hand(l, head, choose(head).recipient), unmatched, pending[1..], choose, q);
      }
    }
  }
}
