/** The inbound publish flow: arriving messages, the replay buffer of a resumed session, drains and
  their suspensions, PUBRELs and application acknowledgements, interleaved at every `await`. */
module Inbound {
  import opened Prelude
  import opened ReplayBuffer
  import opened InboundExchanges

  /** What selection finds for a message: a recipient, and whether its queue is full. */
  datatype Offer = Offer(recipient: Recipient, full: bool)

  /** The local variables of a drain or an expiry that is suspended inside a delivery. */
  datatype Frame =
    | NoFrame
    | Frame(expiring: bool, unmatched: seq<Publish>, inHand: Publish, recipient: Recipient, pending: seq<Publish>)

  datatype Replay = NoSession | Idle | Buffering(buffer: Buffer, frame: Frame)

  /** What became of every buffered message; those handed over in the order of their hand-over. */
  datatype Ledger = Ledger(accepted: set<Publish>, handed: seq<(Publish, Recipient)>, dropped: set<Publish>)

  function Hand(l: Ledger, p: Publish, r: Recipient): Ledger { l.(handed := l.handed + [(p, r)]) }

  function HandedSet(handed: seq<(Publish, Recipient)>): set<Publish> { set i | 0 <= i < |handed| :: handed[i].0 }

  predicate HandedOnce(handed: seq<(Publish, Recipient)>) {
    forall i, j :: 0 <= i < j < |handed| ==> handed[i].0 != handed[j].0
  }

  /** A buffer that `clear()` emptied under a suspended pass, the local variables of that pass while it
    is suspended, and whether it ended at a topic counter that was gone. */
  datatype Leftover = Leftover(buffer: Buffer, frame: Frame, missed: bool)

  const NothingLeft := Leftover(EmptyBuffer, NoFrame, false)

  datatype Flow = Flow(replay: Replay, limit: nat, x: Exchanges, ledger: Ledger, left: Leftover)

  function NewFlow(sessionPresent: bool, limit: nat): Flow {
    Flow(if sessionPresent then Idle else NoSession, limit, NoExchanges, Ledger({}, [], {}), NothingLeft)
  }

  /** The held messages in arrival order. */
  function Held(replay: Replay): seq<Publish> {
    match replay
    case Buffering(b, NoFrame) => b.publishes
    case Buffering(b, Frame(_, unmatched, inHand, _, pending)) => unmatched + [inHand] + pending + b.publishes
    case _ => []
  }

  /** The held messages but the one in the middle of its delivery. */
  function Resting(replay: Replay): seq<Publish> {
    match replay
    case Buffering(b, Frame(_, unmatched, _, _, pending)) => unmatched + pending + b.publishes
    case _ => Held(replay)
  }

  function InHand(replay: Replay): Option<Publish> {
    match replay
    case Buffering(_, Frame(_, _, inHand, _, _)) => Some(inHand)
    case _ => None
  }

  function Elements(s: seq<Publish>): set<Publish> { set p | p in s }

  /** Every hand-over made or begun from the buffer, in order. */
  function Taken(f: Flow): seq<(Publish, Recipient)> {
    match f.replay
    case Buffering(_, Frame(_, _, inHand, recipient, _)) => f.ledger.handed + [(inHand, recipient)]
    case _ => f.ledger.handed
  }

  // ----- Delivering held messages -----

  datatype Progress = Progress(buffer: Buffer, frame: Frame, x: Exchanges, ledger: Ledger)

  predicate Deliverable(offer: Offer) {
    !offer.recipient.Nobody? && !(offer.recipient.Subscription? && offer.full)
  }

  /** The counters and the order of what a delivery pass has in its hands. */
  ghost predicate PassOk(b: Buffer, unmatched: seq<Publish>, pending: seq<Publish>) {
    var held := unmatched + pending + b.publishes;
    CountersOk(b, held) && HeldOk(held) && forall p :: p in held ==> PidOk(p)
  }

  lemma PassLeaves(b: Buffer, unmatched: seq<Publish>, pending: seq<Publish>)
    requires PassOk(b, unmatched, pending) && pending != []
    ensures PassOk(b, unmatched + [pending[0]], pending[1..])
  {
    assert unmatched + pending + b.publishes == unmatched + [pending[0]] + pending[1..] + b.publishes;
  }

  lemma PassTakes(b: Buffer, unmatched: seq<Publish>, pending: seq<Publish>)
    requires PassOk(b, unmatched, pending) && pending != []
    ensures PidOk(pending[0]) && pending[0].topic in b.topics
    ensures PassOk(Discard(b, pending[0]), unmatched, pending[1..])
  {
    var p, back := pending[0], pending[1..] + b.publishes;
    assert unmatched + pending + b.publishes == unmatched + [p] + back;
    assert p in unmatched + [p] + back;
    DiscardKeepsCounters(b, unmatched, p, back);
    DiscardKeepsHeld(unmatched, p, back);
    assert unmatched + pending[1..] + b.publishes == unmatched + back;
    forall q | q in unmatched + back ensures PidOk(q) {
      assert q in unmatched + [p] + back;
    }
  }

  lemma PassTurns(b: Buffer, unmatched: seq<Publish>)
    requires PassOk(b, unmatched, [])
    ensures PassOk(b.(publishes := []), unmatched, b.publishes)
  {
    assert unmatched + [] + b.publishes == unmatched + b.publishes + [];
  }

  /** `_deliver_pending` from any point of its loops to its next suspension or its end: goes through
    `pending`, then through what arrived meanwhile, and puts what it could not deliver back. */
  ghost function Advance(b: Buffer, x: Exchanges, l: Ledger, unmatched: seq<Publish>, pending: seq<Publish>,
                         expiring: bool, choose: Publish -> Offer): Progress
    requires PassOk(b, unmatched, pending)
    decreases |b.publishes|, |pending|
  {
    if pending == [] then
      if b.publishes == [] then Progress(b.(publishes := unmatched), NoFrame, x, l)
      else
        PassTurns(b, unmatched);
        Advance(b.(publishes := []), x, l, unmatched, b.publishes, expiring, choose)
    else
      var p := pending[0];
      var offer := choose(p);
      PassLeaves(b, unmatched, pending);
      PassTakes(b, unmatched, pending);
      if !Deliverable(offer) then
        Advance(b, x, l, unmatched + [p], pending[1..], expiring, choose)
      else if Suspends(p, offer.recipient) then
        Progress(b, Frame(expiring, unmatched, p, offer.recipient, pending[1..]), ReplayHandOver(x, p, offer.recipient), l)
      else
        Advance(Discard(b, p), ReplayHandOver(x, p, offer.recipient), Hand(l, p, offer.recipient),
                unmatched, pending[1..], expiring, choose)
  }

  /** What a drain or an expiry does with the flow when its pass stops. */
  function Conclude(f: Flow, r: Progress, expiring: bool): Flow {
    if r.frame.Frame? then f.(replay := Buffering(r.buffer, r.frame), x := r.x, ledger := r.ledger)
    else if r.buffer.count == 0 then f.(replay := Idle, x := r.x, ledger := r.ledger)
    else if expiring then
      f.(replay := NoSession, x := Forget(r.x),
         ledger := r.ledger.(dropped := r.ledger.dropped + Elements(r.buffer.publishes)))
    else f.(replay := Buffering(r.buffer, NoFrame), x := r.x, ledger := r.ledger)
  }

  // ----- A pass that outlives its buffer -----

  /** `clear()` empties the buffer, and a suspended drain keeps its local variables; an expiry is cancelled. */
  function Cleared(f: Flow): Leftover {
    if !(f.replay.Buffering? && f.replay.frame.Frame?) then f.left
    else
      var cut := Leftover(EmptyBuffer, f.replay.frame, false);
      if f.replay.frame.expiring then SendFailed(cut) else cut
  }

  /** `_discard` has the topic counter that it looks up without a default. */
  predicate CounterFound(b: Buffer, fr: Frame) { fr.Frame? && fr.inHand.topic in b.topics }

  /** The send of a pass that outlived its buffer ends well: `_discard` counts the message off and raises at
    its topic counter, and the pass puts back what it still has. */
  function SendEnded(left: Leftover): Leftover {
    var fr, b := left.frame, left.buffer;
    if fr.NoFrame? || CounterFound(b, fr) then left
    else Leftover(b.(publishes := fr.unmatched + fr.pending + b.publishes, count := b.count - 1), NoFrame, true)
  }

  /** Its send fails: the message in hand goes back too. */
  function SendFailed(left: Leftover): Leftover {
    var fr, b := left.frame, left.buffer;
    if fr.NoFrame? then left
    else left.(buffer := b.(publishes := fr.unmatched + [fr.inHand] + fr.pending + b.publishes), frame := NoFrame)
  }

  // ----- Events -----

  datatype Event =
    | Arrive(topic: string, qos: Qos, pid: Option<int>, offer: Offer)
    | Pubrel(id: int)
    | PutEnds
    | SendEnds(full: bool)
    | ReaderFails
    | Drain(expiring: bool, choose: Publish -> Offer)
    | DeliveryEnds(choose: Publish -> Offer)
    | DeliveryFails
    | Ack(message: Publish)
    | SessionEnds

  function JudgeIn(replay: Replay, limit: nat, p: Publish, r: Recipient): Verdict {
    match replay
    case NoSession => Pass
    case Idle => if r.Nobody? then Judge(EmptyBuffer, limit, p, r) else Pass
    case Buffering(b, _) => Judge(b, limit, p, r)
  }

  function HoldIn(replay: Replay, p: Publish): Replay {
    match replay
    case Buffering(b, frame) => Buffering(Append(b, p), frame)
    case _ => Buffering(Append(EmptyBuffer, p), NoFrame)
  }

  predicate HeldId(replay: Replay, pid: int) { replay.Buffering? && pid in replay.buffer.packetIds }

  /** A PUBLISH that is neither an error nor a known duplicate: selected, then judged by the replay state. */
  function Route(f: Flow, p: Publish, offer: Offer): Flow
    requires PidOk(p)
  {
    match JudgeIn(f.replay, f.limit, p, offer.recipient)
    case Pass => f.(x := LiveHandOver(Admit(f.x, p), p, offer.recipient, offer.full))
    case Hold => f.(replay := HoldIn(f.replay, p), x := Admit(f.x, p),
                    ledger := f.ledger.(accepted := f.ledger.accepted + {p}))
    case Ignore => f
    case Overflow => f.(x := f.x.(reader := Stopped))
  }

  function OnArrive(f: Flow, topic: string, qos: Qos, pid: Option<int>, offer: Offer): Flow {
    // the decoder gives a QoS 0 PUBLISH no identifier
    var p := Publish(f.x.arrived, topic, qos, if qos == AtMostOnce then None else pid);
    if !PidOk(p) then f.(x := f.x.(reader := Stopped))
    else if qos == AtMostOnce then Route(f, p, offer)
    else if qos == ExactlyOnce && pid.value in f.x.inflight then
      f.(x := f.x.(wire := f.x.wire + [Pubrec(f.x.inflight[pid.value].publish)], reader := Sending(SendDone)))
    else if qos == ExactlyOnce && pid.value in f.x.pendingAck then f
    else if HeldId(f.replay, pid.value) then f
    else Route(f, p, offer)
  }

  ghost predicate ReplayOk(replay: Replay) {
    && (replay.Buffering? ==> CountersOk(replay.buffer, Held(replay)))
    && HeldOk(Held(replay)) && forall p :: p in Held(replay) ==> PidOk(p)
  }

  /** One atomic stretch of code; events that are not possible in a state leave it as it is. */
  ghost function Step(f: Flow, e: Event): Flow
    requires ReplayOk(f.replay)
  {
    match e
    case Arrive(topic, qos, pid, offer) =>
      if f.x.reader != Ready then f else OnArrive(f, topic, qos, pid, offer)
    case Pubrel(id) =>
      if f.x.reader != Ready then f
      else if id !in f.x.inflight then f.(x := f.x.(reader := Stopped))
      else f.(x := TakePubrel(f.x, id))
    case PutEnds =>
      if !f.x.reader.Putting? then f
      else
        var p := f.x.reader.publish;
        f.(x := AfterLivePut(HandOver(f.x, p, f.x.reader.recipient), p, f.x.reader.afterPut))
    case SendEnds(full) =>
      if !f.x.reader.Sending? then f else f.(x := FinishSend(f.x, f.x.reader.afterSend, full))
    case ReaderFails => f.(x := f.x.(reader := Stopped))
    case Drain(expiring, choose) =>
      if !(f.replay.Buffering? && f.replay.frame.NoFrame?) then f
      else
        var b := f.replay.buffer;
        assert [] + [] + b.publishes == Held(f.replay);
        Conclude(f, Advance(b, f.x, f.ledger, [], [], expiring, choose), expiring)
    case DeliveryEnds(choose) =>
      if !(f.replay.Buffering? && f.replay.frame.Frame?) then f.(left := SendEnded(f.left))
      else
        var fr := f.replay.frame;
        ResumedPass(f.replay);
        var l := Hand(f.ledger, fr.inHand, fr.recipient);
        Conclude(f, Advance(Discard(f.replay.buffer, fr.inHand), f.x, l, fr.unmatched, fr.pending, fr.expiring, choose),
                 fr.expiring)
    case DeliveryFails =>
      if !(f.replay.Buffering? && f.replay.frame.Frame?) then f.(left := SendFailed(f.left))
      else
        var fr := f.replay.frame;
        f.(replay := Buffering(f.replay.buffer.(publishes := Held(f.replay)), NoFrame),
           x := f.x.(broken := f.x.broken + multiset{fr.inHand}))
    case Ack(p) =>
      if p in f.x.unacked && p.pid.Some? then f.(x := Acknowledge(f.x, p)) else f
    case SessionEnds =>
      // a message in the middle of its delivery is out of the session's hands
      f.(replay := NoSession, x := Forget(f.x), left := Cleared(f),
         ledger := f.ledger.(handed := Taken(f), dropped := f.ledger.dropped + Elements(Resting(f.replay))))
  }

  lemma ResumedPass(replay: Replay)
    requires ReplayOk(replay) && replay.Buffering? && replay.frame.Frame?
    ensures replay.frame.inHand.topic in replay.buffer.topics
    ensures PassOk(Discard(replay.buffer, replay.frame.inHand), replay.frame.unmatched, replay.frame.pending)
  {
    var fr, b := replay.frame, replay.buffer;
    var back := fr.pending + b.publishes;
    assert Held(replay) == fr.unmatched + [fr.inHand] + back;
    DiscardKeepsCounters(b, fr.unmatched, fr.inHand, back);
    DiscardKeepsHeld(fr.unmatched, fr.inHand, back);
    assert fr.unmatched + fr.pending + b.publishes == fr.unmatched + back;
    forall q | q in fr.unmatched + back ensures PidOk(q) {
      assert q in Held(replay);
    }
  }

  // ----- What every reachable state keeps -----

  /** Every message that was ever buffered is held, handed over or dropped: exactly one of these. */
  ghost predicate LedgerOk(l: Ledger, held: set<Publish>) {
    && l.accepted == held + HandedSet(l.handed) + l.dropped
    && held !! HandedSet(l.handed) && held !! l.dropped && HandedSet(l.handed) !! l.dropped
    && HandedOnce(l.handed)
  }

  ghost predicate LimitOk(replay: Replay, limit: nat) { limit != 0 ==> |Held(replay)| <= limit }

  ghost predicate AcceptedSeen(l: Ledger, arrived: nat) { forall p :: p in l.accepted ==> p.serial < arrived }

  ghost predicate FlowOk(f: Flow) {
    && ReplayOk(f.replay) && LimitOk(f.replay, f.limit)
    && ExchangesOk(f.x, Elements(Resting(f.replay)), InHand(f.replay))
    && LedgerOk(f.ledger, Elements(Held(f.replay))) && AcceptedSeen(f.ledger, f.x.arrived)
  }

  lemma LedgerAfterHanding(l: Ledger, held: set<Publish>, p: Publish, r: Recipient)
    requires LedgerOk(l, held) && p in held
    ensures LedgerOk(Hand(l, p, r), held - {p})
  {
    var after := Hand(l, p, r).handed;
    assert after[|l.handed|] == (p, r);
    forall q ensures q in HandedSet(after) <==> q in HandedSet(l.handed) || q == p {
      if q in HandedSet(l.handed) {
        var i :| 0 <= i < |l.handed| && l.handed[i].0 == q;
        assert after[i].0 == q;
      }
    }
  }

  lemma TakenElements(front: seq<Publish>, p: Publish, back: seq<Publish>)
    requires HeldOk(front + [p] + back)
    ensures Elements(front + back) == Elements(front + [p] + back) - {p}
    ensures p in Elements(front + [p] + back)
  {
    var held := front + [p] + back;
    assert held[|front|] == p;
    forall q | q in front + back ensures q in held && q != p {
      if q in front {
        var i :| 0 <= i < |front| && front[i] == q;
        assert held[i] == q;
      } else {
        var i :| 0 <= i < |back| && back[i] == q;
        assert held[|front| + 1 + i] == q;
      }
    }
  }

  /** The state a delivery pass is in, or leaves, seen as a replay state. */
  ghost predicate ProgressOk(r: Progress, size: nat) {
    var replay := Buffering(r.buffer, r.frame);
    && ReplayOk(replay) && |Held(replay)| <= size
    && ExchangesOk(r.x, Elements(Resting(replay)), InHand(replay))
    && LedgerOk(r.ledger, Elements(Held(replay)))
  }

  ghost predicate PassKept(b: Buffer, x: Exchanges, l: Ledger, unmatched: seq<Publish>, pending: seq<Publish>) {
    var held := Elements(unmatched + pending + b.publishes);
    PassOk(b, unmatched, pending) && ExchangesOk(x, held, None) && LedgerOk(l, held)
  }

  lemma HandOverInReplay(x: Exchanges, waiting: set<Publish>, p: Publish, r: Recipient)
    requires ExchangesOk(x, waiting, None) && p in waiting && PidOk(p)
    ensures ExchangesOk(ReplayHandOver(x, p, r), waiting - {p}, if Suspends(p, r) then Some(p) else None)
    ensures ReplayHandOver(x, p, r).arrived == x.arrived
  {
    hide ExchangesOk;
    if p.qos != ExactlyOnce {
      PlainInReplay(x, waiting, p, r);
    } else if AutoAck(r) {
      RecordedFlightInReplay(x, waiting, p, r);
    } else {
      ManualInReplay(x, waiting, p, r);
    }
  }

  lemma PassDelivers(b: Buffer, x: Exchanges, l: Ledger, unmatched: seq<Publish>, pending: seq<Publish>, r: Recipient)
    requires PassKept(b, x, l, unmatched, pending) && pending != [] && !Suspends(pending[0], r)
    ensures PidOk(pending[0]) && pending[0].topic in b.topics
    ensures PassKept(Discard(b, pending[0]), ReplayHandOver(x, pending[0], r),
                     Hand(l, pending[0], r), unmatched, pending[1..])
  {
    hide ExchangesOk, CountersOk, HeldOk, ReplayHandOver, LedgerOk;
    var p, back := pending[0], pending[1..] + b.publishes;
    PassTakes(b, unmatched, pending);
    assert unmatched + pending + b.publishes == unmatched + [p] + back;
    assert unmatched + pending[1..] + b.publishes == unmatched + back;
    TakenElements(unmatched, p, back);
    HandOverInReplay(x, Elements(unmatched + [p] + back), p, r);
    LedgerAfterHanding(l, Elements(unmatched + [p] + back), p, r);
  }

  lemma PassSuspends(b: Buffer, x: Exchanges, l: Ledger, unmatched: seq<Publish>, pending: seq<Publish>,
                     expiring: bool, r: Recipient)
    requires PassKept(b, x, l, unmatched, pending) && pending != [] && Suspends(pending[0], r)
    ensures PidOk(pending[0])
    ensures ProgressOk(Progress(b, Frame(expiring, unmatched, pending[0], r, pending[1..]), ReplayHandOver(x, pending[0], r), l),
                       |unmatched + pending + b.publishes|)
  {
    hide ExchangesOk, CountersOk, HeldOk, ReplayHandOver;
    var p, back := pending[0], pending[1..] + b.publishes;
    PassTakes(b, unmatched, pending);
    assert unmatched + pending + b.publishes == unmatched + [p] + back;
    assert unmatched + [p] + pending[1..] + b.publishes == unmatched + [p] + back;
    assert unmatched + pending[1..] + b.publishes == unmatched + back;
    TakenElements(unmatched, p, back);
    HandOverInReplay(x, Elements(unmatched + [p] + back), p, r);
  }

  lemma {:induction false} AdvanceKeeps(b: Buffer, x: Exchanges, l: Ledger, unmatched: seq<Publish>, pending: seq<Publish>,
                                        expiring: bool, choose: Publish -> Offer)
    requires PassKept(b, x, l, unmatched, pending)
    ensures ProgressOk(Advance(b, x, l, unmatched, pending, expiring, choose), |unmatched + pending + b.publishes|)
    ensures Advance(b, x, l, unmatched, pending, expiring, choose).x.arrived == x.arrived
    ensures Advance(b, x, l, unmatched, pending, expiring, choose).ledger.accepted == l.accepted
    decreases |b.publishes|, |pending|
  {
    hide ExchangesOk, CountersOk, HeldOk, ReplayHandOver, LedgerOk, Elements;
    if pending == [] {
      if b.publishes == [] {
        assert unmatched + [] + b.publishes == unmatched;
        CountersIgnoreQueue(b, unmatched, unmatched);
      } else {
        PassTurns(b, unmatched);
        assert unmatched + [] + b.publishes == unmatched + b.publishes + [];
        AdvanceKeeps(b.(publishes := []), x, l, unmatched, b.publishes, expiring, choose);
      }
    } else {
      var p := pending[0];
      var offer := choose(p);
      PassLeaves(b, unmatched, pending);
      PassTakes(b, unmatched, pending);
      if !Deliverable(offer) {
        assert unmatched + pending + b.publishes == unmatched + [p] + pending[1..] + b.publishes;
        AdvanceKeeps(b, x, l, unmatched + [p], pending[1..], expiring, choose);
      } else if Suspends(p, offer.recipient) {
        PassSuspends(b, x, l, unmatched, pending, expiring, offer.recipient);
        ArrivedKept(x, p, offer.recipient);
      } else {
        PassDelivers(b, x, l, unmatched, pending, offer.recipient);
        ArrivedKept(x, p, offer.recipient);
        AdvanceKeeps(Discard(b, p), ReplayHandOver(x, p, offer.recipient), Hand(l, p, offer.recipient),
                     unmatched, pending[1..], expiring, choose);
      }
    }
  }

  lemma ArrivedKept(x: Exchanges, p: Publish, r: Recipient)
    requires PidOk(p)
    ensures ReplayHandOver(x, p, r).arrived == x.arrived
  {}

  lemma CountersIgnoreQueue(b: Buffer, queue: seq<Publish>, held: seq<Publish>)
    ensures CountersOk(b, held) <==> CountersOk(b.(publishes := queue), held)
  {}

  lemma ConcludeKeeps(f: Flow, r: Progress, expiring: bool)
    requires ProgressOk(r, |Held(f.replay)|) && LimitOk(f.replay, f.limit)
    requires AcceptedSeen(r.ledger, r.x.arrived)
    ensures FlowOk(Conclude(f, r, expiring))
  {
    hide ExchangesOk, HeldOk;
    var held := r.buffer.publishes;
    if r.frame.NoFrame? {
      if r.buffer.count == 0 {
        assert held == [];
      } else if expiring {
        HeldForgotten(r.x, Elements(held), None);
        NothingHeld();
      }
    }
  }

  lemma NothingHeld()
    ensures Elements([]) == {} && HeldOk([])
  {}

  lemma DrainKept(f: Flow)
    requires FlowOk(f) && f.replay.Buffering? && f.replay.frame.NoFrame?
    ensures PassKept(f.replay.buffer, f.x, f.ledger, [], [])
    ensures |[] + [] + f.replay.buffer.publishes| == |Held(f.replay)|
  {
    hide ExchangesOk, HeldOk, CountersOk, LedgerOk;
    assert [] + [] + f.replay.buffer.publishes == Held(f.replay);
  }

  lemma DrainKeeps(f: Flow, expiring: bool, choose: Publish -> Offer)
    requires FlowOk(f)
    ensures FlowOk(Step(f, Drain(expiring, choose)))
  {
    hide ExchangesOk, HeldOk, CountersOk, LedgerOk, Elements, Advance;
    if f.replay.Buffering? && f.replay.frame.NoFrame? {
      var b := f.replay.buffer;
      DrainKept(f);
      hide PassOk, Held, Resting;
      AdvanceKeeps(b, f.x, f.ledger, [], [], expiring, choose);
      ConcludeWithin(f, Advance(b, f.x, f.ledger, [], [], expiring, choose), expiring, |[] + [] + b.publishes|);
    }
  }

  /** The held messages around the one in hand. */
  lemma AroundInHand(replay: Replay)
    requires replay.Buffering? && replay.frame.Frame?
    ensures var fr, back := replay.frame, replay.frame.pending + replay.buffer.publishes;
      && Held(replay) == fr.unmatched + [fr.inHand] + back
      && Resting(replay) == fr.unmatched + back == fr.unmatched + fr.pending + replay.buffer.publishes
  {
    var fr, back := replay.frame, replay.frame.pending + replay.buffer.publishes;
    assert fr.unmatched + [fr.inHand] + fr.pending + replay.buffer.publishes == fr.unmatched + [fr.inHand] + back;
    assert fr.unmatched + fr.pending + replay.buffer.publishes == fr.unmatched + back;
  }

  lemma ResumedKept(f: Flow)
    requires FlowOk(f) && f.replay.Buffering? && f.replay.frame.Frame?
    ensures var fr := f.replay.frame;
      && fr.inHand.topic in f.replay.buffer.topics
      && PassKept(Discard(f.replay.buffer, fr.inHand), f.x, Hand(f.ledger, fr.inHand, fr.recipient),
                  fr.unmatched, fr.pending)
      && |fr.unmatched + fr.pending + f.replay.buffer.publishes| <= |Held(f.replay)|
  {
    hide ExchangesOk, HeldOk, CountersOk, PassOk, LedgerOk;
    var fr := f.replay.frame;
    AroundInHand(f.replay);
    assert fr.inHand in Held(f.replay);
    LedgerAfterHanding(f.ledger, Elements(Held(f.replay)), fr.inHand, fr.recipient);
    ResumedPass(f.replay);
    TakenElements(fr.unmatched, fr.inHand, fr.pending + f.replay.buffer.publishes);
    SendEndedInReplay(f.x, Elements(Resting(f.replay)), fr.inHand);
  }

  lemma DeliveryEndsKeeps(f: Flow, choose: Publish -> Offer)
    requires FlowOk(f)
    ensures FlowOk(Step(f, DeliveryEnds(choose)))
  {
    hide ExchangesOk, HeldOk, CountersOk, Elements, LedgerOk, Advance, PassOk, PassKept, Conclude;
    if f.replay.Buffering? && f.replay.frame.Frame? {
      var fr, b := f.replay.frame, f.replay.buffer;
      ResumedKept(f);
      ResumedPass(f.replay);
      var l := Hand(f.ledger, fr.inHand, fr.recipient);
      AdvanceKeeps(Discard(b, fr.inHand), f.x, l, fr.unmatched, fr.pending, fr.expiring, choose);
      ConcludeWithin(f, Advance(Discard(b, fr.inHand), f.x, l, fr.unmatched, fr.pending, fr.expiring, choose), fr.expiring,
                     |fr.unmatched + fr.pending + b.publishes|);
    }
  }

  lemma ConcludeWithin(f: Flow, r: Progress, expiring: bool, size: nat)
    requires ProgressOk(r, size) && size <= |Held(f.replay)| && LimitOk(f.replay, f.limit)
    requires AcceptedSeen(r.ledger, r.x.arrived)
    ensures FlowOk(Conclude(f, r, expiring))
  {
    hide ExchangesOk, HeldOk, CountersOk, LedgerOk, Elements;
    ConcludeKeeps(f, r, expiring);
  }

  /** Everything goes back into the buffer, in order. */
  lemma GoesBack(replay: Replay)
    requires ReplayOk(replay) && replay.Buffering? && replay.frame.Frame?
    ensures var after := Buffering(replay.buffer.(publishes := Held(replay)), NoFrame);
      ReplayOk(after) && Held(after) == Resting(after) == Held(replay) && InHand(after) == None
    ensures Elements(Resting(replay)) + {replay.frame.inHand} == Elements(Held(replay))
  {
    hide HeldOk, CountersOk, PidOk;
    var fr, b := replay.frame, replay.buffer;
    AroundInHand(replay);
    TakenElements(fr.unmatched, fr.inHand, fr.pending + b.publishes);
    CountersIgnoreQueue(b, Held(replay), Held(replay));
  }

  lemma DeliveryFailsKeeps(f: Flow)
    requires FlowOk(f)
    ensures FlowOk(Step(f, DeliveryFails))
  {
    hide ExchangesOk, ReplayOk, LedgerOk, Held, Resting, Elements, Advance, Taken, Forget;
    if f.replay.Buffering? && f.replay.frame.Frame? {
      GoesBack(f.replay);
      InHandIs(f.replay);
      InterruptedInReplay(f.x, Elements(Resting(f.replay)), f.replay.frame.inHand);
    }
  }

  lemma InHandIs(replay: Replay)
    requires replay.Buffering? && replay.frame.Frame?
    ensures InHand(replay) == Some(replay.frame.inHand)
  {}

  lemma HoldKeeps(f: Flow, p: Publish, r: Recipient)
    requires FlowOk(f) && PidOk(p) && p.serial == f.x.arrived
    requires IsNew(f.x, Elements(Resting(f.replay)), InHand(f.replay), p)
    requires JudgeIn(f.replay, f.limit, p, r) == Hold
    ensures FlowOk(f.(replay := HoldIn(f.replay, p), x := Admit(f.x, p),
                      ledger := f.ledger.(accepted := f.ledger.accepted + {p})))
  {
    hide ExchangesOk, HeldOk, CountersOk;
    var after := HoldIn(f.replay, p);
    var b := if f.replay.Buffering? then f.replay.buffer else EmptyBuffer;
    assert CountersOk(EmptyBuffer, []) by { EmptyCounters(); }
    assert Held(after) == Held(f.replay) + [p];
    assert Resting(after) == Resting(f.replay) + [p];
    assert InHand(after) == InHand(f.replay);
    assert Elements(Held(after)) == Elements(Held(f.replay)) + {p};
    assert Elements(Resting(after)) == Elements(Resting(f.replay)) + {p};
    AppendKeepsCounters(b, Held(f.replay), p);
    HeldAreOlder(f);
    NewIdIsNotHeld(f.replay, p);
    AppendKeepsHeld(Held(f.replay), p);
    LiveHeld(f.x, Elements(Resting(f.replay)), InHand(f.replay), p);
    HeldStaysWithinLimit(b, Held(f.replay), f.limit, p, r) by { JudgedByBuffer(f, p, r); }
  }

  lemma EmptyCounters()
    ensures CountersOk(EmptyBuffer, [])
  {}

  lemma JudgedByBuffer(f: Flow, p: Publish, r: Recipient)
    requires JudgeIn(f.replay, f.limit, p, r) == Hold
    ensures Judge(if f.replay.Buffering? then f.replay.buffer else EmptyBuffer, f.limit, p, r) == Hold
  {}

  lemma HeldAreOlder(f: Flow)
    requires FlowOk(f)
    ensures forall i :: 0 <= i < |Held(f.replay)| ==> Held(f.replay)[i].serial < f.x.arrived
  {
    forall i | 0 <= i < |Held(f.replay)| ensures Held(f.replay)[i].serial < f.x.arrived {
      assert Held(f.replay)[i] in f.ledger.accepted;
    }
  }

  lemma NewIdIsNotHeld(replay: Replay, p: Publish)
    requires p.pid.Some? ==> forall q :: q in Elements(Resting(replay)) ==> q.pid != p.pid
    requires p.pid.Some? && InHand(replay).Some? ==> InHand(replay).value.pid != p.pid
    ensures p.pid.Some? ==> p.pid.value !in HeldIds(Held(replay))
  {
    forall i | 0 <= i < |Held(replay)| && p.pid.Some? ensures Held(replay)[i].pid != p.pid {
      HeldIsRestingOrInHand(replay, Held(replay)[i]);
    }
  }

  lemma HeldIsRestingOrInHand(replay: Replay, q: Publish)
    ensures q in Held(replay) <==> q in Elements(Resting(replay)) || InHand(replay) == Some(q)
  {}

  /** A PUBLISH that passes the duplicate checks is new to every table. */
  lemma UnheldIdIsNew(f: Flow, p: Publish)
    requires FlowOk(f) && PidOk(p) && p.serial == f.x.arrived
    requires p.pid.Some? ==> !HeldId(f.replay, p.pid.value)
    requires IsQos2(p) ==> p.pid.value !in f.x.inflight && p.pid.value !in f.x.pendingAck
    ensures IsNew(f.x, Elements(Resting(f.replay)), InHand(f.replay), p)
  {
    hide ExchangesOk, HeldOk;
    var held := Held(f.replay);
    forall q: Publish | p.pid.Some? && q.pid.Some? && (q in Elements(Resting(f.replay)) || InHand(f.replay) == Some(q))
      ensures q.pid != p.pid
    {
      HeldIsRestingOrInHand(f.replay, q);
      HeldHasItsId(held, q);
    }
  }

  lemma HeldHasItsId(held: seq<Publish>, q: Publish)
    requires q in held && q.pid.Some?
    ensures q.pid.value in HeldIds(held)
  {
    var i :| 0 <= i < |held| && held[i] == q;
  }

  lemma RouteKeeps(f: Flow, p: Publish, offer: Offer)
    requires FlowOk(f) && PidOk(p) && p.serial == f.x.arrived && f.x.reader == Ready
    requires p.qos != AtMostOnce ==> !HeldId(f.replay, p.pid.value)
    requires IsQos2(p) ==> p.pid.value !in f.x.inflight && p.pid.value !in f.x.pendingAck
    requires p.qos == AtMostOnce ==> p.pid.None?
    ensures FlowOk(Route(f, p, offer))
  {
    UnheldIdIsNew(f, p);
    hide ExchangesOk, HeldOk, CountersOk, LedgerOk, LiveHandOver, Admit;
    match JudgeIn(f.replay, f.limit, p, offer.recipient)
    case Pass =>
      LiveHandedOver(f.x, Elements(Resting(f.replay)), InHand(f.replay), p, offer.recipient, offer.full);
      AdmittedMore(f.x, p, offer.recipient, offer.full);
    case Hold => HoldKeeps(f, p, offer.recipient);
    case Ignore =>
    case Overflow => ReaderMovesOn(f.x, Elements(Resting(f.replay)), InHand(f.replay), Stopped);
  }

  lemma AdmittedMore(x: Exchanges, p: Publish, r: Recipient, full: bool)
    requires PidOk(p)
    ensures LiveHandOver(Admit(x, p), p, r, full).arrived == x.arrived + 1
  {}

  lemma ArriveKeeps(f: Flow, topic: string, qos: Qos, pid: Option<int>, offer: Offer)
    requires FlowOk(f)
    ensures FlowOk(Step(f, Arrive(topic, qos, pid, offer)))
  {
    if f.x.reader == Ready {
      hide ExchangesOk, HeldOk, CountersOk, LedgerOk, Elements, Route, Advance;
      var p := Publish(f.x.arrived, topic, qos, if qos == AtMostOnce then None else pid);
      var resting, inHand := Elements(Resting(f.replay)), InHand(f.replay);
      if !PidOk(p) {
        ReaderMovesOn(f.x, resting, inHand, Stopped);
      } else if qos == ExactlyOnce && pid.value in f.x.inflight {
        PubrecResent(f.x, resting, inHand, pid.value);
      } else if qos == ExactlyOnce && pid.value in f.x.pendingAck {
      } else if qos != AtMostOnce && HeldId(f.replay, pid.value) {
      } else {
        RouteKeeps(f, p, offer);
      }
    }
  }

  lemma ReaderKeeps(f: Flow, e: Event)
    requires FlowOk(f) && (e.Pubrel? || e.PutEnds? || e.SendEnds? || e.ReaderFails? || e.Ack?)
    ensures FlowOk(Step(f, e))
  {
    hide ExchangesOk, HeldOk, CountersOk, LedgerOk, Elements, Advance;
    var resting, inHand := Elements(Resting(f.replay)), InHand(f.replay);
    match e
    case Pubrel(id) =>
      if f.x.reader == Ready {
        if id in f.x.inflight { PubrelTaken(f.x, resting, inHand, id); } else { ReaderMovesOn(f.x, resting, inHand, Stopped); }
      }
    case PutEnds => if f.x.reader.Putting? { PutEnded(f.x, resting, inHand); }
    case SendEnds(full) => if f.x.reader.Sending? { SendFinished(f.x, resting, inHand, full); }
    case ReaderFails => ReaderMovesOn(f.x, resting, inHand, Stopped);
    case Ack(p) => if p in f.x.unacked && p.pid.Some? { Acknowledged(f.x, resting, inHand, p); }
    case _ =>
  }

  lemma SessionEndsKeeps(f: Flow)
    requires FlowOk(f)
    ensures FlowOk(Step(f, SessionEnds))
  {
    hide ExchangesOk, HeldOk, CountersOk, LedgerOk, Elements, StillOpen, PidOk, Taken;
    HeldForgotten(f.x, Elements(Resting(f.replay)), InHand(f.replay));
    NothingHeld();
    EverythingLeft(f);
  }

  lemma EverythingLeft(f: Flow)
    requires FlowOk(f)
    ensures LedgerOk(f.ledger.(handed := Taken(f), dropped := f.ledger.dropped + Elements(Resting(f.replay))), {})
  {
    hide ExchangesOk, HeldOk, CountersOk, LedgerOk;
    if f.replay.Buffering? && f.replay.frame.Frame? {
      var fr := f.replay.frame;
      AroundInHand(f.replay);
      assert fr.inHand in Held(f.replay);
      LedgerAfterHanding(f.ledger, Elements(Held(f.replay)), fr.inHand, fr.recipient);
      TakenElements(fr.unmatched, fr.inHand, fr.pending + f.replay.buffer.publishes) by { assert HeldOk(Held(f.replay)); }
      AllDropped(Hand(f.ledger, fr.inHand, fr.recipient), Elements(Resting(f.replay)));
    } else {
      AllDropped(f.ledger, Elements(Held(f.replay)));
    }
  }

  lemma AllDropped(l: Ledger, held: set<Publish>)
    requires LedgerOk(l, held)
    ensures LedgerOk(l.(dropped := l.dropped + held), {})
  {}

  lemma StepKeeps(f: Flow, e: Event)
    requires FlowOk(f)
    ensures FlowOk(Step(f, e))
  {
    hide FlowOk, Step;
    match e
    case Arrive(topic, qos, pid, offer) => ArriveKeeps(f, topic, qos, pid, offer);
    case Drain(expiring, choose) => DrainKeeps(f, expiring, choose);
    case DeliveryEnds(choose) => DeliveryEndsKeeps(f, choose);
    case DeliveryFails => DeliveryFailsKeeps(f);
    case SessionEnds => SessionEndsKeeps(f);
    case _ => ReaderKeeps(f, e);
  }

  /** A run of the flow, as its events in order. */
  ghost function Run(sessionPresent: bool, limit: nat, events: seq<Event>): (f: Flow)
    ensures FlowOk(f)
  {
    if events == [] then
      NewFlowOk(sessionPresent, limit);
      NewFlow(sessionPresent, limit)
    else
      var before := Run(sessionPresent, limit, events[..|events| - 1]);
      StepKeeps(before, events[|events| - 1]);
      Step(before, events[|events| - 1])
  }

  lemma RunSnoc(sessionPresent: bool, limit: nat, events: seq<Event>, e: Event)
    ensures Run(sessionPresent, limit, events + [e]) == Step(Run(sessionPresent, limit, events), e)
  {
    hide FlowOk, Step;
    assert (events + [e])[..|events|] == events;
  }

  lemma FlowsAreReplays()
    ensures forall f :: FlowOk(f) ==> ReplayOk(f.replay)
  {}

  lemma NewFlowOk(sessionPresent: bool, limit: nat)
    ensures FlowOk(NewFlow(sessionPresent, limit))
  {
    forall p: Publish ensures Times([], p) == 0 {}
  }
}
