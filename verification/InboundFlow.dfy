/** The inbound flow as the object the protocol drives: each method is one stretch of code between
  suspensions, proved against the event it realises. */
module InboundFlow {
  import opened Prelude
  import opened ReplayBuffer
  import opened InboundExchanges
  import opened Inbound

  datatype ReplayKind = NotResumed | NothingBuffered | Buffered

  class InboundPublishFlow {
    const bufferSize: nat
    /** Which replay state is active, and the fields of the buffered one. */
    var replayKind: ReplayKind
    var publishes: seq<Publish>
    var packetIds: set<int>
    var topics: map<string, int>
    var messageCount: int
    /** The local variables of a suspended pass over the buffer. */
    var frame: Frame
    var arrived: nat
    var inflight: map<int, InFlight>
    var pendingAck: set<int>
    var unacked: map<Publish, Recipient>
    var delivered: seq<(Publish, Recipient)>
    var wire: seq<Packet>
    var reader: Reader
    ghost var broken: multiset<Publish>
    ghost var open: map<int, Publish>
    ghost var ledger: Ledger
    /** Whether a pass that outlived its buffer ended at a missing topic counter. */
    ghost var missed: bool

    ghost function BufferView(): Buffer
      reads this`publishes, this`packetIds, this`topics, this`messageCount
    {
      Buffer(publishes, packetIds, topics, messageCount)
    }

    ghost function ExchangesView(): Exchanges
      reads this`arrived, this`inflight, this`pendingAck, this`unacked, this`delivered, this`wire,
            this`broken, this`open, this`reader
    {
      Exchanges(arrived, inflight, pendingAck, unacked, delivered, wire, broken, open, reader)
    }

    ghost function ReplayView(): Replay
      reads this`replayKind, this`publishes, this`packetIds, this`topics, this`messageCount, this`frame
    {
      match replayKind
      case NotResumed => NoSession
      case NothingBuffered => Idle
      case Buffered => Buffering(BufferView(), frame)
    }

    /** Outside the buffered state, its fields are those of a buffer that `clear()` emptied. */
    ghost function LeftView(): Leftover
      reads this`replayKind, this`publishes, this`packetIds, this`topics, this`messageCount, this`frame, this`missed
    {
      if replayKind == Buffered then NothingLeft else Leftover(BufferView(), frame, missed)
    }

    ghost function View(): Flow
      reads this
    {
      Flow(ReplayView(), bufferSize, ExchangesView(), ledger, LeftView())
    }

    /** There is nothing left of a pass while a session can still buffer, and afterwards only an empty buffer
      under a suspended one. */
    ghost predicate LeftFits()
      reads this`replayKind, this`publishes, this`packetIds, this`topics, this`messageCount, this`frame, this`missed
    {
      && (replayKind == NothingBuffered ==> LeftView() == NothingLeft)
      && (replayKind == Buffered ==> !missed)
      && (replayKind == NotResumed && frame.Frame? ==> BufferView() == EmptyBuffer)
    }

    ghost predicate Valid()
      reads this
    {
      FlowOk(View()) && LeftFits()
    }

    constructor (sessionPresent: bool, bufferSize: nat)
      ensures Valid() && View() == NewFlow(sessionPresent, bufferSize)
    {
      this.bufferSize := bufferSize;
      replayKind := if sessionPresent then NothingBuffered else NotResumed;
      publishes, packetIds, topics, messageCount, frame := [], {}, map[], 0, NoFrame;
      arrived, inflight, pendingAck, unacked := 0, map[], {}, map[];
      delivered, wire, reader := [], [], Ready;
      broken, open, ledger, missed := multiset{}, map[], Ledger({}, [], {}), false;
      new;
      hide FlowOk, ExchangesOk;
      NewFlowOk(sessionPresent, bufferSize);
    }

    // ----- Handing over -----

    method Put(p: Publish, r: Recipient)
      modifies this`delivered, this`unacked
      ensures ExchangesView() == HandOver(old(ExchangesView()), p, r)
    {
      if !r.Nobody? {
        delivered := delivered + [(p, r)];
        if !AutoAck(r) && p.qos != AtMostOnce {
          unacked := unacked[p := r];
        }
      }
    }

    /** `deliver_replay`; returns whether it suspends in an acknowledgement send. */
    method DeliverReplay(p: Publish, r: Recipient) returns (suspended: bool)
      requires PidOk(p)
      modifies this`delivered, this`unacked, this`wire, this`inflight, this`pendingAck
      ensures ExchangesView() == ReplayHandOver(old(ExchangesView()), p, r)
      ensures suspended == Suspends(p, r)
    {
      suspended := p.qos != AtMostOnce && AutoAck(r);
      match p.qos
      case AtMostOnce => Put(p, r);
      case AtLeastOnce =>
        Put(p, r);
        if AutoAck(r) { wire := wire + [Puback(p)]; }
      case ExactlyOnce =>
        if AutoAck(r) {
          inflight := inflight[p.pid.value := InFlight(p, r, false)];
          wire := wire + [Pubrec(p)];
        } else {
          pendingAck := pendingAck + {p.pid.value};
          Put(p, r);
        }
    }

    /** `await queue.put(...)` of the read loop and what follows it. */
    method PutLive(p: Publish, r: Recipient, full: bool, afterPut: AfterPut)
      modifies this`delivered, this`unacked, this`wire, this`reader
      ensures ExchangesView() == LivePut(old(ExchangesView()), p, r, full, afterPut)
    {
      if r.Subscription? && full {
        reader := Putting(p, r, afterPut);
      } else {
        Put(p, r);
        FinishPut(p, afterPut);
      }
    }

    method FinishPut(p: Publish, afterPut: AfterPut)
      modifies this`wire, this`reader
      ensures ExchangesView() == AfterLivePut(old(ExchangesView()), p, afterPut)
    {
      if afterPut.ThenPuback? {
        wire := wire + [Puback(p)];
        reader := Sending(SendDone);
      } else {
        reader := Ready;
      }
    }

    method DeliverLive(p: Publish, r: Recipient, full: bool)
      requires PidOk(p)
      modifies this`delivered, this`unacked, this`wire, this`reader, this`inflight, this`pendingAck
      ensures ExchangesView() == LiveHandOver(old(ExchangesView()), p, r, full)
    {
      match p.qos
      case AtMostOnce => PutLive(p, r, full, PutDone);
      case AtLeastOnce => PutLive(p, r, full, if AutoAck(r) then ThenPuback else PutDone);
      case ExactlyOnce =>
        if AutoAck(r) {
          inflight := inflight[p.pid.value := InFlight(p, r, false)];
          wire := wire + [Pubrec(p)];
          reader := Sending(SendDone);
        } else {
          pendingAck := pendingAck + {p.pid.value};
          PutLive(p, r, full, PutDone);
        }
    }

    // ----- The replay buffer -----

    /** `accept` of the active replay state: buffers the message, or says what to do with it. */
    method Accept(p: Publish, r: Recipient) returns (verdict: Verdict)
      requires LeftFits()
      modifies this`replayKind, this`publishes, this`packetIds, this`topics, this`messageCount
      ensures LeftFits() && LeftView() == old(LeftView())
      ensures verdict == JudgeIn(old(ReplayView()), bufferSize, p, r)
      ensures ReplayView() == if verdict == Hold then HoldIn(old(ReplayView()), p) else old(ReplayView())
      ensures verdict == Hold ==> replayKind == Buffered
      ensures verdict != Hold ==> unchanged(this)
    {
      if replayKind == NotResumed || (replayKind == NothingBuffered && !r.Nobody?) || r.Request? {
        return Pass;
      }
      if r.Subscription? && p.topic !in topics {
        return Pass;
      }
      if p.pid.Some? && p.pid.value in packetIds {
        return Ignore;
      }
      if bufferSize != 0 && messageCount >= bufferSize {
        return Overflow;
      }
      HoldBack(p);
      replayKind := Buffered;
      verdict := Hold;
    }

    method HoldBack(p: Publish)
      modifies this`publishes, this`packetIds, this`topics, this`messageCount
      ensures BufferView() == Append(old(BufferView()), p)
    {
      publishes := publishes + [p];
      messageCount := messageCount + 1;
      topics := topics[p.topic := (if p.topic in topics then topics[p.topic] else 0) + 1];
      if p.pid.Some? {
        packetIds := packetIds + {p.pid.value};
      }
    }

    method DiscardOne(p: Publish)
      requires p.topic in topics
      modifies this`packetIds, this`topics, this`messageCount
      ensures BufferView() == Discard(old(BufferView()), p)
    {
      messageCount := messageCount - 1;
      var topicCount := topics[p.topic] - 1;
      if topicCount != 0 {
        topics := topics[p.topic := topicCount];
      } else {
        topics := topics - {p.topic};
      }
      if p.pid.Some? {
        packetIds := packetIds - {p.pid.value};
      }
    }

    ghost function PassView(): Progress
      reads this
    {
      Progress(BufferView(), frame, ExchangesView(), ledger)
    }

    /** One message of a pass: left over, handed over and discarded, or handed over with a suspended send. */
    method DeliverOne(p: Publish, expiring: bool, choose: Publish -> Offer, unmatched: seq<Publish>, rest: seq<Publish>)
      returns (left: seq<Publish>)
      requires PassOk(BufferView(), unmatched, [p] + rest) && frame == NoFrame
      modifies this`packetIds, this`topics, this`messageCount, this`frame, this`ledger,
               this`delivered, this`unacked, this`wire, this`inflight, this`pendingAck
      ensures frame == NoFrame ==>
        PassOk(BufferView(), left, rest)
        && Advance(BufferView(), ExchangesView(), ledger, left, rest, expiring, choose)
           == old(Advance(BufferView(), ExchangesView(), ledger, unmatched, [p] + rest, expiring, choose))
      ensures frame != NoFrame ==>
        PassView() == old(Advance(BufferView(), ExchangesView(), ledger, unmatched, [p] + rest, expiring, choose))
    {
      hide CountersOk, HeldOk, ReplayHandOver, Discard;
      assert ([p] + rest)[1..] == rest;
      PassLeaves(BufferView(), unmatched, [p] + rest);
      PassTakes(BufferView(), unmatched, [p] + rest);
      left := unmatched;
      var offer := choose(p);
      if offer.recipient.Nobody? || (offer.recipient.Subscription? && offer.full) {
        left := unmatched + [p];
        return;
      }
      HandAndDiscard(p, offer.recipient, expiring, unmatched, rest);
    }

    /** Delivers one message and discards it, or suspends in the delivery. */
    method HandAndDiscard(p: Publish, r: Recipient, expiring: bool, unmatched: seq<Publish>, rest: seq<Publish>)
      requires PidOk(p) && p.topic in topics && frame == NoFrame
      modifies this`packetIds, this`topics, this`messageCount, this`frame, this`ledger,
               this`delivered, this`unacked, this`wire, this`inflight, this`pendingAck
      ensures ExchangesView() == ReplayHandOver(old(ExchangesView()), p, r)
      ensures Suspends(p, r) ==>
        frame == Frame(expiring, unmatched, p, r, rest) && BufferView() == old(BufferView()) && ledger == old(ledger)
      ensures !Suspends(p, r) ==>
        frame == NoFrame && BufferView() == Discard(old(BufferView()), p) && ledger == Hand(old(ledger), p, r)
    {
      hide ReplayHandOver, Discard;
      var suspended := DeliverReplay(p, r);
      if suspended {
        frame := Frame(expiring, unmatched, p, r, rest);
      } else {
        DiscardOne(p);
        ledger := Hand(ledger, p, r);
      }
    }

    /** `_deliver_pending`: the two nested loops, up to a suspension or to the end. */
    method DeliverPending(expiring: bool, choose: Publish -> Offer, firstUnmatched: seq<Publish>,
                          firstPending: seq<Publish>)
      requires PassOk(BufferView(), firstUnmatched, firstPending) && frame == NoFrame
      modifies this`publishes, this`packetIds, this`topics, this`messageCount, this`frame, this`ledger,
               this`delivered, this`unacked, this`wire, this`inflight, this`pendingAck
      ensures PassView() == old(Advance(BufferView(), ExchangesView(), ledger, firstUnmatched, firstPending, expiring, choose))
    {
      hide CountersOk, HeldOk, ReplayHandOver;
      var unmatched, pending := firstUnmatched, firstPending;
      ghost var whole := Advance(BufferView(), ExchangesView(), ledger, unmatched, pending, expiring, choose);
      while true
        invariant PassOk(BufferView(), unmatched, pending) && frame == NoFrame
        invariant Advance(BufferView(), ExchangesView(), ledger, unmatched, pending, expiring, choose) == whole
        decreases |publishes|, |pending|
      {
        ghost var waiting := publishes;
        while pending != []
          invariant PassOk(BufferView(), unmatched, pending) && frame == NoFrame && publishes == waiting
          invariant Advance(BufferView(), ExchangesView(), ledger, unmatched, pending, expiring, choose) == whole
          decreases |pending|
        {
          assert pending == [pending[0]] + pending[1..];
          unmatched := DeliverOne(pending[0], expiring, choose, unmatched, pending[1..]);
          if frame != NoFrame {
            return;
          }
          pending := pending[1..];
        }
        if publishes == [] {
          break;
        }
        PassTurns(BufferView(), unmatched);
        pending, publishes := publishes, [];
      }
      publishes := unmatched;
    }

    /** What `drain` and `expire` do when their pass stops. */
    method ConcludePass(expiring: bool, ghost before: Flow)
      requires replayKind == Buffered && bufferSize == before.limit && before.left == NothingLeft && !missed
      requires messageCount == 0 ==> BufferView() == EmptyBuffer
      modifies this
      ensures View() == Conclude(before, old(PassView()), expiring)
      ensures LeftFits()
    {
      if frame != NoFrame {
        return;
      }
      if messageCount == 0 {
        replayKind := NothingBuffered;
      } else if expiring {
        DropPending();
      }
    }

    /** `_drop_pending`: nothing is held any more, and nothing will be in this session. */
    method DropPending()
      requires frame == NoFrame
      modifies this`ledger, this`open, this`publishes, this`packetIds, this`topics, this`messageCount, this`replayKind
      ensures ExchangesView() == Forget(old(ExchangesView()))
      ensures ledger == old(ledger).(dropped := old(ledger).dropped + Elements(old(publishes)))
      ensures replayKind == NotResumed && BufferView() == EmptyBuffer
    {
      hide StillOpen, Elements, Forget, ExchangesView;
      ledger := ledger.(dropped := ledger.dropped + Elements(publishes));
      ForgetExchanges();
      EmptyOut();
      replayKind := NotResumed;
    }

    method ForgetExchanges()
      modifies this`open
      ensures ExchangesView() == Forget(old(ExchangesView()))
    {
      hide StillOpen;
      open := StillOpen(open, inflight, pendingAck);
    }

    method EmptyOut()
      modifies this`publishes, this`packetIds, this`topics, this`messageCount
      ensures BufferView() == EmptyBuffer
    {
      publishes, packetIds, topics, messageCount := [], {}, map[], 0;
    }

    // ----- The events -----

    /** `handle_publish`, up to its first suspension or its end. */
    method HandlePublish(topic: string, qos: Qos, pid: Option<int>, offer: Offer)
      requires Valid() && reader == Ready
      modifies this
      ensures Valid() && View() == Step(old(View()), Arrive(topic, qos, pid, offer))
    {
      hide FlowOk, ReplayOk;
      ghost var before := View();
      StepKeeps(before, Arrive(topic, qos, pid, offer));
      var p := Publish(arrived, topic, qos, if qos == AtMostOnce then None else pid);
      if !PidOk(p) {
        reader := Stopped;
        return;
      }
      if qos == ExactlyOnce {
        if p.pid.value in inflight {
          wire := wire + [Pubrec(inflight[p.pid.value].publish)];
          reader := Sending(SendDone);
          return;
        }
        if p.pid.value in pendingAck {
          return;
        }
      }
      if qos != AtMostOnce && replayKind == Buffered && p.pid.value in packetIds {
        return;
      }
      RouteMessage(p, offer);
    }

    /** `_select_recipient_or_buffer` and the delivery of a message that was not buffered. */
    method RouteMessage(p: Publish, offer: Offer)
      requires PidOk(p) && LeftFits()
      modifies this
      ensures View() == Route(old(View()), p, offer) && LeftFits()
    {
      hide LiveHandOver, Judge, JudgeIn, HoldIn, Append, Admit, ReplayView, ExchangesView, BufferView, LeftView, LeftFits;
      var verdict := Accept(p, offer.recipient);
      if verdict == Overflow {
        StopReading();
      } else if verdict == Hold {
        NoteArrival(p);
        ledger := ledger.(accepted := ledger.accepted + {p});
      } else if verdict == Pass {
        NoteAndDeliver(p, offer);
      }
    }

    method StopReading()
      modifies this`reader
      ensures ExchangesView() == old(ExchangesView()).(reader := Stopped)
    {
      reader := Stopped;
    }

    method NoteAndDeliver(p: Publish, offer: Offer)
      requires PidOk(p)
      modifies this`arrived, this`open, this`delivered, this`unacked, this`wire, this`reader, this`inflight, this`pendingAck
      ensures ExchangesView() == LiveHandOver(Admit(old(ExchangesView()), p), p, offer.recipient, offer.full)
    {
      hide LiveHandOver, Admit;
      NoteArrival(p);
      DeliverLive(p, offer.recipient, offer.full);
    }

    method NoteArrival(p: Publish)
      modifies this`arrived, this`open
      ensures ExchangesView() == Admit(old(ExchangesView()), p)
    {
      arrived := arrived + 1;
      if IsQos2(p) {
        open := open[p.pid.value := p];
      }
    }

    method HandlePubrel(pid: int)
      requires Valid() && reader == Ready
      modifies this
      ensures Valid() && View() == Step(old(View()), Pubrel(pid))
    {
      hide FlowOk, ReplayOk;
      StepKeeps(View(), Pubrel(pid));
      if pid !in inflight {
        reader := Stopped;
        return;
      }
      var flight := inflight[pid];
      inflight := inflight - {pid};
      open := open - {pid};
      wire := wire + [Pubcomp(flight.publish)];
      reader := Sending(if flight.delivered then SendDone else ThenDeliver(flight.publish, flight.recipient));
    }

    /** The read loop's suspended `queue.put` gets room. */
    method ResumePut()
      requires Valid() && reader.Putting?
      modifies this
      ensures Valid() && View() == Step(old(View()), PutEnds)
    {
      hide FlowOk, ReplayOk, HandOver;
      StepKeeps(View(), PutEnds);
      var p, r, afterPut := reader.publish, reader.recipient, reader.afterPut;
      Put(p, r);
      FinishPut(p, afterPut);
    }

    /** The read loop's suspended send succeeds; `full` is what a following delivery finds. */
    method ResumeSend(full: bool)
      requires Valid() && reader.Sending?
      modifies this
      ensures Valid() && View() == Step(old(View()), SendEnds(full))
    {
      hide FlowOk, ReplayOk, LivePut;
      StepKeeps(View(), SendEnds(full));
      var after := reader.afterSend;
      if after.ThenDeliver? {
        PutLive(after.publish, after.recipient, full, PutDone);
      } else {
        reader := Ready;
      }
    }

    /** A drain, or an expiry, that finds the delivery lock free. */
    method StartPass(expiring: bool, choose: Publish -> Offer)
      requires Valid() && replayKind == Buffered && frame == NoFrame
      modifies this
      ensures Valid() && View() == Step(old(View()), Drain(expiring, choose))
    {
      hide FlowOk, ReplayOk, Advance, PassOk, Conclude, Step;
      ghost var before := View();
      StepKeeps(before, Drain(expiring, choose));
      DrainIsAPass(before, expiring, choose);
      DeliverPending(expiring, choose, [], []);
      ConcludePass(expiring, before);
    }

    /** What follows the suspended send: the message in hand is gone from the buffer. */
    method FinishDelivery() returns (resumed: Frame)
      requires frame.Frame? && frame.inHand.topic in topics
      modifies this`packetIds, this`topics, this`messageCount, this`ledger, this`frame
      ensures resumed == old(frame) && frame == NoFrame
      ensures BufferView() == Discard(old(BufferView()), old(frame).inHand)
      ensures ledger == Hand(old(ledger), old(frame).inHand, old(frame).recipient)
    {
      resumed := frame;
      DiscardOne(resumed.inHand);
      ledger := Hand(ledger, resumed.inHand, resumed.recipient);
      frame := NoFrame;
    }

    /** The suspended delivery's send succeeds, and the pass goes on; or the buffer was cleared meanwhile,
      and `_discard` raises at the topic counter. */
    method ResumePass(choose: Publish -> Offer) returns (raised: bool)
      requires Valid() && frame.Frame?
      modifies this
      ensures Valid() && View() == Step(old(View()), DeliveryEnds(choose))
      ensures raised <==> old(frame).inHand.topic !in old(topics)
    {
      hide FlowOk, ReplayOk, Advance, PassOk, Conclude, Step, Discard, ExchangesView;
      StepKeeps(View(), DeliveryEnds(choose));
      SuspendedIsOneOf(View(), choose);
      raised := frame.inHand.topic !in topics;
      if raised {
        RaiseAtCounter();
      } else {
        GoOn(choose);
      }
    }

    method GoOn(choose: Publish -> Offer)
      requires Valid() && replayKind == Buffered && frame.Frame?
      modifies this
      ensures Valid() && View() == Step(old(View()), DeliveryEnds(choose))
    {
      hide FlowOk, ReplayOk, Advance, PassOk, Conclude, Step, Discard, ExchangesView;
      ghost var before := View();
      StepKeeps(before, DeliveryEnds(choose));
      ResumptionIsAPass(before, choose);
      var resumed := FinishDelivery();
      DeliverPending(resumed.expiring, choose, resumed.unmatched, resumed.pending);
      ConcludePass(resumed.expiring, before);
    }

    /** `_discard` up to its missing counter, and the `finally` of the pass. */
    method RaiseAtCounter()
      requires frame.Frame? && replayKind != Buffered && frame.inHand.topic !in topics
      modifies this`messageCount, this`publishes, this`frame, this`missed
      ensures LeftView() == SendEnded(old(LeftView()))
    {
      messageCount := messageCount - 1;
      var unmatched := frame.unmatched + frame.pending;
      unmatched := unmatched + publishes;
      publishes, frame, missed := unmatched, NoFrame, true;
    }

    /** The suspended delivery raises or is cancelled: everything goes back, in order. */
    method InterruptPass()
      requires Valid() && frame.Frame?
      modifies this
      ensures Valid() && View() == Step(old(View()), DeliveryFails)
    {
      hide FlowOk, ReplayOk;
      StepKeeps(View(), DeliveryFails);
      var unmatched := frame.unmatched + [frame.inHand];
      unmatched := unmatched + frame.pending;
      unmatched := unmatched + publishes;
      if replayKind == Buffered {
        broken := broken + multiset{frame.inHand};
      }
      publishes, frame := unmatched, NoFrame;
    }

    /** The read loop fails, or the run ends while it is suspended. */
    method StopReader()
      requires Valid()
      modifies this`reader
      ensures Valid() && View() == Step(old(View()), ReaderFails)
    {
      hide FlowOk, ReplayOk;
      StepKeeps(View(), ReaderFails);
      reader := Stopped;
    }

    /** `clear()` at the end of the connection; a suspended drain keeps its local variables. */
    method Clear()
      requires Valid()
      modifies this
      ensures Valid() && View() == Step(old(View()), SessionEnds)
    {
      hide FlowOk, ReplayOk, Elements, StillOpen, Forget, Taken, Resting, ExchangesView, Cleared;
      ghost var before := View();
      StepKeeps(before, SessionEnds);
      ledger := ledger.(handed := Taken(before), dropped := ledger.dropped + Elements(Resting(before.replay)));
      ForgetExchanges();
      if replayKind == Buffered {
        ForgetBuffer(before);
      } else {
        NothingCleared(before);
        replayKind := NotResumed;
      }
    }

    /** `clear()` of the buffered state, which the flow leaves behind. */
    method ForgetBuffer(ghost before: Flow)
      requires replayKind == Buffered && !missed && before.replay == ReplayView() && before.left == NothingLeft
      modifies this`replayKind, this`publishes, this`packetIds, this`topics, this`messageCount, this`frame
      ensures replayKind == NotResumed && LeftView() == Cleared(before) && LeftFits()
    {
      EmptyOut();
      CancelExpiration();
      replayKind := NotResumed;
    }

    /** `_cancel_expiration`: an expiry that is suspended in a delivery is broken off. */
    method CancelExpiration()
      requires publishes == []
      modifies this`publishes, this`frame
      ensures Leftover(BufferView(), frame, false)
        == var cut := Leftover(old(BufferView()), old(frame), false);
           if old(frame).Frame? && old(frame).expiring then SendFailed(cut) else cut
    {
      if frame.Frame? && frame.expiring {
        publishes := frame.unmatched + [frame.inHand] + frame.pending;
        assert publishes + [] == publishes;
        frame := NoFrame;
      }
    }

    /** `Message.ack()` of a message that was delivered for manual acknowledgement. */
    method AckMessage(p: Publish)
      requires Valid() && p in unacked && p.pid.Some?
      modifies this
      ensures Valid() && View() == Step(old(View()), Ack(p))
    {
      hide FlowOk, ReplayOk, Acknowledge, ReplayView;
      StepKeeps(View(), Ack(p));
      SendAck(p);
    }

    method SendAck(p: Publish)
      requires p in unacked && p.pid.Some?
      modifies this`unacked, this`pendingAck, this`inflight, this`wire
      ensures ExchangesView() == Acknowledge(old(ExchangesView()), p)
    {
      var r := unacked[p];
      unacked := unacked - {p};
      if p.qos == ExactlyOnce {
        pendingAck := pendingAck - {p.pid.value};
        inflight := inflight[p.pid.value := InFlight(p, r, true)];
        wire := wire + [Pubrec(p)];
      } else {
        wire := wire + [Puback(p)];
      }
    }
  }

  /** A buffer that counts nothing is empty. */
  lemma CountsNothing(b: Buffer)
    requires CountersOk(b, b.publishes) && b.count == 0
    ensures b == EmptyBuffer
  {
    assert forall t :: t !in b.topics;
    assert b.topics == map[];
  }

  lemma ProgressEmpties(r: Progress, size: nat)
    requires ProgressOk(r, size) && r.buffer.count == 0
    ensures r.buffer == EmptyBuffer && r.frame == NoFrame
  {
    if r.frame == NoFrame { CountsNothing(r.buffer); }
  }

  lemma DrainIsAPass(f: Flow, expiring: bool, choose: Publish -> Offer)
    requires FlowOk(f) && f.replay.Buffering? && f.replay.frame.NoFrame?
    ensures PassOk(f.replay.buffer, [], [])
    ensures var r := Advance(f.replay.buffer, f.x, f.ledger, [], [], expiring, choose);
      && Step(f, Drain(expiring, choose)) == Conclude(f, r, expiring)
      && (r.buffer.count == 0 ==> r.buffer == EmptyBuffer)
  {
    hide Advance, PassOk, Conclude, CountersOk, HeldOk, ExchangesOk, LedgerOk;
    DrainKept(f);
    assert PassKept(f.replay.buffer, f.x, f.ledger, [], []);
    AdvanceKeeps(f.replay.buffer, f.x, f.ledger, [], [], expiring, choose);
    var r := Advance(f.replay.buffer, f.x, f.ledger, [], [], expiring, choose);
    if r.buffer.count == 0 { ProgressEmpties(r, |[] + [] + f.replay.buffer.publishes|); }
  }

  /** A suspended delivery belongs to the active buffer, where its counter is, or to one that was cleared. */
  lemma NothingCleared(f: Flow)
    requires !f.replay.Buffering?
    ensures Cleared(f) == f.left
  {}

  lemma SuspendedIsOneOf(f: Flow, choose: Publish -> Offer)
    requires FlowOk(f)
    ensures if f.replay.Buffering? && f.replay.frame.Frame? then CounterFound(f.replay.buffer, f.replay.frame)
            else Step(f, DeliveryEnds(choose)) == f.(left := SendEnded(f.left))
  {
    hide Advance, PassOk, Conclude, CountersOk, HeldOk, ExchangesOk, LedgerOk, Discard;
    if f.replay.Buffering? && f.replay.frame.Frame? { ResumedPass(f.replay); }
  }

  lemma ResumptionIsAPass(f: Flow, choose: Publish -> Offer)
    requires FlowOk(f) && f.replay.Buffering? && f.replay.frame.Frame?
    ensures f.replay.frame.inHand.topic in f.replay.buffer.topics
    ensures var fr := f.replay.frame;
      && PassOk(Discard(f.replay.buffer, fr.inHand), fr.unmatched, fr.pending)
      && var r := Advance(Discard(f.replay.buffer, fr.inHand), f.x, Hand(f.ledger, fr.inHand, fr.recipient),
                          fr.unmatched, fr.pending, fr.expiring, choose);
      && Step(f, DeliveryEnds(choose)) == Conclude(f, r, fr.expiring)
      && (r.buffer.count == 0 ==> r.buffer == EmptyBuffer)
  {
    hide Advance, PassOk, Conclude, CountersOk, HeldOk, ExchangesOk, LedgerOk, Discard;
    ResumedKept(f);
    var fr := f.replay.frame;
    var b, l := Discard(f.replay.buffer, fr.inHand), Hand(f.ledger, fr.inHand, fr.recipient);
    assert PassKept(b, f.x, l, fr.unmatched, fr.pending);
    AdvanceKeeps(b, f.x, l, fr.unmatched, fr.pending, fr.expiring, choose);
    var r := Advance(b, f.x, l, fr.unmatched, fr.pending, fr.expiring, choose);
    if r.buffer.count == 0 { ProgressEmpties(r, |fr.unmatched + fr.pending + b.publishes|); }
  }
}
