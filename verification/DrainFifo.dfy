/** What a drain leaves behind, whatever interleaves with its passes: only messages it could not deliver,
  and none that is older than what it put into their queue while the queues only filled. */
module DrainFifo {
  import opened Prelude
  import opened ReplayBuffer
  import opened InboundExchanges
  import opened Inbound
  import opened InboundTheorems
  import opened InboundOrder
  import opened DrainOrder

  type Choices = seq<Publish -> Offer>

  /** What selection found in each of the passes of a drain, in order. */
  function ChoicesOf(start: Event, between: seq<Event>): Choices
    requires start.Drain?
  {
    if between == [] then [start.choose]
    else
      var e := between[|between| - 1];
      ChoicesOf(start, between[..|between| - 1]) + if e.DeliveryEnds? then [e.choose] else []
  }

  predicate ToQueueOf(r: Recipient, queue: nat) { r.Subscription? && r.queue == queue }

  /** Throughout the drain the message is one for this queue. */
  ghost predicate ForQueue(choices: Choices, p: Publish, queue: nat) {
    forall i :: 0 <= i < |choices| ==> ToQueueOf(choices[i](p).recipient, queue)
  }

  /** One of the passes could not deliver the message. */
  ghost predicate Refused(choices: Choices, p: Publish) {
    exists i :: 0 <= i < |choices| && NobodyTakes(choices[i](p))
  }

  /** No consumer takes messages out: a queue that was full for a message is full for younger ones, in the
    same pass and in all later ones. */
  ghost predicate OnlyFills(choices: Choices, queue: nat) {
    forall i, j, p: Publish, q: Publish ::
      (0 <= i <= j < |choices| && p.serial < q.serial && ToQueueOf(choices[i](p).recipient, queue) && choices[i](p).full
       && ToQueueOf(choices[j](q).recipient, queue)) ==> choices[j](q).full
  }

  ghost predicate AllRefused(choices: Choices, left: seq<Publish>) {
    forall i :: 0 <= i < |left| ==> Refused(choices, left[i])
  }

  /** What went to the queue is older than what is left behind for it. */
  ghost predicate OlderThanLeft(choices: Choices, queue: nat, taken: HandOvers, left: seq<Publish>) {
    forall i, j :: 0 <= i < |taken| && 0 <= j < |left| && ToQueueOf(taken[i].1, queue) && ForQueue(choices, left[j], queue) ==>
      taken[i].0.serial < left[j].serial
  }

  ghost predicate Fifo(choices: Choices, queue: nat, taken: HandOvers, left: seq<Publish>) {
    AllRefused(choices, left) && (OnlyFills(choices, queue) ==> OlderThanLeft(choices, queue, taken, left))
  }

  predicate TakenBefore(taken: HandOvers, rest: seq<Publish>) {
    forall i, j :: 0 <= i < |taken| && 0 <= j < |rest| ==> taken[i].0.serial < rest[j].serial
  }

  function LeftBehind(b: Buffer, frame: Frame): seq<Publish> { if frame.Frame? then frame.unmatched else b.publishes }

  lemma OneMoreRefused(choices: Choices, queue: nat, taken: HandOvers, left: seq<Publish>, p: Publish)
    requires Fifo(choices, queue, taken, left) && Refused(choices, p)
    requires forall i :: 0 <= i < |taken| ==> taken[i].0.serial < p.serial
    ensures Fifo(choices, queue, taken, left + [p])
  {
    hide ForQueue, Refused;
  }

  lemma StillFull(choices: Choices, queue: nat, q: Publish, p: Publish)
    requires choices != [] && OnlyFills(choices, queue) && ToQueueOf(choices[|choices| - 1](p).recipient, queue)
    requires Refused(choices, q) && ForQueue(choices, q, queue) && q.serial < p.serial
    ensures NobodyTakes(choices[|choices| - 1](p))
  {
    var k :| 0 <= k < |choices| && NobodyTakes(choices[k](q));
    assert ToQueueOf(choices[k](q).recipient, queue);
  }

  /** A message that goes to the queue now finds none left behind for it: that one had found it full. */
  lemma OneMoreTaken(choices: Choices, queue: nat, taken: HandOvers, left: seq<Publish>, p: Publish)
    requires Fifo(choices, queue, taken, left) && choices != []
    requires !NobodyTakes(choices[|choices| - 1](p)) && forall i :: 0 <= i < |left| ==> left[i].serial < p.serial
    ensures Fifo(choices, queue, taken + [(p, choices[|choices| - 1](p).recipient)], left)
  {
    var j := |choices| - 1;
    if OnlyFills(choices, queue) && ToQueueOf(choices[j](p).recipient, queue) {
      forall i | 0 <= i < |left| ensures !ForQueue(choices, left[i], queue) {
        if ForQueue(choices, left[i], queue) { StillFull(choices, queue, left[i], p); }
      }
    }
  }

  lemma HeadInPass(b: Buffer, unmatched: seq<Publish>, pending: seq<Publish>)
    requires PassOk(b, unmatched, pending) && pending != []
    ensures forall i :: 0 <= i < |unmatched| ==> unmatched[i].serial < pending[0].serial
    ensures forall j :: 0 <= j < |pending[1..] + b.publishes| ==> pending[0].serial < (pending[1..] + b.publishes)[j].serial
  {
    hide CountersOk;
    var held := unmatched + pending + b.publishes;
    assert held[|unmatched|] == pending[0];
    forall i | 0 <= i < |unmatched| ensures unmatched[i].serial < pending[0].serial { assert held[i] == unmatched[i]; }
    forall j | 0 <= j < |pending[1..] + b.publishes|
      ensures pending[0].serial < (pending[1..] + b.publishes)[j].serial
    {
      assert held[|unmatched| + 1 + j] == (pending[1..] + b.publishes)[j];
    }
  }

  lemma TakenBeforeMore(taken: HandOvers, p: Publish, r: Recipient, rest: seq<Publish>)
    requires TakenBefore(taken, [p] + rest) && forall j :: 0 <= j < |rest| ==> p.serial < rest[j].serial
    ensures TakenBefore(taken, rest) && TakenBefore(taken + [(p, r)], rest)
  {
    forall j | 0 <= j < |rest| ensures ([p] + rest)[j + 1] == rest[j] {}
  }

  /** One pass, from any point of its loops. */
  lemma {:induction false} AdvanceIsFifo(b: Buffer, x: Exchanges, l: Ledger, unmatched: seq<Publish>, pending: seq<Publish>,
                                         expiring: bool, choices: Choices, queue: nat, n: nat)
    requires PassOk(b, unmatched, pending) && n <= |l.handed|
    requires choices != []
    requires Fifo(choices, queue, l.handed[n..], unmatched) && TakenBefore(l.handed[n..], pending + b.publishes)
    ensures var r := Advance(b, x, l, unmatched, pending, expiring, choices[|choices| - 1]);
      n <= |TakenBy(r)| && Fifo(choices, queue, TakenBy(r)[n..], LeftBehind(r.buffer, r.frame))
    decreases |b.publishes|, |pending|
  {
    hide CountersOk, HeldOk, ReplayHandOver, Fifo, OnlyFills, TakenBefore, Refused;
    var choose, taken := choices[|choices| - 1], l.handed[n..];
    if pending == [] {
      assert pending + b.publishes == b.publishes;
      if b.publishes != [] {
        PassTurns(b, unmatched);
        assert b.publishes + [] == b.publishes;
        AdvanceIsFifo(b.(publishes := []), x, l, unmatched, b.publishes, expiring, choices, queue, n);
      }
    } else {
      var p, rest := pending[0], pending[1..] + b.publishes;
      var r := choose(p).recipient;
      PassLeaves(b, unmatched, pending);
      PassTakes(b, unmatched, pending);
      HeadInPass(b, unmatched, pending);
      assert pending + b.publishes == [p] + rest;
      TakenBeforeMore(taken, p, r, rest);
      if !Deliverable(choose(p)) {
        BeforeTheHead(taken, p, rest);
        assert Refused(choices, p) by { RefusedNow(choices, p); }
        OneMoreRefused(choices, queue, taken, unmatched, p);
        AdvanceIsFifo(b, x, l, unmatched + [p], pending[1..], expiring, choices, queue, n);
      } else {
        OneMoreTaken(choices, queue, taken, unmatched, p);
        assert Hand(l, p, r).handed[n..] == taken + [(p, r)];
        if !Suspends(p, r) {
          AdvanceIsFifo(Discard(b, p), ReplayHandOver(x, p, r), Hand(l, p, r), unmatched, pending[1..],
                        expiring, choices, queue, n);
        }
      }
    }
  }

  lemma BeforeTheHead(taken: HandOvers, p: Publish, rest: seq<Publish>)
    requires TakenBefore(taken, [p] + rest)
    ensures forall i :: 0 <= i < |taken| ==> taken[i].0.serial < p.serial
  {
    assert ([p] + rest)[0] == p;
  }

  lemma RefusedNow(choices: Choices, p: Publish)
    requires choices != [] && NobodyTakes(choices[|choices| - 1](p))
    ensures Refused(choices, p)
  {}

  // ----- Over the whole drain -----

  /** The drain is first in, first out for the queue since `n` hand-overs, suspended or at its end. */
  ghost predicate DrainsInTurn(f: Flow, n: nat, choices: Choices, queue: nat) {
    n <= |Taken(f)| && (f.replay.Buffering? ==> Fifo(choices, queue, Taken(f)[n..], LeftBehind(f.replay.buffer, f.replay.frame)))
  }

  lemma FewerChoices(choices: Choices, more: Choices, queue: nat)
    requires OnlyFills(choices + more, queue)
    ensures OnlyFills(choices, queue)
  {
    forall i, j, p: Publish, q: Publish | 0 <= i <= j < |choices| && p.serial < q.serial
        && ToQueueOf(choices[i](p).recipient, queue) && choices[i](p).full && ToQueueOf(choices[j](q).recipient, queue)
      ensures choices[j](q).full
    {
      assert (choices + more)[i] == choices[i] && (choices + more)[j] == choices[j];
    }
  }

  lemma MoreChoices(choices: Choices, choose: Publish -> Offer, queue: nat, taken: HandOvers, left: seq<Publish>)
    requires Fifo(choices, queue, taken, left)
    ensures Fifo(choices + [choose], queue, taken, left)
  {
    var more := choices + [choose];
    if OnlyFills(more, queue) { FewerChoices(choices, [choose], queue); }
    forall i | 0 <= i < |left| ensures Refused(more, left[i]) {
      var k :| 0 <= k < |choices| && NobodyTakes(choices[k](left[i]));
      assert more[k] == choices[k];
    }
    forall j | 0 <= j < |left| && ForQueue(more, left[j], queue) ensures ForQueue(choices, left[j], queue) {
      forall i | 0 <= i < |choices| ensures ToQueueOf(choices[i](left[j]).recipient, queue) { assert more[i] == choices[i]; }
    }
  }

  lemma ConcludedInTurn(f: Flow, r: Progress, expiring: bool, n: nat, choices: Choices, queue: nat)
    requires n <= |TakenBy(r)| && Fifo(choices, queue, TakenBy(r)[n..], LeftBehind(r.buffer, r.frame))
    ensures DrainsInTurn(Conclude(f, r, expiring), n, choices, queue)
  {
    hide Fifo;
    ConcludedTaken(f, r, expiring);
  }

  lemma StartsInTurn(f: Flow, e: Event, queue: nat)
    requires FlowOk(f) && f.replay.Buffering? && f.replay.frame.NoFrame? && e.Drain?
    ensures DrainsInTurn(Step(f, e), |Taken(f)|, [e.choose], queue)
  {
    hide ExchangesOk, LedgerOk, LimitOk, AcceptedSeen, Advance, Conclude, PassOk, ReplayOk, Fifo, OnlyFills, DrainsInTurn;
    var b := f.replay.buffer;
    StartsAPass(f);
    NothingTaken([e.choose], queue, b.publishes, f.ledger.handed);
    AdvanceIsFifo(b, f.x, f.ledger, [], [], e.expiring, [e.choose], queue, |Taken(f)|);
    ConcludedInTurn(f, Advance(b, f.x, f.ledger, [], [], e.expiring, e.choose), e.expiring, |Taken(f)|, [e.choose], queue);
  }

  lemma NothingTaken(choices: Choices, queue: nat, rest: seq<Publish>, handed: HandOvers)
    ensures Fifo(choices, queue, handed[|handed|..], []) && TakenBefore(handed[|handed|..], [] + rest)
  {}

  lemma EndsInTurn(f: Flow, e: Event, n: nat, choices: Choices, queue: nat)
    requires FlowOk(f) && Suspended(f) && InOrder(f, n) && e.DeliveryEnds?
    requires DrainsInTurn(f, n, choices, queue)
    ensures DrainsInTurn(Step(f, e), n, choices + [e.choose], queue)
  {
    hide FlowOk, Advance, Conclude, PassOk, Fifo, OnlyFills, DrainsInTurn, InOrder, Taken, Discard;
    var fr, b := f.replay.frame, f.replay.buffer;
    FlowsAreReplays();
    ResumesAPass(f);
    TakenInPass(f);
    var rest, l := Discard(b, fr.inHand), Hand(f.ledger, fr.inHand, fr.recipient);
    InTurnWhile(f, n, choices, queue);
    MoreChoices(choices, e.choose, queue, Taken(f)[n..], fr.unmatched);
    AdvanceIsFifo(rest, f.x, l, fr.unmatched, fr.pending, fr.expiring, choices + [e.choose], queue, n);
    ConcludedInTurn(f, Advance(rest, f.x, l, fr.unmatched, fr.pending, fr.expiring, e.choose), fr.expiring,
                    n, choices + [e.choose], queue);
  }

  lemma InTurnWhile(f: Flow, n: nat, choices: Choices, queue: nat)
    requires Suspended(f) && InOrder(f, n) && DrainsInTurn(f, n, choices, queue)
    requires f.replay.frame.inHand.topic in f.replay.buffer.topics
    ensures n <= |Taken(f)| && Fifo(choices, queue, Taken(f)[n..], f.replay.frame.unmatched)
    ensures TakenBefore(Taken(f)[n..], f.replay.frame.pending + Discard(f.replay.buffer, f.replay.frame.inHand).publishes)
  {
    hide Fifo;
    var t, rest := Messages(Taken(f)[n..]), f.replay.frame.pending + f.replay.buffer.publishes;
    assert t + f.replay.frame.pending + f.replay.buffer.publishes == t + rest;
    forall i, j | 0 <= i < |t| && 0 <= j < |rest| ensures t[i].serial < rest[j].serial {
      assert (t + rest)[i] == t[i] && (t + rest)[|t| + j] == rest[j];
    }
  }

  lemma SamePassInTurn(f: Flow, e: Event, n: nat, choices: Choices, queue: nat)
    requires FlowOk(f) && Suspended(f) && InOrder(f, n) && DrainsInTurn(f, n, choices, queue)
    requires !e.DeliveryEnds? && !e.DeliveryFails? && !e.SessionEnds?
    ensures DrainsInTurn(Step(f, e), n, choices, queue)
  {
    hide FlowOk, Advance, Fifo, LiveHandOver, Taken;
    FlowsAreReplays();
    SamePassTaken(f, e);
  }

  lemma SamePassTaken(f: Flow, e: Event)
    requires FlowOk(f) && Suspended(f) && !e.DeliveryEnds? && !e.DeliveryFails? && !e.SessionEnds?
    ensures Suspended(Step(f, e)) && Step(f, e).replay.frame == f.replay.frame && Taken(Step(f, e)) == Taken(f)
  {
    hide FlowOk, Advance, LiveHandOver;
    FlowsAreReplays();
  }

  lemma StaysInTurn(f: Flow, e: Event, n: nat, choices: Choices, queue: nat)
    requires FlowOk(f) && Suspended(f) && InOrder(f, n) && DrainsInTurn(f, n, choices, queue)
    requires !e.DeliveryFails? && !e.SessionEnds?
    ensures DrainsInTurn(Step(f, e), n, choices + if e.DeliveryEnds? then [e.choose] else [], queue)
  {
    hide FlowOk, Step, OnlyFills, DrainsInTurn, InOrder;
    if e.DeliveryEnds? {
      EndsInTurn(f, e, n, choices, queue);
    } else {
      assert choices + [] == choices;
      SamePassInTurn(f, e, n, choices, queue);
    }
  }

  lemma {:induction false} PassesInTurn(sessionPresent: bool, limit: nat, before: seq<Event>, start: Event,
                                        between: seq<Event>,
                                        queue: nat)
    requires IsDrain(sessionPresent, limit, before, start, between)
    ensures var f, g := Run(sessionPresent, limit, before), Run(sessionPresent, limit, before + [start] + between);
      DrainsInTurn(g, |Taken(f)|, ChoicesOf(start, between), queue)
    decreases |between|
  {
    hide FlowOk, Step, InOrder, Taken, OnlyFills, DrainsInTurn, Run;
    var f := Run(sessionPresent, limit, before);
    if between == [] {
      assert before + [start] + between == before + [start];
      RunSnoc(sessionPresent, limit, before, start);
      StartsInTurn(f, start, queue);
    } else {
      var k := |between| - 1;
      forall j | 0 <= j < k ensures between[..k][..j] == between[..j] {}
      var e := between[k];
      var choices := ChoicesOf(start, between[..k]);
      PassesInTurn(sessionPresent, limit, before, start, between[..k], queue);
      DrainTakesInArrivalOrder(sessionPresent, limit, before, start, between[..k]);
      assert before + [start] + between == before + [start] + between[..k] + [e];
      RunSnoc(sessionPresent, limit, before + [start] + between[..k], e);
      StaysInTurn(Run(sessionPresent, limit, before + [start] + between[..k]), e, |Taken(f)|, choices, queue);
    }
  }

  /** A drain with anything at its suspensions is complete: whatever it leaves behind, one of its passes
    found undeliverable. */
  lemma DrainIsComplete(sessionPresent: bool, limit: nat, before: seq<Event>, start: Event, between: seq<Event>, q: Publish)
    requires IsDrain(sessionPresent, limit, before, start, between)
    requires var g := Run(sessionPresent, limit, before + [start] + between);
      g.replay.Buffering? && q in LeftBehind(g.replay.buffer, g.replay.frame)
    ensures Refused(ChoicesOf(start, between), q)
  {
    hide FlowOk, Step, Run, OnlyFills, Taken, IsDrain, ChoicesOf, Refused, OlderThanLeft;
    PassesInTurn(sessionPresent, limit, before, start, between, 0);
  }

  /** While no consumer makes room, whatever a drain put into a queue is older than everything it leaves
    behind for that queue, at its end and at every suspension, whatever arrives or is released there. */
  lemma DrainIsFifoPerQueue(sessionPresent: bool, limit: nat, before: seq<Event>, start: Event, between: seq<Event>,
                            queue: nat, d: (Publish, Recipient), q: Publish)
    requires IsDrain(sessionPresent, limit, before, start, between) && OnlyFills(ChoicesOf(start, between), queue)
    requires var f, g := Run(sessionPresent, limit, before), Run(sessionPresent, limit, before + [start] + between);
      && Taken(f) <= Taken(g) && d in Taken(g)[|Taken(f)|..] && ToQueueOf(d.1, queue)
      && g.replay.Buffering? && q in LeftBehind(g.replay.buffer, g.replay.frame)
      && ForQueue(ChoicesOf(start, between), q, queue)
    ensures d.0.serial < q.serial
  {
    hide FlowOk, Step, Run, OnlyFills, Taken, IsDrain, ChoicesOf, ForQueue, AllRefused;
    PassesInTurn(sessionPresent, limit, before, start, between, queue);
  }
}
