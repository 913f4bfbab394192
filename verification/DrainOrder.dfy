/** What one drain does to the queues, whatever arrives, is released or is acknowledged while it is
  suspended; and when the queues get its messages in arrival order. */
module DrainOrder {
  import opened Prelude
  import opened ReplayBuffer
  import opened InboundExchanges
  import opened Inbound
  import opened InboundOrder

  /** A drain or an expiry that is suspended in a delivery. */
  predicate Suspended(f: Flow) { f.replay.Buffering? && f.replay.frame.Frame? }

  /** No delivery of the drain breaks off, and the connection lives on. */
  predicate Undisturbed(events: seq<Event>) {
    forall i :: 0 <= i < |events| ==> !events[i].DeliveryFails? && !events[i].SessionEnds?
  }

  /** The whole of one drain so far: it starts on a buffer that no drain is working on, and it is still
    suspended before each of the `between` events. */
  ghost predicate IsDrain(sessionPresent: bool, limit: nat, before: seq<Event>, start: Event, between: seq<Event>) {
    && start.Drain? && Undisturbed(between)
    && Run(sessionPresent, limit, before).replay.Buffering? && Run(sessionPresent, limit, before).replay.frame.NoFrame?
    && forall k :: 0 <= k < |between| ==> Suspended(Run(sessionPresent, limit, before + [start] + between[..k]))
  }

  /** What the drain has taken since `n` hand-overs, and what it has still before it, is in arrival order. */
  ghost predicate InOrder(f: Flow, n: nat) {
    n <= |Taken(f)|
    && match f.replay
       case Buffering(b, Frame(_, _, _, _, rest)) => Ascending(Messages(Taken(f)[n..]) + rest + b.publishes)
       case _ => Ascending(Messages(Taken(f)[n..]))
  }

  lemma ConcludedInOrder(f: Flow, r: Progress, expiring: bool, n: nat)
    requires n <= |TakenBy(r)|
    requires match r.frame
      case NoFrame => Ascending(Messages(TakenBy(r)[n..]))
      case Frame(_, _, _, _, rest) => Ascending(Messages(TakenBy(r)[n..]) + rest + r.buffer.publishes)
    ensures InOrder(Conclude(f, r, expiring), n)
  {
    ConcludedTaken(f, r, expiring);
  }

  lemma HeldAscend(f: Flow)
    requires FlowOk(f)
    ensures Ascending(Held(f.replay))
  {}

  lemma DrainStarts(f: Flow, expiring: bool, choose: Publish -> Offer)
    requires FlowOk(f) && f.replay.Buffering? && f.replay.frame.NoFrame?
    ensures Taken(f) <= Taken(Step(f, Drain(expiring, choose)))
    ensures InOrder(Step(f, Drain(expiring, choose)), |Taken(f)|)
  {
    hide ExchangesOk, LedgerOk, LimitOk, AcceptedSeen, Advance, Conclude, PassOk, ReplayOk, Ascending, InOrder, ProgressOk;
    var b := f.replay.buffer;
    StartsAPass(f);
    var r := Advance(b, f.x, f.ledger, [], [], expiring, choose);
    HeldAscend(f);
    assert [] + [] + b.publishes == Held(f.replay);
    AdvanceAscends(b, f.x, f.ledger, [], [], expiring, choose, []);
    assert [] + Messages(TakenBy(r)[|Taken(f)|..]) == Messages(TakenBy(r)[|Taken(f)|..]);
    ConcludedInOrder(f, r, expiring, |Taken(f)|);
    ConcludedTaken(f, r, expiring);
  }

  lemma StartsAPass(f: Flow)
    requires FlowOk(f) && f.replay.Buffering? && f.replay.frame.NoFrame?
    ensures PassOk(f.replay.buffer, [], [])
  {
    DrainKept(f);
  }

  lemma ResumesAPass(f: Flow)
    requires FlowOk(f) && Suspended(f)
    ensures f.replay.frame.inHand.topic in f.replay.buffer.topics
    ensures PassOk(Discard(f.replay.buffer, f.replay.frame.inHand), f.replay.frame.unmatched, f.replay.frame.pending)
  {
    ResumedPass(f.replay);
  }

  lemma DeliveryEndsInOrder(f: Flow, choose: Publish -> Offer, n: nat)
    requires FlowOk(f) && Suspended(f) && InOrder(f, n)
    ensures Taken(f) <= Taken(Step(f, DeliveryEnds(choose)))
    ensures InOrder(Step(f, DeliveryEnds(choose)), n)
  {
    hide FlowOk, Advance, Conclude, PassOk, ReplayOk, Ascending, ProgressOk;
    var fr, b := f.replay.frame, f.replay.buffer;
    ResumesAPass(f);
    var left, l := Discard(b, fr.inHand), Hand(f.ledger, fr.inHand, fr.recipient);
    var r := Advance(left, f.x, l, fr.unmatched, fr.pending, fr.expiring, choose);
    var taken := Messages(Taken(f)[n..]);
    AdvanceAscends(left, f.x, l, fr.unmatched, fr.pending, fr.expiring, choose, taken);
    assert Messages(TakenBy(r)[n..]) == taken + Messages(TakenBy(r)[|l.handed|..]);
    ConcludedInOrder(f, r, fr.expiring, n);
    ConcludedTaken(f, r, fr.expiring);
  }

  lemma YoungestLast(s: seq<Publish>, p: Publish)
    requires Ascending(s) && forall i :: 0 <= i < |s| ==> s[i].serial < p.serial
    ensures Ascending(s + [p])
  {}

  lemma HoldingInOrder(f: Flow, p: Publish, n: nat)
    requires FlowOk(f) && Suspended(f) && InOrder(f, n) && p.serial == f.x.arrived
    ensures var g := f.(replay := HoldIn(f.replay, p), x := Admit(f.x, p),
                        ledger := f.ledger.(accepted := f.ledger.accepted + {p}));
      Taken(g) == Taken(f) && InOrder(g, n)
  {
    hide ExchangesOk, ReplayOk, LedgerOk, LimitOk, Ascending;
    var rest, queue := f.replay.frame.pending, f.replay.buffer.publishes;
    var s := Messages(Taken(f)[n..]) + rest + queue;
    TakenArrived(f);
    HeldAreOlder(f);
    forall i | 0 <= i < |s| ensures s[i].serial < p.serial {
      if i >= |Messages(Taken(f)[n..])| {
        assert s[i] in Held(f.replay);
      }
    }
    YoungestLast(s, p);
    assert s + [p] == Messages(Taken(f)[n..]) + rest + (queue + [p]);
  }

  lemma SameReplayInOrder(f: Flow, g: Flow, n: nat)
    requires InOrder(f, n) && g.replay == f.replay && g.ledger.handed == f.ledger.handed
    ensures Taken(g) == Taken(f) && InOrder(g, n)
  {}

  lemma ArriveInOrder(f: Flow, topic: string, qos: Qos, pid: Option<int>, offer: Offer, n: nat)
    requires FlowOk(f) && Suspended(f) && InOrder(f, n)
    ensures var g := Step(f, Arrive(topic, qos, pid, offer)); Taken(g) == Taken(f) && InOrder(g, n)
  {
    hide ExchangesOk, LedgerOk, LimitOk, AcceptedSeen, Advance, ReplayOk, InOrder, Taken, LiveHandOver, Admit, HoldIn;
    var p := Publish(f.x.arrived, topic, qos, if qos == AtMostOnce then None else pid);
    var g := Step(f, Arrive(topic, qos, pid, offer));
    if g.replay == f.replay && g.ledger.handed == f.ledger.handed {
      SameReplayInOrder(f, g, n);
    } else {
      HoldingInOrder(f, p, n);
    }
  }

  lemma StaysInOrder(f: Flow, e: Event, n: nat)
    requires FlowOk(f) && Suspended(f) && InOrder(f, n) && !e.DeliveryFails? && !e.SessionEnds?
    ensures Taken(f) <= Taken(Step(f, e)) && InOrder(Step(f, e), n)
  {
    hide ExchangesOk, LedgerOk, LimitOk, AcceptedSeen, InOrder, Taken, ReplayOk, Advance;
    if e.DeliveryEnds? {
      DeliveryEndsInOrder(f, e.choose, n);
    } else if e.Arrive? {
      ArriveInOrder(f, e.topic, e.qos, e.pid, e.offer, n);
    } else if e.Drain? {
      SameReplayInOrder(f, f, n);
    } else if IsReaderEvent(e) {
      ReaderEventStep(f, e);
      SameReplayInOrder(f, Step(f, e), n);
    }
  }

  /** A drain takes held messages in arrival order, whatever arrives, is released or is acknowledged
    at any of its suspensions. */
  lemma {:induction false} DrainTakesInArrivalOrder(sessionPresent: bool, limit: nat, before: seq<Event>, start: Event,
                                                    between: seq<Event>)
    requires IsDrain(sessionPresent, limit, before, start, between)
    ensures var f, g := Run(sessionPresent, limit, before), Run(sessionPresent, limit, before + [start] + between);
      Taken(f) <= Taken(g) && InOrder(g, |Taken(f)|)
    decreases |between|
  {
    hide FlowOk, Step, InOrder, Taken;
    var f := Run(sessionPresent, limit, before);
    if between == [] {
      assert before + [start] + between == before + [start];
      RunSnoc(sessionPresent, limit, before, start);
      DrainStarts(f, start.expiring, start.choose);
    } else {
      var k := |between| - 1;
      forall j | 0 <= j < k ensures between[..k][..j] == between[..j] {}
      DrainTakesInArrivalOrder(sessionPresent, limit, before, start, between[..k]);
      assert before + [start] + between == before + [start] + between[..k] + [between[k]];
      RunSnoc(sessionPresent, limit, before + [start] + between[..k], between[k]);
      StaysInOrder(Run(sessionPresent, limit, before + [start] + between[..k]), between[k], |Taken(f)|);
    }
  }

  // ----- What a step adds -----

  /** The step of a pass: the queues get what it does not defer. */
  ghost predicate PassShape(f: Flow, g: Flow) {
    && Taken(f) <= Taken(g) && f.ledger.handed <= g.ledger.handed
    && g.x.delivered == f.x.delivered + Filter(Taken(g)[|Taken(f)|..], AtOnce())
    && g.ledger.accepted == f.ledger.accepted && f.ledger.dropped <= g.ledger.dropped && g.x.arrived == f.x.arrived
  }

  /** Any other step: at most one delivery, live or released. */
  ghost predicate ReaderShape(f: Flow, g: Flow) {
    && Taken(g) == Taken(f)
    && (g.x.delivered == f.x.delivered
        || exists d :: g.x.delivered == f.x.delivered + [d] && (d.0 !in f.ledger.accepted || Deferred(d)))
    && f.ledger.accepted <= g.ledger.accepted && f.x.arrived <= g.x.arrived
    && forall p :: p in g.ledger.accepted && p !in f.ledger.accepted ==> p.serial >= f.x.arrived
  }

  ghost predicate Shape(f: Flow, g: Flow) {
    g.x.broken == f.x.broken && (PassShape(f, g) || ReaderShape(f, g))
  }

  lemma ReaderStepShape(f: Flow, g: Flow)
    requires ReaderStep(f.x, g.x, f.ledger.accepted) && g.replay == f.replay && g.ledger == f.ledger
    requires g.x.arrived >= f.x.arrived
    ensures Shape(f, g)
  {
    if g.x.delivered != f.x.delivered {
      var d := g.x.delivered[|f.x.delivered|];
      assert g.x.delivered == f.x.delivered + [d];
    }
  }

  lemma ArriveShape(f: Flow, topic: string, qos: Qos, pid: Option<int>, offer: Offer)
    requires FlowOk(f) && OrderOk(f)
    ensures Shape(f, Step(f, Arrive(topic, qos, pid, offer)))
  {
    hide ExchangesOk, LedgerOk, LimitOk, ReplayOk, OrderOk, Advance, ReaderStep, LiveHandOver, Tracked;
    var e := Arrive(topic, qos, pid, offer);
    var g := Step(f, e);
    var p := Publish(f.x.arrived, topic, qos, if qos == AtMostOnce then None else pid);
    if g.ledger == f.ledger && g.replay == f.replay && g.x.arrived >= f.x.arrived && g.x.delivered == f.x.delivered
       && g.x.broken == f.x.broken {
    } else if f.x.reader == Ready && PidOk(p) && JudgeIn(f.replay, f.limit, p, offer.recipient) == Pass {
      LiveIsReaderStep(f.x, p, offer.recipient, offer.full, f.ledger.accepted);
      LiveArrives(f.x, p, offer.recipient, offer.full);
      ReaderStepShape(f, g);
    }
  }

  lemma LiveArrives(x: Exchanges, p: Publish, r: Recipient, full: bool)
    requires PidOk(p)
    ensures LiveHandOver(Admit(x, p), p, r, full).arrived >= x.arrived
  {}

  lemma PassIsPass(f: Flow, e: Event)
    requires FlowOk(f)
    requires (e.Drain? && f.replay.Buffering? && f.replay.frame.NoFrame?) || (e.DeliveryEnds? && Suspended(f))
    ensures PassShape(f, Step(f, e)) && Step(f, e).x.reader == f.x.reader && Step(f, e).x.broken == f.x.broken
  {
    hide ExchangesOk, LedgerOk, LimitOk, ReplayOk, AcceptedSeen, Advance, Conclude, PassOk, Filter, ProgressOk;
    if e.Drain? {
      StartsAPass(f);
      var r := Advance(f.replay.buffer, f.x, f.ledger, [], [], e.expiring, e.choose);
      AdvanceExtends(f.replay.buffer, f.x, f.ledger, [], [], e.expiring, e.choose);
      AdvanceRecords(f.replay.buffer, f.x, f.ledger, [], [], e.expiring, e.choose);
      DrainKept(f);
      AdvanceKeeps(f.replay.buffer, f.x, f.ledger, [], [], e.expiring, e.choose);
      ConcludedTaken(f, r, e.expiring);
      ConcludedArrived(f, r, e.expiring);
    } else {
      ResumesAPass(f);
      var fr := f.replay.frame;
      var b, l := Discard(f.replay.buffer, fr.inHand), Hand(f.ledger, fr.inHand, fr.recipient);
      var r := Advance(b, f.x, l, fr.unmatched, fr.pending, fr.expiring, e.choose);
      AdvanceExtends(b, f.x, l, fr.unmatched, fr.pending, fr.expiring, e.choose);
      AdvanceRecords(b, f.x, l, fr.unmatched, fr.pending, fr.expiring, e.choose);
      ResumedKept(f);
      AdvanceKeeps(b, f.x, l, fr.unmatched, fr.pending, fr.expiring, e.choose);
      ConcludedTaken(f, r, fr.expiring);
      ConcludedArrived(f, r, fr.expiring);
    }
  }

  lemma PassEventShape(f: Flow, e: Event)
    requires FlowOk(f) && (e.Drain? || e.DeliveryEnds?)
    ensures Shape(f, Step(f, e))
  {
    hide ExchangesOk, LedgerOk, LimitOk, ReplayOk, AcceptedSeen, Advance, Conclude, PassOk, Filter, Taken, PassShape;
    if (e.Drain? && f.replay.Buffering? && f.replay.frame.NoFrame?) || (e.DeliveryEnds? && Suspended(f)) {
      PassIsPass(f, e);
    } else {
      LeftoversDoNotMatter(f, SendEnded(f.left));
    }
  }

  lemma ConcludedArrived(f: Flow, r: Progress, expiring: bool)
    ensures Conclude(f, r, expiring).x.arrived == r.x.arrived
  {}

  lemma ReaderEventShape(f: Flow, e: Event)
    requires FlowOk(f) && OrderOk(f) && IsReaderEvent(e)
    ensures Shape(f, Step(f, e))
  {
    hide ExchangesOk, OrderOk, ReaderStep, Step, ReplayOk, ReaderResult, Shape;
    OrderParts(f);
    ReaderEventStep(f, e);
    ReaderResultIsReaderStep(f.x, e, Elements(Resting(f.replay)), InHand(f.replay), f.ledger.accepted);
    ReaderResultArrived(f.x, e);
    ReaderStepShape(f, Step(f, e));
  }

  lemma ReaderResultArrived(x: Exchanges, e: Event)
    requires IsReaderEvent(e)
    ensures ReaderResult(x, e).arrived == x.arrived
  {}

  lemma StepShape(f: Flow, e: Event)
    requires FlowOk(f) && OrderOk(f) && !e.DeliveryFails? && !e.SessionEnds?
    ensures Shape(f, Step(f, e))
  {
    hide FlowOk, OrderOk, Step, Shape;
    if e.Arrive? {
      ArriveShape(f, e.topic, e.qos, e.pid, e.offer);
    } else if IsReaderEvent(e) {
      ReaderEventShape(f, e);
    } else {
      PassEventShape(f, e);
    }
  }

  // ----- What the queues get from a drain -----

  lemma FirstIsOldest(s: HandOvers, d: (Publish, Recipient))
    requires s != [] && Ascending(Messages(s)) && d in s[1..]
    ensures s[0].0.serial < d.0.serial
  {
    var k :| 0 <= k < |s[1..]| && s[1..][k] == d;
    assert Messages(s)[0].serial < Messages(s)[k + 1].serial;
  }

  lemma RestAscends(s: HandOvers)
    requires s != [] && Ascending(Messages(s))
    ensures Ascending(Messages(s[1..]))
  {
    assert forall i :: 0 <= i < |s[1..]| ==> Messages(s[1..])[i] == Messages(s)[i + 1];
  }

  lemma OlderInFront(d: (Publish, Recipient), rest: HandOvers)
    requires Ascending(Messages(rest)) && forall e :: e in rest ==> d.0.serial < e.0.serial
    ensures Ascending(Messages([d] + rest))
  {
    assert forall i :: 0 <= i < |rest| ==> rest[i] in rest;
  }

  lemma {:induction false} FilterAscends(s: HandOvers, p: ((Publish, Recipient)) -> bool)
    requires Ascending(Messages(s))
    ensures Ascending(Messages(Filter(s, p)))
  {
    hide Ascending;
    if s == [] {
      assert Filter(s, p) == s;
    } else {
      RestAscends(s);
      FilterAscends(s[1..], p);
      var rest := Filter(s[1..], p);
      forall e | e in rest ensures s[0].0.serial < e.0.serial {
        FilterKeeps(s[1..], p, e);
        FirstIsOldest(s, e);
      }
      OlderInFront(s[0], rest);
      assert [] + rest == rest;
    }
  }

  /** From one state to a later one: the deliveries grow, and what is accepted meanwhile is new. */
  ghost predicate Later(f: Flow, g: Flow) {
    && f.x.delivered <= g.x.delivered && g.x.broken == f.x.broken
    && f.ledger.accepted <= g.ledger.accepted && f.x.arrived <= g.x.arrived
    && forall p :: p in g.ledger.accepted && p !in f.ledger.accepted ==> p.serial >= f.x.arrived
  }

  lemma ShapeIsLater(f: Flow, g: Flow, h: Flow)
    requires Later(f, g) && Shape(g, h)
    ensures Later(f, h)
  {}

  /** Taken hand-overs are accepted messages, each once. */
  lemma TakenOnce(f: Flow)
    requires FlowOk(f)
    ensures HandedOnce(Taken(f))
    ensures forall i :: 0 <= i < |Taken(f)| ==> Taken(f)[i].0 in f.ledger.accepted && Taken(f)[i].0 !in f.ledger.dropped
  {
    hide ExchangesOk, ReplayOk;
    TakenArrived(f);
    if Suspended(f) {
      assert f.replay.frame.inHand in Held(f.replay);
      forall i | 0 <= i < |f.ledger.handed| ensures f.ledger.handed[i].0 != f.replay.frame.inHand {
        assert f.ledger.handed[i].0 in HandedSet(f.ledger.handed);
      }
    }
    forall i | 0 <= i < |Taken(f)| ensures Taken(f)[i].0 !in f.ledger.dropped {
      if i < |f.ledger.handed| { assert f.ledger.handed[i].0 in HandedSet(f.ledger.handed); }
    }
  }

  lemma {:induction false} DeliveredCounts(delivered: HandOvers, d: (Publish, Recipient))
    requires d in delivered
    ensures Times(delivered, d.0) >= 1
  {
    var n := |delivered| - 1;
    if delivered[n] != d {
      assert d in delivered[..n];
      DeliveredCounts(delivered[..n], d);
    }
  }

  /** What a step takes was resting in the buffer before. */
  lemma NewlyTakenRested(f: Flow, g: Flow, k: nat)
    requires FlowOk(f) && FlowOk(g) && PassShape(f, g) && |Taken(f)| <= k < |Taken(g)|
    ensures Taken(g)[k].0 in Elements(Resting(f.replay)) && Taken(g)[k] !in Taken(f)
  {
    hide FlowOk, Taken, Filter;
    var d := Taken(g)[k];
    TakenOnce(g);
    forall i | 0 <= i < |Taken(f)| ensures Taken(f)[i].0 != d.0 {
      assert Taken(g)[i] == Taken(f)[i];
    }
    assert d.0 in f.ledger.accepted && d.0 !in f.ledger.dropped;
    UntakenRests(f, d.0);
  }

  lemma UntakenRests(f: Flow, p: Publish)
    requires FlowOk(f) && p in f.ledger.accepted && p !in f.ledger.dropped
    requires forall i :: 0 <= i < |Taken(f)| ==> Taken(f)[i].0 != p
    ensures p in Elements(Resting(f.replay))
  {
    hide ExchangesOk, ReplayOk, LimitOk, AcceptedSeen;
    assert p !in HandedSet(f.ledger.handed) by {
      assert forall i :: 0 <= i < |f.ledger.handed| ==> f.ledger.handed[i] == Taken(f)[i];
    }
    HeldIsRestingOrInHand(f.replay, p);
    if Suspended(f) { assert Taken(f)[|f.ledger.handed|].0 == f.replay.frame.inHand; }
  }

  /** ... and so was not delivered. */
  lemma NewlyTakenWasUndelivered(f: Flow, g: Flow, k: nat)
    requires FlowOk(f) && FlowOk(g) && OrderOk(f) && f.x.broken == multiset{}
    requires PassShape(f, g) && |Taken(f)| <= k < |Taken(g)|
    ensures Taken(g)[k] !in f.x.delivered
  {
    hide ReplayOk, LimitOk, AcceptedSeen, LedgerOk, Filter, PassShape, Taken;
    var d := Taken(g)[k];
    NewlyTakenRested(f, g, k);
    if d in f.x.delivered {
      if Deferred(d) {
        assert Budget(f.x.delivered, f.x.inflight, f.x.reader, f.x.broken, Elements(Resting(f.replay)));
        DeliveredCounts(f.x.delivered, d);
      } else {
        TakenOnce(g);
        assert d.0 in f.ledger.accepted by { PassAccepts(f, g); }
        FilterKeeps(f.x.delivered, Direct(f.ledger.accepted), d);
        FilterKeeps(Taken(f), AtOnce(), d);
      }
    }
  }

  lemma PassAccepts(f: Flow, g: Flow)
    requires PassShape(f, g)
    ensures g.ledger.accepted == f.ledger.accepted
  {}

  /** Of two messages that a drain took and that entered queues, only one that waited for its release
    can come behind a younger one. */
  ghost predicate OvertakenOnlyWhileAwaitingRelease(delivered: HandOvers, taken: HandOvers) {
    forall i, j :: 0 <= i < j < |delivered| && delivered[i] in taken && delivered[j] in taken ==>
      delivered[i].0.serial <= delivered[j].0.serial || Deferred(delivered[j])
  }

  lemma AscendingTaken(f: Flow, n: nat)
    requires InOrder(f, n)
    ensures n <= |Taken(f)| && Ascending(Messages(Taken(f)[n..]))
  {
    if Suspended(f) {
      var t, rest, queue := Messages(Taken(f)[n..]), f.replay.frame.pending, f.replay.buffer.publishes;
      assert forall i :: 0 <= i < |t| ==> (t + rest + queue)[i] == t[i];
    }
  }

  lemma OlderThanLater(taken: HandOvers, n: nat, k: nat, d: (Publish, Recipient), e: (Publish, Recipient))
    requires n <= k <= |taken| && Ascending(Messages(taken[n..])) && d in taken[n..k] && e in taken[k..]
    ensures d.0.serial < e.0.serial
  {
    var i :| 0 <= i < |taken[n..k]| && taken[n..k][i] == d;
    var j :| 0 <= j < |taken[k..]| && taken[k..][j] == e;
    var s := Messages(taken[n..]);
    assert s[i] == d.0 && s[k - n + j] == e.0;
  }

  /** What a pass adds is younger than everything of its drain that is in the queues already. */
  lemma PassAddsYounger(taken: HandOvers, n: nat, k: nat, old_: HandOvers, i: nat, j: nat)
    requires n <= k <= |taken| && Ascending(Messages(taken[n..])) && forall d :: d in taken[k..] ==> d !in old_
    requires var now := old_ + Filter(taken[k..], AtOnce());
      i < j < |now| && |old_| <= j && now[i] in taken[n..]
    ensures var now := old_ + Filter(taken[k..], AtOnce()); now[i].0.serial < now[j].0.serial
  {
    hide Filter, Ascending;
    var news := taken[k..];
    var more := Filter(news, AtOnce());
    var now := old_ + more;
    assert taken[n..] == taken[n..k] + news;
    assert now[j] == more[j - |old_|];
    if i < |old_| {
      assert now[i] == old_[i];
      OlderThanLater(taken, n, k, now[i], now[j]);
    } else {
      AscendingTail(taken, n, k);
      FilterAscends(news, AtOnce());
      AscendingAt(more, i - |old_|, j - |old_|);
    }
  }

  lemma AscendingTail(taken: HandOvers, n: nat, k: nat)
    requires n <= k <= |taken| && Ascending(Messages(taken[n..]))
    ensures Ascending(Messages(taken[k..]))
  {
    assert forall l :: 0 <= l < |taken[k..]| ==> Messages(taken[k..])[l] == Messages(taken[n..])[k - n + l];
  }

  lemma AscendingAt(s: HandOvers, i: nat, j: nat)
    requires Ascending(Messages(s)) && i < j < |s|
    ensures s[i].0.serial < s[j].0.serial
  {
    assert Messages(s)[i].serial < Messages(s)[j].serial;
  }

  lemma PassOvertakesNothing(f: Flow, g: Flow, n: nat)
    requires FlowOk(f) && FlowOk(g) && OrderOk(f) && f.x.broken == multiset{} && PassShape(f, g) && n <= |Taken(f)|
    requires Ascending(Messages(Taken(g)[n..]))
    requires OvertakenOnlyWhileAwaitingRelease(f.x.delivered, Taken(f)[n..])
    ensures OvertakenOnlyWhileAwaitingRelease(g.x.delivered, Taken(g)[n..])
  {
    hide FlowOk, OrderOk, Filter, Taken, Ascending;
    var old_, now, k := f.x.delivered, g.x.delivered, |Taken(f)|;
    var news := Taken(g)[k..];
    assert Taken(g)[n..] == Taken(f)[n..] + news;
    forall d | d in news ensures d !in old_ {
      var j :| 0 <= j < |news| && news[j] == d;
      NewlyTakenWasUndelivered(f, g, k + j);
    }
    forall i, j | 0 <= i < j < |now| && now[i] in Taken(g)[n..] && now[j] in Taken(g)[n..]
      ensures j < |old_| || now[i].0.serial < now[j].0.serial
      ensures j < |old_| ==> now[i] == old_[i] && now[j] == old_[j]
    {
      if |old_| <= j { PassAddsYounger(Taken(g), n, k, old_, i, j); }
    }
  }

  lemma OneMoreEntered(delivered: HandOvers, d: (Publish, Recipient), taken: HandOvers)
    requires OvertakenOnlyWhileAwaitingRelease(delivered, taken) && (Deferred(d) || d !in taken)
    ensures OvertakenOnlyWhileAwaitingRelease(delivered + [d], taken)
  {}

  lemma ReaderOvertakesNothing(f: Flow, g: Flow, n: nat)
    requires FlowOk(f) && ReaderShape(f, g) && n <= |Taken(f)|
    requires OvertakenOnlyWhileAwaitingRelease(f.x.delivered, Taken(f)[n..])
    ensures OvertakenOnlyWhileAwaitingRelease(g.x.delivered, Taken(g)[n..])
  {
    hide FlowOk, Taken, OvertakenOnlyWhileAwaitingRelease;
    TakenArrived(f);
    if g.x.delivered != f.x.delivered {
      var d :| g.x.delivered == f.x.delivered + [d] && (d.0 !in f.ledger.accepted || Deferred(d));
      if !Deferred(d) { assert forall i :: n <= i < |Taken(f)| ==> Taken(f)[i] != d; }
      OneMoreEntered(f.x.delivered, d, Taken(f)[n..]);
    }
  }

  /** What a drain has done to the flow so far. */
  lemma {:induction false} DrainSoFar(sessionPresent: bool, limit: nat, before: seq<Event>, start: Event,
                                      between: seq<Event>)
    requires IsDrain(sessionPresent, limit, before, start, between)
    requires Run(sessionPresent, limit, before).x.broken == multiset{}
    ensures var f, g := Run(sessionPresent, limit, before), Run(sessionPresent, limit, before + [start] + between);
      && Later(f, g) && Taken(f) <= Taken(g) && InOrder(g, |Taken(f)|)
      && OvertakenOnlyWhileAwaitingRelease(g.x.delivered, Taken(g)[|Taken(f)|..])
    decreases |between|
  {
    hide FlowOk, Step, InOrder, Taken, Shape, OrderOk, OvertakenOnlyWhileAwaitingRelease;
    var f, g := Run(sessionPresent, limit, before), Run(sessionPresent, limit, before + [start] + between);
    DrainTakesInArrivalOrder(sessionPresent, limit, before, start, between);
    AscendingTaken(g, |Taken(f)|);
    if between == [] {
      assert before + [start] + between == before + [start];
      RunSnoc(sessionPresent, limit, before, start);
      ReachableFlowsAreOrdered(sessionPresent, limit, before);
      StepShape(f, start);
      ShapeIsLater(f, f, g);
      NothingTakenYet(f);
      ShapeOvertakesNothing(f, g, |Taken(f)|);
    } else {
      var k := |between| - 1;
      var events := before + [start] + between[..k];
      forall j | 0 <= j < k ensures between[..k][..j] == between[..j] {}
      DrainSoFar(sessionPresent, limit, before, start, between[..k]);
      assert before + [start] + between == events + [between[k]];
      RunSnoc(sessionPresent, limit, events, between[k]);
      ReachableFlowsAreOrdered(sessionPresent, limit, events);
      var h := Run(sessionPresent, limit, events);
      StepShape(h, between[k]);
      ShapeTakes(h, g);
      ShapeIsLater(f, h, g);
      ShapeOvertakesNothing(h, g, |Taken(f)|);
    }
  }

  lemma ShapeTakes(f: Flow, g: Flow)
    requires Shape(f, g)
    ensures Taken(f) <= Taken(g)
  {}

  lemma NothingTakenYet(f: Flow)
    ensures OvertakenOnlyWhileAwaitingRelease(f.x.delivered, Taken(f)[|Taken(f)|..])
  {}

  lemma ShapeOvertakesNothing(f: Flow, g: Flow, n: nat)
    requires FlowOk(f) && FlowOk(g) && OrderOk(f) && f.x.broken == multiset{} && Shape(f, g)
    requires n <= |Taken(f)| <= |Taken(g)|
    requires Ascending(Messages(Taken(g)[n..]))
    requires OvertakenOnlyWhileAwaitingRelease(f.x.delivered, Taken(f)[n..])
    ensures OvertakenOnlyWhileAwaitingRelease(g.x.delivered, Taken(g)[n..])
  {
    hide FlowOk, OrderOk, Taken, PassShape, ReaderShape, OvertakenOnlyWhileAwaitingRelease, Messages, Ascending;
    if PassShape(f, g) {
      PassOvertakesNothing(f, g, n);
    } else {
      ReaderOvertakesNothing(f, g, n);
    }
  }

  // ----- Main results -----

  /** Without interruptions before it: what a drain's passes put into the queues themselves is exactly what
    it took and did not defer, in arrival order, whatever arrived, was released or was acknowledged
    at its suspensions. A message that entered its queue behind a younger one of the same drain is one
    that had to wait for its PUBREL. */
  lemma DrainDeliversInArrivalOrder(sessionPresent: bool, limit: nat, before: seq<Event>, start: Event, between: seq<Event>)
    requires IsDrain(sessionPresent, limit, before, start, between)
    requires Run(sessionPresent, limit, before).x.broken == multiset{}
    ensures var f, g := Run(sessionPresent, limit, before), Run(sessionPresent, limit, before + [start] + between);
      && f.x.delivered <= g.x.delivered && Taken(f) <= Taken(g)
      && var taken, entered := Taken(g)[|Taken(f)|..], g.x.delivered[|f.x.delivered|..];
         && Filter(entered, Direct(g.ledger.accepted)) == Filter(taken, AtOnce())
         && Ascending(Messages(taken)) && Ascending(Messages(Filter(taken, AtOnce())))
         && OvertakenOnlyWhileAwaitingRelease(g.x.delivered, taken)
  {
    hide FlowOk, Step, Taken, IsDrain, InOrder, OvertakenOnlyWhileAwaitingRelease, Filter;
    var f, g := Run(sessionPresent, limit, before), Run(sessionPresent, limit, before + [start] + between);
    DrainSoFar(sessionPresent, limit, before, start, between);
    AscendingTaken(g, |Taken(f)|);
    ReachableFlowsAreOrdered(sessionPresent, limit, before);
    ReachableFlowsAreOrdered(sessionPresent, limit, before + [start] + between);
    FilterAscends(Taken(g)[|Taken(f)|..], AtOnce());
    DirectPart(f, g);
  }

  lemma DirectPart(f: Flow, g: Flow)
    requires FlowOk(f) && OrderOk(f) && OrderOk(g) && Later(f, g) && f.x.broken == multiset{} && Taken(f) <= Taken(g)
    ensures Filter(g.x.delivered[|f.x.delivered|..], Direct(g.ledger.accepted)) == Filter(Taken(g)[|Taken(f)|..], AtOnce())
  {
    hide ReplayOk, LedgerOk, LimitOk, Filter, Taken, TakenTracked, ReaderFits;
    var n, k := |f.x.delivered|, |Taken(f)|;
    assert g.x.delivered == f.x.delivered + g.x.delivered[n..] && Taken(g) == Taken(f) + Taken(g)[k..];
    FilterConcat(f.x.delivered, g.x.delivered[n..], Direct(g.ledger.accepted));
    FilterConcat(Taken(f), Taken(g)[k..], AtOnce());
    forall d | d in f.x.delivered ensures Direct(f.ledger.accepted)(d) == Direct(g.ledger.accepted)(d) {
      var i :| 0 <= i < n && f.x.delivered[i] == d;
      assert Seen(f.x.arrived, f.x.delivered[i].0);
    }
    FilterCongruence(f.x.delivered, Direct(f.ledger.accepted), Direct(g.ledger.accepted));
    var a, b := Filter(Taken(f), AtOnce()), Filter(g.x.delivered[n..], Direct(g.ledger.accepted));
    assert a + b == a + Filter(Taken(g)[k..], AtOnce());
    assert b == (a + b)[|a|..];
  }

  // ----- Releases -----

  function ToQueue(queue: nat): ((Publish, Recipient)) -> bool {
    (d: (Publish, Recipient)) => d.1.Subscription? && d.1.queue == queue
  }

  function Among(taken: HandOvers): ((Publish, Recipient)) -> bool { (d: (Publish, Recipient)) => d in taken }

  predicate AllRecorded(x: Exchanges, ds: HandOvers) {
    forall i :: 0 <= i < |ds| ==> Deferred(ds[i]) && !ds[i].1.Nobody? && Recorded(x.inflight, ds[i])
  }

  /** The broker releases the messages in order, and each delivery finds room. */
  function Releases(ds: HandOvers): seq<Event>
    requires forall i :: 0 <= i < |ds| ==> Deferred(ds[i])
  {
    if ds == [] then []
    else
      var last := ds[|ds| - 1];
      assert Deferred(last);
      Releases(ds[..|ds| - 1]) + [Pubrel(last.0.pid.value), SendEnds(false)]
  }

  lemma OneRelease(f: Flow, d: (Publish, Recipient))
    requires FlowOk(f) && f.x.reader == Ready && Deferred(d) && !d.1.Nobody? && Recorded(f.x.inflight, d)
    ensures var pid := d.0.pid.value;
      var released := Step(f, Pubrel(pid));
      && FlowOk(released)
      && var g := Step(released, SendEnds(false));
         g.x.delivered == f.x.delivered + [d] && g.x.inflight == f.x.inflight - {pid} && g.x.reader == Ready
         && g.x.broken == f.x.broken && g.replay == f.replay && g.ledger == f.ledger
  {
    hide ExchangesOk, ReplayOk, LedgerOk, LimitOk, AcceptedSeen, Step;
    var pid := d.0.pid.value;
    StepKeeps(f, Pubrel(pid));
    ReaderEventStep(f, Pubrel(pid));
    ReaderEventStep(Step(f, Pubrel(pid)), SendEnds(false));
  }

  /** The flights that are left after releases. */
  function Unreleased(inflight: map<int, InFlight>, ds: HandOvers): map<int, InFlight>
    requires forall i :: 0 <= i < |ds| ==> Deferred(ds[i])
  {
    if ds == [] then inflight
    else
      var last := ds[|ds| - 1];
      assert Deferred(last);
      Unreleased(inflight, ds[..|ds| - 1]) - {last.0.pid.value}
  }

  lemma {:induction false} OthersStayRecorded(inflight: map<int, InFlight>, ds: HandOvers, d: (Publish, Recipient))
    requires Deferred(d) && Recorded(inflight, d)
    requires forall i :: 0 <= i < |ds| ==> Deferred(ds[i]) && Recorded(inflight, ds[i]) && ds[i].0 != d.0
    ensures Recorded(Unreleased(inflight, ds), d)
  {
    if ds != [] {
      var n := |ds| - 1;
      OthersStayRecorded(inflight, ds[..n], d);
      assert Recorded(inflight, ds[n]);
    }
  }

  lemma {:induction false} ReleasesDeliver(sessionPresent: bool, limit: nat, events: seq<Event>, ds: HandOvers)
    requires var f := Run(sessionPresent, limit, events); f.x.reader == Ready && AllRecorded(f.x, ds) && HandedOnce(ds)
    ensures var f, g := Run(sessionPresent, limit, events), Run(sessionPresent, limit, events + Releases(ds));
      && g.x.reader == Ready && g.x.delivered == f.x.delivered + ds && g.x.broken == f.x.broken
      && g.x.inflight == Unreleased(f.x.inflight, ds)
  {
    hide FlowOk, Step, Run;
    if ds == [] {
      assert events + Releases(ds) == events;
    } else {
      var n := |ds| - 1;
      var d, pid := ds[n], ds[n].0.pid.value;
      var earlier := events + Releases(ds[..n]);
      ReleasesDeliver(sessionPresent, limit, events, ds[..n]);
      var f, g := Run(sessionPresent, limit, events), Run(sessionPresent, limit, earlier);
      OthersStayRecorded(f.x.inflight, ds[..n], d);
      assert events + Releases(ds) == earlier + [Pubrel(pid)] + [SendEnds(false)];
      RunSnoc(sessionPresent, limit, earlier, Pubrel(pid));
      RunSnoc(sessionPresent, limit, earlier + [Pubrel(pid)], SendEnds(false));
      OneRelease(g, d);
      assert ds == ds[..n] + [d];
    }
  }

  // ----- Flights stay recorded until their release -----

  lemma ReaderResultKeepsFlight(x: Exchanges, e: Event, d: (Publish, Recipient), waiting: set<Publish>,
                                inHand: Option<Publish>)
    requires ExchangesOk(x, waiting, inHand) && IsReaderEvent(e) && !e.Pubrel?
    requires Deferred(d) && d.0 !in x.broken && Recorded(x.inflight, d)
    ensures Recorded(ReaderResult(x, e).inflight, d)
  {
    hide FlightsOk, AllSeen, PubrecsOk, PubrecSent, OpenTracked, DistinctIds, Budget;
    if e.Ack? { RecordedWaitsForNoAck(x, d, waiting, inHand); }
  }

  lemma ArriveKeepsFlight(f: Flow, topic: string, qos: Qos, pid: Option<int>, offer: Offer, d: (Publish, Recipient))
    requires FlowOk(f) && Deferred(d) && Recorded(f.x.inflight, d)
    ensures Recorded(Step(f, Arrive(topic, qos, pid, offer)).x.inflight, d)
  {
    hide ExchangesOk, ReplayOk, LedgerOk, LimitOk, AcceptedSeen, Advance, HoldIn, JudgeIn;
  }

  lemma PassKeepsFlight(f: Flow, b: Buffer, l: Ledger, unmatched: seq<Publish>, pending: seq<Publish>,
                        expiring: bool, choose: Publish -> Offer, d: (Publish, Recipient))
    requires PassKept(b, f.x, l, unmatched, pending) && f.x.broken == multiset{}
    requires Deferred(d) && Recorded(f.x.inflight, d)
    ensures Recorded(Advance(b, f.x, l, unmatched, pending, expiring, choose).x.inflight, d)
  {
    hide Advance;
    AdvanceRecords(b, f.x, l, unmatched, pending, expiring, choose);
  }

  lemma StepKeepsFlight(f: Flow, e: Event, d: (Publish, Recipient))
    requires FlowOk(f) && f.x.broken == multiset{} && Deferred(d) && Recorded(f.x.inflight, d)
    requires !e.Pubrel? && !e.DeliveryFails? && !e.SessionEnds?
    ensures Recorded(Step(f, e).x.inflight, d)
  {
    hide ExchangesOk, ReplayOk, LedgerOk, LimitOk, AcceptedSeen, Advance, Conclude, Recorded, ReaderResult, PassKept,
         PassOk;
    if e.Arrive? {
      ArriveKeepsFlight(f, e.topic, e.qos, e.pid, e.offer, d);
    } else if IsReaderEvent(e) {
      ReaderEventStep(f, e);
      ReaderResultKeepsFlight(f.x, e, d, Elements(Resting(f.replay)), InHand(f.replay));
    } else if e.Drain? && f.replay.Buffering? && f.replay.frame.NoFrame? {
      DrainKept(f);
      StartsAPass(f);
      PassKeepsFlight(f, f.replay.buffer, f.ledger, [], [], e.expiring, e.choose, d);
      ConcludedTaken(f, Advance(f.replay.buffer, f.x, f.ledger, [], [], e.expiring, e.choose), e.expiring);
    } else if e.DeliveryEnds? && Suspended(f) {
      ResumedKept(f);
      ResumesAPass(f);
      var fr := f.replay.frame;
      var b, l := Discard(f.replay.buffer, fr.inHand), Hand(f.ledger, fr.inHand, fr.recipient);
      PassKeepsFlight(f, b, l, fr.unmatched, fr.pending, fr.expiring, e.choose, d);
      ConcludedTaken(f, Advance(b, f.x, l, fr.unmatched, fr.pending, fr.expiring, e.choose), fr.expiring);
    }
  }

  /** A deferred message that a step takes is recorded by it. */
  lemma NewlyTakenIsRecorded(f: Flow, e: Event, k: nat)
    requires FlowOk(f) && (e.Drain? || e.DeliveryEnds?) && |Taken(f)| <= k < |Taken(Step(f, e))| && Deferred(Taken(Step(f, e))[k])
    ensures Recorded(Step(f, e).x.inflight, Taken(Step(f, e))[k])
  {
    hide ExchangesOk, ReplayOk, LedgerOk, LimitOk, AcceptedSeen, Advance, Conclude, PassOk, Taken;
    if e.Drain? && f.replay.Buffering? && f.replay.frame.NoFrame? {
      StartsAPass(f);
      TakenBetweenPasses(f);
      var r := Advance(f.replay.buffer, f.x, f.ledger, [], [], e.expiring, e.choose);
      AdvanceRecords(f.replay.buffer, f.x, f.ledger, [], [], e.expiring, e.choose);
      ConcludedTaken(f, r, e.expiring);
    } else if e.DeliveryEnds? && Suspended(f) {
      ResumesAPass(f);
      TakenInPass(f);
      var fr := f.replay.frame;
      var b, l := Discard(f.replay.buffer, fr.inHand), Hand(f.ledger, fr.inHand, fr.recipient);
      AdvanceRecords(b, f.x, l, fr.unmatched, fr.pending, fr.expiring, e.choose);
      ConcludedTaken(f, Advance(b, f.x, l, fr.unmatched, fr.pending, fr.expiring, e.choose), fr.expiring);
    } else {
      LeftoversDoNotMatter(f, SendEnded(f.left));
    }
  }

  lemma TakenBetweenPasses(f: Flow)
    requires !Suspended(f)
    ensures Taken(f) == f.ledger.handed
  {}

  lemma TakenInPass(f: Flow)
    requires Suspended(f)
    ensures Taken(f) == Hand(f.ledger, f.replay.frame.inHand, f.replay.frame.recipient).handed
  {}

  predicate NoReleases(events: seq<Event>) { forall i :: 0 <= i < |events| ==> !events[i].Pubrel? }

  ghost predicate FlightsRecorded(x: Exchanges, taken: HandOvers) {
    forall i :: 0 <= i < |taken| && Deferred(taken[i]) ==> Recorded(x.inflight, taken[i])
  }

  lemma StepKeepsFlights(f: Flow, e: Event, n: nat)
    requires FlowOk(f) && f.x.broken == multiset{} && n <= |Taken(f)| && FlightsRecorded(f.x, Taken(f)[n..])
    requires !e.Pubrel? && !e.DeliveryFails? && !e.SessionEnds? && Taken(f) <= Taken(Step(f, e))
    requires e.Drain? || e.DeliveryEnds? || Taken(Step(f, e)) == Taken(f)
    ensures FlightsRecorded(Step(f, e).x, Taken(Step(f, e))[n..])
  {
    hide FlowOk, Step, Taken, Recorded;
    FlowsAreReplays();
    var g := Step(f, e);
    var t := Taken(g)[n..];
    forall i | 0 <= i < |t| && Deferred(t[i]) ensures Recorded(g.x.inflight, t[i]) {
      if n + i < |Taken(f)| {
        assert t[i] == Taken(f)[n..][i];
        StepKeepsFlight(f, e, t[i]);
      } else {
        NewlyTakenIsRecorded(f, e, n + i);
      }
    }
  }

  lemma OnlyPassesTake(f: Flow, e: Event)
    requires FlowOk(f) && !e.Drain? && !e.DeliveryEnds? && !e.DeliveryFails? && !e.SessionEnds?
    ensures Taken(Step(f, e)) == Taken(f)
  {
    hide ExchangesOk, ReplayOk, LedgerOk, LimitOk, AcceptedSeen, Advance, LiveHandOver, Admit, ReaderResult;
    if IsReaderEvent(e) { ReaderEventStep(f, e); }
  }

  lemma {:induction false} DrainRecordsFlights(sessionPresent: bool, limit: nat, before: seq<Event>, start: Event,
                                               between: seq<Event>)
    requires IsDrain(sessionPresent, limit, before, start, between) && NoReleases(between)
    requires Run(sessionPresent, limit, before).x.broken == multiset{}
    ensures var f, g := Run(sessionPresent, limit, before), Run(sessionPresent, limit, before + [start] + between);
      Taken(f) <= Taken(g) && FlightsRecorded(g.x, Taken(g)[|Taken(f)|..])
    decreases |between|
  {
    hide FlowOk, Step, Taken, FlightsRecorded, InOrder, OvertakenOnlyWhileAwaitingRelease;
    var f, g := Run(sessionPresent, limit, before), Run(sessionPresent, limit, before + [start] + between);
    DrainTakesInArrivalOrder(sessionPresent, limit, before, start, between);
    if between == [] {
      assert before + [start] + between == before + [start];
      RunSnoc(sessionPresent, limit, before, start);
      NoFlightsYet(f);
      StepKeepsFlights(f, start, |Taken(f)|);
    } else {
      var k := |between| - 1;
      var events := before + [start] + between[..k];
      forall j | 0 <= j < k ensures between[..k][..j] == between[..j] {}
      DrainRecordsFlights(sessionPresent, limit, before, start, between[..k]);
      DrainSoFar(sessionPresent, limit, before, start, between[..k]);
      assert before + [start] + between == events + [between[k]];
      RunSnoc(sessionPresent, limit, events, between[k]);
      var h := Run(sessionPresent, limit, events);
      StaysInOrder(h, between[k], |Taken(f)|);
      if !between[k].Drain? && !between[k].DeliveryEnds? { OnlyPassesTake(h, between[k]); }
      StepKeepsFlights(h, between[k], |Taken(f)|);
    }
  }

  lemma NoFlightsYet(f: Flow)
    ensures FlightsRecorded(f.x, Taken(f)[|Taken(f)|..])
  {}

  /** A message that is still in flight has not been delivered. */
  lemma RecordedIsUndelivered(f: Flow, d: (Publish, Recipient))
    requires FlowOk(f) && f.x.broken == multiset{} && Deferred(d) && Recorded(f.x.inflight, d)
    ensures d !in f.x.delivered
  {
    assert Budget(f.x.delivered, f.x.inflight, f.x.reader, f.x.broken, Elements(Resting(f.replay)));
    hide FlowOk;
    if d in f.x.delivered { DeliveredCounts(f.x.delivered, d); }
  }

  lemma TakenAndEntered(g: Flow, n: nat, d: (Publish, Recipient))
    requires FlowOk(g) && g.x.broken == multiset{} && n <= |Taken(g)| && FlightsRecorded(g.x, Taken(g)[n..])
    requires d in Taken(g)[n..] && d in g.x.delivered
    ensures d.0 in g.ledger.accepted && !Deferred(d)
  {
    hide FlowOk, Taken, Recorded;
    TakenOnce(g);
    var i :| 0 <= i < |Taken(g)[n..]| && Taken(g)[n..][i] == d;
    assert Taken(g)[n + i] == d;
    if Deferred(d) { RecordedIsUndelivered(g, d); }
  }

  /** While the flights wait, the drain's messages in the queues are those it did not defer. */
  lemma EnteredAtOnce(f: Flow, g: Flow, n: nat, k: nat)
    requires FlowOk(g) && g.x.broken == multiset{} && n <= |Taken(g)| && k <= |g.x.delivered|
    requires FlightsRecorded(g.x, Taken(g)[n..])
    requires Filter(g.x.delivered[k..], Direct(g.ledger.accepted)) == Filter(Taken(g)[n..], AtOnce())
    ensures Filter(g.x.delivered[k..], Among(Taken(g)[n..])) == Filter(Taken(g)[n..], AtOnce())
  {
    hide FlowOk, Filter, Taken, FlightsRecorded;
    var taken, entered := Taken(g)[n..], g.x.delivered[k..];
    forall d | d in entered ensures Among(taken)(d) == Direct(g.ledger.accepted)(d) {
      FilterKeeps(entered, Direct(g.ledger.accepted), d);
      FilterKeeps(taken, AtOnce(), d);
      if d in taken { TakenAndEntered(g, n, d); }
    }
    FilterCongruence(entered, Among(taken), Direct(g.ledger.accepted));
  }

  lemma {:induction false} FilterOfFilter(s: HandOvers, p: ((Publish, Recipient)) -> bool, queue: nat,
                                          d: (Publish, Recipient))
    ensures d in Filter(Filter(s, p), ToQueue(queue)) <==> d in s && p(d) && ToQueue(queue)(d)
  {
    FilterKeeps(Filter(s, p), ToQueue(queue), d);
    FilterKeeps(s, p, d);
  }

  lemma JoinedAscend(a: HandOvers, b: HandOvers)
    requires Ascending(Messages(a)) && Ascending(Messages(b))
    ensures Ascending(Messages(a + b)) <==> forall d, e :: d in a && e in b ==> d.0.serial < e.0.serial
  {
    var all := Messages(a + b);
    if Ascending(all) {
      forall d, e | d in a && e in b ensures d.0.serial < e.0.serial {
        var i :| 0 <= i < |a| && a[i] == d;
        var j :| 0 <= j < |b| && b[j] == e;
        assert all[i] == d.0 && all[|a| + j] == e.0;
      }
    }
    if forall d, e :: d in a && e in b ==> d.0.serial < e.0.serial {
      forall i, j | 0 <= i < j < |all| ensures all[i].serial < all[j].serial {
        if j < |a| {
          assert all[i] == Messages(a)[i] && all[j] == Messages(a)[j];
        } else if |a| <= i {
          assert all[i] == Messages(b)[i - |a|] && all[j] == Messages(b)[j - |a|];
        } else {
          assert a[i] in a && b[j - |a|] in b;
        }
      }
    }
  }

  /** No automatically acknowledged QoS 2 message for the queue is ahead of a younger one put there at once. */
  ghost predicate NoneAheadOfYounger(taken: HandOvers, queue: nat) {
    forall d, e :: d in taken && e in taken && ToQueue(queue)(d) && ToQueue(queue)(e) && !Deferred(d) && Deferred(e) ==>
      d.0.serial < e.0.serial
  }

  /** The messages that are put into a queue at once, then those put there on their release, are in arrival
    order exactly when no deferred one for the queue is older than one put there at once. */
  lemma AtOnceThenReleased(taken: HandOvers, queue: nat)
    requires Ascending(Messages(taken))
    ensures Ascending(Messages(Filter(Filter(taken, AtOnce()) + Filter(taken, OnRelease()), ToQueue(queue)))) <==>
      NoneAheadOfYounger(taken, queue)
  {
    hide Filter;
    var a, b := Filter(Filter(taken, AtOnce()), ToQueue(queue)), Filter(Filter(taken, OnRelease()), ToQueue(queue));
    FilterConcat(Filter(taken, AtOnce()), Filter(taken, OnRelease()), ToQueue(queue));
    FilterAscends(taken, AtOnce());
    FilterAscends(taken, OnRelease());
    FilterAscends(Filter(taken, AtOnce()), ToQueue(queue));
    FilterAscends(Filter(taken, OnRelease()), ToQueue(queue));
    JoinedAscend(a, b);
    forall d ensures d in a <==> d in taken && !Deferred(d) && ToQueue(queue)(d) { FilterOfFilter(taken, AtOnce(), queue, d); }
    forall d ensures d in b <==> d in taken && Deferred(d) && ToQueue(queue)(d) { FilterOfFilter(taken, OnRelease(), queue, d); }
  }

  lemma ReleasedPart(old_: HandOvers, now: HandOvers, taken: HandOvers, k: nat)
    requires k <= |old_| && now == old_ + Filter(taken, OnRelease())
    requires Filter(old_[k..], Among(taken)) == Filter(taken, AtOnce())
    ensures Filter(now[k..], Among(taken)) == Filter(taken, AtOnce()) + Filter(taken, OnRelease())
  {
    hide Filter;
    var released := Filter(taken, OnRelease());
    assert now[k..] == old_[k..] + released;
    FilterConcat(old_[k..], released, Among(taken));
    forall d | d in released ensures Among(taken)(d) { FilterKeeps(taken, OnRelease(), d); }
    FilterAll(released, Among(taken));
  }

  lemma ReleasesRecorded(x: Exchanges, taken: HandOvers, d: (Publish, Recipient))
    requires TakenTracked(x, taken) && FlightsRecorded(x, taken) && d in Filter(taken, OnRelease())
    ensures Deferred(d) && !d.1.Nobody? && Recorded(x.inflight, d)
  {
    hide Filter, Tracked, Recorded;
    FilterKeeps(taken, OnRelease(), d);
  }

  lemma LaterTaken(x: Exchanges, taken: HandOvers, n: nat)
    requires TakenTracked(x, taken) && HandedOnce(taken) && n <= |taken|
    ensures TakenTracked(x, taken[n..]) && HandedOnce(taken[n..])
  {
    hide Tracked;
  }

  lemma ToRelease(g: Flow, n: nat)
    requires FlowOk(g) && OrderOk(g) && n <= |Taken(g)| && FlightsRecorded(g.x, Taken(g)[n..])
    ensures AllRecorded(g.x, Filter(Taken(g)[n..], OnRelease())) && HandedOnce(Filter(Taken(g)[n..], OnRelease()))
  {
    hide FlowOk, OrderOk, Taken, Filter, FlightsRecorded, TakenTracked, HandedOnce, Recorded;
    TakenOnce(g);
    OrderParts(g);
    LaterTaken(g.x, Taken(g), n);
    var taken := Taken(g)[n..];
    var ds := Filter(taken, OnRelease());
    forall i | 0 <= i < |ds| ensures Deferred(ds[i]) && !ds[i].1.Nobody? && Recorded(g.x.inflight, ds[i]) {
      ReleasesRecorded(g.x, taken, ds[i]);
    }
    FilterOnce(taken, OnRelease());
  }

  lemma {:induction false} FilterOnce(s: HandOvers, p: ((Publish, Recipient)) -> bool)
    requires HandedOnce(s)
    ensures HandedOnce(Filter(s, p))
  {
    if s != [] {
      assert forall i, j :: 0 <= i < j < |s[1..]| ==> s[1..][i] == s[i + 1] && s[1..][j] == s[j + 1];
      FilterOnce(s[1..], p);
      var rest := Filter(s[1..], p);
      forall i | 0 <= i < |rest| ensures s[0].0 != rest[i].0 {
        assert rest[i] in s[1..];
        var k :| 0 <= k < |s[1..]| && s[1..][k] == rest[i];
        assert s[k + 1] == rest[i];
      }
    }
  }

  /** A drain, with arrivals and acknowledgements at its suspensions, whose deferred messages the broker
    releases afterwards in order: every queue gets the drain's messages at once first and released
    ones last, which is arrival order if and only if no automatically acknowledged QoS 2 message for
    the queue was taken ahead of a younger one that was put there at once. */
  lemma QueueOrderIsArrivalOrderExactly(sessionPresent: bool, limit: nat, before: seq<Event>, start: Event,
                                        between: seq<Event>, queue: nat)
    requires IsDrain(sessionPresent, limit, before, start, between) && NoReleases(between)
    requires Run(sessionPresent, limit, before).x.broken == multiset{}
    requires Run(sessionPresent, limit, before + [start] + between).x.reader == Ready
    ensures var f, g := Run(sessionPresent, limit, before), Run(sessionPresent, limit, before + [start] + between);
      && Taken(f) <= Taken(g)
      && var taken := Taken(g)[|Taken(f)|..];
         && AllRecorded(g.x, Filter(taken, OnRelease()))
         && var h := Run(sessionPresent, limit, before + [start] + between + Releases(Filter(taken, OnRelease())));
            && f.x.delivered <= h.x.delivered
            && var entered := Filter(h.x.delivered[|f.x.delivered|..], Among(taken));
               && entered == Filter(taken, AtOnce()) + Filter(taken, OnRelease())
               && (Ascending(Messages(Filter(entered, ToQueue(queue)))) <==> NoneAheadOfYounger(taken, queue))
  {
    hide FlowOk, Step, Taken, IsDrain, InOrder, OrderOk, OvertakenOnlyWhileAwaitingRelease, Filter, FlightsRecorded,
         NoneAheadOfYounger, Ascending, AllRecorded;
    var f, g := Run(sessionPresent, limit, before), Run(sessionPresent, limit, before + [start] + between);
    DrainSoFar(sessionPresent, limit, before, start, between);
    DrainDeliversInArrivalOrder(sessionPresent, limit, before, start, between);
    DrainRecordsFlights(sessionPresent, limit, before, start, between);
    ReachableFlowsAreOrdered(sessionPresent, limit, before + [start] + between);
    var taken := Taken(g)[|Taken(f)|..];
    ToRelease(g, |Taken(f)|);
    EnteredAtOnce(f, g, |Taken(f)|, |f.x.delivered|);
    var ds := Filter(taken, OnRelease());
    assert AllRecorded(g.x, ds) && HandedOnce(ds);
    AllAreDeferred(g.x, ds);
    ReleasesDeliver(sessionPresent, limit, before + [start] + between, ds);
    var h := Run(sessionPresent, limit, before + [start] + between + Releases(ds));
    ReleasedPart(g.x.delivered, h.x.delivered, taken, |f.x.delivered|);
    AtOnceThenReleased(taken, queue);
  }

  lemma AllAreDeferred(x: Exchanges, ds: HandOvers)
    requires AllRecorded(x, ds)
    ensures forall i :: 0 <= i < |ds| ==> Deferred(ds[i])
  {}

  // ----- It happens with no consumer at all -----

  const Queue := Subscription(0, false)
  const Older := Publish(0, "t", ExactlyOnce, Some(1))
  const Younger := Publish(1, "t", AtMostOnce, None)

  function ToItsQueue(): Publish -> Offer { (_: Publish) => Offer(Queue, false) }

  /** A QoS 2 and a QoS 0 message are held, drained to one queue, and the QoS 2 one is released. */
  function MixedRun(): seq<Event> {
    [Arrive("t", ExactlyOnce, Some(1), Offer(Nobody, false)), Arrive("t", AtMostOnce, None, Offer(Nobody, false)),
     Drain(false, ToItsQueue()), DeliveryEnds(ToItsQueue()), Pubrel(1), SendEnds(false)]
  }

  const BothHeld := Buffer([Older, Younger], {1}, map["t" := 2], 2)
  const BothArrived := NoExchanges.(arrived := 2, open := map[1 := Older])

  function HoldingBoth(): Flow { Flow(Buffering(BothHeld, NoFrame), 0, BothArrived, Ledger({Older, Younger}, [], {}), NothingLeft) }

  /** With nobody to take it, a new message is buffered. */
  lemma NobodyTakesIt(f: Flow, topic: string, qos: Qos, pid: Option<int>)
    requires ReplayOk(f.replay) && f.limit == 0 && f.replay != NoSession && f.x.reader == Ready
    requires f.x.inflight == map[] && f.x.pendingAck == {} && (pid.Some? ==> !HeldId(f.replay, pid.value))
    requires qos != AtMostOnce ==> pid.Some?
    ensures var p := Publish(f.x.arrived, topic, qos, if qos == AtMostOnce then None else pid);
      Step(f, Arrive(topic, qos, pid, Offer(Nobody, false)))
      == f.(replay := HoldIn(f.replay, p), x := Admit(f.x, p), ledger := f.ledger.(accepted := f.ledger.accepted + {p}))
  {
    hide Advance, ReplayOk, Append, Admit;
  }

  function HoldingOlder(): Flow {
    Flow(Buffering(Buffer([Older], {1}, map["t" := 1], 1), NoFrame), 0, NoExchanges.(arrived := 1, open := map[1 := Older]),
         Ledger({Older}, [], {}), NothingLeft)
  }

  lemma BothAreHeld()
    ensures ReplayOk(NewFlow(true, 0).replay) && ReplayOk(HoldingOlder().replay)
    ensures Step(NewFlow(true, 0), MixedRun()[0]) == HoldingOlder()
    ensures Step(HoldingOlder(), MixedRun()[1]) == HoldingBoth()
  {
    hide Advance, ReplayOk, FlowOk, Step;
    NewFlowOk(true, 0);
    FlowsAreReplays();
    NobodyTakesIt(NewFlow(true, 0), "t", ExactlyOnce, Some(1));
    assert [] + [Older] == [Older];
    assert Append(EmptyBuffer, Older) == Buffer([Older], {1}, map["t" := 1], 1);
    assert Step(NewFlow(true, 0), MixedRun()[0]) == HoldingOlder();
    StepKeeps(NewFlow(true, 0), MixedRun()[0]);
    NobodyTakesIt(HoldingOlder(), "t", AtMostOnce, None);
    assert [Older] + [Younger] == [Older, Younger];
    assert Append(HoldingOlder().replay.buffer, Younger) == BothHeld;
  }

  function OlderInHand(): Flow {
    Flow(Buffering(BothHeld.(publishes := []), Frame(false, [], Older, Queue, [Younger])), 0,
         RecordFlight(BothArrived, Older, Queue, false), Ledger({Older, Younger}, [], {}), NothingLeft)
  }

  lemma OlderIsRecorded()
    requires ReplayOk(HoldingBoth().replay)
    ensures Step(HoldingBoth(), Drain(false, ToItsQueue())) == OlderInHand()
  {
    hide CountersOk, HeldOk;
    assert Held(HoldingBoth().replay) == [] + [] + [Older, Younger];
    assert [Older, Younger][1..] == [Younger];
    assert [] + [Older, Younger] + [] == [] + [] + [Older, Younger];
    var b, x, l := BothHeld, BothArrived, HoldingBoth().ledger;
    PassTurns(b, []);
    assert Advance(b, x, l, [], [], false, ToItsQueue())
        == Advance(b.(publishes := []), x, l, [], [Older, Younger], false, ToItsQueue());
  }

  lemma OlderIsInHandAfter()
    ensures Run(true, 0, MixedRun()[..3]) == OlderInHand()
  {
    hide FlowOk, Step, ReplayOk, ExchangesOk;
    var e := MixedRun();
    RunSnoc(true, 0, [], e[0]);
    RunSnoc(true, 0, [] + [e[0]], e[1]);
    RunSnoc(true, 0, [] + [e[0]] + [e[1]], e[2]);
    assert [] + [e[0]] + [e[1]] + [e[2]] == e[..3];
    BothAreHeld();
    FlowsAreReplays();
    OlderIsRecorded();
  }

  lemma YoungerIsDelivered()
    requires ReplayOk(OlderInHand().replay)
    ensures var g := Step(OlderInHand(), DeliveryEnds(ToItsQueue()));
      g.x == RecordFlight(BothArrived, Older, Queue, false).(delivered := [(Younger, Queue)])
  {
    hide CountersOk, HeldOk;
    var f := OlderInHand();
    var b, l := Discard(f.replay.buffer, Older), Hand(f.ledger, Older, Queue);
    ResumedPass(f.replay);
    PassTakes(b, [], [Younger]);
    assert [Younger][1..] == [];
    assert [] + [(Younger, Queue)] == [(Younger, Queue)];
    assert Advance(b, f.x, l, [], [Younger], false, ToItsQueue())
        == Advance(Discard(b, Younger), ReplayHandOver(f.x, Younger, Queue), Hand(l, Younger, Queue), [], [], false, ToItsQueue());
  }

  lemma ReleasedLast(f: Flow)
    requires FlowOk(f) && f.x == RecordFlight(BothArrived, Older, Queue, false).(delivered := [(Younger, Queue)])
    ensures var g := Step(f, Pubrel(1)); FlowOk(g) && Step(g, SendEnds(false)).x.delivered == [(Younger, Queue), (Older, Queue)]
  {
    OneRelease(f, (Older, Queue));
  }

  /** The younger message enters the queue first, although nobody consumes and nothing interleaves. */
  lemma MixedQosIsReordered()
    ensures Run(true, 0, MixedRun()).x.delivered == [(Younger, Queue), (Older, Queue)] && Older.serial < Younger.serial
  {
    hide FlowOk, Step, ReplayOk, ExchangesOk;
    var e := MixedRun();
    OlderIsInHandAfter();
    RunSnoc(true, 0, e[..3], e[3]);
    RunSnoc(true, 0, e[..3] + [e[3]], e[4]);
    RunSnoc(true, 0, e[..3] + [e[3]] + [e[4]], e[5]);
    assert e[..3] + [e[3]] + [e[4]] + [e[5]] == e;
    FlowsAreReplays();
    YoungerIsDelivered();
    ReleasedLast(Run(true, 0, e[..3] + [e[3]]));
  }
}
