/** Inbound QoS 1 and 2 exchanges: the tables of section 4.3.3 of MQTT Version 5.0 on the receiving
  side, the read loop's suspended delivery, and what went out to the application and the wire. */
module InboundExchanges {
  import opened Prelude
  import opened ReplayBuffer

  datatype InFlight = InFlight(publish: Publish, recipient: Recipient, delivered: bool)

  /** What the read loop does after a suspended `queue.put`, or after a suspended send. */
  datatype AfterPut = PutDone | ThenPuback
  datatype AfterSend = SendDone | ThenDeliver(publish: Publish, recipient: Recipient)

  datatype Reader =
    | Ready
    | Putting(publish: Publish, recipient: Recipient, afterPut: AfterPut)
    | Sending(afterSend: AfterSend)
    | Stopped

  datatype Packet = Puback(to: Publish) | Pubrec(to: Publish) | Pubcomp(to: Publish)

  datatype Exchanges = Exchanges(
    /** How many PUBLISH packets have arrived. */
    arrived: nat,
    inflight: map<int, InFlight>,
    pendingAck: set<int>,
    /** Manual-ack messages the application holds and has not acknowledged. */
    unacked: map<Publish, Recipient>,
    delivered: seq<(Publish, Recipient)>,
    wire: seq<Packet>,
    /** Replay deliveries that were interrupted while their acknowledgement was being sent. */
    broken: multiset<Publish>,
    /** The QoS 2 exchange each identifier is in, from its first PUBLISH to its PUBREL. */
    open: map<int, Publish>,
    reader: Reader)

  const NoExchanges := Exchanges(0, map[], {}, map[], [], [], multiset{}, map[], Ready)

  // ----- Operations -----

  predicate PidOk(p: Publish) { p.qos != AtMostOnce ==> p.pid.Some? }

  predicate IsQos2(p: Publish) { p.qos == ExactlyOnce && p.pid.Some? }

  /** `_deliver` once the queue has room. */
  function HandOver(x: Exchanges, p: Publish, r: Recipient): Exchanges {
    if r.Nobody? then x
    else x.(delivered := x.delivered + [(p, r)],
            unacked := if !AutoAck(r) && p.qos != AtMostOnce then x.unacked[p := r] else x.unacked)
  }

  /** `_accept_qos2_publish` with automatic acknowledgement, up to the suspended send. */
  function RecordFlight(x: Exchanges, p: Publish, r: Recipient, delivered: bool): Exchanges
    requires p.pid.Some?
  {
    x.(inflight := x.inflight[p.pid.value := InFlight(p, r, delivered)], wire := x.wire + [Pubrec(p)])
  }

  /** Whether handing over suspends in an acknowledgement send. */
  predicate Suspends(p: Publish, r: Recipient) { p.qos != AtMostOnce && AutoAck(r) }

  /** `deliver_replay` up to its suspension or end. */
  function ReplayHandOver(x: Exchanges, p: Publish, r: Recipient): Exchanges
    requires PidOk(p)
  {
    match p.qos
    case AtMostOnce => HandOver(x, p, r)
    case AtLeastOnce =>
      var y := HandOver(x, p, r);
      if AutoAck(r) then y.(wire := y.wire + [Puback(p)]) else y
    case ExactlyOnce =>
      if AutoAck(r) then RecordFlight(x, p, r, false)
      else HandOver(x.(pendingAck := x.pendingAck + {p.pid.value}), p, r)
  }

  /** `await queue.put(...)` on the live path: at once when there is room, else suspended. */
  function LivePut(x: Exchanges, p: Publish, r: Recipient, full: bool, afterPut: AfterPut): Exchanges {
    if r.Subscription? && full then x.(reader := Putting(p, r, afterPut))
    else AfterLivePut(HandOver(x, p, r), p, afterPut)
  }

  function AfterLivePut(x: Exchanges, p: Publish, afterPut: AfterPut): Exchanges {
    match afterPut
    case PutDone => x.(reader := Ready)
    case ThenPuback => x.(wire := x.wire + [Puback(p)], reader := Sending(SendDone))
  }

  /** A message that was not buffered, on its way to its recipient. */
  function LiveHandOver(x: Exchanges, p: Publish, r: Recipient, full: bool): Exchanges
    requires PidOk(p)
  {
    match p.qos
    case AtMostOnce => LivePut(x, p, r, full, PutDone)
    case AtLeastOnce => LivePut(x, p, r, full, if AutoAck(r) then ThenPuback else PutDone)
    case ExactlyOnce =>
      if AutoAck(r) then RecordFlight(x, p, r, false).(reader := Sending(SendDone))
      else LivePut(x.(pendingAck := x.pendingAck + {p.pid.value}), p, r, full, PutDone)
  }

  /** Notes an arrival that is not a duplicate. */
  function Admit(x: Exchanges, p: Publish): Exchanges {
    x.(arrived := x.arrived + 1, open := if IsQos2(p) then x.open[p.pid.value := p] else x.open)
  }

  /** The `ack()` of a message that waits for it. */
  function Acknowledge(x: Exchanges, p: Publish): Exchanges
    requires p in x.unacked && p.pid.Some?
  {
    var y := x.(unacked := x.unacked - {p});
    if p.qos == ExactlyOnce then
      RecordFlight(y.(pendingAck := y.pendingAck - {p.pid.value}), p, x.unacked[p], true)
    else y.(wire := y.wire + [Puback(p)])
  }

  function TakePubrel(x: Exchanges, pid: int): Exchanges
    requires pid in x.inflight
  {
    var flight := x.inflight[pid];
    x.(inflight := x.inflight - {pid}, open := x.open - {pid}, wire := x.wire + [Pubcomp(flight.publish)],
       reader := Sending(if flight.delivered then SendDone else ThenDeliver(flight.publish, flight.recipient)))
  }

  function FinishSend(x: Exchanges, after: AfterSend, full: bool): Exchanges {
    match after
    case SendDone => x.(reader := Ready)
    case ThenDeliver(p, r) => LivePut(x, p, r, full, PutDone)
  }

  /** Exchanges whose message is dropped are forgotten until the broker starts them again. */
  function Forget(x: Exchanges): Exchanges {
    x.(open := StillOpen(x.open, x.inflight, x.pendingAck))
  }

  function StillOpen(open: map<int, Publish>, inflight: map<int, InFlight>, pendingAck: set<int>): map<int, Publish> {
    map pid | pid in open && (pid in inflight || pid in pendingAck) :: open[pid]
  }

  // ----- At most once -----

  function Times(delivered: seq<(Publish, Recipient)>, p: Publish): nat {
    if delivered == [] then 0
    else Times(delivered[..|delivered| - 1], p) + if delivered[|delivered| - 1].0 == p then 1 else 0
  }

  predicate InFlightFor(inflight: map<int, InFlight>, p: Publish) {
    p.pid.Some? && p.pid.value in inflight
    && inflight[p.pid.value].publish == p && !inflight[p.pid.value].delivered
  }

  predicate ReaderHolds(reader: Reader, p: Publish) {
    match reader
    case Putting(q, _, _) => q == p
    case Sending(ThenDeliver(q, _)) => q == p
    case _ => false
  }

  function One(b: bool): nat { if b then 1 else 0 }

  /** From how many places the message can still reach the application. */
  function Chances(inflight: map<int, InFlight>, reader: Reader, waiting: set<Publish>, p: Publish): nat {
    One(p in waiting) + One(InFlightFor(inflight, p)) + One(ReaderHolds(reader, p))
  }

  /** Deliveries made and deliveries to come stay within one, plus one for each interruption. */
  ghost predicate Budget(delivered: seq<(Publish, Recipient)>, inflight: map<int, InFlight>, reader: Reader,
                         broken: multiset<Publish>, waiting: set<Publish>)
  {
    forall p: Publish ::
      Times(delivered, p) + Chances(inflight, reader, waiting, p) <= 1 + broken[p]
  }

  /** One more delivery of the message is within the budget. */
  ghost predicate HasRoom(x: Exchanges, waiting: set<Publish>, p: Publish) {
    Times(x.delivered, p) + Chances(x.inflight, x.reader, waiting, p) <= x.broken[p]
  }

  // ----- Where a message can be -----

  ghost predicate Seen(arrived: nat, p: Publish) { p.serial < arrived && PidOk(p) }

  /** Every message anywhere has arrived. */
  ghost predicate AllSeen(x: Exchanges, waiting: set<Publish>) {
    && (forall p :: p in waiting ==> Seen(x.arrived, p))
    && (forall p :: p in x.unacked ==> Seen(x.arrived, p) && p.qos != AtMostOnce)
    && (forall i :: 0 <= i < |x.delivered| ==> Seen(x.arrived, x.delivered[i].0))
    && (forall i :: 0 <= i < |x.wire| ==> Seen(x.arrived, x.wire[i].to))
    && (forall p :: ReaderHolds(x.reader, p) ==> Seen(x.arrived, p))
    && (forall pid :: pid in x.inflight ==> Seen(x.arrived, x.inflight[pid].publish))
    && (forall p :: p in x.broken ==> Seen(x.arrived, p))
  }

  ghost predicate FlightsOk(inflight: map<int, InFlight>, wire: seq<Packet>) {
    forall pid :: pid in inflight ==>
      && IsQos2(inflight[pid].publish) && inflight[pid].publish.pid == Some(pid)
      && Pubrec(inflight[pid].publish) in wire
      && (!inflight[pid].delivered ==> AutoAck(inflight[pid].recipient))
  }

  predicate PuttingManual(reader: Reader, p: Publish) {
    reader.Putting? && reader.publish == p && !AutoAck(reader.recipient) && IsQos2(p)
  }

  /** The messages that wait for an `ack()` own distinct identifiers in `pendingAck`. */
  ghost predicate AcksOwned(unacked: map<Publish, Recipient>, pendingAck: set<int>, reader: Reader) {
    && (forall p :: p in unacked && IsQos2(p) ==> p.pid.value in pendingAck)
    && (forall p, q :: p in unacked && q in unacked && IsQos2(p) && IsQos2(q) && p != q ==> p.pid != q.pid)
    && (forall p :: PuttingManual(reader, p) ==> p.pid.value in pendingAck)
    && (forall p, q :: PuttingManual(reader, p) && q in unacked && IsQos2(q) ==> p.pid != q.pid)
    && (reader.Sending? && reader.afterSend.ThenDeliver? ==> AutoAck(reader.afterSend.recipient))
  }

  /** A PUBREC goes out only for a QoS 2 message that waits for nothing: not held, not unacknowledged. */
  ghost predicate PubrecsOk(wire: seq<Packet>, broken: multiset<Publish>, unacked: map<Publish, Recipient>,
                            reader: Reader, waiting: set<Publish>)
  {
    && (forall p :: Pubrec(p) in wire ==> IsQos2(p))
    && (forall p :: Pubrec(p) in wire && p !in broken ==> p !in unacked && p !in waiting && !PuttingManual(reader, p))
  }

  /** A QoS 2 message that is being delivered by a pass, or was in one that broke off, has had its PUBREC. */
  ghost predicate PubrecSent(wire: seq<Packet>, broken: multiset<Publish>, inHand: Option<Publish>) {
    && (forall p :: p in broken && IsQos2(p) ==> Pubrec(p) in wire)
    && (inHand.Some? && IsQos2(inHand.value) ==> Pubrec(inHand.value) in wire)
  }

  /** Held identifiers are not waiting for an `ack()`. Only a message whose delivery broke off is held
    and in flight, or in flight and waiting for an `ack()`, at once. */
  ghost predicate TablesDisjoint(inflight: map<int, InFlight>, pendingAck: set<int>, broken: multiset<Publish>,
                                 waiting: set<Publish>, inHand: Option<Publish>)
  {
    && (forall p :: p in waiting && IsQos2(p) ==> p.pid.value !in pendingAck)
    && (inHand.Some? && IsQos2(inHand.value) ==>
          && inHand.value.pid.value !in pendingAck
          && (inHand.value.pid.value in inflight ==> inflight[inHand.value.pid.value].publish == inHand.value))
    && (forall p :: p in waiting && IsQos2(p) && p.pid.value in inflight ==>
          p in broken && inflight[p.pid.value].publish == p)
    && (forall pid :: pid in inflight && pid in pendingAck ==> inflight[pid].publish in broken)
  }

  /** Every open exchange is remembered somewhere. */
  ghost predicate OpenTracked(open: map<int, Publish>, inflight: map<int, InFlight>, pendingAck: set<int>,
                              waiting: set<Publish>)
  {
    forall pid :: pid in open ==>
      pid in inflight || pid in pendingAck || exists p :: p in waiting && IsQos2(p) && p.pid.value == pid
  }

  ghost predicate DistinctIds(waiting: set<Publish>, inHand: Option<Publish>) {
    && (forall p, q :: p in waiting && q in waiting && p != q && p.pid.Some? ==> p.pid != q.pid)
    && (inHand.Some? && inHand.value.pid.Some? ==> forall p :: p in waiting ==> p.pid != inHand.value.pid)
    && (inHand.Some? ==> inHand.value !in waiting)
  }

  ghost predicate ExchangesOk(x: Exchanges, waiting: set<Publish>, inHand: Option<Publish>) {
    && AllSeen(x, waiting) && (inHand.Some? ==> Seen(x.arrived, inHand.value))
    && FlightsOk(x.inflight, x.wire)
    && AcksOwned(x.unacked, x.pendingAck, x.reader)
    && PubrecsOk(x.wire, x.broken, x.unacked, x.reader, waiting)
    && PubrecSent(x.wire, x.broken, inHand)
    && TablesDisjoint(x.inflight, x.pendingAck, x.broken, waiting, inHand)
    && OpenTracked(x.open, x.inflight, x.pendingAck, waiting)
    && DistinctIds(waiting, inHand)
    && Budget(x.delivered, x.inflight, x.reader, x.broken, waiting)
  }

  lemma TimesAppend(d: seq<(Publish, Recipient)>, p: Publish, r: Recipient, q: Publish)
    ensures Times(d + [(p, r)], q) == Times(d, q) + One(p == q)
  {
    assert (d + [(p, r)])[..|d|] == d;
  }

  lemma {:induction false} UnseenNotDelivered(d: seq<(Publish, Recipient)>, p: Publish)
    requires forall i :: 0 <= i < |d| ==> d[i].0 != p
    ensures Times(d, p) == 0
  {
    if d != [] { UnseenNotDelivered(d[..|d| - 1], p); }
  }

  // ----- Every operation keeps the tables in order -----

  lemma HandOverTimes(x: Exchanges, p: Publish, r: Recipient)
    ensures forall q :: Times(HandOver(x, p, r).delivered, q) <= Times(x.delivered, q) + One(p == q)
  {
    if !r.Nobody? {
      forall q ensures Times(x.delivered + [(p, r)], q) == Times(x.delivered, q) + One(p == q) {
        TimesAppend(x.delivered, p, r, q);
      }
    }
  }

  lemma HandOverSeen(x: Exchanges, waiting: set<Publish>, p: Publish, r: Recipient)
    requires AllSeen(x, waiting) && Seen(x.arrived, p)
    ensures AllSeen(HandOver(x, p, r), waiting)
  {
    if !r.Nobody? {}
  }

  lemma PlainAcks(x: Exchanges, p: Publish, r: Recipient, waiting: set<Publish>)
    requires AcksOwned(x.unacked, x.pendingAck, x.reader) && PubrecsOk(x.wire, x.broken, x.unacked, x.reader, waiting)
    requires p.qos != ExactlyOnce
    ensures var y := HandOver(x, p, r);
      AcksOwned(y.unacked, y.pendingAck, y.reader) && PubrecsOk(y.wire, y.broken, y.unacked, y.reader, waiting)
  {
    if !r.Nobody? {}
  }

  /** Handing over touches the queues and the messages that wait for an `ack()`. */
  lemma HandOverShape(x: Exchanges, p: Publish, r: Recipient)
    ensures var y := HandOver(x, p, r);
      && y.arrived == x.arrived && y.inflight == x.inflight && y.pendingAck == x.pendingAck && y.wire == x.wire
      && y.broken == x.broken && y.open == x.open && y.reader == x.reader
  {
    if !r.Nobody? {}
  }

  /** Handing over a QoS 0 or 1 message. */
  lemma PlainHandOver(x: Exchanges, waiting: set<Publish>, inHand: Option<Publish>, p: Publish, r: Recipient)
    requires ExchangesOk(x, waiting, inHand) && Seen(x.arrived, p) && p.qos != ExactlyOnce && HasRoom(x, waiting, p)
    ensures ExchangesOk(HandOver(x, p, r), waiting, inHand)
  {
    hide Times, TablesDisjoint, OpenTracked, DistinctIds, FlightsOk, AllSeen, AcksOwned, PubrecsOk, PubrecSent, HandOver;
    HandOverShape(x, p, r);
    HandOverSeen(x, waiting, p, r);
    PlainAcks(x, p, r, waiting);
    HandOverTimes(x, p, r);
  }

  lemma PubackSent(x: Exchanges, waiting: set<Publish>, inHand: Option<Publish>, p: Publish)
    requires ExchangesOk(x, waiting, inHand) && Seen(x.arrived, p)
    ensures ExchangesOk(x.(wire := x.wire + [Puback(p)]), waiting, inHand)
  {
    hide Times, DistinctIds, AcksOwned, TablesDisjoint, OpenTracked, Budget;
  }

  lemma PlainTakenOut(x: Exchanges, waiting: set<Publish>, p: Publish)
    requires ExchangesOk(x, waiting, None) && p in waiting && p.qos != ExactlyOnce
    ensures ExchangesOk(x, waiting - {p}, Some(p)) && ExchangesOk(x, waiting - {p}, None)
  {
    hide Times, AcksOwned, FlightsOk;
  }

  lemma TakenOutHasRoom(x: Exchanges, waiting: set<Publish>, p: Publish)
    requires ExchangesOk(x, waiting, None) && p in waiting
    ensures HasRoom(x, waiting - {p}, p)
  {
    assert Budget(x.delivered, x.inflight, x.reader, x.broken, waiting);
  }

  lemma PlainInReplay(x: Exchanges, waiting: set<Publish>, p: Publish, r: Recipient)
    requires ExchangesOk(x, waiting, None) && p in waiting && p.qos != ExactlyOnce
    ensures ExchangesOk(ReplayHandOver(x, p, r), waiting - {p}, if Suspends(p, r) then Some(p) else None)
  {
    var inHand := if Suspends(p, r) then Some(p) else None;
    assert Seen(x.arrived, p) && Seen(HandOver(x, p, r).arrived, p);
    hide ExchangesOk;
    PlainTakenOut(x, waiting, p);
    TakenOutHasRoom(x, waiting, p);
    PlainHandOver(x, waiting - {p}, inHand, p, r);
    if Suspends(p, r) { PubackSent(HandOver(x, p, r), waiting - {p}, inHand, p); }
  }

  lemma RecordedFlightInReplay(x: Exchanges, waiting: set<Publish>, p: Publish, r: Recipient)
    requires ExchangesOk(x, waiting, None) && p in waiting && IsQos2(p) && AutoAck(r)
    ensures ExchangesOk(RecordFlight(x, p, r, false), waiting - {p}, Some(p))
  {
    hide Times, TablesDisjoint, OpenTracked, Budget;
    RecordedTables(x, waiting, p, r);
    RecordedBudget(x, waiting, p, r);
  }

  lemma RecordedTables(x: Exchanges, waiting: set<Publish>, p: Publish, r: Recipient)
    requires TablesDisjoint(x.inflight, x.pendingAck, x.broken, waiting, None)
    requires OpenTracked(x.open, x.inflight, x.pendingAck, waiting) && DistinctIds(waiting, None)
    requires p in waiting && IsQos2(p)
    ensures p.pid.value !in x.pendingAck
    ensures TablesDisjoint(x.inflight[p.pid.value := InFlight(p, r, false)], x.pendingAck, x.broken, waiting - {p}, Some(p))
    ensures OpenTracked(x.open, x.inflight[p.pid.value := InFlight(p, r, false)], x.pendingAck, waiting - {p})
  {}

  lemma RecordedBudget(x: Exchanges, waiting: set<Publish>, p: Publish, r: Recipient)
    requires Budget(x.delivered, x.inflight, x.reader, x.broken, waiting) && p in waiting && IsQos2(p)
    ensures Budget(x.delivered, x.inflight[p.pid.value := InFlight(p, r, false)], x.reader, x.broken, waiting - {p})
  {
    hide Times;
  }

  lemma ManualShape(x: Exchanges, p: Publish, r: Recipient)
    requires IsQos2(p) && !AutoAck(r)
    ensures ReplayHandOver(x, p, r)
         == x.(pendingAck := x.pendingAck + {p.pid.value}, delivered := x.delivered + [(p, r)], unacked := x.unacked[p := r])
  {}

  lemma ManualSeen(x: Exchanges, waiting: set<Publish>, p: Publish, r: Recipient, pendingAck: set<int>)
    requires AllSeen(x, waiting) && p in waiting && IsQos2(p)
    ensures AllSeen(x.(pendingAck := pendingAck, delivered := x.delivered + [(p, r)], unacked := x.unacked[p := r]), waiting - {p})
  {}

  lemma ManualAcks(unacked: map<Publish, Recipient>, pendingAck: set<int>, reader: Reader, p: Publish, r: Recipient)
    requires AcksOwned(unacked, pendingAck, reader) && IsQos2(p) && p.pid.value !in pendingAck
    ensures AcksOwned(unacked[p := r], pendingAck + {p.pid.value}, reader)
  {}

  lemma ManualPubrecs(wire: seq<Packet>, broken: multiset<Publish>, unacked: map<Publish, Recipient>, reader: Reader,
                      waiting: set<Publish>, p: Publish, r: Recipient)
    requires PubrecsOk(wire, broken, unacked, reader, waiting) && p in waiting
    ensures PubrecsOk(wire, broken, unacked[p := r], reader, waiting - {p})
  {}

  lemma FewerDistinct(waiting: set<Publish>, p: Publish)
    requires DistinctIds(waiting, None)
    ensures DistinctIds(waiting - {p}, None)
  {}

  lemma ManualInReplay(x: Exchanges, waiting: set<Publish>, p: Publish, r: Recipient)
    requires ExchangesOk(x, waiting, None) && p in waiting && IsQos2(p) && !AutoAck(r)
    ensures ExchangesOk(ReplayHandOver(x, p, r), waiting - {p}, None)
  {
    hide Times, Budget, FlightsOk, TablesDisjoint, OpenTracked, PubrecSent, AllSeen, AcksOwned, PubrecsOk, DistinctIds,
         ReplayHandOver;
    ManualShape(x, p, r);
    ManualTables(x, waiting, p);
    ManualSeen(x, waiting, p, r, x.pendingAck + {p.pid.value});
    ManualAcks(x.unacked, x.pendingAck, x.reader, p, r);
    ManualPubrecs(x.wire, x.broken, x.unacked, x.reader, waiting, p, r);
    FewerDistinct(waiting, p);
    WaitingHandOverBudget(x, waiting, p, r);
  }

  lemma ManualTables(x: Exchanges, waiting: set<Publish>, p: Publish)
    requires TablesDisjoint(x.inflight, x.pendingAck, x.broken, waiting, None)
    requires OpenTracked(x.open, x.inflight, x.pendingAck, waiting) && DistinctIds(waiting, None)
    requires p in waiting && IsQos2(p)
    ensures p.pid.value !in x.pendingAck
    ensures TablesDisjoint(x.inflight, x.pendingAck + {p.pid.value}, x.broken, waiting - {p}, None)
    ensures OpenTracked(x.open, x.inflight, x.pendingAck + {p.pid.value}, waiting - {p})
  {}

  lemma WaitingHandOverBudget(x: Exchanges, waiting: set<Publish>, p: Publish, r: Recipient)
    requires Budget(x.delivered, x.inflight, x.reader, x.broken, waiting) && p in waiting
    ensures Budget(HandOver(x, p, r).delivered, x.inflight, x.reader, x.broken, waiting - {p})
  {
    hide Times;
    HandOverTimes(x, p, r);
  }

  lemma SendEndedInReplay(x: Exchanges, waiting: set<Publish>, p: Publish)
    requires ExchangesOk(x, waiting, Some(p))
    ensures ExchangesOk(x, waiting, None)
  {}

  lemma InterruptedInReplay(x: Exchanges, waiting: set<Publish>, p: Publish)
    requires ExchangesOk(x, waiting, Some(p))
    ensures ExchangesOk(x.(broken := x.broken + multiset{p}), waiting + {p}, None)
  {
    hide Times, FlightsOk, AcksOwned, TablesDisjoint, Budget, OpenTracked, PubrecsOk;
    InterruptedTables(x, waiting, p);
    InterruptedBudget(x, waiting, p);
  }

  lemma InterruptedTables(x: Exchanges, waiting: set<Publish>, p: Publish)
    requires TablesDisjoint(x.inflight, x.pendingAck, x.broken, waiting, Some(p))
    requires OpenTracked(x.open, x.inflight, x.pendingAck, waiting)
    requires PubrecsOk(x.wire, x.broken, x.unacked, x.reader, waiting)
    ensures TablesDisjoint(x.inflight, x.pendingAck, x.broken + multiset{p}, waiting + {p}, None)
    ensures OpenTracked(x.open, x.inflight, x.pendingAck, waiting + {p})
    ensures PubrecsOk(x.wire, x.broken + multiset{p}, x.unacked, x.reader, waiting + {p})
  {}

  lemma InterruptedBudget(x: Exchanges, waiting: set<Publish>, p: Publish)
    requires Budget(x.delivered, x.inflight, x.reader, x.broken, waiting)
    ensures Budget(x.delivered, x.inflight, x.reader, x.broken + multiset{p}, waiting + {p})
  {
    hide Times;
  }

  /** A PUBLISH that starts something: its number is new, and a QoS 2 identifier is in no table. */
  ghost predicate IsNew(x: Exchanges, waiting: set<Publish>, inHand: Option<Publish>, p: Publish) {
    && p.serial == x.arrived && PidOk(p)
    && (p.pid.Some? ==> forall q :: q in waiting ==> q.pid != p.pid)
    && (p.pid.Some? && inHand.Some? ==> inHand.value.pid != p.pid)
    && (IsQos2(p) ==> p.pid.value !in x.inflight && p.pid.value !in x.pendingAck)
  }

  /** Nothing is known about a message before it arrives. */
  lemma NewIsUnknown(x: Exchanges, waiting: set<Publish>, p: Publish)
    requires AllSeen(x, waiting) && p.serial == x.arrived
    ensures p !in waiting && p !in x.unacked && p !in x.broken && !ReaderHolds(x.reader, p)
    ensures !InFlightFor(x.inflight, p) && Pubrec(p) !in x.wire && Times(x.delivered, p) == 0
  {
    UnseenNotDelivered(x.delivered, p);
    if p.pid.Some? && p.pid.value in x.inflight {
      var pid := p.pid.value;
      assert pid in x.inflight;
      assert Seen(x.arrived, x.inflight[pid].publish);
    }
  }

  lemma LiveHeld(x: Exchanges, waiting: set<Publish>, inHand: Option<Publish>, p: Publish)
    requires ExchangesOk(x, waiting, inHand) && IsNew(x, waiting, inHand, p)
    ensures ExchangesOk(Admit(x, p), waiting + {p}, inHand)
  {
    hide Times, FlightsOk, AcksOwned, TablesDisjoint, Budget, PubrecSent;
    NewIsUnknown(x, waiting, p);
    FlightsUnaffected(x, p);
    HeldTables(x, waiting, inHand, p);
    HeldBudget(x, waiting, p);
  }

  lemma HeldTables(x: Exchanges, waiting: set<Publish>, inHand: Option<Publish>, p: Publish)
    requires TablesDisjoint(x.inflight, x.pendingAck, x.broken, waiting, inHand) && IsNew(x, waiting, inHand, p)
    ensures TablesDisjoint(x.inflight, x.pendingAck, x.broken, waiting + {p}, inHand)
  {}

  lemma HeldBudget(x: Exchanges, waiting: set<Publish>, p: Publish)
    requires Budget(x.delivered, x.inflight, x.reader, x.broken, waiting) && AllSeen(x, waiting) && p.serial == x.arrived
    ensures Budget(x.delivered, x.inflight, x.reader, x.broken, waiting + {p})
  {
    hide Times, AllSeen;
    NewIsUnknown(x, waiting, p);
  }

  lemma FlightsUnaffected(x: Exchanges, p: Publish)
    ensures Admit(x, p).inflight == x.inflight && Admit(x, p).wire == x.wire
  {}

  lemma LiveRecorded(x: Exchanges, waiting: set<Publish>, inHand: Option<Publish>, p: Publish, r: Recipient)
    requires ExchangesOk(x, waiting, inHand) && IsNew(x, waiting, inHand, p) && IsQos2(p) && AutoAck(r)
    requires x.reader == Ready
    ensures ExchangesOk(RecordFlight(Admit(x, p), p, r, false).(reader := Sending(SendDone)), waiting, inHand)
  {
    hide Times, DistinctIds, Budget, TablesDisjoint, AcksOwned, OpenTracked, AllSeen, PubrecSent;
    NewFlightBudget(x, waiting, p, r);
    NewFlightTables(x, waiting, inHand, p, r);
    NewFlightTracked(x, waiting, p, r);
    NewIsUnknown(x, waiting, p);
    NewFlightSeen(x, waiting, p, r);
    PubrecSentStill(x.wire, Pubrec(p), x.broken, inHand);
    ReaderFreed(x.unacked, x.pendingAck, x.reader);
  }

  lemma NewFlightSeen(x: Exchanges, waiting: set<Publish>, p: Publish, r: Recipient)
    requires AllSeen(x, waiting) && p.serial == x.arrived && IsQos2(p)
    ensures AllSeen(RecordFlight(Admit(x, p), p, r, false).(reader := Sending(SendDone)), waiting)
  {}

  lemma NewFlightTracked(x: Exchanges, waiting: set<Publish>, p: Publish, r: Recipient)
    requires OpenTracked(x.open, x.inflight, x.pendingAck, waiting) && IsQos2(p)
    ensures OpenTracked(x.open[p.pid.value := p], x.inflight[p.pid.value := InFlight(p, r, false)], x.pendingAck, waiting)
  {}

  lemma NewFlightTables(x: Exchanges, waiting: set<Publish>, inHand: Option<Publish>, p: Publish, r: Recipient)
    requires TablesDisjoint(x.inflight, x.pendingAck, x.broken, waiting, inHand)
    requires IsNew(x, waiting, inHand, p) && IsQos2(p)
    ensures TablesDisjoint(x.inflight[p.pid.value := InFlight(p, r, false)], x.pendingAck, x.broken, waiting, inHand)
  {}

  lemma PubrecSentStill(wire: seq<Packet>, packet: Packet, broken: multiset<Publish>, inHand: Option<Publish>)
    requires PubrecSent(wire, broken, inHand)
    ensures PubrecSent(wire + [packet], broken, inHand)
  {}

  lemma ReaderFreed(unacked: map<Publish, Recipient>, pendingAck: set<int>, reader: Reader)
    requires AcksOwned(unacked, pendingAck, reader)
    ensures AcksOwned(unacked, pendingAck, Sending(SendDone)) && AcksOwned(unacked, pendingAck, Ready)
  {}

  lemma NewFlightBudget(x: Exchanges, waiting: set<Publish>, p: Publish, r: Recipient)
    requires Budget(x.delivered, x.inflight, x.reader, x.broken, waiting) && AllSeen(x, waiting)
    requires p.serial == x.arrived && IsQos2(p) && x.reader == Ready
    ensures Budget(x.delivered, x.inflight[p.pid.value := InFlight(p, r, false)], Sending(SendDone), x.broken, waiting)
  {
    hide Times, AllSeen;
    NewIsUnknown(x, waiting, p);
  }

  lemma AdmitPlain(x: Exchanges, waiting: set<Publish>, inHand: Option<Publish>, p: Publish)
    requires ExchangesOk(x, waiting, inHand) && IsNew(x, waiting, inHand, p) && p.qos != ExactlyOnce
    ensures ExchangesOk(Admit(x, p), waiting, inHand) && Seen(Admit(x, p).arrived, p)
  {
    hide Times, FlightsOk, AcksOwned, TablesDisjoint, PubrecsOk, OpenTracked, DistinctIds, Budget;
  }

  lemma NewHasRoom(x: Exchanges, waiting: set<Publish>, p: Publish)
    requires AllSeen(x, waiting) && p.serial == x.arrived
    ensures HasRoom(Admit(x, p), waiting, p)
  {
    hide Times, AllSeen;
    NewIsUnknown(x, waiting, p);
  }

  lemma PlainPut(x: Exchanges, waiting: set<Publish>, inHand: Option<Publish>, p: Publish, r: Recipient,
                 full: bool, afterPut: AfterPut)
    requires ExchangesOk(x, waiting, inHand) && Seen(x.arrived, p) && p.qos != ExactlyOnce && x.reader == Ready
    requires HasRoom(x, waiting, p)
    ensures ExchangesOk(LivePut(x, p, r, full, afterPut), waiting, inHand)
  {
    if r.Subscription? && full {
      PutSuspended(x, waiting, inHand, p, r, afterPut);
    } else {
      PlainHandOver(x, waiting, inHand, p, r);
      PutFinished(HandOver(x, p, r), waiting, inHand, p, afterPut);
    }
  }

  lemma PutSuspended(x: Exchanges, waiting: set<Publish>, inHand: Option<Publish>, p: Publish, r: Recipient,
                     afterPut: AfterPut)
    requires ExchangesOk(x, waiting, inHand) && Seen(x.arrived, p) && p.qos != ExactlyOnce && HasRoom(x, waiting, p)
    ensures ExchangesOk(x.(reader := Putting(p, r, afterPut)), waiting, inHand)
  {
    hide FlightsOk, TablesDisjoint, OpenTracked, DistinctIds, PubrecSent, Budget, HasRoom;
    PlainBudget(x, waiting, p, r, afterPut);
  }

  lemma PlainBudget(x: Exchanges, waiting: set<Publish>, p: Publish, r: Recipient, afterPut: AfterPut)
    requires Budget(x.delivered, x.inflight, x.reader, x.broken, waiting) && HasRoom(x, waiting, p)
    ensures Budget(x.delivered, x.inflight, Putting(p, r, afterPut), x.broken, waiting)
  {
    hide Times;
  }

  lemma ReaderMovesOn(x: Exchanges, waiting: set<Publish>, inHand: Option<Publish>, reader: Reader)
    requires ExchangesOk(x, waiting, inHand)
    requires reader == Ready || reader == Stopped || reader == Sending(SendDone)
    ensures ExchangesOk(x.(reader := reader), waiting, inHand)
  {
    hide Times, FlightsOk, TablesDisjoint, OpenTracked, DistinctIds;
  }

  lemma PutFinished(x: Exchanges, waiting: set<Publish>, inHand: Option<Publish>, p: Publish, afterPut: AfterPut)
    requires ExchangesOk(x, waiting, inHand) && Seen(x.arrived, p)
    ensures ExchangesOk(AfterLivePut(x, p, afterPut), waiting, inHand)
  {
    hide ExchangesOk;
    if afterPut.ThenPuback? {
      PubackSent(x, waiting, inHand, p);
      ReaderMovesOn(x.(wire := x.wire + [Puback(p)]), waiting, inHand, Sending(SendDone));
    } else {
      ReaderMovesOn(x, waiting, inHand, Ready);
    }
  }

  lemma LiveManualPut(x: Exchanges, waiting: set<Publish>, inHand: Option<Publish>, p: Publish, r: Recipient)
    requires ExchangesOk(x, waiting, inHand) && IsNew(x, waiting, inHand, p) && IsQos2(p) && !AutoAck(r)
    requires x.reader == Ready
    ensures var y := Admit(x, p).(pendingAck := x.pendingAck + {p.pid.value});
      ExchangesOk(y.(reader := Putting(p, r, PutDone)), waiting, inHand)
  {
    hide Times, FlightsOk, DistinctIds, Budget, PubrecSent, TablesDisjoint, OpenTracked, AllSeen;
    NewPutBudget(x, waiting, p, r);
    NewPutTables(x, waiting, inHand, p);
    NewIsUnknown(x, waiting, p);
    NewPutSeen(x, waiting, p, r);
  }

  lemma NewPutSeen(x: Exchanges, waiting: set<Publish>, p: Publish, r: Recipient)
    requires AllSeen(x, waiting) && p.serial == x.arrived && IsQos2(p)
    ensures var y := Admit(x, p).(pendingAck := x.pendingAck + {p.pid.value});
      AllSeen(y.(reader := Putting(p, r, PutDone)), waiting)
  {}

  lemma NewPutTables(x: Exchanges, waiting: set<Publish>, inHand: Option<Publish>, p: Publish)
    requires TablesDisjoint(x.inflight, x.pendingAck, x.broken, waiting, inHand)
    requires OpenTracked(x.open, x.inflight, x.pendingAck, waiting)
    requires IsNew(x, waiting, inHand, p) && IsQos2(p)
    ensures TablesDisjoint(x.inflight, x.pendingAck + {p.pid.value}, x.broken, waiting, inHand)
    ensures OpenTracked(x.open[p.pid.value := p], x.inflight, x.pendingAck + {p.pid.value}, waiting)
  {}

  lemma NewPutBudget(x: Exchanges, waiting: set<Publish>, p: Publish, r: Recipient)
    requires Budget(x.delivered, x.inflight, x.reader, x.broken, waiting) && AllSeen(x, waiting)
    requires p.serial == x.arrived && x.reader == Ready
    ensures Budget(x.delivered, x.inflight, Putting(p, r, PutDone), x.broken, waiting)
  {
    hide Times, AllSeen;
    NewIsUnknown(x, waiting, p);
  }

  /** The end of a suspended `queue.put`. */
  lemma PutEnded(x: Exchanges, waiting: set<Publish>, inHand: Option<Publish>)
    requires ExchangesOk(x, waiting, inHand) && x.reader.Putting?
    ensures ExchangesOk(AfterLivePut(HandOver(x, x.reader.publish, x.reader.recipient), x.reader.publish, x.reader.afterPut),
                        waiting, inHand)
  {
    var p, r := x.reader.publish, x.reader.recipient;
    assert ReaderHolds(x.reader, p);
    HeldHandOver(x, waiting, inHand, p, r);
    var y := HandOver(x, p, r).(reader := Ready);
    PutFinished(y, waiting, inHand, p, x.reader.afterPut);
    assert AfterLivePut(y, p, x.reader.afterPut) == AfterLivePut(HandOver(x, p, r), p, x.reader.afterPut);
  }

  /** Handing over what the read loop was holding. */
  lemma HeldHandOver(x: Exchanges, waiting: set<Publish>, inHand: Option<Publish>, p: Publish, r: Recipient)
    requires ExchangesOk(x, waiting, inHand) && ReaderHolds(x.reader, p)
    requires match x.reader case Putting(_, s, _) => s == r case Sending(ThenDeliver(_, s)) => s == r case _ => false
    ensures ExchangesOk(HandOver(x, p, r).(reader := Ready), waiting, inHand)
  {
    hide Times, TablesDisjoint, OpenTracked, DistinctIds, FlightsOk, Budget, AcksOwned, PubrecsOk, PubrecSent;
    assert !r.Nobody? && !AutoAck(r) && p.qos == ExactlyOnce ==> PuttingManual(x.reader, p) by {
      HeldManualIsPutting(x, p, r);
    }
    HandOverAcks(x, waiting, p, r);
    HandOverBudget(x, waiting, p, r);
  }

  lemma HeldManualIsPutting(x: Exchanges, p: Publish, r: Recipient)
    requires AcksOwned(x.unacked, x.pendingAck, x.reader) && ReaderHolds(x.reader, p) && Seen(x.arrived, p)
    requires match x.reader case Putting(_, s, _) => s == r case Sending(ThenDeliver(_, s)) => s == r case _ => false
    ensures !AutoAck(r) && p.qos == ExactlyOnce ==> PuttingManual(x.reader, p)
  {}

  lemma HandOverAcks(x: Exchanges, waiting: set<Publish>, p: Publish, r: Recipient)
    requires AcksOwned(x.unacked, x.pendingAck, x.reader) && PubrecsOk(x.wire, x.broken, x.unacked, x.reader, waiting)
    requires !r.Nobody? && !AutoAck(r) && p.qos == ExactlyOnce ==> PuttingManual(x.reader, p)
    requires PidOk(p)
    ensures AcksOwned(HandOver(x, p, r).unacked, x.pendingAck, Ready)
    ensures PubrecsOk(x.wire, x.broken, HandOver(x, p, r).unacked, Ready, waiting)
  {}

  lemma HandOverBudget(x: Exchanges, waiting: set<Publish>, p: Publish, r: Recipient)
    requires Budget(x.delivered, x.inflight, x.reader, x.broken, waiting) && ReaderHolds(x.reader, p)
    ensures Budget(HandOver(x, p, r).delivered, x.inflight, Ready, x.broken, waiting)
  {
    hide Times;
    HandOverTimes(x, p, r);
  }

  lemma LiveHandedOver(x: Exchanges, waiting: set<Publish>, inHand: Option<Publish>, p: Publish, r: Recipient, full: bool)
    requires ExchangesOk(x, waiting, inHand) && IsNew(x, waiting, inHand, p) && x.reader == Ready
    ensures ExchangesOk(LiveHandOver(Admit(x, p), p, r, full), waiting, inHand)
  {
    if p.qos != ExactlyOnce {
      AdmitPlain(x, waiting, inHand, p);
      NewHasRoom(x, waiting, p);
      PlainPut(Admit(x, p), waiting, inHand, p, r, full, if p.qos == AtLeastOnce && AutoAck(r) then ThenPuback else PutDone);
    } else if AutoAck(r) {
      LiveRecorded(x, waiting, inHand, p, r);
    } else {
      var y := Admit(x, p).(pendingAck := x.pendingAck + {p.pid.value});
      LiveManualPut(x, waiting, inHand, p, r);
      if !full {
        HeldHandOver(y.(reader := Putting(p, r, PutDone)), waiting, inHand, p, r);
        assert HandOver(y.(reader := Putting(p, r, PutDone)), p, r).(reader := Ready) == LivePut(y, p, r, full, PutDone);
      }
    }
  }

  lemma PubrecResent(x: Exchanges, waiting: set<Publish>, inHand: Option<Publish>, pid: int)
    requires ExchangesOk(x, waiting, inHand) && pid in x.inflight
    ensures ExchangesOk(x.(wire := x.wire + [Pubrec(x.inflight[pid].publish)], reader := Sending(SendDone)), waiting, inHand)
  {
    hide Times, TablesDisjoint, OpenTracked, DistinctIds, PubrecSent, Budget, AcksOwned;
    PubrecSentStill(x.wire, Pubrec(x.inflight[pid].publish), x.broken, inHand);
    ReaderFreed(x.unacked, x.pendingAck, x.reader);
    BudgetFreed(x, waiting, Sending(SendDone));
  }

  lemma BudgetFreed(x: Exchanges, waiting: set<Publish>, reader: Reader)
    requires Budget(x.delivered, x.inflight, x.reader, x.broken, waiting) && forall p :: !ReaderHolds(reader, p)
    ensures Budget(x.delivered, x.inflight, reader, x.broken, waiting)
  {
    hide Times;
  }

  lemma ReleasedIsSeen(x: Exchanges, waiting: set<Publish>, pid: int)
    requires AllSeen(x, waiting) && pid in x.inflight && x.reader == Ready
    ensures AllSeen(TakePubrel(x, pid), waiting)
  {}

  lemma PubrelTaken(x: Exchanges, waiting: set<Publish>, inHand: Option<Publish>, pid: int)
    requires ExchangesOk(x, waiting, inHand) && pid in x.inflight && x.reader == Ready
    ensures ExchangesOk(TakePubrel(x, pid), waiting, inHand)
  {
    hide Times, DistinctIds, PubrecSent, TablesDisjoint, OpenTracked, Budget, AllSeen;
    PubrecSentStill(x.wire, Pubcomp(x.inflight[pid].publish), x.broken, inHand);
    ReleasedIsSeen(x, waiting, pid);
    ReleasedTables(x, waiting, inHand, pid);
    ReleasedBudget(x, waiting, pid);
  }

  lemma ReleasedTables(x: Exchanges, waiting: set<Publish>, inHand: Option<Publish>, pid: int)
    requires TablesDisjoint(x.inflight, x.pendingAck, x.broken, waiting, inHand)
    requires OpenTracked(x.open, x.inflight, x.pendingAck, waiting)
    ensures TablesDisjoint(x.inflight - {pid}, x.pendingAck, x.broken, waiting, inHand)
    ensures OpenTracked(x.open - {pid}, x.inflight - {pid}, x.pendingAck, waiting)
  {}

  lemma ReleasedBudget(x: Exchanges, waiting: set<Publish>, pid: int)
    requires Budget(x.delivered, x.inflight, x.reader, x.broken, waiting) && pid in x.inflight && x.reader == Ready
    requires FlightsOk(x.inflight, x.wire)
    ensures var y := TakePubrel(x, pid); Budget(y.delivered, y.inflight, y.reader, y.broken, waiting)
  {
    hide Times;
  }

  lemma SendFinished(x: Exchanges, waiting: set<Publish>, inHand: Option<Publish>, full: bool)
    requires ExchangesOk(x, waiting, inHand) && x.reader.Sending?
    ensures ExchangesOk(FinishSend(x, x.reader.afterSend, full), waiting, inHand)
  {
    if x.reader.afterSend.ThenDeliver? {
      var p, r := x.reader.afterSend.publish, x.reader.afterSend.recipient;
      assert ReaderHolds(x.reader, p);
      if r.Subscription? && full {
        DeliverySuspended(x, waiting, inHand, p, r);
      } else {
        HeldHandOver(x, waiting, inHand, p, r);
      }
    } else {
      ReaderMovesOn(x, waiting, inHand, Ready);
    }
  }

  lemma HoldsTheSame(p: Publish, r: Recipient)
    ensures forall q :: ReaderHolds(Putting(p, r, PutDone), q) <==> ReaderHolds(Sending(ThenDeliver(p, r)), q)
  {}

  lemma SuspendedAcks(x: Exchanges, waiting: set<Publish>, p: Publish, r: Recipient)
    requires AcksOwned(x.unacked, x.pendingAck, x.reader) && x.reader == Sending(ThenDeliver(p, r))
    requires PubrecsOk(x.wire, x.broken, x.unacked, x.reader, waiting)
    ensures AcksOwned(x.unacked, x.pendingAck, Putting(p, r, PutDone))
    ensures PubrecsOk(x.wire, x.broken, x.unacked, Putting(p, r, PutDone), waiting)
  {
    assert forall q :: !PuttingManual(Putting(p, r, PutDone), q);
  }

  lemma SuspendedBudget(x: Exchanges, waiting: set<Publish>, p: Publish, r: Recipient)
    requires Budget(x.delivered, x.inflight, x.reader, x.broken, waiting) && x.reader == Sending(ThenDeliver(p, r))
    ensures Budget(x.delivered, x.inflight, Putting(p, r, PutDone), x.broken, waiting)
  {
    hide ReaderHolds, InFlightFor, Times;
    HoldsTheSame(p, r);
  }

  lemma DeliverySuspended(x: Exchanges, waiting: set<Publish>, inHand: Option<Publish>, p: Publish, r: Recipient)
    requires ExchangesOk(x, waiting, inHand) && x.reader == Sending(ThenDeliver(p, r))
    ensures ExchangesOk(x.(reader := Putting(p, r, PutDone)), waiting, inHand)
  {
    hide FlightsOk, TablesDisjoint, OpenTracked, DistinctIds, AcksOwned, PubrecsOk, PubrecSent, Budget, ReaderHolds;
    HoldsTheSame(p, r);
    SuspendedAcks(x, waiting, p, r);
    SuspendedBudget(x, waiting, p, r);
  }

  lemma Acknowledged(x: Exchanges, waiting: set<Publish>, inHand: Option<Publish>, p: Publish)
    requires ExchangesOk(x, waiting, inHand) && p in x.unacked && p.pid.Some?
    ensures ExchangesOk(Acknowledge(x, p), waiting, inHand)
  {
    hide Times, DistinctIds, Budget, AcksOwned, PubrecsOk, TablesDisjoint, OpenTracked, PubrecSent, AllSeen;
    AcknowledgedSeen(x, waiting, p);
    AcknowledgedBudget(x, waiting, p);
    AckTakenOut(x, waiting, inHand, p);
    AckTables(x, waiting, inHand, p);
  }

  lemma AcknowledgedSeen(x: Exchanges, waiting: set<Publish>, p: Publish)
    requires AllSeen(x, waiting) && p in x.unacked && p.pid.Some?
    ensures AllSeen(Acknowledge(x, p), waiting)
  {}

  lemma AckTables(x: Exchanges, waiting: set<Publish>, inHand: Option<Publish>, p: Publish)
    requires TablesDisjoint(x.inflight, x.pendingAck, x.broken, waiting, inHand)
    requires OpenTracked(x.open, x.inflight, x.pendingAck, waiting) && PubrecSent(x.wire, x.broken, inHand)
    requires p in x.unacked && p.pid.Some? && (IsQos2(p) ==> p.pid.value in x.pendingAck)
    ensures var y := Acknowledge(x, p);
      && TablesDisjoint(y.inflight, y.pendingAck, y.broken, waiting, inHand)
      && OpenTracked(y.open, y.inflight, y.pendingAck, waiting) && PubrecSent(y.wire, y.broken, inHand)
  {}

  lemma AckTakenOut(x: Exchanges, waiting: set<Publish>, inHand: Option<Publish>, p: Publish)
    requires AcksOwned(x.unacked, x.pendingAck, x.reader) && PubrecsOk(x.wire, x.broken, x.unacked, x.reader, waiting)
    requires TablesDisjoint(x.inflight, x.pendingAck, x.broken, waiting, inHand)
    requires p in x.unacked && p.pid.Some?
    ensures var y := Acknowledge(x, p);
      && AcksOwned(y.unacked, y.pendingAck, x.reader)
      && PubrecsOk(y.wire, x.broken, y.unacked, x.reader, waiting)
      && (IsQos2(p) ==> p.pid.value in x.pendingAck)
  {}

  lemma AcknowledgedBudget(x: Exchanges, waiting: set<Publish>, p: Publish)
    requires Budget(x.delivered, x.inflight, x.reader, x.broken, waiting) && p in x.unacked && p.pid.Some?
    ensures Budget(x.delivered, Acknowledge(x, p).inflight, x.reader, x.broken, waiting)
  {
    hide Times;
  }

  /** What held messages leave behind when the buffer is dropped. */
  lemma HeldForgotten(x: Exchanges, waiting: set<Publish>, inHand: Option<Publish>)
    requires ExchangesOk(x, waiting, inHand)
    ensures ExchangesOk(Forget(x), {}, None)
  {
    hide Times, FlightsOk, AcksOwned;
  }
}
