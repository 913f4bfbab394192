/** The exchanges this client starts (outbound QoS 1 and 2, SUBSCRIBE, UNSUBSCRIBE), their packet
  identifiers and the futures their callers await. Every stretch of code between two suspensions
  is one event. A future is named by a number, which also names the exchange that made it. */
module AckTables {
  import opened Prelude
  import opened PacketIds

  datatype FutureState = Pending | Resolved | Failed | Cancelled

  datatype Phase = AwaitPubrec | AwaitPubcomp

  datatype Flight = Flight(future: nat, phase: Phase)

  /** What a QoS 2 exchange did about PUBREL: sent it, or gave it up after a rejecting PUBREC. */
  datatype Note = PubrelSent(exchange: nat) | PubrecRejected(exchange: nat)

  datatype Session = Session(
    pool: Pool,
    qos1: map<int, nat>,
    qos2: map<int, Flight>,
    subs: map<int, nat>,
    unsubs: map<int, nat>,
    /** `_send_subscribe` and `_send_unsubscribe` calls that have not run their `finally` yet. */
    subCalls: map<nat, int>,
    unsubCalls: map<nat, int>,
    futures: seq<FutureState>,
    pings: seq<nat>,
    /** Every future that `ping` made, and those whose caller still awaits it, through a shield. */
    pingFutures: set<nat>,
    pingCallers: set<nat>,
    dead: bool,
    notes: seq<Note>)

  datatype Event =
    | Publish1 | Publish2 | SendSubscribe | SendUnsubscribe
    | EndSubscribe(call: nat) | EndUnsubscribe(call: nat)
    | Puback(pid: int) | Pubrec(pid: int, reason: int) | Pubcomp(pid: int)
    | Suback(pid: int) | Unsuback(pid: int)
    /** The caller that awaits a future is cancelled; PingTimesOut is the timeout of `ping`. */
    | Cancel(future: nat)
    | PingTimesOut(future: nat)
    | Ping | Pong
    | RunEnds

  datatype Outcome = Fine | Disconnected | NoFreeId | UnknownId | WrongState | AlreadyDone | NotListed

  const FreshSession := Session(Pool(1, {}), map[], map[], map[], map[], map[], map[], [], [], {}, {}, false, [])

  function Settle(futures: seq<FutureState>, f: nat, to: FutureState): seq<FutureState> {
    if f < |futures| && futures[f] == Pending then futures[f := to] else futures
  }

  function SettleAll(futures: seq<FutureState>, which: set<nat>, to: FutureState): (r: seq<FutureState>)
    ensures |r| == |futures|
    ensures forall f :: 0 <= f < |r| ==> r[f] == if f in which && futures[f] == Pending then to else futures[f]
  {
    seq(|futures|, i requires 0 <= i < |futures| => if i in which && futures[i] == Pending then to else futures[i])
  }

  /** `list.remove`: without its first occurrence. */
  function Without(pings: seq<nat>, f: nat): seq<nat> {
    if pings == [] then [] else if pings[0] == f then pings[1..] else [pings[0]] + Without(pings[1..], f)
  }

  lemma {:induction false} WithoutKeepsOthers(pings: seq<nat>, f: nat)
    ensures forall g :: g in Without(pings, f) ==> g in pings
    ensures forall g :: g in pings && g != f ==> g in Without(pings, f)
  {
    if pings != [] && pings[0] != f {
      WithoutKeepsOthers(pings[1..], f);
      assert pings == [pings[0]] + pings[1..];
    }
  }

  function Qos2Futures(qos2: map<int, Flight>): set<nat> { set pid | pid in qos2 :: qos2[pid].future }

  /** The futures of the four ack tables. */
  function TableFutures(s: Session): set<nat> {
    s.qos1.Values + Qos2Futures(s.qos2) + s.subs.Values + s.unsubs.Values
  }

  /** Takes an identifier and makes a future for a new exchange, unless that is refused. */
  function Opening(s: Session): Outcome {
    if s.dead then Disconnected
    else if LeastFree(s.pool.inUse) > MAX_ID then NoFreeId
    else Fine
  }

  function Opened(s: Session): Session {
    s.(pool := AcquireFrom(s.pool), futures := s.futures + [Pending])
  }

  /** What only the running read loop, or its end, does. */
  predicate NeedsRun(e: Event) {
    e.Puback? || e.Pubrec? || e.Pubcomp? || e.Suback? || e.Unsuback? || e.Pong? || e.RunEnds?
  }

  predicate IsRequest(e: Event) {
    e.Publish1? || e.Publish2? || e.SendSubscribe? || e.SendUnsubscribe? || e.EndSubscribe? || e.EndUnsubscribe?
  }

  predicate IsAck(e: Event) { e.Puback? || e.Pubrec? || e.Pubcomp? || e.Suback? || e.Unsuback? }

  /** The calls of the application, up to their wait and after it. */
  function OnRequest(s: Session, e: Event): (Session, Outcome) {
    var pid := LeastFree(s.pool.inUse);
    var next := |s.futures|;
    match e
    case Publish1 =>
      if Opening(s) != Fine then (s, Opening(s))
      else (Opened(s).(qos1 := s.qos1[pid := next]), Fine)
    case Publish2 =>
      if Opening(s) != Fine then (s, Opening(s))
      else (Opened(s).(qos2 := s.qos2[pid := Flight(next, AwaitPubrec)]), Fine)
    case SendSubscribe =>
      if Opening(s) != Fine then (s, Opening(s))
      else (Opened(s).(subs := s.subs[pid := next], subCalls := s.subCalls[next := pid]), Fine)
    case SendUnsubscribe =>
      if Opening(s) != Fine then (s, Opening(s))
      else (Opened(s).(unsubs := s.unsubs[pid := next], unsubCalls := s.unsubCalls[next := pid]), Fine)
    case EndSubscribe(call) =>
      if call !in s.subCalls then (s, Fine)
      else
        var id := s.subCalls[call];
        (s.(subs := s.subs - {id}, subCalls := s.subCalls - {call}, pool := ReleaseTo(s.pool, id)), Fine)
    case EndUnsubscribe(call) =>
      if call !in s.unsubCalls then (s, Fine)
      else
        var id := s.unsubCalls[call];
        (s.(unsubs := s.unsubs - {id}, unsubCalls := s.unsubCalls - {call}, pool := ReleaseTo(s.pool, id)), Fine)
    case _ => (s, Fine)
  }

  /** The handlers of the acknowledgements. */
  function OnAck(s: Session, e: Event): (Session, Outcome) {
    match e
    case Puback(id) =>
      if id !in s.qos1 then (s, UnknownId)
      else (s.(qos1 := s.qos1 - {id}, pool := ReleaseTo(s.pool, id),
               futures := Settle(s.futures, s.qos1[id], Resolved)), Fine)
    case Pubrec(id, reason) =>
      if id !in s.qos2 then (s, UnknownId)
      else if s.qos2[id].phase != AwaitPubrec then (s, WrongState)
      else if reason >= 0x80 then
        (s.(qos2 := s.qos2 - {id}, pool := ReleaseTo(s.pool, id),
            futures := Settle(s.futures, s.qos2[id].future, Failed),
            notes := s.notes + [PubrecRejected(s.qos2[id].future)]), Fine)
      else
        (s.(qos2 := s.qos2[id := s.qos2[id].(phase := AwaitPubcomp)],
            notes := s.notes + [PubrelSent(s.qos2[id].future)]), Fine)
    case Pubcomp(id) =>
      if id !in s.qos2 then (s, UnknownId)
      else (s.(qos2 := s.qos2 - {id}, pool := ReleaseTo(s.pool, id),
               futures := Settle(s.futures, s.qos2[id].future, Resolved)), Fine)
    case Suback(id) =>
      if id !in s.subs then (s, UnknownId)
      else if s.subs[id] < |s.futures| && s.futures[s.subs[id]] != Pending then (s, AlreadyDone)
      else (s.(futures := Settle(s.futures, s.subs[id], Resolved)), Fine)
    case Unsuback(id) =>
      if id !in s.unsubs then (s, UnknownId)
      else if s.unsubs[id] < |s.futures| && s.futures[s.unsubs[id]] != Pending then (s, AlreadyDone)
      else (s.(futures := Settle(s.futures, s.unsubs[id], Resolved)), Fine)
    case _ => (s, Fine)
  }

  /** The caller that awaits a future is cancelled; a shielded future, and its place in the list, outlive it. */
  function OnCancel(s: Session, f: nat): Session {
    if f in s.pingFutures then s.(pingCallers := s.pingCallers - {f}) else s.(futures := Settle(s.futures, f, Cancelled))
  }

  /** The timeout of `ping` takes the waiter out of the list. */
  function OnPingTimeout(s: Session, f: nat): (Session, Outcome) {
    if f !in s.pingCallers || f >= |s.futures| || s.futures[f] != Pending then (s, Fine)
    else if f !in s.pings then (s, NotListed)
    else (s.(pings := Without(s.pings, f), pingCallers := s.pingCallers - {f}), Fine)
  }

  function OnPing(s: Session): Session {
    var next := |s.futures|;
    s.(futures := s.futures + [Pending], pings := s.pings + [next],
       pingFutures := s.pingFutures + {next}, pingCallers := s.pingCallers + {next})
  }

  function OnPong(s: Session): Session {
    if s.pings == [] then s else s.(pings := s.pings[1..], futures := Settle(s.futures, s.pings[0], Resolved))
  }

  function Listed(pings: seq<nat>): set<nat> { set f | f in pings }

  /** `_cancel_pending` over the tables and the pings. */
  function OnRunEnds(s: Session): Session {
    s.(dead := true, pings := [], futures := SettleAll(s.futures, TableFutures(s) + Listed(s.pings), Failed))
  }

  /** The waits: callers that give up, the pings, and the end of `run()`. */
  function OnWait(s: Session, e: Event): (Session, Outcome) {
    match e
    case Cancel(f) => (OnCancel(s, f), Fine)
    case PingTimesOut(f) => OnPingTimeout(s, f)
    case Ping => (OnPing(s), Fine)
    case Pong => (OnPong(s), Fine)
    case RunEnds => (OnRunEnds(s), Fine)
    case _ => (s, Fine)
  }

  function Step(s: Session, e: Event): (Session, Outcome) {
    if s.dead && NeedsRun(e) then (s, Disconnected)
    else if IsRequest(e) then OnRequest(s, e)
    else if IsAck(e) then OnAck(s, e)
    else OnWait(s, e)
  }

  function Run(s: Session, events: seq<Event>): Session {
    if events == [] then s else Step(Run(s, events[..|events| - 1]), events[|events| - 1]).0
  }

  // ----- What every reachable state keeps -----

  /** Section 2.2.1 of MQTT Version 5.0: an identifier in use belongs to exactly one exchange. */
  ghost predicate IdsOwned(pool: Pool, qos1: map<int, nat>, qos2: map<int, Flight>, subs: map<int, nat>, unsubs: map<int, nat>) {
    && PoolOk(pool)
    && (forall pid :: pid in pool.inUse <==> pid in qos1 || pid in qos2 || pid in subs || pid in unsubs)
    && (forall pid :: pid in qos1 ==> pid !in qos2 && pid !in subs && pid !in unsubs)
    && (forall pid :: pid in qos2 ==> pid !in subs && pid !in unsubs)
    && (forall pid :: pid in subs ==> pid !in unsubs)
  }

  /** Every suspended call still owns its table entry, and no entry is without its call. */
  ghost predicate CallsOwn(table: map<int, nat>, calls: map<nat, int>) {
    && (forall f {:trigger calls[f]} :: f in calls ==> calls[f] in table && table[calls[f]] == f)
    && (forall pid {:trigger table[pid]} :: pid in table ==> table[pid] in calls && calls[table[pid]] == pid)
  }

  ghost predicate FuturesMade(qos1: map<int, nat>, qos2: map<int, Flight>, subs: map<int, nat>, unsubs: map<int, nat>,
                              pings: seq<nat>, made: nat)
  {
    && (forall pid :: pid in qos1 ==> qos1[pid] < made)
    && (forall pid :: pid in qos2 ==> qos2[pid].future < made)
    && (forall pid :: pid in subs ==> subs[pid] < made)
    && (forall pid :: pid in unsubs ==> unsubs[pid] < made)
    && (forall i :: 0 <= i < |pings| ==> pings[i] < made)
  }

  ghost predicate FlightsDiffer(qos2: map<int, Flight>) {
    forall p, q :: p in qos2 && q in qos2 && p != q ==> qos2[p].future != qos2[q].future
  }

  /** Each exchange has at most one note; one that still awaits its PUBREC has none, and one that awaits
    its PUBCOMP has had its PUBREL sent. */
  ghost predicate NotesOk(notes: seq<Note>, qos2: map<int, Flight>, made: nat) {
    && (forall i :: 0 <= i < |notes| ==> notes[i].exchange < made)
    && (forall i, j :: 0 <= i < j < |notes| ==> notes[i].exchange != notes[j].exchange)
    && (forall pid, i :: pid in qos2 && 0 <= i < |notes| && qos2[pid].phase == AwaitPubrec
          ==> notes[i].exchange != qos2[pid].future)
    && (forall pid :: pid in qos2 && qos2[pid].phase == AwaitPubcomp ==> PubrelSent(qos2[pid].future) in notes)
  }

  predicate IsDone(futures: seq<FutureState>, f: nat) { f < |futures| && futures[f] != Pending }

  /** No caller waits for an acknowledgement that nothing will bring any more. */
  ghost predicate AllDone(futures: seq<FutureState>, qos1: map<int, nat>, qos2: map<int, Flight>,
                          subs: map<int, nat>, unsubs: map<int, nat>)
  {
    && (forall pid :: pid in qos1 ==> IsDone(futures, qos1[pid]))
    && (forall pid :: pid in qos2 ==> IsDone(futures, qos2[pid].future))
    && (forall pid :: pid in subs ==> IsDone(futures, subs[pid]))
    && (forall pid :: pid in unsubs ==> IsDone(futures, unsubs[pid]))
  }

  ghost predicate Inv(s: Session) {
    && IdsOwned(s.pool, s.qos1, s.qos2, s.subs, s.unsubs)
    && CallsOwn(s.subs, s.subCalls) && CallsOwn(s.unsubs, s.unsubCalls)
    && FuturesMade(s.qos1, s.qos2, s.subs, s.unsubs, s.pings, |s.futures|)
    && FlightsDiffer(s.qos2) && NotesOk(s.notes, s.qos2, |s.futures|)
    && (s.dead ==> AllDone(s.futures, s.qos1, s.qos2, s.subs, s.unsubs))
  }

  lemma OpeningKeepsIds(s: Session)
    requires IdsOwned(s.pool, s.qos1, s.qos2, s.subs, s.unsubs) && Opening(s) == Fine
    ensures PoolOk(Opened(s).pool)
    ensures LeastFree(s.pool.inUse) !in s.pool.inUse
    ensures Opened(s).pool.inUse == s.pool.inUse + {LeastFree(s.pool.inUse)}
  {
    AcquireKeepsPool(s.pool);
  }

  /** An exchange that opens gets an identifier that is in no table, and owns it from then on. */
  lemma OpenedOwnsItsId(s: Session, future: nat, flight: Flight)
    requires IdsOwned(s.pool, s.qos1, s.qos2, s.subs, s.unsubs) && Opening(s) == Fine
    ensures var pid, pool := LeastFree(s.pool.inUse), Opened(s).pool;
      && pid !in s.qos1 && pid !in s.qos2 && pid !in s.subs && pid !in s.unsubs
      && IdsOwned(pool, s.qos1[pid := future], s.qos2, s.subs, s.unsubs)
      && IdsOwned(pool, s.qos1, s.qos2[pid := flight], s.subs, s.unsubs)
      && IdsOwned(pool, s.qos1, s.qos2, s.subs[pid := future], s.unsubs)
      && IdsOwned(pool, s.qos1, s.qos2, s.subs, s.unsubs[pid := future])
  {
    hide IdsOwned, LeastFree, AcquireFrom;
    var pid, pool := LeastFree(s.pool.inUse), Opened(s).pool;
    OpeningKeepsIds(s);
    NewPublishOwner(s.pool, s.qos1, s.qos2, s.subs, s.unsubs, pid, pool, future, flight);
    NewRequestOwner(s.pool, s.qos1, s.qos2, s.subs, s.unsubs, pid, pool, future);
  }

  lemma NewPublishOwner(pool: Pool, qos1: map<int, nat>, qos2: map<int, Flight>, subs: map<int, nat>, unsubs: map<int, nat>,
                        pid: int, after: Pool, f: nat, flight: Flight)
    requires IdsOwned(pool, qos1, qos2, subs, unsubs)
    requires pid !in pool.inUse && PoolOk(after) && after.inUse == pool.inUse + {pid}
    ensures pid !in qos1 && pid !in qos2 && pid !in subs && pid !in unsubs
    ensures IdsOwned(after, qos1[pid := f], qos2, subs, unsubs)
    ensures IdsOwned(after, qos1, qos2[pid := flight], subs, unsubs)
  {
    hide PoolOk;
  }

  lemma NewRequestOwner(pool: Pool, qos1: map<int, nat>, qos2: map<int, Flight>, subs: map<int, nat>, unsubs: map<int, nat>,
                        pid: int, after: Pool, f: nat)
    requires IdsOwned(pool, qos1, qos2, subs, unsubs)
    requires pid !in pool.inUse && PoolOk(after) && after.inUse == pool.inUse + {pid}
    ensures IdsOwned(after, qos1, qos2, subs[pid := f], unsubs)
    ensures IdsOwned(after, qos1, qos2, subs, unsubs[pid := f])
  {
    hide PoolOk;
  }

  lemma NotesOkLater(notes: seq<Note>, qos2: map<int, Flight>, made: nat)
    requires NotesOk(notes, qos2, made)
    ensures NotesOk(notes, qos2, made + 1)
  {}

  lemma Publish1KeepsInv(s: Session, e: Event)
    requires Inv(s) && e.Publish1?
    ensures Inv(Step(s, e).0)
  {
    hide OnAck, OnWait, FlightsDiffer, IdsOwned, NotesOk, CallsOwn, LeastFree, AcquireFrom;
    if Opening(s) == Fine {
      OpenedOwnsItsId(s, |s.futures|, Flight(|s.futures|, AwaitPubrec));
      NotesOkLater(s.notes, s.qos2, |s.futures|);
    }
  }

  lemma Publish2KeepsInv(s: Session, e: Event)
    requires Inv(s) && e.Publish2?
    ensures Inv(Step(s, e).0)
  {
    hide OnAck, OnWait, CallsOwn, IdsOwned, LeastFree, AcquireFrom;
    if Opening(s) == Fine { OpenedOwnsItsId(s, |s.futures|, Flight(|s.futures|, AwaitPubrec)); }
  }

  lemma NewCallOwns(table: map<int, nat>, calls: map<nat, int>, pid: int, f: nat)
    requires CallsOwn(table, calls) && pid !in table && forall p :: p in table ==> table[p] != f
    ensures CallsOwn(table[pid := f], calls[f := pid])
  {
    assert forall g {:trigger g in calls} :: g in calls ==> calls[g] in table && table[calls[g]] == g;
  }

  lemma SendSubscribeKeepsInv(s: Session, e: Event)
    requires Inv(s) && e.SendSubscribe?
    ensures Inv(Step(s, e).0)
  {
    hide OnAck, OnWait, CallsOwn, FlightsDiffer, IdsOwned, NotesOk, LeastFree, AcquireFrom;
    if Opening(s) == Fine {
      OpenedOwnsItsId(s, |s.futures|, Flight(|s.futures|, AwaitPubrec));
      NotesOkLater(s.notes, s.qos2, |s.futures|);
      NewCallOwns(s.subs, s.subCalls, LeastFree(s.pool.inUse), |s.futures|);
    }
  }

  lemma SendUnsubscribeKeepsInv(s: Session, e: Event)
    requires Inv(s) && e.SendUnsubscribe?
    ensures Inv(Step(s, e).0)
  {
    hide OnAck, OnWait, CallsOwn, FlightsDiffer, IdsOwned, NotesOk, LeastFree, AcquireFrom;
    if Opening(s) == Fine {
      OpenedOwnsItsId(s, |s.futures|, Flight(|s.futures|, AwaitPubrec));
      NotesOkLater(s.notes, s.qos2, |s.futures|);
      NewCallOwns(s.unsubs, s.unsubCalls, LeastFree(s.pool.inUse), |s.futures|);
    }
  }

  /** The identifier that an exchange gives back is in no table any more. */
  lemma ReleasedPublish(pool: Pool, qos1: map<int, nat>, qos2: map<int, Flight>, subs: map<int, nat>,
                        unsubs: map<int, nat>, pid: int)
    requires IdsOwned(pool, qos1, qos2, subs, unsubs)
    ensures pid in qos1 ==> IdsOwned(ReleaseTo(pool, pid), qos1 - {pid}, qos2, subs, unsubs)
    ensures pid in qos2 ==> IdsOwned(ReleaseTo(pool, pid), qos1, qos2 - {pid}, subs, unsubs)
  {
    hide PoolOk;
    if pid in qos1 || pid in qos2 { ReleasedPoolOk(pool, pid); }
  }

  lemma ReleasedRequest(pool: Pool, qos1: map<int, nat>, qos2: map<int, Flight>, subs: map<int, nat>,
                        unsubs: map<int, nat>, pid: int)
    requires IdsOwned(pool, qos1, qos2, subs, unsubs)
    ensures pid in subs ==> IdsOwned(ReleaseTo(pool, pid), qos1, qos2, subs - {pid}, unsubs)
    ensures pid in unsubs ==> IdsOwned(ReleaseTo(pool, pid), qos1, qos2, subs, unsubs - {pid})
  {
    hide PoolOk;
    if pid in subs || pid in unsubs { ReleasedPoolOk(pool, pid); }
  }

  lemma ReleasedPoolOk(pool: Pool, pid: int)
    requires PoolOk(pool) && pid in pool.inUse
    ensures PoolOk(ReleaseTo(pool, pid))
  {
    ReleaseKeepsPoolExactlyWhenPositive(pool, pid);
  }

  lemma EndSubscribeKeepsInv(s: Session, e: Event)
    requires Inv(s) && e.EndSubscribe?
    ensures Inv(Step(s, e).0)
  {
    hide OnAck, OnWait, IdsOwned, ReleaseTo, FlightsDiffer, NotesOk, LeastFree, AcquireFrom;
    if e.call in s.subCalls { ReleasedRequest(s.pool, s.qos1, s.qos2, s.subs, s.unsubs, s.subCalls[e.call]); }
  }

  lemma EndUnsubscribeKeepsInv(s: Session, e: Event)
    requires Inv(s) && e.EndUnsubscribe?
    ensures Inv(Step(s, e).0)
  {
    hide OnAck, OnWait, IdsOwned, ReleaseTo, FlightsDiffer, NotesOk, LeastFree, AcquireFrom;
    if e.call in s.unsubCalls { ReleasedRequest(s.pool, s.qos1, s.qos2, s.subs, s.unsubs, s.unsubCalls[e.call]); }
  }

  lemma PubackKeepsInv(s: Session, e: Event)
    requires Inv(s) && e.Puback?
    ensures Inv(Step(s, e).0)
  {
    hide OnRequest, OnWait, IdsOwned, ReleaseTo, CallsOwn, FlightsDiffer, NotesOk;
    if e.pid in s.qos1 { ReleasedPublish(s.pool, s.qos1, s.qos2, s.subs, s.unsubs, e.pid); }
  }

  /** A first PUBREC adds the exchange's only note. */
  lemma FirstPubrecNote(notes: seq<Note>, qos2: map<int, Flight>, made: nat, pid: int, note: Note)
    requires FlightsDiffer(qos2) && NotesOk(notes, qos2, made)
    requires pid in qos2 && qos2[pid].phase == AwaitPubrec && note.exchange == qos2[pid].future < made
    ensures NotesOk(notes + [note], qos2 - {pid}, made)
    ensures note.PubrelSent? ==> NotesOk(notes + [note], qos2[pid := qos2[pid].(phase := AwaitPubcomp)], made)
  {}

  lemma RejectingPubrecKeepsInv(s: Session, e: Event)
    requires Inv(s) && e.Pubrec? && e.pid in s.qos2 && s.qos2[e.pid].phase == AwaitPubrec && e.reason >= 0x80
    ensures Inv(Step(s, e).0)
  {
    hide OnRequest, OnWait, IdsOwned, ReleaseTo, CallsOwn, NotesOk;
    FirstPubrecNote(s.notes, s.qos2, |s.futures|, e.pid, PubrecRejected(s.qos2[e.pid].future));
    ReleasedPublish(s.pool, s.qos1, s.qos2, s.subs, s.unsubs, e.pid);
  }

  lemma AcceptingPubrecKeepsInv(s: Session, e: Event)
    requires Inv(s) && e.Pubrec? && e.pid in s.qos2 && s.qos2[e.pid].phase == AwaitPubrec && e.reason < 0x80
    ensures Inv(Step(s, e).0)
  {
    hide OnRequest, OnWait, CallsOwn, NotesOk;
    FirstPubrecNote(s.notes, s.qos2, |s.futures|, e.pid, PubrelSent(s.qos2[e.pid].future));
  }

  lemma PubrecKeepsInv(s: Session, e: Event)
    requires Inv(s) && e.Pubrec?
    ensures Inv(Step(s, e).0)
  {
    hide OnRequest, OnWait, Inv;
    if e.pid in s.qos2 && s.qos2[e.pid].phase == AwaitPubrec {
      if e.reason >= 0x80 { RejectingPubrecKeepsInv(s, e); } else { AcceptingPubrecKeepsInv(s, e); }
    }
  }

  lemma PubcompKeepsInv(s: Session, e: Event)
    requires Inv(s) && e.Pubcomp?
    ensures Inv(Step(s, e).0)
  {
    hide OnRequest, OnWait, IdsOwned, ReleaseTo, CallsOwn;
    if e.pid in s.qos2 { ReleasedPublish(s.pool, s.qos1, s.qos2, s.subs, s.unsubs, e.pid); }
  }

  lemma SubackKeepsInv(s: Session, e: Event)
    requires Inv(s) && e.Suback?
    ensures Inv(Step(s, e).0)
  {
    hide OnRequest, OnWait, IdsOwned, CallsOwn, FuturesMade, FlightsDiffer, NotesOk;
  }

  lemma UnsubackKeepsInv(s: Session, e: Event)
    requires Inv(s) && e.Unsuback?
    ensures Inv(Step(s, e).0)
  {
    hide OnRequest, OnWait, IdsOwned, CallsOwn, FuturesMade, FlightsDiffer, NotesOk;
  }

  lemma SettlingKeepsDone(futures: seq<FutureState>, f: nat, to: FutureState, qos1: map<int, nat>, qos2: map<int, Flight>,
                          subs: map<int, nat>, unsubs: map<int, nat>)
    requires AllDone(futures, qos1, qos2, subs, unsubs)
    ensures AllDone(Settle(futures, f, to), qos1, qos2, subs, unsubs)
  {}

  lemma CancelStep(s: Session, e: Event)
    requires e.Cancel?
    ensures Step(s, e).0 == OnCancel(s, e.future)
  {
    hide OnCancel;
  }

  lemma CancelKeepsInv(s: Session, e: Event)
    requires Inv(s) && e.Cancel?
    ensures Inv(Step(s, e).0)
  {
    hide Step, IdsOwned, CallsOwn, FuturesMade, FlightsDiffer, NotesOk, AllDone;
    CancelStep(s, e);
    if s.dead { SettlingKeepsDone(s.futures, e.future, Cancelled, s.qos1, s.qos2, s.subs, s.unsubs); }
  }

  lemma PingTimesOutKeepsInv(s: Session, e: Event)
    requires Inv(s) && e.PingTimesOut?
    ensures Inv(Step(s, e).0)
  {
    hide OnRequest, OnAck, IdsOwned, CallsOwn, FlightsDiffer, NotesOk, Without, OnCancel, OnPing, OnPong, OnRunEnds;
    WithoutKeepsOthers(s.pings, e.future);
    var left := Without(s.pings, e.future);
    forall i | 0 <= i < |left| ensures left[i] < |s.futures| {
      assert left[i] in s.pings;
    }
  }

  lemma PingKeepsInv(s: Session, e: Event)
    requires Inv(s) && e.Ping?
    ensures Inv(Step(s, e).0)
  {
    hide OnRequest, OnAck, IdsOwned, CallsOwn, FlightsDiffer, OnCancel, OnPingTimeout, OnPong, OnRunEnds;
  }

  lemma PongKeepsInv(s: Session, e: Event)
    requires Inv(s) && e.Pong?
    ensures Inv(Step(s, e).0)
  {
    hide OnRequest, OnAck, IdsOwned, CallsOwn, FlightsDiffer, NotesOk, OnCancel, OnPingTimeout, OnPing, OnRunEnds;
  }

  lemma SettledTablesAreDone(s: Session, which: set<nat>)
    requires FuturesMade(s.qos1, s.qos2, s.subs, s.unsubs, s.pings, |s.futures|) && TableFutures(s) <= which
    ensures AllDone(SettleAll(s.futures, which, Failed), s.qos1, s.qos2, s.subs, s.unsubs)
  {
    hide SettleAll;
    var after := SettleAll(s.futures, which, Failed);
    assert forall f :: f in TableFutures(s) && f < |s.futures| ==> IsDone(after, f);
    assert forall pid :: pid in s.qos1 ==> s.qos1[pid] in TableFutures(s);
    assert forall pid :: pid in s.qos2 ==> s.qos2[pid].future in TableFutures(s);
    assert forall pid :: pid in s.subs ==> s.subs[pid] in TableFutures(s);
    assert forall pid :: pid in s.unsubs ==> s.unsubs[pid] in TableFutures(s);
  }

  lemma RunEndsKeepsInv(s: Session, e: Event)
    requires Inv(s) && e.RunEnds?
    ensures Inv(Step(s, e).0)
  {
    hide OnRequest, OnAck, IdsOwned, CallsOwn, FlightsDiffer, NotesOk, TableFutures, SettleAll, AllDone, LeastFree,
         OnCancel, OnPingTimeout, OnPing, OnPong;
    SettledTablesAreDone(s, TableFutures(s) + Listed(s.pings));
  }

  lemma StepKeepsInv(s: Session, e: Event)
    requires Inv(s)
    ensures Inv(Step(s, e).0)
  {
    hide Inv, Step;
    match e
    case Publish1 => Publish1KeepsInv(s, e);
    case Publish2 => Publish2KeepsInv(s, e);
    case SendSubscribe => SendSubscribeKeepsInv(s, e);
    case SendUnsubscribe => SendUnsubscribeKeepsInv(s, e);
    case EndSubscribe(_) => EndSubscribeKeepsInv(s, e);
    case EndUnsubscribe(_) => EndUnsubscribeKeepsInv(s, e);
    case Puback(_) => PubackKeepsInv(s, e);
    case Pubrec(_, _) => PubrecKeepsInv(s, e);
    case Pubcomp(_) => PubcompKeepsInv(s, e);
    case Suback(_) => SubackKeepsInv(s, e);
    case Unsuback(_) => UnsubackKeepsInv(s, e);
    case Cancel(_) => CancelKeepsInv(s, e);
    case PingTimesOut(_) => PingTimesOutKeepsInv(s, e);
    case Ping => PingKeepsInv(s, e);
    case Pong => PongKeepsInv(s, e);
    case RunEnds => RunEndsKeepsInv(s, e);
  }

  lemma {:induction false} ReachableStatesKeepInv(events: seq<Event>)
    ensures Inv(Run(FreshSession, events))
  {
    if events != [] {
      var before, e := Run(FreshSession, events[..|events| - 1]), events[|events| - 1];
      ReachableStatesKeepInv(events[..|events| - 1]);
      StepKeepsInv(before, e);
    }
  }

  lemma InvParts(s: Session)
    requires Inv(s)
    ensures PoolOk(s.pool)
    ensures forall pid :: pid in s.qos2 ==> pid >= 1
    ensures forall pid :: pid in s.subs ==> s.subs[pid] < |s.futures|
    ensures forall pid :: pid in s.unsubs ==> s.unsubs[pid] < |s.futures|
    ensures forall call :: call in s.subCalls ==> s.subCalls[call] >= 1
    ensures forall call :: call in s.unsubCalls ==> s.unsubCalls[call] >= 1
  {}

  /** No identifier but `pid` is freed, and if it is, its exchange in the one table is gone and the
    other tables are as they were. */
  predicate FreesAtMost(s: Session, t: Session, pid: int, atQos1: bool) {
    && s.pool.inUse - t.pool.inUse <= {pid}
    && t.pool.inUse <= s.pool.inUse
    && t.subs == s.subs && t.unsubs == s.unsubs
    && (pid !in t.pool.inUse && pid in s.pool.inUse ==>
          && pid !in t.qos1 && pid !in t.qos2 && pid !in t.subs && pid !in t.unsubs
          && (if atQos1 then pid in s.qos1 && t.qos2 == s.qos2 else pid in s.qos2 && t.qos1 == s.qos1))
  }

  lemma PubackFrees(s: Session, e: Event)
    requires Inv(s) && e.Puback?
    ensures FreesAtMost(s, Step(s, e).0, e.pid, e.Puback?)
  {
    hide OnRequest, OnWait, CallsOwn, NotesOk, FlightsDiffer, FuturesMade, PoolOk, AllDone, Settle, LeastFree, Opening,
         Opened, SettleAll, TableFutures;
  }

  lemma PubrecFrees(s: Session, e: Event)
    requires Inv(s) && e.Pubrec?
    ensures FreesAtMost(s, Step(s, e).0, e.pid, e.Puback?)
  {
    hide OnRequest, OnWait, CallsOwn, NotesOk, FlightsDiffer, FuturesMade, PoolOk, AllDone, Settle, LeastFree, Opening,
         Opened, SettleAll, TableFutures;
  }

  lemma PubcompFrees(s: Session, e: Event)
    requires Inv(s) && e.Pubcomp?
    ensures FreesAtMost(s, Step(s, e).0, e.pid, e.Puback?)
  {
    hide OnRequest, OnWait, CallsOwn, NotesOk, FlightsDiffer, FuturesMade, PoolOk, AllDone, Settle, LeastFree, Opening,
         Opened, SettleAll, TableFutures;
  }

  /** An acknowledgement frees the identifier of the exchange it acknowledges and nothing else. */
  lemma AckFreesOnlyItsOwnId(s: Session, e: Event)
    requires Inv(s) && (e.Puback? || e.Pubrec? || e.Pubcomp?)
    ensures FreesAtMost(s, Step(s, e).0, e.pid, e.Puback?)
  {
    hide Inv, Step, FreesAtMost;
    match e
    case Puback(_) => PubackFrees(s, e);
    case Pubrec(_, _) => PubrecFrees(s, e);
    case Pubcomp(_) => PubcompFrees(s, e);
  }

  /** In every run each outbound QoS 2 exchange sends PUBREL at most once, and never after a
    PUBREC that rejected it (section 4.3.3 of MQTT Version 5.0). */
  lemma AtMostOnePubrel(events: seq<Event>)
    ensures var notes := Run(FreshSession, events).notes;
      forall i, j :: 0 <= i < j < |notes| && notes[j].PubrelSent? ==> notes[i].exchange != notes[j].exchange
  {
    ReachableStatesKeepInv(events);
  }

  lemma DeadStaysDead(s: Session, e: Event)
    ensures s.dead || e.RunEnds? ==> Step(s, e).0.dead
  {}

  lemma {:induction false} RunEndsForGood(before: seq<Event>, after: seq<Event>)
    ensures Run(FreshSession, before + [RunEnds] + after).dead
  {
    hide Step;
    var events := before + [RunEnds] + after;
    DeadStaysDead(Run(FreshSession, events[..|events| - 1]), events[|events| - 1]);
    if after == [] {
      assert events[..|events| - 1] == before;
    } else {
      assert events[..|events| - 1] == before + [RunEnds] + after[..|after| - 1];
      RunEndsForGood(before, after[..|after| - 1]);
    }
  }

  /** Once `run()` has ended, in whatever state, and whatever is called or resumes afterwards, every
    future in the four ack tables is done. */
  lemma NobodyWaitsForeverAfterRunEnds(before: seq<Event>, after: seq<Event>)
    ensures var s := Run(FreshSession, before + [RunEnds] + after);
      s.dead && AllDone(s.futures, s.qos1, s.qos2, s.subs, s.unsubs)
  {
    RunEndsForGood(before, after);
    ReachableStatesKeepInv(before + [RunEnds] + after);
  }

  lemma RunOneMore(events: seq<Event>, k: nat)
    requires k < |events|
    ensures Run(FreshSession, events[..k + 1]) == Step(Run(FreshSession, events[..k]), events[k]).0
  {
    assert events[..k + 1][..k] == events[..k];
  }

  /** A ping whose caller waits for its future: before the run ends it is in the list of waiters; made after
    that, its future is never settled. Afterwards it stays so until its own caller gives up. */
  ghost predicate PingTracked(t: Session, f: nat, late: bool, gaveUp: bool) {
    && f < |t.futures| && f in t.pingFutures
    && (f in t.pingCallers && t.futures[f] == Pending ==> f in t.pings)
    && (if late then t.dead && t.futures[f] == Pending && (f in t.pingCallers <==> !gaveUp)
        else t.dead ==> !(f in t.pingCallers && t.futures[f] == Pending))
  }

  predicate GivesUp(e: Event, f: nat) { e == Cancel(f) || e == PingTimesOut(f) }

  lemma SettleLeavesOthers(futures: seq<FutureState>, g: nat, to: FutureState)
    ensures var r := Settle(futures, g, to);
      |r| == |futures| && forall f :: 0 <= f < |futures| && f != g ==> r[f] == futures[f]
  {}

  lemma CancelTracked(t: Session, e: Event, f: nat, late: bool, gaveUp: bool)
    requires PingTracked(t, f, late, gaveUp) && e.Cancel?
    ensures PingTracked(Step(t, e).0, f, late, gaveUp || GivesUp(e, f))
  {
    hide Step, OnCancel;
    CancelStep(t, e);
    CancelLeavesPings(t, e.future);
  }

  lemma CancelLeavesPings(t: Session, g: nat)
    ensures var after := OnCancel(t, g);
      && after.pings == t.pings && after.pingFutures == t.pingFutures && after.dead == t.dead
      && |after.futures| == |t.futures|
      && (forall f :: f in t.pingFutures && f < |t.futures| ==> after.futures[f] == t.futures[f])
      && (forall f :: f in t.pingFutures ==> (f in after.pingCallers <==> f in t.pingCallers && f != g))
  {
    hide Settle;
    if g !in t.pingFutures { SettleLeavesOthers(t.futures, g, Cancelled); }
  }

  lemma TimeoutTracked(t: Session, e: Event, f: nat, late: bool, gaveUp: bool)
    requires PingTracked(t, f, late, gaveUp) && e.PingTimesOut?
    ensures PingTracked(Step(t, e).0, f, late, gaveUp || GivesUp(e, f))
  {
    hide OnRequest, OnAck, LeastFree, ReleaseTo, AcquireFrom, SettleAll, TableFutures, Without, Opening, Opened,
         OnCancel, OnPing, OnPong, OnRunEnds;
    WithoutKeepsOthers(t.pings, e.future);
  }

  lemma PingedTracked(t: Session, e: Event, f: nat, late: bool, gaveUp: bool)
    requires PingTracked(t, f, late, gaveUp) && e.Ping?
    ensures PingTracked(Step(t, e).0, f, late, gaveUp || GivesUp(e, f))
  {
    hide OnRequest, OnAck, LeastFree, ReleaseTo, AcquireFrom, SettleAll, TableFutures, Without, Opening, Opened,
         OnCancel, OnPingTimeout, OnPong, OnRunEnds;
  }

  lemma PongTracked(t: Session, e: Event, f: nat, late: bool, gaveUp: bool)
    requires PingTracked(t, f, late, gaveUp) && e.Pong?
    ensures PingTracked(Step(t, e).0, f, late, gaveUp || GivesUp(e, f))
  {
    hide OnRequest, OnAck, LeastFree, ReleaseTo, AcquireFrom, SettleAll, TableFutures, Without, Opening, Opened,
         OnCancel, OnPingTimeout, OnPing, OnRunEnds;
  }

  lemma RunEndTracked(t: Session, e: Event, f: nat, late: bool, gaveUp: bool)
    requires PingTracked(t, f, late, gaveUp) && e.RunEnds?
    ensures PingTracked(Step(t, e).0, f, late, gaveUp || GivesUp(e, f))
  {
    hide OnRequest, OnAck, LeastFree, ReleaseTo, AcquireFrom, TableFutures, Without, Opening, Opened, OnCancel,
         OnPingTimeout, OnPing, OnPong;
  }

  /** Acknowledgements settle futures, and a dead connection has none. */
  lemma OthersLeavePings(t: Session, e: Event)
    requires IsRequest(e) || IsAck(e)
    ensures var after := Step(t, e).0;
      && after.pings == t.pings && after.pingFutures == t.pingFutures && after.pingCallers == t.pingCallers
      && after.dead == t.dead && |t.futures| <= |after.futures| && (t.dead ==> after.futures == t.futures)
      && forall f :: 0 <= f < |t.futures| && after.futures[f] == Pending ==> t.futures[f] == Pending
  {
    hide Step;
    if IsRequest(e) { RequestsLeavePings(t, e); } else { AcksLeavePings(t, e); }
  }

  lemma RequestsLeavePings(t: Session, e: Event)
    requires IsRequest(e)
    ensures var after := Step(t, e).0;
      && after.pings == t.pings && after.pingFutures == t.pingFutures && after.pingCallers == t.pingCallers
      && after.dead == t.dead && t.futures <= after.futures && (t.dead ==> after.futures == t.futures)
  {
    hide OnAck, OnWait, LeastFree, ReleaseTo, AcquireFrom;
  }

  lemma SettlingOnlySettles(to: FutureState)
    requires to != Pending
    ensures forall futures, g :: |Settle(futures, g, to)| == |futures|
    ensures forall futures, g, f :: 0 <= f < |futures| && Settle(futures, g, to)[f] == Pending ==> futures[f] == Pending
  {}

  lemma AcksLeavePings(t: Session, e: Event)
    requires IsAck(e)
    ensures var after := Step(t, e).0;
      && after.pings == t.pings && after.pingFutures == t.pingFutures && after.pingCallers == t.pingCallers
      && after.dead == t.dead && |t.futures| <= |after.futures| && (t.dead ==> after.futures == t.futures)
      && forall f :: 0 <= f < |t.futures| && after.futures[f] == Pending ==> t.futures[f] == Pending
  {
    hide OnRequest, OnWait, ReleaseTo, Settle;
    SettlingOnlySettles(Resolved);
    SettlingOnlySettles(Failed);
  }

  lemma PingStepTracked(t: Session, e: Event, f: nat, late: bool, gaveUp: bool)
    requires PingTracked(t, f, late, gaveUp)
    ensures PingTracked(Step(t, e).0, f, late, gaveUp || GivesUp(e, f))
  {
    hide Step;
    match e
    case Cancel(_) => CancelTracked(t, e, f, late, gaveUp);
    case PingTimesOut(_) => TimeoutTracked(t, e, f, late, gaveUp);
    case Ping => PingedTracked(t, e, f, late, gaveUp);
    case Pong => PongTracked(t, e, f, late, gaveUp);
    case RunEnds => RunEndTracked(t, e, f, late, gaveUp);
    case _ => OthersLeavePings(t, e);
  }

  lemma {:induction false} PingIsTracked(events: seq<Event>, i: nat, k: nat)
    requires i < k <= |events| && events[i] == Ping
    ensures var made := Run(FreshSession, events[..i]);
      PingTracked(Run(FreshSession, events[..k]), |made.futures|, made.dead,
                  exists e :: e in events[i + 1..k] && GivesUp(e, |made.futures|))
  {
    hide Step;
    var made := Run(FreshSession, events[..i]);
    if k == i + 1 {
      RunOneMore(events, i);
      PingIsMade(made);
    } else {
      PingIsTracked(events, i, k - 1);
      RunOneMore(events, k - 1);
      assert events[i + 1..k] == events[i + 1..k - 1] + [events[k - 1]];
      PingStepTracked(Run(FreshSession, events[..k - 1]), events[k - 1], |made.futures|, made.dead,
                      exists e :: e in events[i + 1..k - 1] && GivesUp(e, |made.futures|));
    }
  }

  lemma PingIsMade(t: Session)
    ensures PingTracked(Step(t, Ping).0, |t.futures|, t.dead, false)
  {}

  /** After every run that has ended, whatever came before and after its end: the caller of a ping waits on
    a pending future exactly when it made it after the end and has not timed out or been cancelled. */
  lemma PingWaitsForeverExactlyWhenLate(events: seq<Event>, i: nat)
    requires i < |events| && events[i] == Ping && Run(FreshSession, events).dead
    ensures var made, s := Run(FreshSession, events[..i]), Run(FreshSession, events);
      var f := |made.futures|;
      && f < |s.futures|
      && (f in s.pingCallers && s.futures[f] == Pending
          <==> made.dead && Cancel(f) !in events[i + 1..] && PingTimesOut(f) !in events[i + 1..])
  {
    hide Step;
    hide Run;
    PingIsTracked(events, i, |events|);
    assert events[..|events|] == events && events[i + 1..|events|] == events[i + 1..];
    var f := |Run(FreshSession, events[..i]).futures|;
    assert (exists e :: e in events[i + 1..] && GivesUp(e, f))
      <==> Cancel(f) in events[i + 1..] || PingTimesOut(f) in events[i + 1..] by {
      assert GivesUp(Cancel(f), f) && GivesUp(PingTimesOut(f), f);
    }
  }

  /** In every run, a ping that times out finds itself in the list of waiters: `remove` never raises. */
  lemma TimedOutPingIsListed(events: seq<Event>, i: nat)
    requires i < |events| && events[i] == Ping
    ensures var f := |Run(FreshSession, events[..i]).futures|; Step(Run(FreshSession, events), PingTimesOut(f)).1 == Fine
  {
    PingIsTracked(events, i, |events|);
    assert events[..|events|] == events;
  }

  /** An exchange that is over. */
  ghost predicate IsOver(s: Session, f: nat) {
    f < |s.futures| && forall pid :: pid in s.qos2 ==> s.qos2[pid].future != f
  }

  lemma PubrecOfAnother(s: Session, pid: int, reason: int, f: nat)
    requires IsOver(s, f)
    ensures IsOver(Step(s, Pubrec(pid, reason)).0, f)
    ensures PubrelSent(f) in Step(s, Pubrec(pid, reason)).0.notes <==> PubrelSent(f) in s.notes
  {
    hide OnRequest, OnWait, ReleaseTo, Settle;
    SettlingOnlySettles(Failed);
    if pid in s.qos2 && s.qos2[pid].phase == AwaitPubrec && reason >= 0x80 {}
  }

  lemma PublishOfAnother(s: Session, f: nat)
    requires IsOver(s, f)
    ensures IsOver(Step(s, Publish2).0, f) && Step(s, Publish2).0.notes == s.notes
  {
    hide OnAck, OnWait, LeastFree, AcquireFrom;
  }

  lemma PubcompOfAnother(s: Session, pid: int, f: nat)
    requires IsOver(s, f)
    ensures IsOver(Step(s, Pubcomp(pid)).0, f) && Step(s, Pubcomp(pid)).0.notes == s.notes
  {
    hide OnRequest, OnWait, ReleaseTo;
  }

  lemma OthersLeaveFlights(s: Session, e: Event)
    requires !e.Pubrec? && !e.Pubcomp? && !e.Publish2?
    ensures var after := Step(s, e).0; after.qos2 == s.qos2 && after.notes == s.notes && |s.futures| <= |after.futures|
  {
    hide Step;
    if IsRequest(e) { OtherRequests(s, e); } else if IsAck(e) { OtherAcks(s, e); } else { WaitsLeaveFlights(s, e); }
  }

  lemma OtherRequests(s: Session, e: Event)
    requires IsRequest(e) && !e.Publish2?
    ensures var after := Step(s, e).0; after.qos2 == s.qos2 && after.notes == s.notes && |s.futures| <= |after.futures|
  {
    hide OnAck, OnWait, LeastFree, ReleaseTo, AcquireFrom;
  }

  lemma OtherAcks(s: Session, e: Event)
    requires IsAck(e) && !e.Pubrec? && !e.Pubcomp?
    ensures var after := Step(s, e).0; after.qos2 == s.qos2 && after.notes == s.notes && |s.futures| <= |after.futures|
  {
    hide OnRequest, OnWait, ReleaseTo;
  }

  lemma WaitsLeaveFlights(s: Session, e: Event)
    requires !IsRequest(e) && !IsAck(e)
    ensures var after := Step(s, e).0; after.qos2 == s.qos2 && after.notes == s.notes && |s.futures| <= |after.futures|
  {
    hide OnRequest, OnAck, OnCancel, OnPingTimeout, OnPing, OnPong, OnRunEnds;
    WaitLeavesFlights(s, e);
  }

  lemma WaitLeavesFlights(s: Session, e: Event)
    ensures var after := OnWait(s, e).0; after.qos2 == s.qos2 && after.notes == s.notes && |s.futures| <= |after.futures|
  {
    hide OnCancel, OnPingTimeout, OnPing, OnPong, OnRunEnds;
    if e.Cancel? { CancelLeavesFlights(s, e.future); }
    if e.PingTimesOut? { TimeoutLeavesFlights(s, e.future); }
    if e.Ping? || e.Pong? { PingsLeaveFlights(s); }
    if e.RunEnds? { RunEndLeavesFlights(s); }
  }

  lemma CancelLeavesFlights(s: Session, f: nat)
    ensures var after := OnCancel(s, f); after.qos2 == s.qos2 && after.notes == s.notes && |s.futures| <= |after.futures|
  {
    if f in s.pingFutures {}
  }

  lemma TimeoutLeavesFlights(s: Session, f: nat)
    ensures var after := OnPingTimeout(s, f).0; after.qos2 == s.qos2 && after.notes == s.notes && |s.futures| <= |after.futures|
  {
    hide Without;
  }

  lemma PingsLeaveFlights(s: Session)
    ensures var after := OnPing(s); after.qos2 == s.qos2 && after.notes == s.notes && |s.futures| <= |after.futures|
    ensures var after := OnPong(s); after.qos2 == s.qos2 && after.notes == s.notes && |s.futures| <= |after.futures|
  {
    if s.pings == [] {}
  }

  lemma RunEndLeavesFlights(s: Session)
    ensures var after := OnRunEnds(s); after.qos2 == s.qos2 && after.notes == s.notes && |s.futures| <= |after.futures|
  {
    hide TableFutures;
  }

  lemma OverStaysOver(s: Session, e: Event, f: nat)
    requires IsOver(s, f)
    ensures IsOver(Step(s, e).0, f)
    ensures PubrelSent(f) in Step(s, e).0.notes <==> PubrelSent(f) in s.notes
  {
    hide Step;
    match e
    case Pubrec(pid, reason) => PubrecOfAnother(s, pid, reason, f);
    case Pubcomp(pid) => PubcompOfAnother(s, pid, f);
    case Publish2 => PublishOfAnother(s, f);
    case _ => OthersLeaveFlights(s, e);
  }

  lemma {:induction false} NoPubrelAfterTheEnd(before: seq<Event>, after: seq<Event>, f: nat)
    requires IsOver(Run(FreshSession, before), f)
    ensures IsOver(Run(FreshSession, before + after), f)
    ensures PubrelSent(f) in Run(FreshSession, before + after).notes <==> PubrelSent(f) in Run(FreshSession, before).notes
  {
    hide Step;
    if after == [] {
      assert before + after == before;
    } else {
      var n := |after| - 1;
      NoPubrelAfterTheEnd(before, after[..n], f);
      assert (before + after)[..|before| + n] == before + after[..n];
      OverStaysOver(Run(FreshSession, before + after[..n]), after[n], f);
    }
  }

  /** A PUBCOMP ends its exchange in either phase: in every run, whatever follows, a PUBREL goes out
    for that exchange if and only if the PUBCOMP found it past its PUBREC. */
  lemma PubcompSkipsPubrelExactlyBeforePubrec(before: seq<Event>, pid: int, after: seq<Event>)
    requires var s := Run(FreshSession, before); !s.dead && pid in s.qos2
    ensures var s, ended := Run(FreshSession, before), Run(FreshSession, before + [Pubcomp(pid)]);
      && pid !in ended.qos2 && pid !in ended.pool.inUse && ended.futures == Settle(s.futures, s.qos2[pid].future, Resolved)
      && (PubrelSent(s.qos2[pid].future) in Run(FreshSession, before + [Pubcomp(pid)] + after).notes
          <==> s.qos2[pid].phase == AwaitPubcomp)
  {
    var s := Run(FreshSession, before);
    ReachableStatesKeepInv(before);
    assert (before + [Pubcomp(pid)])[..|before|] == before;
    NoPubrelAfterTheEnd(before + [Pubcomp(pid)], after, s.qos2[pid].future);
  }

  /** A second SUBACK or UNSUBACK, or one for a cancelled caller, finds a future that is done. */
  lemma AckOfDoneCallRaises(s: Session, pid: int)
    requires Inv(s) && !s.dead
    ensures pid in s.subs ==>
      && (Step(s, Suback(pid)).1 == AlreadyDone <==> s.futures[s.subs[pid]] != Pending)
      && Step(Step(s, Suback(pid)).0, Suback(pid)).1 == AlreadyDone
    ensures pid in s.unsubs ==>
      && (Step(s, Unsuback(pid)).1 == AlreadyDone <==> s.futures[s.unsubs[pid]] != Pending)
      && Step(Step(s, Unsuback(pid)).0, Unsuback(pid)).1 == AlreadyDone
  {}

  // ----- The session object -----

  class ClientSession {
    const packetIds: PacketIdPool
    var inflightQos1: map<int, nat>
    var inflightQos2: map<int, Flight>
    var pendingSubs: map<int, nat>
    var pendingUnsubs: map<int, nat>
    var futures: seq<FutureState>
    var pingWaiters: seq<nat>
    ghost var pingFutures: set<nat>
    ghost var pingCallers: set<nat>
    var dead: bool
    ghost var subCalls: map<nat, int>
    ghost var unsubCalls: map<nat, int>
    ghost var notes: seq<Note>

    ghost function View(): Session
      reads this, packetIds
    {
      Session(packetIds.View(), inflightQos1, inflightQos2, pendingSubs, pendingUnsubs,
              subCalls, unsubCalls, futures, pingWaiters, pingFutures, pingCallers, dead, notes)
    }

    ghost predicate Valid()
      reads this, packetIds
    {
      Inv(View())
    }

    constructor ()
      ensures Valid() && View() == FreshSession && fresh(packetIds)
    {
      packetIds := new PacketIdPool();
      inflightQos1, inflightQos2, pendingSubs, pendingUnsubs := map[], map[], map[], map[];
      futures, pingWaiters, dead := [], [], false;
      pingFutures, pingCallers := {}, {};
      subCalls, unsubCalls, notes := map[], map[], [];
    }

    /** `_ensure_alive`, then an identifier and a new pending future. */
    method Open() returns (outcome: Outcome, pid: int, future: nat)
      requires Valid()
      modifies this`futures, packetIds
      ensures outcome == Opening(old(View()))
      ensures outcome != Fine ==> View() == old(View())
      ensures outcome == Fine ==>
        View() == Opened(old(View())) && pid == LeastFree(old(packetIds.inUse)) && future == old(|futures|)
    {
      pid, future := 0, 0;
      FullPoolHasNoFreeId(packetIds.View());
      if dead {
        return Disconnected, pid, future;
      }
      var acquired := packetIds.Acquire();
      if acquired.Err? {
        return NoFreeId, pid, future;
      }
      pid, future := acquired.value, |futures|;
      futures := futures + [Pending];
      outcome := Fine;
    }

    method SetState(future: nat, to: FutureState)
      modifies this`futures
      ensures futures == Settle(old(futures), future, to)
    {
      if future < |futures| && futures[future] == Pending {
        futures := futures[future := to];
      }
    }

    method PublishQos1() returns (outcome: Outcome)
      requires Valid()
      modifies this, packetIds
      ensures Valid() && (View(), outcome) == Step(old(View()), Publish1)
    {
      hide OnAck, OnWait, Inv;
      StepKeepsInv(View(), Publish1);
      var pid, future;
      outcome, pid, future := Open();
      if outcome == Fine {
        inflightQos1 := inflightQos1[pid := future];
      }
    }

    method PublishQos2() returns (outcome: Outcome)
      requires Valid()
      modifies this, packetIds
      ensures Valid() && (View(), outcome) == Step(old(View()), Publish2)
    {
      hide OnAck, OnWait, Inv;
      StepKeepsInv(View(), Publish2);
      var pid, future;
      outcome, pid, future := Open();
      if outcome == Fine {
        inflightQos2 := inflightQos2[pid := Flight(future, AwaitPubrec)];
      }
    }

    method BeginSubscribe() returns (outcome: Outcome, call: nat)
      requires Valid()
      modifies this, packetIds
      ensures Valid() && (View(), outcome) == Step(old(View()), SendSubscribe)
      ensures outcome == Fine ==> call in subCalls
    {
      hide OnAck, OnWait, Inv;
      StepKeepsInv(View(), SendSubscribe);
      var pid;
      outcome, pid, call := Open();
      if outcome == Fine {
        pendingSubs := pendingSubs[pid := call];
        subCalls := subCalls[call := pid];
      }
    }

    /** The `finally` of `_send_subscribe`, reached by an acknowledgement, an error or a cancellation. */
    method FinishSubscribe(call: nat, pid: int)
      requires Valid() && call in subCalls && subCalls[call] == pid
      modifies this, packetIds
      ensures Valid() && View() == Step(old(View()), EndSubscribe(call)).0
    {
      hide OnAck, OnWait, Inv, PoolOk, FuturesMade, SettleAll, TableFutures, LeastFree, AcquireFrom;
      InvParts(View());
      StepKeepsInv(View(), EndSubscribe(call));
      pendingSubs := pendingSubs - {pid};
      packetIds.Release(pid);
      subCalls := subCalls - {call};
    }

    method BeginUnsubscribe() returns (outcome: Outcome, call: nat)
      requires Valid()
      modifies this, packetIds
      ensures Valid() && (View(), outcome) == Step(old(View()), SendUnsubscribe)
      ensures outcome == Fine ==> call in unsubCalls
    {
      hide OnAck, OnWait, Inv;
      StepKeepsInv(View(), SendUnsubscribe);
      var pid;
      outcome, pid, call := Open();
      if outcome == Fine {
        pendingUnsubs := pendingUnsubs[pid := call];
        unsubCalls := unsubCalls[call := pid];
      }
    }

    method FinishUnsubscribe(call: nat, pid: int)
      requires Valid() && call in unsubCalls && unsubCalls[call] == pid
      modifies this, packetIds
      ensures Valid() && View() == Step(old(View()), EndUnsubscribe(call)).0
    {
      hide OnAck, OnWait, Inv, PoolOk, FuturesMade, SettleAll, TableFutures, LeastFree, AcquireFrom;
      InvParts(View());
      StepKeepsInv(View(), EndUnsubscribe(call));
      pendingUnsubs := pendingUnsubs - {pid};
      packetIds.Release(pid);
      unsubCalls := unsubCalls - {call};
    }

    // The read loop calls the handlers; it has stopped before the connection is marked dead.

    method HandlePuback(pid: int) returns (outcome: Outcome)
      requires Valid() && !dead
      modifies this, packetIds
      ensures Valid() && (View(), outcome) == Step(old(View()), Puback(pid))
    {
      hide OnRequest, OnWait, Inv, PoolOk, FuturesMade, SettleAll, TableFutures, LeastFree, AcquireFrom;
      InvParts(View());
      StepKeepsInv(View(), Puback(pid));
      if pid !in inflightQos1 {
        return UnknownId;
      }
      var future := inflightQos1[pid];
      inflightQos1 := inflightQos1 - {pid};
      packetIds.Release(pid);
      SetState(future, Resolved);
      outcome := Fine;
    }

    method CloseFlight(pid: int, future: nat, to: FutureState)
      requires packetIds.Valid() && pid >= 1
      modifies this`inflightQos2, this`futures, packetIds
      ensures View() == old(View()).(qos2 := old(inflightQos2) - {pid}, pool := ReleaseTo(old(packetIds.View()), pid),
                                     futures := Settle(old(futures), future, to))
    {
      inflightQos2 := inflightQos2 - {pid};
      packetIds.Release(pid);
      SetState(future, to);
    }

    method HandlePubrec(pid: int, reason: int) returns (outcome: Outcome)
      requires Valid() && !dead
      modifies this, packetIds
      ensures Valid() && (View(), outcome) == Step(old(View()), Pubrec(pid, reason))
    {
      hide OnRequest, OnWait, Inv, PoolOk, FuturesMade, SettleAll, TableFutures, LeastFree, AcquireFrom, Opening, Opened;
      InvParts(View());
      StepKeepsInv(View(), Pubrec(pid, reason));
      if pid !in inflightQos2 {
        return UnknownId;
      }
      var flight := inflightQos2[pid];
      if flight.phase != AwaitPubrec {
        return WrongState;
      }
      if reason >= 0x80 {
        CloseFlight(pid, flight.future, Failed);
        notes := notes + [PubrecRejected(flight.future)];
        return Fine;
      }
      inflightQos2 := inflightQos2[pid := flight.(phase := AwaitPubcomp)];
      notes := notes + [PubrelSent(flight.future)];
      outcome := Fine;
    }

    method HandlePubcomp(pid: int) returns (outcome: Outcome)
      requires Valid() && !dead
      modifies this, packetIds
      ensures Valid() && (View(), outcome) == Step(old(View()), Pubcomp(pid))
    {
      hide OnRequest, OnWait, Inv, PoolOk, FuturesMade, SettleAll, TableFutures, LeastFree, AcquireFrom;
      InvParts(View());
      StepKeepsInv(View(), Pubcomp(pid));
      if pid !in inflightQos2 {
        return UnknownId;
      }
      CloseFlight(pid, inflightQos2[pid].future, Resolved);
      outcome := Fine;
    }

    /** `future.set_result` raises on a future that is done: `AlreadyDone`. */
    method HandleSuback(pid: int) returns (outcome: Outcome)
      requires Valid() && !dead
      modifies this
      ensures Valid() && (View(), outcome) == Step(old(View()), Suback(pid))
    {
      hide OnRequest, OnWait, Inv, PoolOk, FuturesMade, SettleAll, TableFutures, LeastFree, AcquireFrom;
      InvParts(View());
      StepKeepsInv(View(), Suback(pid));
      if pid !in pendingSubs {
        return UnknownId;
      }
      if futures[pendingSubs[pid]] != Pending {
        return AlreadyDone;
      }
      SetState(pendingSubs[pid], Resolved);
      outcome := Fine;
    }

    method HandleUnsuback(pid: int) returns (outcome: Outcome)
      requires Valid() && !dead
      modifies this
      ensures Valid() && (View(), outcome) == Step(old(View()), Unsuback(pid))
    {
      hide OnRequest, OnWait, Inv, PoolOk, FuturesMade, SettleAll, TableFutures, LeastFree, AcquireFrom;
      InvParts(View());
      StepKeepsInv(View(), Unsuback(pid));
      if pid !in pendingUnsubs {
        return UnknownId;
      }
      if futures[pendingUnsubs[pid]] != Pending {
        return AlreadyDone;
      }
      SetState(pendingUnsubs[pid], Resolved);
      outcome := Fine;
    }

    /** `ping` up to its wait. */
    method SendPing() returns (future: nat)
      requires Valid()
      modifies this
      ensures Valid() && View() == Step(old(View()), Ping).0 && future == old(|futures|)
    {
      hide OnRequest, OnAck, Inv, LeastFree, AcquireFrom, ReleaseTo, OnCancel, OnPingTimeout, OnPong, OnRunEnds;
      StepKeepsInv(View(), Ping);
      future := |futures|;
      futures, pingWaiters := futures + [Pending], pingWaiters + [future];
      pingFutures, pingCallers := pingFutures + {future}, pingCallers + {future};
    }

    /** The `except TimeoutError` of `ping`; `NotListed` is the `ValueError` of `list.remove`. */
    method TimeOutPing(future: nat) returns (outcome: Outcome)
      requires Valid() && future in pingCallers && future < |futures| && futures[future] == Pending
      modifies this
      ensures Valid() && (View(), outcome) == Step(old(View()), PingTimesOut(future))
    {
      hide OnRequest, OnAck, Inv, LeastFree, AcquireFrom, ReleaseTo, OnCancel, OnPing, OnPong, OnRunEnds;
      StepKeepsInv(View(), PingTimesOut(future));
      if future !in pingWaiters {
        return NotListed;
      }
      pingWaiters := Without(pingWaiters, future);
      pingCallers := pingCallers - {future};
      outcome := Fine;
    }

    method HandlePingresp()
      requires Valid() && !dead
      modifies this
      ensures Valid() && View() == Step(old(View()), Pong).0
    {
      hide OnRequest, OnAck, Inv, LeastFree, AcquireFrom, ReleaseTo, OnCancel, OnPingTimeout, OnPing, OnRunEnds;
      StepKeepsInv(View(), Pong);
      if pingWaiters != [] {
        SetState(pingWaiters[0], Resolved);
        pingWaiters := pingWaiters[1..];
      }
    }

    /** The end of `run()`: no new operations, and `_cancel_pending` over tables and ping waiters. */
    method EndRun()
      requires Valid() && !dead
      modifies this
      ensures Valid() && View() == Step(old(View()), RunEnds).0
    {
      hide OnRequest, OnAck, Inv, LeastFree, AcquireFrom, ReleaseTo, SettleAll, Opening, Opened, OnCancel,
           OnPingTimeout, OnPing, OnPong;
      StepKeepsInv(View(), RunEnds);
      dead := true;
      var waiting := inflightQos1.Values + Qos2Futures(inflightQos2) + pendingSubs.Values + pendingUnsubs.Values
                     + Listed(pingWaiters);
      futures := SettleAll(futures, waiting, Failed);
      pingWaiters := [];
    }
  }
}
