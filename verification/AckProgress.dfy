/** Nobody is forgotten: a future that nothing has settled is where its acknowledgement finds it, every
  acknowledgement settles the future of its exchange, and the end of the run settles the rest. */
module AckProgress {
  import opened Prelude
  import opened PacketIds
  import opened AckTables

  /** The SUBSCRIBE and UNSUBSCRIBE calls that have left, through their `finally`. */
  function EndedBy(e: Event): set<nat> {
    match e
    case EndSubscribe(call) => {call}
    case EndUnsubscribe(call) => {call}
    case _ => {}
  }

  function EndedCalls(events: seq<Event>): set<nat> {
    if events == [] then {} else EndedCalls(events[..|events| - 1]) + EndedBy(events[|events| - 1])
  }

  /** A pending future is a ping's, is in a table, or belongs to a call that has left. */
  ghost predicate PendingIsListed(s: Session, ended: set<nat>) {
    forall f :: 0 <= f < |s.futures| && s.futures[f] == Pending ==> f in s.pingFutures || f in TableFutures(s) || f in ended
  }

  // ----- The tables as sets of futures -----

  lemma HasItsKey(table: map<int, nat>, f: nat)
    requires f in table.Values
    ensures exists pid :: pid in table && table[pid] == f
  {
    if forall pid :: pid in table ==> table[pid] != f { assert false; }
  }

  lemma MoreFutures(table: map<int, nat>, pid: int, f: nat)
    requires pid !in table
    ensures table[pid := f].Values == table.Values + {f}
  {
    var more := table[pid := f];
    assert more[pid] == f;
    forall g | g in table.Values ensures g in more.Values {
      HasItsKey(table, g);
      var p :| p in table && table[p] == g;
      assert more[p] == g;
    }
  }

  lemma FewerFutures(table: map<int, nat>, pid: int)
    requires pid in table
    ensures table.Values <= (table - {pid}).Values + {table[pid]}
  {
    var fewer := table - {pid};
    forall g | g in table.Values && g != table[pid] ensures g in fewer.Values {
      HasItsKey(table, g);
      var p :| p in table && table[p] == g;
      assert fewer[p] == g;
    }
  }

  lemma MoreFlights(qos2: map<int, Flight>, pid: int, flight: Flight)
    requires pid in qos2 ==> qos2[pid].future == flight.future
    ensures Qos2Futures(qos2[pid := flight]) == Qos2Futures(qos2) + {flight.future}
  {
    var more := qos2[pid := flight];
    assert more[pid].future == flight.future;
    forall g | g in Qos2Futures(qos2) ensures g in Qos2Futures(more) {
      var p :| p in qos2 && qos2[p].future == g;
      assert more[p].future == g;
    }
  }

  lemma FewerFlights(qos2: map<int, Flight>, pid: int)
    requires pid in qos2
    ensures Qos2Futures(qos2) <= Qos2Futures(qos2 - {pid}) + {qos2[pid].future}
  {
    var fewer := qos2 - {pid};
    forall g | g in Qos2Futures(qos2) && g != qos2[pid].future ensures g in Qos2Futures(fewer) {
      var p :| p in qos2 && qos2[p].future == g;
      assert fewer[p].future == g;
    }
  }

  // ----- Every event -----

  /** What an event must do for the list to stay complete: a new future is listed, one that leaves the
    tables is settled or its call has left, and nothing becomes pending again. */
  lemma StaysListed(s: Session, t: Session, ended: set<nat>, more: set<nat>)
    requires PendingIsListed(s, ended) && |s.futures| <= |t.futures| && s.pingFutures <= t.pingFutures
    requires forall f :: 0 <= f < |s.futures| && t.futures[f] == Pending ==> s.futures[f] == Pending
    requires forall f :: 0 <= f < |s.futures| && t.futures[f] == Pending && f in TableFutures(s) ==>
      f in TableFutures(t) || f in more
    requires forall f :: |s.futures| <= f < |t.futures| ==> f in t.pingFutures || f in TableFutures(t)
    ensures PendingIsListed(t, ended + more)
  {
    hide TableFutures;
  }

  /** A call that opens lists its future. */
  lemma OpenedIsListed(s: Session, e: Event)
    requires Inv(s) && IsRequest(e) && !e.EndSubscribe? && !e.EndUnsubscribe?
    ensures var t := Step(s, e).0;
      && TableFutures(s) <= TableFutures(t) && s.futures <= t.futures && t.pingFutures == s.pingFutures
      && forall f :: |s.futures| <= f < |t.futures| ==> f in TableFutures(t)
  {
    hide OnAck, OnWait, LeastFree, AcquireFrom, ReleaseTo, NotesOk, FlightsDiffer, AllDone, IdsOwned, CallsOwn, FuturesMade;
    var pid, f := LeastFree(s.pool.inUse), |s.futures|;
    if Opening(s) == Fine {
      OpenedOwnsItsId(s, f, Flight(f, AwaitPubrec));
      match e
      case Publish1 => MoreFutures(s.qos1, pid, f);
      case Publish2 => MoreFlights(s.qos2, pid, Flight(f, AwaitPubrec));
      case SendSubscribe => MoreFutures(s.subs, pid, f);
      case SendUnsubscribe => MoreFutures(s.unsubs, pid, f);
    }
  }

  /** A call that leaves takes its own future from the list. */
  lemma LeavingUnlistsItsOwn(s: Session, e: Event)
    requires Inv(s) && (e.EndSubscribe? || e.EndUnsubscribe?)
    ensures var t := Step(s, e).0;
      TableFutures(s) <= TableFutures(t) + EndedBy(e) && t.futures == s.futures && t.pingFutures == s.pingFutures
  {
    hide OnAck, OnWait, ReleaseTo, NotesOk, FlightsDiffer, AllDone, IdsOwned, FuturesMade;
    match e
    case EndSubscribe(call) => if call in s.subCalls { FewerFutures(s.subs, s.subCalls[call]); }
    case EndUnsubscribe(call) => if call in s.unsubCalls { FewerFutures(s.unsubs, s.unsubCalls[call]); }
  }

  lemma RequestsStayListed(s: Session, e: Event, ended: set<nat>)
    requires Inv(s) && PendingIsListed(s, ended) && IsRequest(e)
    ensures PendingIsListed(Step(s, e).0, ended + EndedBy(e))
  {
    hide Step, Inv, PendingIsListed, TableFutures;
    if e.EndSubscribe? || e.EndUnsubscribe? { LeavingUnlistsItsOwn(s, e); } else { OpenedIsListed(s, e); }
    StaysListed(s, Step(s, e).0, ended, EndedBy(e));
  }

  /** What a call that opened has: a new pending future, alone in the given table under an identifier that was free. */
  ghost predicate OpenedUnder(s: Session, t: Session, pid: int) {
    && pid !in s.pool.inUse && 1 <= pid <= MAX_ID && t.pool.inUse == s.pool.inUse + {pid}
    && t.futures == s.futures + [Pending] && t.pings == s.pings && t.dead == s.dead && t.notes == s.notes
  }

  /** A publish, SUBSCRIBE or UNSUBSCRIBE is refused exactly on a dead connection, or when all 65535 identifiers are in
    use, and changes nothing then; else its future is in its own table under an identifier that was free. */
  lemma OpeningMeaning(s: Session, e: Event)
    requires Inv(s) && (e.Publish1? || e.Publish2? || e.SendSubscribe? || e.SendUnsubscribe?)
    ensures var (t, outcome) := Step(s, e);
      var pid, f, full := LeastFree(s.pool.inUse), |s.futures|, forall n :: 1 <= n <= MAX_ID ==> n in s.pool.inUse;
      && outcome == (if s.dead then Disconnected else if full then NoFreeId else Fine)
      && (outcome != Fine ==> t == s)
      && (outcome == Fine ==>
            && OpenedUnder(s, t, pid)
            && t.qos1 == (if e.Publish1? then s.qos1[pid := f] else s.qos1)
            && t.qos2 == (if e.Publish2? then s.qos2[pid := Flight(f, AwaitPubrec)] else s.qos2)
            && t.subs == (if e.SendSubscribe? then s.subs[pid := f] else s.subs)
            && t.unsubs == (if e.SendUnsubscribe? then s.unsubs[pid := f] else s.unsubs))
  {
    hide OnAck, OnWait, LeastFree, AcquireFrom, CallsOwn, NotesOk, FlightsDiffer, AllDone, FuturesMade;
    LeastFreeIs(s.pool.inUse);
    if Opening(s) == Fine { OpeningKeepsIds(s); }
  }

  lemma LeastFreeIs(inUse: set<int>)
    requires forall n :: n in inUse ==> 1 <= n <= MAX_ID
    ensures 1 <= LeastFree(inUse)
    ensures LeastFree(inUse) > MAX_ID <==> forall n :: 1 <= n <= MAX_ID ==> n in inUse
  {}

  /** An acknowledgement is an error of the broker, and changes nothing, exactly when its identifier is not in its
    table, or a PUBREC comes a second time; a SUBACK or UNSUBACK also when its future is done. */
  lemma AckOutcomes(s: Session, e: Event)
    requires Inv(s) && IsAck(e) && !s.dead
    ensures var (t, outcome) := Step(s, e);
      var known := match e
        case Puback(pid) => pid in s.qos1
        case Pubrec(pid, _) => pid in s.qos2
        case Pubcomp(pid) => pid in s.qos2
        case Suback(pid) => pid in s.subs
        case Unsuback(pid) => pid in s.unsubs;
      && outcome == (if !known then UnknownId
                     else if e.Pubrec? && s.qos2[e.pid].phase == AwaitPubcomp then WrongState
                     else if e.Suback? && s.futures[s.subs[e.pid]] != Pending then AlreadyDone
                     else if e.Unsuback? && s.futures[s.unsubs[e.pid]] != Pending then AlreadyDone
                     else Fine)
      && (outcome != Fine ==> t == s)
  {
    hide OnRequest, OnWait, IdsOwned, CallsOwn, NotesOk, FlightsDiffer, AllDone, Settle, ReleaseTo;
  }

  /** A call that leaves takes its own entry along and gives its identifier back; one that has left changes nothing. */
  lemma LeavingMeaning(s: Session, call: nat)
    requires Inv(s)
    ensures call in s.subCalls ==>
      var t, pid := Step(s, EndSubscribe(call)).0, s.subCalls[call];
      && pid in s.subs && s.subs[pid] == call
      && t.subs == s.subs - {pid} && t.subCalls == s.subCalls - {call} && t.pool.inUse == s.pool.inUse - {pid}
      && t.futures == s.futures
    ensures call in s.unsubCalls ==>
      var t, pid := Step(s, EndUnsubscribe(call)).0, s.unsubCalls[call];
      && pid in s.unsubs && s.unsubs[pid] == call
      && t.unsubs == s.unsubs - {pid} && t.unsubCalls == s.unsubCalls - {call} && t.pool.inUse == s.pool.inUse - {pid}
      && t.futures == s.futures
    ensures call !in s.subCalls ==> Step(s, EndSubscribe(call)).0 == s
    ensures call !in s.unsubCalls ==> Step(s, EndUnsubscribe(call)).0 == s
  {
    hide OnAck, OnWait, IdsOwned, NotesOk, FlightsDiffer, AllDone, FuturesMade;
  }

  // ----- Acknowledgements settle -----

  /** The future has what the acknowledgement says, unless it was done, and no other one has changed. */
  ghost predicate Settled(s: Session, t: Session, f: nat, to: FutureState) {
    && f < |s.futures| == |t.futures|
    && t.futures[f] == (if s.futures[f] == Pending then to else s.futures[f])
    && forall g :: 0 <= g < |s.futures| && g != f ==> t.futures[g] == s.futures[g]
  }

  lemma SettleSettles(s: Session, t: Session, f: nat, to: FutureState)
    requires f < |s.futures| && t.futures == Settle(s.futures, f, to)
    ensures Settled(s, t, f, to)
  {}

  /** From every reachable live state: a PUBACK resolves the publish of its identifier and ends it. */
  lemma PubackResolves(s: Session, pid: int)
    requires Inv(s) && !s.dead && pid in s.qos1
    ensures var t := Step(s, Puback(pid)).0; Settled(s, t, s.qos1[pid], Resolved) && t.qos1 == s.qos1 - {pid}
  {
    hide OnRequest, OnWait, Settle, IdsOwned, CallsOwn, NotesOk, FlightsDiffer;
    SettleSettles(s, Step(s, Puback(pid)).0, s.qos1[pid], Resolved);
  }

  /** A rejecting PUBREC fails the publish and ends it; an accepting one settles nothing, and PUBREL is sent. */
  lemma PubrecFailsOrReleases(s: Session, pid: int, reason: int)
    requires Inv(s) && !s.dead && pid in s.qos2 && s.qos2[pid].phase == AwaitPubrec
    ensures var t, f := Step(s, Pubrec(pid, reason)).0, s.qos2[pid].future;
      if reason >= 0x80 then Settled(s, t, f, Failed) && t.qos2 == s.qos2 - {pid} && PubrelSent(f) !in t.notes
      else t.futures == s.futures && t.qos2 == s.qos2[pid := Flight(f, AwaitPubcomp)] && t.notes == s.notes + [PubrelSent(f)]
  {
    hide OnRequest, OnWait, Settle, IdsOwned, CallsOwn, FlightsDiffer;
    if reason >= 0x80 { SettleSettles(s, Step(s, Pubrec(pid, reason)).0, s.qos2[pid].future, Failed); }
  }

  lemma PubcompResolves(s: Session, pid: int)
    requires Inv(s) && !s.dead && pid in s.qos2
    ensures var t := Step(s, Pubcomp(pid)).0; Settled(s, t, s.qos2[pid].future, Resolved) && t.qos2 == s.qos2 - {pid}
  {
    hide OnRequest, OnWait, Settle, IdsOwned, CallsOwn, NotesOk, FlightsDiffer;
    SettleSettles(s, Step(s, Pubcomp(pid)).0, s.qos2[pid].future, Resolved);
  }

  /** SUBACK and UNSUBACK resolve the call that waits under their identifier, whose entry stays its own. */
  lemma RequestAcksResolve(s: Session, pid: int)
    requires Inv(s) && !s.dead
    ensures pid in s.subs ==> var t := Step(s, Suback(pid)).0; Settled(s, t, s.subs[pid], Resolved) && t.subs == s.subs
    ensures pid in s.unsubs ==> var t := Step(s, Unsuback(pid)).0; Settled(s, t, s.unsubs[pid], Resolved) && t.unsubs == s.unsubs
  {
    hide OnRequest, OnWait, IdsOwned, CallsOwn, NotesOk, FlightsDiffer;
  }

  lemma PongResolvesTheFirst(s: Session)
    requires Inv(s) && !s.dead && s.pings != []
    ensures var t := Step(s, Pong).0; Settled(s, t, s.pings[0], Resolved) && t.pings == s.pings[1..]
  {
    hide OnRequest, OnAck, Settle, IdsOwned, CallsOwn, NotesOk, FlightsDiffer, OnCancel, OnPingTimeout, OnPing, OnRunEnds;
    SettleSettles(s, Step(s, Pong).0, s.pings[0], Resolved);
  }

  lemma AcksStayListed(s: Session, e: Event, ended: set<nat>)
    requires Inv(s) && PendingIsListed(s, ended) && IsAck(e)
    ensures PendingIsListed(Step(s, e).0, ended)
  {
    hide Step, Inv, PendingIsListed;
    var t := Step(s, e).0;
    AcksLeavePings(s, e);
    AckedLeaveSettled(s, e);
    StaysListed(s, t, ended, {});
    assert ended + {} == ended;
  }

  lemma AckedLeaveSettled(s: Session, e: Event)
    requires Inv(s) && IsAck(e)
    ensures var t := Step(s, e).0;
      |t.futures| == |s.futures|
      && forall f :: 0 <= f < |s.futures| && t.futures[f] == Pending && f in TableFutures(s) ==> f in TableFutures(t)
  {
    hide OnRequest, OnWait, Settle, IdsOwned, CallsOwn, NotesOk, FlightsDiffer, AllDone, ReleaseTo;
    var t := Step(s, e).0;
    match e
    case Puback(pid) =>
      if !s.dead && pid in s.qos1 {
        PubackResolves(s, pid);
        FewerFutures(s.qos1, pid);
      }
    case Pubrec(pid, reason) =>
      if !s.dead && pid in s.qos2 && s.qos2[pid].phase == AwaitPubrec {
        PubrecFailsOrReleases(s, pid, reason);
        FewerFlights(s.qos2, pid);
        MoreFlights(s.qos2, pid, Flight(s.qos2[pid].future, AwaitPubcomp));
      }
    case Pubcomp(pid) =>
      if !s.dead && pid in s.qos2 {
        PubcompResolves(s, pid);
        FewerFlights(s.qos2, pid);
      }
    case Suback(pid) => if !s.dead { RequestAcksResolve(s, pid); }
    case Unsuback(pid) => if !s.dead { RequestAcksResolve(s, pid); }
  }

  lemma WaitsStayListed(s: Session, e: Event, ended: set<nat>)
    requires PendingIsListed(s, ended) && !IsRequest(e) && !IsAck(e)
    ensures PendingIsListed(Step(s, e).0, ended)
  {
    hide OnRequest, OnAck, OnWait, PendingIsListed;
    var t := Step(s, e).0;
    WaitLeavesTables(s, e);
    NoWait(s);
    StaysListed(s, t, ended, {});
    assert ended + {} == ended;
  }

  /** The tables stay, nothing becomes pending again, and only pings make futures. */
  ghost predicate OnlyWaits(s: Session, t: Session) {
    && t.qos1 == s.qos1 && t.qos2 == s.qos2 && t.subs == s.subs && t.unsubs == s.unsubs
    && |s.futures| <= |t.futures| && s.pingFutures <= t.pingFutures
    && (forall f :: 0 <= f < |s.futures| && t.futures[f] == Pending ==> s.futures[f] == Pending)
    && (forall f :: |s.futures| <= f < |t.futures| ==> f in t.pingFutures)
  }

  lemma CancelOnlyWaits(s: Session, f: nat)
    ensures OnlyWaits(s, OnCancel(s, f))
  {
    hide Settle;
    SettlingOnlySettles(Cancelled);
    if f in s.pingFutures {}
  }

  lemma TimeoutOnlyWaits(s: Session, f: nat)
    ensures OnlyWaits(s, OnPingTimeout(s, f).0)
  {
    hide Without;
  }

  lemma PingOnlyWaits(s: Session)
    ensures OnlyWaits(s, OnPing(s)) && OnlyWaits(s, OnPong(s))
  {
    hide Settle;
    SettlingOnlySettles(Resolved);
    if s.pings == [] {}
  }

  lemma EndOnlyWaits(s: Session)
    ensures OnlyWaits(s, OnRunEnds(s))
  {
    hide TableFutures, Listed;
  }

  lemma WaitLeavesTables(s: Session, e: Event)
    ensures OnlyWaits(s, OnWait(s, e).0)
  {
    hide OnlyWaits, OnCancel, OnPingTimeout, OnPing, OnPong, OnRunEnds;
    PingOnlyWaits(s);
    EndOnlyWaits(s);
    match e
    case Cancel(f) => CancelOnlyWaits(s, f);
    case PingTimesOut(f) => TimeoutOnlyWaits(s, f);
    case _ => NoWait(s);
  }

  lemma NoWait(s: Session)
    ensures OnlyWaits(s, s)
  {}

  // ----- Over runs -----

  /** In every run: a pending future that no ping made is in one of the four tables, or its own call has left. */
  lemma {:induction false} PendingFuturesAreListed(events: seq<Event>)
    ensures PendingIsListed(Run(FreshSession, events), EndedCalls(events))
  {
    hide Step, Inv, PendingIsListed;
    if events == [] {
      assert PendingIsListed(FreshSession, {}) by { NothingPending(); }
    } else {
      var before, e := events[..|events| - 1], events[|events| - 1];
      var s := Run(FreshSession, before);
      PendingFuturesAreListed(before);
      ReachableStatesKeepInv(before);
      if IsRequest(e) { RequestsStayListed(s, e, EndedCalls(before)); }
      else if IsAck(e) { AcksStayListed(s, e, EndedCalls(before)); }
      else { WaitsStayListed(s, e, EndedCalls(before)); }
      if !IsRequest(e) { assert EndedCalls(before) + {} == EndedCalls(before); }
    }
  }

  lemma NothingPending()
    ensures PendingIsListed(FreshSession, {})
  {}

  /** Once the run has ended, in every run: nothing is pending but late pings and the futures of calls
    that have left; so no publish, and no SUBSCRIBE or UNSUBSCRIBE that still waits, waits in vain. */
  lemma NothingPendsAfterTheEnd(events: seq<Event>, f: nat)
    requires var s := Run(FreshSession, events); s.dead && f < |s.futures| && s.futures[f] == Pending
    ensures f in Run(FreshSession, events).pingFutures || f in EndedCalls(events)
  {
    hide Step, Run;
    PendingFuturesAreListed(events);
    ReachableStatesKeepInv(events);
    TableFuturesAreDone(Run(FreshSession, events));
  }

  lemma TableFuturesAreDone(s: Session)
    requires Inv(s) && s.dead
    ensures forall f :: f in TableFutures(s) ==> IsDone(s.futures, f)
  {
    hide IdsOwned, CallsOwn, NotesOk, FlightsDiffer;
    forall f | f in TableFutures(s) ensures IsDone(s.futures, f) {
      if f in s.qos1.Values {
        HasItsKey(s.qos1, f);
        var p :| p in s.qos1 && s.qos1[p] == f;
      } else if f in Qos2Futures(s.qos2) {
        var p :| p in s.qos2 && s.qos2[p].future == f;
      } else if f in s.subs.Values {
        HasItsKey(s.subs, f);
        var p :| p in s.subs && s.subs[p] == f;
      } else {
        HasItsKey(s.unsubs, f);
        var p :| p in s.unsubs && s.unsubs[p] == f;
      }
    }
  }

  // ----- The waits -----

  /** The end of `run` fails whatever still waits in the tables or for a PINGRESP, and nothing else; no new exchange
    opens after it. */
  lemma EndMeaning(s: Session)
    requires Inv(s) && !s.dead
    ensures var t := Step(s, RunEnds).0;
      && t.dead && t.pings == [] && |t.futures| == |s.futures| && Opening(t) == Disconnected
      && forall f :: 0 <= f < |s.futures| ==>
           t.futures[f] == if s.futures[f] == Pending && (f in TableFutures(s) || f in s.pings) then Failed else s.futures[f]
  {
    hide Inv, TableFutures;
  }

  /** A ping waits behind all others, with a future of its own. */
  lemma PingMeaning(s: Session)
    ensures var t, n := Step(s, Ping).0, |s.futures|;
      && t.futures == s.futures + [Pending] && t.pings == s.pings + [n]
      && t.pingFutures == s.pingFutures + {n} && t.pingCallers == s.pingCallers + {n}
      && t.qos1 == s.qos1 && t.qos2 == s.qos2 && t.subs == s.subs && t.unsubs == s.unsubs && t.dead == s.dead
  {}

  /** The caller of a ping gives up without touching its future, and with its timeout the ping leaves the list.
    Any other caller that is cancelled takes its own future along, if it still waits. */
  lemma GivingUpMeaning(s: Session, f: nat)
    requires f < |s.futures|
    ensures f in s.pingFutures ==> Step(s, Cancel(f)).0 == s.(pingCallers := s.pingCallers - {f})
    ensures f !in s.pingFutures ==>
      Step(s, Cancel(f)).0 == if s.futures[f] == Pending then s.(futures := s.futures[f := Cancelled]) else s
    ensures f in s.pingCallers && s.futures[f] == Pending && f in s.pings ==>
      var t := Step(s, PingTimesOut(f)).0;
      && t.futures == s.futures && t.pingCallers == s.pingCallers - {f}
      && (forall g :: g in t.pings ==> g in s.pings) && (forall g :: g in s.pings && g != f ==> g in t.pings)
      && |t.pings| == |s.pings| - 1
  {
    hide Without;
    WithoutKeepsOthers(s.pings, f);
    WithoutOne(s.pings, f);
  }

  lemma {:induction false} WithoutOne(pings: seq<nat>, f: nat)
    ensures |Without(pings, f)| == |pings| - if f in pings then 1 else 0
  {
    if pings != [] { WithoutOne(pings[1..], f); }
  }
}
