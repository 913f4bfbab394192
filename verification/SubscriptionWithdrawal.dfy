/** The other half of ownership: what neither the application nor an observer wants any more is withdrawn
  from the broker, but for what failed calls leave behind. */
module SubscriptionWithdrawal {
  import opened Prelude
  import opened SubscriptionOwnership

  predicate Wanted(s: State, f: string) { f in s.index || f in s.observers }

  /** Whether the broker may hold `f` once it has taken all these requests: the last one that names it decides. */
  predicate MayHold(up: seq<Request>, held: bool, f: string) {
    if up == [] then held
    else
      var last := up[|up| - 1];
      if f in last.filters then last.Subscribe? else MayHold(up[..|up| - 1], held, f)
  }

  /** The broker does not have `f`, or an UNSUBSCRIBE for it is on its way with no SUBSCRIBE behind it. */
  predicate Withdrawn(s: State, f: string) { !MayHold(s.up, f in s.granted, f) }

  // ----- What failed calls leave behind -----

  /** A step that gives something up without being able to tell the broker: a cancelled or failed call, a
    SUBSCRIBE that was rejected in part, or a call whose write fails. */
  predicate CannotTell(s: State, e: Event) {
    match e
    case Abort(_) => true
    case Resume(t, _, _) =>
      t in s.calls && s.calls[t].answer.Some? && IsSubscribe(s.calls[t].purpose) && Rejects(s.calls[t].filters, s.calls[t].answer.value)
    case Begin(_, _, _, written) => !written
    case _ => false
  }

  /** What the step names in an UNSUBSCRIBE. */
  function ToldBy(s: State, e: Event): set<string> {
    var up := Step(s, e).up;
    if |up| > |s.up| && up[|s.up|].Unsubscribe? then Elements(up[|s.up|].filters) else {}
  }

  /** The filters that were given up untold, until an UNSUBSCRIBE names them. */
  function StraysAfter(s: State, e: Event, strays: set<string>): set<string> {
    var t := Step(s, e);
    (if CannotTell(s, e) then strays + ((s.index + s.observers) - (t.index + t.observers)) else strays) - ToldBy(s, e)
  }

  function Strays(events: seq<Event>): set<string> {
    if events == [] then {}
    else
      var before := events[..|events| - 1];
      StraysAfter(Run(FreshConnection, before), events[|events| - 1], Strays(before))
  }

  // ----- The invariant -----

  ghost predicate GivenUpIsTold(s: State, strays: set<string>) {
    forall f :: !Wanted(s, f) && f !in strays ==> Withdrawn(s, f)
  }

  /** What an unsubscribing call will renew is still observed. */
  ghost predicate RestoresObserved(s: State) {
    forall t, f :: t in s.calls && s.calls[t].purpose.ToUnsubscribe? && f in s.calls[t].purpose.observed ==> f in s.observers
  }

  lemma OneMoreRequest(up: seq<Request>, r: Request, held: bool, f: string)
    ensures MayHold(up + [r], held, f) == if f in r.filters then r.Subscribe? else MayHold(up, held, f)
  {
    assert (up + [r])[..|up|] == up;
  }

  /** The broker's turn at the head of the wire. */
  lemma {:induction false} HeadTaken(up: seq<Request>, held: bool, now: bool, f: string)
    requires up != [] && (now ==> MayHold(up[..1], held, f))
    ensures MayHold(up[1..], now, f) ==> MayHold(up, held, f)
  {
    if |up| == 1 {
      assert up[..1] == up;
    } else {
      var n := |up| - 1;
      assert up[1..][|up[1..]| - 1] == up[n] && up[1..][..|up[1..]| - 1] == up[..n][1..] && up[..n][..1] == up[..1];
      HeadTaken(up[..n], held, now, f);
    }
  }

  lemma BrokerKeepsTold(s: State, codes: seq<nat>, strays: set<string>)
    requires GivenUpIsTold(s, strays) && s.up != []
    ensures GivenUpIsTold(OnBroker(s, codes), strays)
  {
    var t := OnBroker(s, codes);
    if t != s {
      forall f | !Wanted(t, f) && f !in strays ensures Withdrawn(t, f) {
        assert !Wanted(s, f) && Withdrawn(s, f);
        assert s.up[..1] == [s.up[0]] && s.up[..1][..0] == [];
        HeadTaken(s.up, f in s.granted, f in t.granted, f);
      }
    }
  }

  /** A step that sends at most one request: it names only wanted filters in a SUBSCRIBE, and everything it
    gives up in an UNSUBSCRIBE, unless it cannot tell. */
  lemma SendingKeepsTold(s: State, t: State, more: seq<Request>, before: set<string>, after: set<string>)
    requires GivenUpIsTold(s, before) && t.up == s.up + more && t.granted == s.granted && |more| <= 1
    requires more != [] && more[0].Subscribe? ==> forall f :: f in more[0].filters ==> Wanted(t, f)
    requires forall f :: !Wanted(t, f) && f !in after ==>
      (more != [] && more[0].Unsubscribe? && f in more[0].filters) || (!Wanted(s, f) && f !in before)
    ensures GivenUpIsTold(t, after)
  {
    forall f | !Wanted(t, f) && f !in after ensures Withdrawn(t, f) {
      if more == [] {
        assert t.up == s.up;
      } else {
        assert more == [more[0]];
        OneMoreRequest(s.up, more[0], f in s.granted, f);
      }
    }
  }

  lemma BeginKeepsTold(s: State, e: Event, strays: set<string>)
    requires GivenUpIsTold(s, strays) && !s.dead && e.Begin?
    ensures GivenUpIsTold(Step(s, e), StraysAfter(s, e, strays))
  {
    var t, after := Step(s, e), StraysAfter(s, e, strays);
    if t.up == s.up {
      SendingKeepsTold(s, t, [], strays, after) by { QuietBegin(s, e); }
    } else {
      match e.operation
      case Unsubscribing(filters) => UnsubscribingKeepsTold(s, e, strays);
      case _ => SendingKeepsTold(s, t, [t.up[|s.up|]], strays, after);
    }
  }

  /** A call that sends nothing gives nothing up, or could not write. */
  lemma QuietBegin(s: State, e: Event)
    requires !s.dead && e.Begin? && Step(s, e).up == s.up
    ensures var t := Step(s, e);
      t.granted == s.granted && (CannotTell(s, e) || forall f :: Wanted(s, f) ==> Wanted(t, f))
  {
    hide Filter;
    if e.operation.Unsubscribing? {
      SplitFilters(e.operation.filters, s.observers);
    }
  }

  /** The filters of an `unsubscribe`, with and without a response observer. */
  lemma SplitFilters(filters: seq<string>, observers: set<string>)
    ensures forall f :: f in Filter(filters, In(observers)) <==> f in filters && f in observers
    ensures forall f :: f in Filter(filters, NotIn(observers)) <==> f in filters && f !in observers
    ensures filters != [] ==> Filter(filters, In(observers)) != [] || Filter(filters, NotIn(observers)) != []
  {
    forall f ensures f in Filter(filters, In(observers)) <==> f in filters && f in observers {
      FilterKeeps(filters, In(observers), f);
    }
    forall f ensures f in Filter(filters, NotIn(observers)) <==> f in filters && f !in observers {
      FilterKeeps(filters, NotIn(observers), f);
    }
    if filters != [] {
      assert filters[0] in filters;
      assert filters[0] in Filter(filters, In(observers)) || filters[0] in Filter(filters, NotIn(observers));
    }
  }

  lemma UnsubscribingKeepsTold(s: State, e: Event, strays: set<string>)
    requires GivenUpIsTold(s, strays) && !s.dead && e.Begin? && e.operation.Unsubscribing? && Step(s, e).up != s.up
    ensures GivenUpIsTold(Step(s, e), StraysAfter(s, e, strays))
  {
    hide Filter;
    var t, filters := Step(s, e), e.operation.filters;
    SplitFilters(filters, s.observers);
    SendingKeepsTold(s, t, [t.up[|s.up|]], strays, StraysAfter(s, e, strays));
  }

  lemma ResumeKeepsTold(s: State, e: Event, strays: set<string>)
    requires GivenUpIsTold(s, strays) && RestoresObserved(s) && e.Resume?
    ensures GivenUpIsTold(Step(s, e), StraysAfter(s, e, strays))
  {
    var t, after := Step(s, e), StraysAfter(s, e, strays);
    if t.up == s.up {
      SendingKeepsTold(s, t, [], strays, after);
    } else {
      SendingKeepsTold(s, t, [t.up[|s.up|]], strays, after);
    }
  }

  lemma StepKeepsTold(s: State, e: Event, strays: set<string>)
    requires RestoresObserved(s) && (s.dead || GivenUpIsTold(s, strays))
    ensures Step(s, e).dead || GivenUpIsTold(Step(s, e), StraysAfter(s, e, strays))
  {
    hide GivenUpIsTold, OnBegin, OnResume, OnBroker;
    if !s.dead {
      match e
      case Begin(_, _, _, _) => BeginKeepsTold(s, e, strays);
      case Resume(_, _, _) => ResumeKeepsTold(s, e, strays);
      case Abort(_) => AbortKeepsTold(s, e, strays);
      case Dispatch => DispatchKeepsTold(s, strays);
      case Broker(codes) => TakingKeepsTold(s, codes, strays);
      case RunEnds =>
    } else {
      DeadStays(s, e);
    }
  }

  lemma DeadStays(s: State, e: Event)
    requires s.dead
    ensures Step(s, e).dead
  {}

  lemma AbortKeepsTold(s: State, e: Event, strays: set<string>)
    requires GivenUpIsTold(s, strays) && e.Abort?
    ensures GivenUpIsTold(Step(s, e), StraysAfter(s, e, strays))
  {
    SendingKeepsTold(s, Step(s, e), [], strays, StraysAfter(s, e, strays));
  }

  lemma DispatchKeepsTold(s: State, strays: set<string>)
    requires GivenUpIsTold(s, strays)
    ensures GivenUpIsTold(Step(s, Dispatch), StraysAfter(s, Dispatch, strays))
  {
    SendingKeepsTold(s, Step(s, Dispatch), [], strays, StraysAfter(s, Dispatch, strays));
  }

  lemma TakingKeepsTold(s: State, codes: seq<nat>, strays: set<string>)
    requires GivenUpIsTold(s, strays)
    ensures GivenUpIsTold(Step(s, Broker(codes)), StraysAfter(s, Broker(codes), strays))
  {
    hide GivenUpIsTold;
    if s.up != [] { BrokerKeepsTold(s, codes, strays); }
    assert StraysAfter(s, Broker(codes), strays) == strays;
  }

  // ----- Renewals -----

  lemma RestoreFilters(s: State, t: Task)
    requires Inv(s) && t in s.calls
    ensures s.calls[t].purpose.ToUnsubscribe? ==> forall f :: f in s.calls[t].purpose.observed ==> f in s.calls[t].held
    ensures s.calls[t].purpose.ForObserver? ==> s.calls[t].purpose.topic in s.calls[t].held
  {
    assert CallOk(s, t, s.calls[t]);
  }

  /** A call's filters are its own. */
  lemma HeldApart(s: State, t: Task, u: Task)
    requires Inv(s) && t in s.calls && u in s.calls && t != u
    ensures s.calls[t].held !! s.calls[u].held
  {}

  lemma BeginKeepsObserved(s: State, e: Event)
    requires Inv(s) && RestoresObserved(s) && e.Begin?
    ensures RestoresObserved(Step(s, e))
  {
    hide Inv, Filter;
    var t := Step(s, e);
    if e.operation.Unsubscribing? { SplitFilters(e.operation.filters, s.observers); }
    forall u, f | u in t.calls && t.calls[u].purpose.ToUnsubscribe? && f in t.calls[u].purpose.observed ensures f in t.observers {
      if u in s.calls { RestoreFilters(s, u); }
    }
  }

  /** A call that goes takes back only observers of its own, and a renewing one waits to renew nothing. */
  lemma LeavingTakesItsOwn(s: State, e: Event)
    requires Inv(s) && (e.Abort? || e.Resume?) && e.task in s.calls
    ensures var t := Step(s, e);
      && (forall f :: f in s.observers && f !in s.calls[e.task].held ==> f in t.observers)
      && (forall u :: u in t.calls && u != e.task ==> u in s.calls && t.calls[u] == s.calls[u])
      && (e.task in t.calls ==> t == s || !t.calls[e.task].purpose.ToUnsubscribe?)
  {
    RestoreFilters(s, e.task);
    hide Inv;
    if e.Abort? {}
  }

  lemma LeavingKeepsObserved(s: State, e: Event)
    requires Inv(s) && RestoresObserved(s) && (e.Abort? || e.Resume?)
    ensures RestoresObserved(Step(s, e))
  {
    hide Step, Inv;
    var t := Step(s, e);
    if e.task in s.calls {
      LeavingTakesItsOwn(s, e);
      forall u, f | u in t.calls && t.calls[u].purpose.ToUnsubscribe? && f in t.calls[u].purpose.observed ensures f in t.observers {
        if u != e.task {
          RestoreFilters(s, u);
          HeldApart(s, u, e.task);
        }
      }
    } else {
      NobodyLeaves(s, e);
    }
  }

  lemma NobodyLeaves(s: State, e: Event)
    requires (e.Abort? || e.Resume?) && e.task !in s.calls
    ensures Step(s, e) == s
  {}

  lemma StepKeepsObserved(s: State, e: Event)
    requires Inv(s) && RestoresObserved(s)
    ensures RestoresObserved(Step(s, e))
  {
    match e
    case Begin(_, _, _, _) => BeginKeepsObserved(s, e);
    case Resume(_, _, _) => LeavingKeepsObserved(s, e);
    case Abort(_) => LeavingKeepsObserved(s, e);
    case _ =>
      hide Inv, Accepted;
      assert Step(s, e).observers == s.observers;
  }

  // ----- Over runs -----

  lemma {:induction false} RunsTell(events: seq<Event>)
    ensures var s := Run(FreshConnection, events); RestoresObserved(s) && (s.dead || GivenUpIsTold(s, Strays(events)))
  {
    hide Step, GivenUpIsTold, Inv;
    if events == [] {
      assert GivenUpIsTold(FreshConnection, {}) by { NothingGranted(); }
    } else {
      var before, e := events[..|events| - 1], events[|events| - 1];
      RunsTell(before);
      ReachableStatesKeep(before);
      StepKeepsObserved(Run(FreshConnection, before), e);
      StepKeepsTold(Run(FreshConnection, before), e, Strays(before));
    }
  }

  lemma NothingGranted()
    ensures GivenUpIsTold(FreshConnection, {})
  {}

  /** In every run, on a live connection: a filter that neither the application nor an observer wants is
    withdrawn, or a call that could not tell the broker gave it up. Once the broker has taken what is
    on the wire, it holds nothing else. */
  lemma GivenUpIsWithdrawn(events: seq<Event>, f: string)
    requires var s := Run(FreshConnection, events); !s.dead && !Wanted(s, f) && f !in Strays(events)
    ensures Withdrawn(Run(FreshConnection, events), f)
    ensures Run(FreshConnection, events).up == [] ==> f !in Run(FreshConnection, events).granted
  {
    hide Run, Strays;
    RunsTell(events);
  }

  /** In every run: only failed, cancelled, rejected or unwritten calls leave a filter behind, and an
    UNSUBSCRIBE that names it clears it. */
  lemma StraysComeFromFailures(events: seq<Event>, e: Event, f: string)
    ensures var s := Run(FreshConnection, events);
      f in Strays(events + [e]) <==>
        && f !in ToldBy(s, e)
        && (f in Strays(events) || (CannotTell(s, e) && Wanted(s, f) && !Wanted(Step(s, e), f)))
  {
    assert (events + [e])[..|events|] == events;
  }

  // ----- What is sent -----

  /** `unsubscribe` sends one UNSUBSCRIBE of exactly the unobserved filters, in order; when all of them are
    observed it renews them at once. */
  lemma UnsubscribeSends(s: State, t: Task, filters: seq<string>, pid: int)
    requires !s.dead && t !in s.calls && GuardsFree(s, Elements(filters)) && IdFree(s, pid)
    ensures var after := Step(s, Begin(t, Unsubscribing(filters), pid, true));
      var others := Filter(filters, NotIn(s.observers));
      && (forall f :: f in others <==> f in filters && f !in s.observers)
      && after.index == s.index - Elements(filters)
      && after.up == s.up + (if others != [] then [Unsubscribe(pid, s.sent, others)]
                             else if filters != [] then [Subscribe(pid, s.sent, filters)] else [])
      && (others != [] ==> forall f :: f in others ==> Withdrawn(after, f))
  {
    hide Filter;
    SplitFilters(filters, s.observers);
    var others := Filter(filters, NotIn(s.observers));
    if others == [] {
      forall f | f in filters ensures In(s.observers)(f) {}
      FilterAll(filters, In(s.observers));
    } else {
      forall f | f in others ensures Withdrawn(Step(s, Begin(t, Unsubscribing(filters), pid, true)), f) {
        OneMoreRequest(s.up, Unsubscribe(pid, s.sent, others), f in s.granted, f);
      }
    }
  }

  /** `subscribe` puts its filters into the index and sends one SUBSCRIBE for all of them, in order; its call
    then waits for the answer under that identifier, and leaves no trace in the index when it is cancelled. */
  lemma SubscribeSends(s: State, t: Task, filters: seq<string>, pid: int)
    requires !s.dead && t !in s.calls && GuardsFree(s, Elements(filters)) && IdFree(s, pid)
    ensures var after := Step(s, Begin(t, Subscribing(filters), pid, true));
      && after.index == s.index + Elements(filters) && after.up == s.up + [Subscribe(pid, s.sent, filters)]
      && t in after.calls && after.calls[t].answer.None? && after.calls[t].filters == filters
      && pid in after.pendingSubs && after.pendingSubs[pid] == t
      && Step(after, Abort(t)).index == s.index && Step(after, Abort(t)).observers == s.observers
  {}

  /** The first observer of a topic subscribes to it, unless the application owns it. */
  lemma ObserveSends(s: State, t: Task, topic: string, pid: int)
    requires !s.dead && t !in s.calls && GuardsFree(s, {topic}) && IdFree(s, pid)
    ensures var after := Step(s, Begin(t, Observing(topic), pid, true));
      && after.observers == s.observers + {topic}
      && after.up == s.up + (if topic in s.observers || topic in s.index then [] else [Subscribe(pid, s.sent, [topic])])
      && (topic !in s.observers && topic !in s.index ==>
            && t in after.calls && pid in after.pendingSubs && after.pendingSubs[pid] == t
            && Step(after, Abort(t)).index == s.index && Step(after, Abort(t)).observers == s.observers)
  {}

  /** A call that cannot write, or finds the connection dead, sends nothing and does not wait: `subscribe` leaves no
    trace, `unsubscribe` gives its filters up unless the connection is dead, and an observer of a topic of the
    application needs no request. */
  lemma NothingSentMeaning(s: State, t: Task, op: Operation, pid: int, written: bool)
    requires t !in s.calls && GuardsFree(s, HeldBy(op)) && IdFree(s, pid) && (s.dead || !written)
    ensures var after := Step(s, Begin(t, op, pid, written));
      && after.up == s.up && after.calls == s.calls && after.dead == s.dead
      && after.index == s.index - (if op.Unsubscribing? && !s.dead then Elements(op.filters) else {})
      && after.observers
         == s.observers - (if op.Unobserving? then {op.topic} else {})
            + (if op.Observing? && !s.dead && op.topic in s.index then {op.topic} else {})
  {}

  /** An answered call leaves: with a rejection it takes back what it added; an `unsubscribe` first renews the
    filters that are still observed, in order; and nothing else of the index or the observers changes. */
  lemma AnsweredCallLeaves(s: State, t: Task, pid: int)
    requires !s.dead && t in s.calls && s.calls[t].answer.Some? && IdFree(Finish(s, t), pid)
    ensures var c, after := s.calls[t], Step(s, Resume(t, pid, true));
      var rejected := IsSubscribe(c.purpose) && Rejects(c.filters, c.answer.value);
      && after.index == s.index - (if rejected && c.purpose.ForApplication? then c.purpose.added else {})
      && after.observers == s.observers - (if rejected && c.purpose.ForObserver? then {c.purpose.topic} else {})
      && if c.purpose.ToUnsubscribe? && c.purpose.observed != []
         then after.up == s.up + [Subscribe(pid, s.sent, c.purpose.observed)] && t in after.calls
         else after.up == s.up && t !in after.calls
  {}

  /** The last observer of a topic that the application does not own takes its subscription along. */
  lemma UnobserveSends(s: State, t: Task, topic: string, pid: int)
    requires !s.dead && t !in s.calls && GuardsFree(s, {topic}) && IdFree(s, pid)
    ensures var after := Step(s, Begin(t, Unobserving(topic), pid, true));
      && after.observers == s.observers - {topic}
      && after.up == s.up + (if topic in s.observers && topic !in s.index then [Unsubscribe(pid, s.sent, [topic])] else [])
      && (topic in s.observers && topic !in s.index ==> Withdrawn(after, topic))
  {
    OneMoreRequest(s.up, Unsubscribe(pid, s.sent, [topic]), topic in s.granted, topic);
  }

  /** The next acknowledgement goes to the call that waits under its identifier, whoever's it was; when no call waits
    there, or the call has its answer already, the connection is over. */
  lemma DispatchMeaning(s: State)
    requires !s.dead && s.down != []
    ensures var ack, after := s.down[0], Step(s, Dispatch);
      var table := if ack.Suback? then s.pendingSubs else s.pendingUnsubs;
      && after.down == s.down[1..] && after.up == s.up && after.index == s.index && after.observers == s.observers
      && if ack.pid in table && table[ack.pid] in s.calls && s.calls[table[ack.pid]].answer.None?
         then !after.dead && after.calls == s.calls[table[ack.pid] := s.calls[table[ack.pid]].(answer := Some(ack))]
         else after.dead && after.calls == s.calls
  {}

  /** A call that is cancelled or fails leaves at once, without a word to the broker: what `subscribe` added leaves the
    index, and what it was the first to observe is observed no more. */
  lemma AbortMeaning(s: State, t: Task)
    requires t in s.calls
    ensures var c, after := s.calls[t], Step(s, Abort(t));
      && after.calls == s.calls - {t} && after.up == s.up
      && after.index == s.index - (if c.purpose.ForApplication? then c.purpose.added else {})
      && after.observers == s.observers - (if c.purpose.ForObserver? then {c.purpose.topic} else {})
      && c.pid !in (if IsSubscribe(c.purpose) then after.pendingSubs else after.pendingUnsubs)
  {}

  /** A SUBSCRIBE that is rejected in part takes all its new filters back, and tells the broker nothing: what
    the broker accepted of them stays subscribed, with nothing on its way to end it. */
  lemma RejectedInPartStaysSubscribed(events: seq<Event>, t: Task, pid: int, i: nat)
    requires var s := Run(FreshConnection, events);
      && t in s.calls && s.calls[t].purpose.ForApplication? && s.calls[t].answer.Some? && s.calls[t].answer.value.Suback?
      && s.calls[t].answer.value.serial == s.calls[t].serial && Rejects(s.calls[t].filters, s.calls[t].answer.value)
      && i < |s.calls[t].filters| && i < |s.calls[t].answer.value.codes| && s.calls[t].answer.value.codes[i] < 0x80
      && s.calls[t].filters[i] in s.calls[t].purpose.added && s.calls[t].filters[i] !in s.observers
      && IdFree(Finish(s, t), pid)
    ensures var s := Run(FreshConnection, events);
      var after, f := Step(s, Resume(t, pid, true)), s.calls[t].filters[i];
      !Wanted(after, f) && Owned(after, f) && MayHold(after.up, f in after.granted, f)
  {
    hide Run;
    var s := Run(FreshConnection, events);
    ReachableStatesKeep(events);
    assert CallTracked(s, s.calls[t]);
    var f := s.calls[t].filters[i];
    assert Owned(s, f);
    OwnedMayHold(s.up, f);
  }

  lemma {:induction false} OwnedMayHold(up: seq<Request>, f: string)
    requires forall k :: 0 <= k < |up| && up[k].Unsubscribe? ==> f !in up[k].filters
    ensures MayHold(up, true, f)
  {
    if up != [] { OwnedMayHold(up[..|up| - 1], f); }
  }
}
