/** Who owns a broker subscription: `subscribe`, `unsubscribe` and the response observers, each under
  the guards of its filters, with the broker at the other end of two FIFO wires. Every stretch of
  code between two suspensions is one event, and so is every packet the broker takes. */
module SubscriptionOwnership {
  import opened Prelude

  type Task = int

  /** A request on its way to the broker, and an answer on its way back; `serial` tells requests apart. */
  datatype Request =
    | Subscribe(pid: int, serial: nat, filters: seq<string>)
    | Unsubscribe(pid: int, serial: nat, filters: seq<string>)

  datatype Ack =
    | Suback(pid: int, serial: nat, codes: seq<nat>)
    | Unsuback(pid: int, serial: nat)

  /** What a suspended call does when its answer comes, or when it fails. */
  datatype Purpose =
    | ForApplication(added: set<string>)
    | ForObserver(topic: string)
    | ToRestore
    | ToUnsubscribe(observed: seq<string>)
    | ToUnobserve

  /** A call suspended in `_send_subscribe` or `_send_unsubscribe`, with the guards it holds. */
  datatype Call = Call(held: set<string>, purpose: Purpose, filters: seq<string>, pid: int, serial: nat, answer: Option<Ack>)

  datatype State = State(
    index: set<string>,
    observers: set<string>,
    calls: map<Task, Call>,
    pendingSubs: map<int, Task>,
    pendingUnsubs: map<int, Task>,
    sent: nat,
    dead: bool,
    /** The wires and the broker. */
    up: seq<Request>,
    down: seq<Ack>,
    granted: set<string>,
    /** Filters of calls that were handed the SUBACK of another call's SUBSCRIBE, until they are
      withdrawn or accepted by a SUBACK of their own. */
    misled: set<string>)

  const FreshConnection := State({}, {}, map[], map[], map[], 0, false, [], [], {}, {})

  datatype Operation =
    | Subscribing(filters: seq<string>)
    | Unsubscribing(filters: seq<string>)
    | Observing(topic: string)
    | Unobserving(topic: string)

  datatype Event =
    /** A task that holds the operation's guards runs it up to its first suspension or its end. */
    | Begin(task: Task, operation: Operation, pid: int, written: bool)
    /** A call whose answer came goes on. */
    | Resume(task: Task, pid: int, written: bool)
    /** A suspended call is cancelled or fails. */
    | Abort(task: Task)
    /** The read loop dispatches the next acknowledgement. */
    | Dispatch
    /** The broker takes the next request; `codes` are its answers to a SUBSCRIBE. */
    | Broker(codes: seq<nat>)
    | RunEnds

  function Elements(s: seq<string>): set<string> { set f | f in s }

  function HeldBy(op: Operation): set<string> {
    match op
    case Subscribing(filters) => Elements(filters)
    case Unsubscribing(filters) => Elements(filters)
    case Observing(topic) => {topic}
    case Unobserving(topic) => {topic}
  }

  predicate GuardFree(s: State, f: string) { forall t :: t in s.calls ==> f !in s.calls[t].held }

  predicate GuardsFree(s: State, filters: set<string>) {
    forall t :: t in s.calls ==> s.calls[t].held !! filters
  }

  predicate IdFree(s: State, pid: int) { pid !in s.pendingSubs && pid !in s.pendingUnsubs }

  function In(set_: set<string>): string -> bool { (f: string) => f in set_ }

  function NotIn(set_: set<string>): string -> bool { (f: string) => f !in set_ }

  // ----- The calls -----

  function SendSubscribe(s: State, t: Task, held: set<string>, purpose: Purpose, filters: seq<string>, pid: int): State {
    s.(calls := s.calls[t := Call(held, purpose, filters, pid, s.sent, None)],
       pendingSubs := s.pendingSubs[pid := t],
       up := s.up + [Subscribe(pid, s.sent, filters)],
       sent := s.sent + 1)
  }

  function SendUnsubscribe(s: State, t: Task, held: set<string>, purpose: Purpose, filters: seq<string>, pid: int): State {
    s.(calls := s.calls[t := Call(held, purpose, filters, pid, s.sent, None)],
       pendingUnsubs := s.pendingUnsubs[pid := t],
       up := s.up + [Unsubscribe(pid, s.sent, filters)],
       sent := s.sent + 1)
  }

  function OnBegin(s: State, t: Task, op: Operation, pid: int, written: bool): State {
    match op
    case Subscribing(filters) =>
      var added := Elements(filters) - s.index;
      if s.dead || !written then s
      else SendSubscribe(s.(index := s.index + added), t, HeldBy(op), ForApplication(added), filters, pid)
    case Unsubscribing(filters) =>
      if s.dead then s
      else
        var observed, others := Filter(filters, In(s.observers)), Filter(filters, NotIn(s.observers));
        var removed := s.(index := s.index - Elements(filters), misled := s.misled - (Elements(filters) - s.observers));
        if !written || filters == [] then removed
        else if others != [] then SendUnsubscribe(removed, t, HeldBy(op), ToUnsubscribe(observed), others, pid)
        else SendSubscribe(removed, t, HeldBy(op), ToRestore, observed, pid)
    case Observing(topic) =>
      if s.dead || topic in s.observers then s
      else if topic in s.index then s.(observers := s.observers + {topic})
      else if !written then s
      else SendSubscribe(s.(observers := s.observers + {topic}), t, HeldBy(op), ForObserver(topic), [topic], pid)
    case Unobserving(topic) =>
      var removed := s.(observers := s.observers - {topic}, misled := s.misled - ({topic} - s.index));
      if topic !in s.observers || topic in s.index || s.dead || !written then removed
      else SendUnsubscribe(removed, t, HeldBy(op), ToUnobserve, [topic], pid)
  }

  /** The call leaves: its identifier is free again and its guards are released. */
  function Finish(s: State, t: Task): State
    requires t in s.calls
  {
    var c := s.calls[t];
    s.(calls := s.calls - {t},
       pendingSubs := if IsSubscribe(c.purpose) then s.pendingSubs - {c.pid} else s.pendingSubs,
       pendingUnsubs := if IsSubscribe(c.purpose) then s.pendingUnsubs else s.pendingUnsubs - {c.pid})
  }

  predicate IsSubscribe(purpose: Purpose) {
    purpose.ForApplication? || purpose.ForObserver? || purpose.ToRestore?
  }

  /** What the `finally` of a failed call takes back. */
  function Undo(s: State, purpose: Purpose): State {
    match purpose
    case ForApplication(added) => s.(index := s.index - added, misled := s.misled - (added - s.observers))
    case ForObserver(topic) => s.(observers := s.observers - {topic}, misled := s.misled - ({topic} - s.index))
    case _ => s
  }

  /** `_raise_on_rejected_filters`: codes answer filters by position, as far as both go. */
  predicate Rejects(filters: seq<string>, ack: Ack) {
    ack.Suback? && exists i :: 0 <= i < |filters| && i < |ack.codes| && ack.codes[i] >= 0x80
  }

  function OnResume(s: State, t: Task, pid: int, written: bool): State
    requires t in s.calls && s.calls[t].answer.Some?
  {
    var c := s.calls[t];
    if IsSubscribe(c.purpose) then
      if Rejects(c.filters, c.answer.value) then Finish(Undo(s, c.purpose), t) else Finish(s, t)
    else if c.purpose.ToUnobserve? || c.purpose.observed == [] || s.dead || !written then Finish(s, t)
    else SendSubscribe(Finish(s, t), t, c.held, ToRestore, c.purpose.observed, pid)
  }

  // ----- The read loop and the broker -----

  function OnDispatch(s: State): State
    requires s.down != []
  {
    var ack := s.down[0];
    var table := if ack.Suback? then s.pendingSubs else s.pendingUnsubs;
    var rest := s.(down := s.down[1..]);
    if ack.pid !in table || table[ack.pid] !in s.calls || s.calls[table[ack.pid]].answer.Some? then rest.(dead := true)
    else
      var t := table[ack.pid];
      var c := s.calls[t];
      rest.(calls := s.calls[t := c.(answer := Some(ack))],
            misled := if ack.Unsuback? then s.misled
                      else if ack.serial != c.serial then s.misled + Elements(c.filters)
                      else s.misled - Accepted(c.filters, ack.codes))
  }

  function Accepted(filters: seq<string>, codes: seq<nat>): set<string> {
    set i | 0 <= i < |filters| && i < |codes| && codes[i] < 0x80 :: filters[i]
  }

  /** The broker answers in order, one code for each filter, and a rejection changes nothing. */
  function OnBroker(s: State, codes: seq<nat>): State
    requires s.up != []
  {
    match s.up[0]
    case Subscribe(pid, serial, filters) =>
      if |codes| != |filters| then s
      else s.(up := s.up[1..], down := s.down + [Suback(pid, serial, codes)], granted := s.granted + Accepted(filters, codes))
    case Unsubscribe(pid, serial, filters) =>
      s.(up := s.up[1..], down := s.down + [Unsuback(pid, serial)], granted := s.granted - Elements(filters))
  }

  function Step(s: State, e: Event): State {
    match e
    case Begin(t, op, pid, written) =>
      if t in s.calls || !GuardsFree(s, HeldBy(op)) || !IdFree(s, pid) then s
      else OnBegin(s, t, op, pid, written)
    case Resume(t, pid, written) =>
      if t !in s.calls || s.calls[t].answer.None? || !IdFree(Finish(s, t), pid) then s
      else OnResume(s, t, pid, written)
    case Abort(t) => if t !in s.calls then s else Finish(Undo(s, s.calls[t].purpose), t)
    case Dispatch => if s.dead || s.down == [] then s else OnDispatch(s)
    case Broker(codes) => if s.up == [] then s else OnBroker(s, codes)
    case RunEnds => s.(dead := true)
  }

  function Run(s: State, events: seq<Event>): State {
    if events == [] then s else Step(Run(s, events[..|events| - 1]), events[|events| - 1])
  }

  // ----- What every reachable state keeps -----

  /** The broker is subscribed and nothing on the wire changes that. */
  ghost predicate Owned(s: State, f: string) {
    f in s.granted && forall k :: 0 <= k < |s.up| && s.up[k].Unsubscribe? ==> f !in s.up[k].filters
  }

  /** In the index or observed for good: not to be taken back by a call that may still fail. */
  ghost predicate Firm(s: State, f: string) {
    || (f in s.index && forall t :: t in s.calls && s.calls[t].purpose.ForApplication? ==> f !in s.calls[t].purpose.added)
    || (f in s.observers && forall t :: t in s.calls && s.calls[t].purpose.ForObserver? ==> f != s.calls[t].purpose.topic)
  }

  ghost predicate FirmOwned(s: State) { forall f :: Firm(s, f) && f !in s.misled ==> Owned(s, f) }

  ghost predicate CallOk(s: State, t: Task, c: Call) {
    && c.serial < s.sent
    && (forall f :: f in c.filters ==> f in c.held)
    && (c.purpose.ForApplication? ==> forall f :: f in c.purpose.added ==> f in c.filters)
    && (c.purpose.ForObserver? ==> c.purpose.topic in c.filters)
    && (c.purpose.ToUnsubscribe? ==> forall f :: f in c.purpose.observed ==> f in c.held)
    && (c.answer.Some? ==> c.answer.value.Suback? == IsSubscribe(c.purpose))
    && (if IsSubscribe(c.purpose) then c.pid in s.pendingSubs && s.pendingSubs[c.pid] == t
        else c.pid in s.pendingUnsubs && s.pendingUnsubs[c.pid] == t)
  }

  ghost predicate CallsApart(calls: map<Task, Call>) {
    forall t, u :: t in calls && u in calls && t != u ==> calls[t].held !! calls[u].held && calls[t].serial != calls[u].serial
  }

  ghost predicate TableFits(table: map<int, Task>, calls: map<Task, Call>, subscribes: bool) {
    forall pid :: pid in table ==>
      var t := table[pid];
      t in calls && IsSubscribe(calls[t].purpose) == subscribes && calls[t].pid == pid
  }

  ghost predicate CallsOk(s: State) {
    && (forall t :: t in s.calls ==> CallOk(s, t, s.calls[t]))
    && CallsApart(s.calls) && TableFits(s.pendingSubs, s.calls, true) && TableFits(s.pendingUnsubs, s.calls, false)
  }

  ghost predicate SerialsOk(s: State) {
    && (forall k :: 0 <= k < |s.up| ==> s.up[k].serial < s.sent)
    && (forall k :: 0 <= k < |s.down| ==> s.down[k].serial < s.sent)
    && (forall t :: t in s.calls && s.calls[t].answer.Some? ==> s.calls[t].answer.value.serial < s.sent)
  }

  /** The codes of a call's own answer say what the broker holds by now. */
  ghost predicate TellsTruth(s: State, filters: seq<string>, ack: Ack) {
    ack.Suback? ==>
      && |ack.codes| == |filters|
      && forall i :: 0 <= i < |filters| && ack.codes[i] < 0x80 ==> Owned(s, filters[i])
  }

  /** While a call waits, its SUBSCRIBE is the last word about its filters. */
  ghost predicate CallTracked(s: State, c: Call) {
    IsSubscribe(c.purpose) ==>
      && (forall k, j :: 0 <= k < j < |s.up| && s.up[k].Subscribe? && s.up[k].serial == c.serial && s.up[j].Unsubscribe? ==>
            forall f :: f in c.filters ==> f !in s.up[j].filters)
      && (forall k :: 0 <= k < |s.up| && s.up[k].serial == c.serial ==> s.up[k] == Subscribe(c.pid, c.serial, c.filters))
      && (forall k :: 0 <= k < |s.down| && s.down[k].serial == c.serial ==> TellsTruth(s, c.filters, s.down[k]))
      && (c.answer.Some? ==>
            if c.answer.value.serial == c.serial then TellsTruth(s, c.filters, c.answer.value)
            else forall f :: f in c.filters ==> f in s.misled)
  }

  ghost predicate CallsTracked(s: State) { forall t :: t in s.calls ==> CallTracked(s, s.calls[t]) }

  /** What the wires and the suspended calls keep, whatever is in the index. */
  ghost predicate Tracking(s: State) { CallsOk(s) && SerialsOk(s) && CallsTracked(s) }

  ghost predicate Inv(s: State) { Tracking(s) && FirmOwned(s) }

  // ----- Sending -----

  predicate FitsCall(held: set<string>, purpose: Purpose, filters: seq<string>) {
    && (forall f :: f in filters ==> f in held)
    && (purpose.ForApplication? ==> forall f :: f in purpose.added ==> f in filters)
    && (purpose.ForObserver? ==> purpose.topic in filters)
    && (purpose.ToUnsubscribe? ==> forall f :: f in purpose.observed ==> f in held)
  }

  /** The part of the state that `Owned` and the suspended calls' tracking look at. */
  ghost predicate SameWires(a: State, b: State) {
    a.up == b.up && a.down == b.down && a.granted == b.granted && a.sent == b.sent
  }

  /** Only filters that no call is working on are dropped from the misled ones. */
  ghost predicate KeepsMisled(a: State, b: State) {
    && b.misled <= a.misled
    && forall t, f :: t in a.calls && f in a.calls[t].held && f in a.misled ==> f in b.misled
  }

  ghost predicate SameCalls(a: State, b: State) {
    a.calls == b.calls && a.pendingSubs == b.pendingSubs && a.pendingUnsubs == b.pendingUnsubs
  }

  lemma TrackingIgnoresIndex(a: State, b: State)
    requires SameWires(a, b) && SameCalls(a, b) && KeepsMisled(a, b) && Tracking(a)
    ensures Tracking(b)
  {
    hide CallTracked;
    forall t | t in b.calls ensures CallTracked(b, b.calls[t]) {
      assert CallTracked(a, a.calls[t]);
      CallTrackedAfter(a, b, b.calls[t], []);
    }
  }

  /** Sending more than the call's own request changes nothing for it, unless it is an UNSUBSCRIBE of its filters. */
  lemma CallTrackedAfter(a: State, b: State, c: Call, more: seq<Request>)
    requires CallTracked(a, c)
    requires b.up == a.up + more && b.down == a.down && b.granted == a.granted
    requires forall f :: f in c.filters && f in a.misled ==> f in b.misled
    requires forall k :: 0 <= k < |more| ==> more[k].serial != c.serial
    requires forall k, f :: 0 <= k < |more| && more[k].Unsubscribe? && f in c.filters ==> f !in more[k].filters
    ensures CallTracked(b, c)
  {
    if IsSubscribe(c.purpose) {
      forall f | f in c.filters && Owned(a, f) ensures Owned(b, f) {
        OwnedAfter(a, b, f, more);
      }
      assert forall ack :: TellsTruth(a, c.filters, ack) ==> TellsTruth(b, c.filters, ack);
    }
  }

  lemma OwnedAfter(a: State, b: State, f: string, more: seq<Request>)
    requires Owned(a, f) && b.up == a.up + more && b.granted == a.granted
    requires forall k :: 0 <= k < |more| && more[k].Unsubscribe? ==> f !in more[k].filters
    ensures Owned(b, f)
  {}

  lemma NewCallApart(calls: map<Task, Call>, t: Task, c: Call)
    requires CallsApart(calls) && t !in calls
    requires forall u :: u in calls ==> calls[u].held !! c.held && calls[u].serial != c.serial
    ensures CallsApart(calls[t := c])
  {}

  lemma NewCallFits(table: map<int, Task>, calls: map<Task, Call>, subscribes: bool, t: Task, c: Call)
    requires TableFits(table, calls, subscribes) && t !in calls
    ensures TableFits(table, calls[t := c], subscribes)
    ensures IsSubscribe(c.purpose) == subscribes ==> TableFits(table[c.pid := t], calls[t := c], subscribes)
  {}

  /** A call stays in order when another one, under an identifier that is free, is sent. */
  lemma CallOkAfterSend(s: State, after: State, u: Task, c: Call, pid: int, t: Task)
    requires CallOk(s, u, c) && s.sent <= after.sent && IdFree(s, pid)
    requires after.pendingSubs == s.pendingSubs || after.pendingSubs == s.pendingSubs[pid := t]
    requires after.pendingUnsubs == s.pendingUnsubs || after.pendingUnsubs == s.pendingUnsubs[pid := t]
    ensures CallOk(after, u, c)
  {}

  lemma CallsOlder(s: State)
    requires CallsOk(s)
    ensures forall u :: u in s.calls ==> s.calls[u].serial < s.sent
  {}

  lemma SendSubscribeKeepsCalls(s: State, t: Task, held: set<string>, purpose: Purpose, filters: seq<string>, pid: int)
    requires CallsOk(s) && t !in s.calls && GuardsFree(s, held) && IdFree(s, pid)
    requires IsSubscribe(purpose) && FitsCall(held, purpose, filters)
    ensures CallsOk(SendSubscribe(s, t, held, purpose, filters, pid))
  {
    var after, c := SendSubscribe(s, t, held, purpose, filters, pid), Call(held, purpose, filters, pid, s.sent, None);
    CallsOlder(s);
    assert CallOk(after, t, c);
    hide CallOk, CallsApart, TableFits, IsSubscribe;
    NewCallApart(s.calls, t, c);
    NewCallFits(s.pendingSubs, s.calls, true, t, c);
    NewCallFits(s.pendingUnsubs, s.calls, false, t, c);
    forall u | u in after.calls ensures CallOk(after, u, after.calls[u]) {
      if u != t { CallOkAfterSend(s, after, u, s.calls[u], pid, t); }
    }
  }

  lemma SendUnsubscribeKeepsCalls(s: State, t: Task, held: set<string>, purpose: Purpose, filters: seq<string>, pid: int)
    requires CallsOk(s) && t !in s.calls && GuardsFree(s, held) && IdFree(s, pid)
    requires !IsSubscribe(purpose) && FitsCall(held, purpose, filters)
    ensures CallsOk(SendUnsubscribe(s, t, held, purpose, filters, pid))
  {
    var after, c := SendUnsubscribe(s, t, held, purpose, filters, pid), Call(held, purpose, filters, pid, s.sent, None);
    CallsOlder(s);
    assert CallOk(after, t, c);
    hide CallOk, CallsApart, TableFits, IsSubscribe;
    NewCallApart(s.calls, t, c);
    NewCallFits(s.pendingSubs, s.calls, true, t, c);
    NewCallFits(s.pendingUnsubs, s.calls, false, t, c);
    forall u | u in after.calls ensures CallOk(after, u, after.calls[u]) {
      if u != t { CallOkAfterSend(s, after, u, s.calls[u], pid, t); }
    }
  }

  /** What is sent is in order with the wires, and no answer to it is there yet. */
  lemma NewCallTracked(s: State, after: State, c: Call)
    requires SerialsOk(s) && c.serial == s.sent && c.answer.None?
    requires after.up == s.up + [Subscribe(c.pid, c.serial, c.filters)] && after.down == s.down
    ensures CallTracked(after, c)
  {
    hide Owned;
  }

  lemma SendSubscribeTracks(s: State, t: Task, held: set<string>, purpose: Purpose, filters: seq<string>, pid: int)
    requires Tracking(s) && t !in s.calls && GuardsFree(s, held) && IdFree(s, pid)
    requires IsSubscribe(purpose) && FitsCall(held, purpose, filters)
    ensures Tracking(SendSubscribe(s, t, held, purpose, filters, pid))
    ensures forall f :: Owned(s, f) ==> Owned(SendSubscribe(s, t, held, purpose, filters, pid), f)
  {
    hide Owned, CallsOk, CallTracked, GuardsFree, FitsCall;
    var after := SendSubscribe(s, t, held, purpose, filters, pid);
    var more := [Subscribe(pid, s.sent, filters)];
    CallsOlder(s);
    SendSubscribeKeepsCalls(s, t, held, purpose, filters, pid);
    forall u | u in after.calls ensures CallTracked(after, after.calls[u]) {
      if u != t { CallTrackedAfter(s, after, s.calls[u], more); } else { NewCallTracked(s, after, after.calls[t]); }
    }
    forall f | Owned(s, f) ensures Owned(after, f) {
      OwnedAfter(s, after, f, more);
    }
  }

  lemma OthersFilters(s: State, u: Task, held: set<string>, filters: seq<string>)
    requires CallsOk(s) && u in s.calls && GuardsFree(s, held) && forall f :: f in filters ==> f in held
    ensures forall f :: f in s.calls[u].filters ==> f !in filters
  {
    assert CallOk(s, u, s.calls[u]);
  }

  lemma SendUnsubscribeTracks(s: State, t: Task, held: set<string>, purpose: Purpose, filters: seq<string>, pid: int)
    requires Tracking(s) && t !in s.calls && GuardsFree(s, held) && IdFree(s, pid)
    requires !IsSubscribe(purpose) && FitsCall(held, purpose, filters)
    ensures Tracking(SendUnsubscribe(s, t, held, purpose, filters, pid))
    ensures forall f :: Owned(s, f) && f !in filters ==> Owned(SendUnsubscribe(s, t, held, purpose, filters, pid), f)
  {
    var after := SendUnsubscribe(s, t, held, purpose, filters, pid);
    var more := [Unsubscribe(pid, s.sent, filters)];
    assert CallTracked(after, after.calls[t]);
    forall u | u in s.calls ensures forall f :: f in s.calls[u].filters ==> f !in filters { OthersFilters(s, u, held, filters); }
    hide Owned, CallsOk, CallTracked, GuardsFree, FitsCall;
    CallsOlder(s);
    SendUnsubscribeKeepsCalls(s, t, held, purpose, filters, pid);
    forall u | u in after.calls ensures CallTracked(after, after.calls[u]) {
      if u != t { CallTrackedAfter(s, after, s.calls[u], more); }
    }
    forall f | Owned(s, f) && f !in filters ensures Owned(after, f) {
      OwnedAfter(s, after, f, more);
    }
  }

  lemma FinishKeepsCalls(s: State, t: Task)
    requires CallsOk(s) && t in s.calls
    ensures CallsOk(Finish(s, t)) && GuardsFree(Finish(s, t), s.calls[t].held)
  {
    hide CallOk;
    var after := Finish(s, t);
    forall u | u in after.calls ensures CallOk(after, u, after.calls[u]) {
      assert CallOk(s, u, s.calls[u]);
      CallOkAfterFinish(s, t, u);
    }
  }

  lemma CallOkAfterFinish(s: State, t: Task, u: Task)
    requires CallsOk(s) && t in s.calls && u in s.calls && u != t
    ensures CallOk(Finish(s, t), u, s.calls[u])
  {
    assert CallOk(s, t, s.calls[t]) && CallOk(s, u, s.calls[u]);
  }

  lemma FinishTracks(s: State, t: Task)
    requires Tracking(s) && t in s.calls
    ensures Tracking(Finish(s, t))
    ensures t !in Finish(s, t).calls && GuardsFree(Finish(s, t), s.calls[t].held)
  {
    hide CallTracked, CallsOk, Owned;
    var after := Finish(s, t);
    FinishKeepsCalls(s, t);
    forall u | u in after.calls ensures CallTracked(after, after.calls[u]) {
      assert CallTracked(s, s.calls[u]);
      CallTrackedAfter(s, after, s.calls[u], []);
    }
  }

  // ----- The events -----

  lemma FirmIgnoresSending(s: State, after: State, f: string)
    requires Firm(after, f) && after.index == s.index && after.observers == s.observers
    requires forall t :: t in s.calls ==> t in after.calls && after.calls[t].purpose == s.calls[t].purpose
    ensures Firm(s, f)
  {}

  lemma BeginSubscribing(s: State, t: Task, filters: seq<string>, pid: int)
    requires Inv(s) && t !in s.calls && GuardsFree(s, Elements(filters)) && IdFree(s, pid)
    ensures Inv(OnBegin(s, t, Subscribing(filters), pid, true))
  {
    hide Tracking, Owned;
    if !s.dead {
      var added := Elements(filters) - s.index;
      var grown := s.(index := s.index + added);
      TrackingIgnoresIndex(s, grown);
      SendSubscribeTracks(grown, t, Elements(filters), ForApplication(added), filters, pid);
      var after := OnBegin(s, t, Subscribing(filters), pid, true);
      forall f | Firm(after, f) && f !in s.misled ensures Owned(after, f) {
        assert after.calls[t].purpose.added == added;
        assert Firm(s, f) by {
          assert forall u :: u in s.calls ==> after.calls[u] == s.calls[u];
        }
        assert Owned(grown, f) by { OwnedAfter(s, grown, f, []); }
      }
    }
  }

  lemma BeginUnsubscribing(s: State, t: Task, filters: seq<string>, pid: int, written: bool)
    requires Inv(s) && t !in s.calls && GuardsFree(s, Elements(filters)) && IdFree(s, pid)
    ensures Inv(OnBegin(s, t, Unsubscribing(filters), pid, written))
  {
    hide Tracking, Owned;
    if !s.dead {
      var observed, others := Filter(filters, In(s.observers)), Filter(filters, NotIn(s.observers));
      var removed := s.(index := s.index - Elements(filters), misled := s.misled - (Elements(filters) - s.observers));
      TrackingIgnoresIndex(s, removed);
      forall f ensures Owned(s, f) ==> Owned(removed, f) {
        if Owned(s, f) { OwnedAfter(s, removed, f, []); }
      }
      var after := OnBegin(s, t, Unsubscribing(filters), pid, written);
      if written && others != [] {
        SendUnsubscribeTracks(removed, t, Elements(filters), ToUnsubscribe(observed), others, pid);
      } else if written && filters != [] {
        SendSubscribeTracks(removed, t, Elements(filters), ToRestore, observed, pid);
      }
      forall f | Firm(after, f) && f !in s.misled ensures Owned(after, f) {
        FirmIgnoresSending(removed, after, f);
        assert Firm(s, f);
        assert f in others ==> f in filters && f !in s.observers && f !in removed.index;
      }
    }
  }

  lemma BeginObserving(s: State, t: Task, topic: string, pid: int, written: bool)
    requires Inv(s) && t !in s.calls && GuardsFree(s, {topic}) && IdFree(s, pid)
    ensures Inv(OnBegin(s, t, Observing(topic), pid, written))
  {
    hide Tracking, Owned;
    if !s.dead && topic !in s.observers {
      var grown := s.(observers := s.observers + {topic});
      TrackingIgnoresIndex(s, grown);
      forall f ensures Owned(s, f) ==> Owned(grown, f) {
        if Owned(s, f) { OwnedAfter(s, grown, f, []); }
      }
      var after := OnBegin(s, t, Observing(topic), pid, written);
      if topic in s.index {
        assert Firm(s, topic) by { AddedIsHeld(s, topic); }
      } else if written {
        SendSubscribeTracks(grown, t, {topic}, ForObserver(topic), [topic], pid);
        assert after.calls[t].purpose.topic == topic;
      }
      forall f | Firm(after, f) && f !in s.misled ensures Owned(after, f) {
        assert forall u :: u in s.calls ==> after.calls[u] == s.calls[u];
        assert Firm(s, f);
      }
    }
  }

  /** What a call may take back is under its guards. */
  lemma AddedIsHeld(s: State, f: string)
    requires Tracking(s) && GuardFree(s, f)
    ensures forall t :: t in s.calls && s.calls[t].purpose.ForApplication? ==> f !in s.calls[t].purpose.added
    ensures forall t :: t in s.calls && s.calls[t].purpose.ForObserver? ==> f != s.calls[t].purpose.topic
  {}

  lemma BeginUnobserving(s: State, t: Task, topic: string, pid: int, written: bool)
    requires Inv(s) && t !in s.calls && GuardsFree(s, {topic}) && IdFree(s, pid)
    ensures Inv(OnBegin(s, t, Unobserving(topic), pid, written))
  {
    hide Tracking, Owned;
    var removed := s.(observers := s.observers - {topic}, misled := s.misled - ({topic} - s.index));
    TrackingIgnoresIndex(s, removed);
    forall f ensures Owned(s, f) ==> Owned(removed, f) {
      if Owned(s, f) { OwnedAfter(s, removed, f, []); }
    }
    var after := OnBegin(s, t, Unobserving(topic), pid, written);
    if topic in s.observers && topic !in s.index && !s.dead && written {
      SendUnsubscribeTracks(removed, t, {topic}, ToUnobserve, [topic], pid);
    }
    forall f | Firm(after, f) && f !in s.misled ensures Owned(after, f) {
      FirmIgnoresSending(removed, after, f);
      assert Firm(s, f);
    }
  }

  /** What a failed call takes back is its own: the other calls' filters stay misled. */
  lemma UndoKeepsOthersMisled(s: State, t: Task)
    requires Tracking(s) && t in s.calls
    ensures var done, after := Finish(s, t), Finish(Undo(s, s.calls[t].purpose), t);
      SameWires(done, after) && SameCalls(done, after) && KeepsMisled(done, after)
  {
    hide CallsTracked, SerialsOk;
    var c := s.calls[t];
    assert CallOk(s, t, c);
    forall u, f | u in s.calls && u != t && f in s.calls[u].held ensures f !in c.held {}
  }

  lemma AbortKeeps(s: State, t: Task)
    requires Inv(s) && t in s.calls
    ensures Inv(Finish(Undo(s, s.calls[t].purpose), t))
  {
    hide Tracking, Owned, KeepsMisled;
    var after := Finish(Undo(s, s.calls[t].purpose), t);
    FinishTracks(s, t);
    UndoKeepsOthersMisled(s, t);
    TrackingIgnoresIndex(Finish(s, t), after);
    forall f | Firm(after, f) && f !in after.misled ensures Owned(after, f) {
      assert forall u :: u in s.calls && u != t ==> u in after.calls && after.calls[u] == s.calls[u];
      assert Firm(s, f);
      OwnedAfter(s, after, f, []);
    }
  }

  lemma AcceptedIsOwned(s: State, t: Task, f: string)
    requires Inv(s) && t in s.calls && s.calls[t].answer.Some? && !Rejects(s.calls[t].filters, s.calls[t].answer.value)
    requires IsSubscribe(s.calls[t].purpose) && f in s.calls[t].filters && f !in s.misled
    ensures Owned(s, f)
  {
    hide Owned;
    var c := s.calls[t];
    assert CallOk(s, t, c) && CallTracked(s, c);
    var i :| 0 <= i < |c.filters| && c.filters[i] == f;
    assert c.answer.value.codes[i] < 0x80;
  }

  /** An answer without a rejection makes what the call added firm, and owned unless the call was misled. */
  lemma SuccessKeeps(s: State, t: Task)
    requires Inv(s) && t in s.calls && s.calls[t].answer.Some?
    requires IsSubscribe(s.calls[t].purpose) ==> !Rejects(s.calls[t].filters, s.calls[t].answer.value)
    ensures Inv(Finish(s, t))
  {
    FinishTracks(s, t);
    hide Owned;
    var after, c := Finish(s, t), s.calls[t];
    forall f | Firm(after, f) && f !in s.misled ensures Owned(s, f) {
      assert forall u :: u in s.calls && u != t ==> u in after.calls && after.calls[u] == s.calls[u];
      if !Firm(s, f) { AcceptedIsOwned(s, t, f); }
    }
    forall f | Firm(after, f) && f !in s.misled ensures Owned(after, f) {
      OwnedAfter(s, after, f, []);
    }
  }

  lemma ResumeKeeps(s: State, t: Task, pid: int, written: bool)
    requires Inv(s) && t in s.calls && s.calls[t].answer.Some? && IdFree(Finish(s, t), pid)
    ensures Inv(OnResume(s, t, pid, written))
  {
    hide Owned, CallsTracked;
    var c := s.calls[t];
    if IsSubscribe(c.purpose) && Rejects(c.filters, c.answer.value) {
      AbortKeeps(s, t);
    } else {
      SuccessKeeps(s, t);
      if !IsSubscribe(c.purpose) && !(c.purpose.ToUnobserve? || c.purpose.observed == [] || s.dead || !written) {
        var done := Finish(s, t);
        assert CallOk(s, t, c);
        FinishTracks(s, t);
        SendSubscribeTracks(done, t, c.held, ToRestore, c.purpose.observed, pid);
        forall f | Firm(OnResume(s, t, pid, written), f) && f !in s.misled ensures Owned(OnResume(s, t, pid, written), f) {
          FirmIgnoresSending(done, OnResume(s, t, pid, written), f);
        }
      }
    }
  }

  /** The filters an acknowledgement frees of suspicion belong to the call that takes it. */
  lemma DispatchKeepsMisled(s: State, t: Task, f: string)
    requires s.down != [] && CallsOk(s) && t in s.calls && f in s.calls[t].filters && f in s.misled
    requires OnDispatch(s).calls[t] == s.calls[t]
    ensures f in OnDispatch(s).misled
  {
    assert CallOk(s, t, s.calls[t]);
    var ack := s.down[0];
    if ack.Suback? && ack.pid in s.pendingSubs && s.pendingSubs[ack.pid] in s.calls {
      var u := s.pendingSubs[ack.pid];
      assert CallOk(s, u, s.calls[u]);
      assert forall g :: g in Accepted(s.calls[u].filters, ack.codes) ==> g in s.calls[u].filters;
    }
  }

  lemma DispatchTracksOne(s: State, t: Task)
    requires s.down != [] && t in s.calls && CallTracked(s, s.calls[t]) && CallsOk(s)
    requires t in OnDispatch(s).calls
    ensures CallTracked(OnDispatch(s), OnDispatch(s).calls[t])
  {
    hide Owned, CallOk;
    var after := OnDispatch(s);
    var c := s.calls[t];
    forall f | Owned(s, f) ensures Owned(after, f) {
      OwnedAfter(s, after, f, []);
    }
    assert forall ack :: TellsTruth(s, c.filters, ack) ==> TellsTruth(after, c.filters, ack);
    assert forall k :: 0 <= k < |after.down| ==> after.down[k] == s.down[k + 1];
    assert IsSubscribe(c.purpose) && s.down[0].serial == c.serial ==> TellsTruth(s, c.filters, s.down[0]);
    if after.calls[t] == c {
      forall f | f in c.filters && f in s.misled ensures f in after.misled {
        DispatchKeepsMisled(s, t, f);
      }
    }
  }

  /** A filter that is no longer misled was accepted by its own call's SUBACK. */
  lemma NoLongerMisledIsOwned(s: State, f: string)
    requires s.down != [] && CallsOk(s) && CallsTracked(s) && f in s.misled && f !in OnDispatch(s).misled
    ensures Owned(s, f)
  {
    var ack := s.down[0];
    var c := s.calls[s.pendingSubs[ack.pid]];
    assert CallTracked(s, c) && TellsTruth(s, c.filters, ack);
    var i :| 0 <= i < |c.filters| && i < |ack.codes| && ack.codes[i] < 0x80 && c.filters[i] == f;
  }

  lemma CallOkWithAnswer(s: State, after: State, t: Task, c: Call, answer: Option<Ack>)
    requires CallOk(s, t, c)
    requires after.pendingSubs == s.pendingSubs && after.pendingUnsubs == s.pendingUnsubs && after.sent == s.sent
    requires answer.Some? ==> answer.value.Suback? == IsSubscribe(c.purpose)
    ensures CallOk(after, t, c.(answer := answer))
  {}

  lemma DispatchKeepsCalls(s: State)
    requires CallsOk(s) && s.down != []
    ensures CallsOk(OnDispatch(s))
  {
    hide CallOk, Elements;
    var after := OnDispatch(s);
    forall t | t in s.calls
      ensures t in after.calls && after.calls[t] == s.calls[t].(answer := after.calls[t].answer)
      ensures CallOk(after, t, after.calls[t])
    {
      assert s.calls[t].answer.Some? ==> s.calls[t].answer.value.Suback? == IsSubscribe(s.calls[t].purpose) by {
        assert CallOk(s, t, s.calls[t]);
        AnswerFits(s, t);
      }
      CallOkWithAnswer(s, after, t, s.calls[t], after.calls[t].answer);
    }
  }

  lemma AnswerFits(s: State, t: Task)
    requires t in s.calls && CallOk(s, t, s.calls[t])
    ensures s.calls[t].answer.Some? ==> s.calls[t].answer.value.Suback? == IsSubscribe(s.calls[t].purpose)
  {}

  lemma DispatchKeepsSerials(s: State)
    requires SerialsOk(s) && s.down != []
    ensures SerialsOk(OnDispatch(s))
  {
    assert forall k :: 0 <= k < |s.down| - 1 ==> s.down[1..][k] == s.down[k + 1];
    assert s.down[0].serial < s.sent;
  }

  lemma DispatchKeeps(s: State)
    requires Inv(s) && s.down != []
    ensures Inv(OnDispatch(s))
  {
    hide CallTracked, Owned, CallsOk, SerialsOk;
    var after := OnDispatch(s);
    DispatchKeepsCalls(s);
    DispatchKeepsSerials(s);
    forall t | t in after.calls ensures CallTracked(after, after.calls[t]) {
      DispatchTracksOne(s, t);
    }
    forall f | Firm(after, f) && f !in after.misled ensures Owned(after, f) {
      assert forall t :: t in s.calls ==> t in after.calls && after.calls[t].purpose == s.calls[t].purpose;
      FirmIgnoresSending(s, after, f);
      if f in s.misled { NoLongerMisledIsOwned(s, f); }
      OwnedAfter(s, after, f, []);
    }
  }

  lemma BrokerKeepsOwned(s: State, codes: seq<nat>, f: string)
    requires s.up != [] && Owned(s, f)
    ensures Owned(OnBroker(s, codes), f)
  {
    assert s.up[0].Unsubscribe? ==> f !in s.up[0].filters;
    assert forall k :: 0 <= k < |s.up| - 1 ==> s.up[1..][k] == s.up[k + 1];
  }

  lemma BrokerTracksOne(s: State, codes: seq<nat>, c: Call)
    requires s.up != [] && CallTracked(s, c)
    ensures CallTracked(OnBroker(s, codes), c)
  {
    var after, head := OnBroker(s, codes), s.up[0];
    if after != s && IsSubscribe(c.purpose) {
      assert forall k :: 0 <= k < |after.up| ==> after.up[k] == s.up[k + 1];
      if head.serial == c.serial {
        assert head == Subscribe(c.pid, c.serial, c.filters);
        forall i | 0 <= i < |c.filters| && codes[i] < 0x80 ensures Owned(after, c.filters[i]) {
          assert c.filters[i] in Accepted(c.filters, codes);
          assert c.filters[i] in c.filters;
        }
      }
      hide Owned;
      forall f | Owned(s, f) ensures Owned(after, f) {
        BrokerKeepsOwned(s, codes, f);
      }
      assert forall ack :: TellsTruth(s, c.filters, ack) ==> TellsTruth(after, c.filters, ack);
    }
  }

  lemma BrokerKeepsCalls(s: State, codes: seq<nat>)
    requires CallsOk(s) && SerialsOk(s) && s.up != []
    ensures CallsOk(OnBroker(s, codes)) && SerialsOk(OnBroker(s, codes))
  {
    assert forall k :: 0 <= k < |s.up| - 1 ==> s.up[1..][k] == s.up[k + 1];
    assert s.up[0].serial < s.sent;
  }

  lemma BrokerLeavesCalls(s: State, codes: seq<nat>)
    requires s.up != []
    ensures var after := OnBroker(s, codes);
      after.calls == s.calls && after.index == s.index && after.observers == s.observers && after.misled == s.misled
  {}

  lemma BrokerKeeps(s: State, codes: seq<nat>)
    requires Inv(s) && s.up != []
    ensures Inv(OnBroker(s, codes))
  {
    hide OnBroker, CallTracked, Owned, CallsOk, SerialsOk;
    var after := OnBroker(s, codes);
    BrokerKeepsCalls(s, codes);
    BrokerLeavesCalls(s, codes);
    forall t | t in after.calls ensures CallTracked(after, after.calls[t]) {
      BrokerTracksOne(s, codes, s.calls[t]);
    }
    forall f | Firm(after, f) && f !in after.misled ensures Owned(after, f) {
      FirmIgnoresSending(s, after, f);
      BrokerKeepsOwned(s, codes, f);
    }
  }

  lemma BeginKeeps(s: State, t: Task, op: Operation, pid: int, written: bool)
    requires Inv(s) && t !in s.calls && GuardsFree(s, HeldBy(op)) && IdFree(s, pid)
    ensures Inv(OnBegin(s, t, op, pid, written))
  {
    hide Inv, GuardsFree, IdFree;
    match op
    case Subscribing(filters) => if written { BeginSubscribing(s, t, filters, pid); }
    case Unsubscribing(filters) => BeginUnsubscribing(s, t, filters, pid, written);
    case Observing(topic) => BeginObserving(s, t, topic, pid, written);
    case Unobserving(topic) => BeginUnobserving(s, t, topic, pid, written);
  }

  lemma RunEndsKeeps(s: State)
    requires Inv(s)
    ensures Inv(s.(dead := true))
  {
    hide Tracking, Owned;
    var after := s.(dead := true);
    TrackingIgnoresIndex(s, after);
    forall f | Firm(after, f) && f !in s.misled ensures Owned(after, f) {
      FirmIgnoresSending(s, after, f);
      OwnedAfter(s, after, f, []);
    }
  }

  lemma StepKeeps(s: State, e: Event)
    requires Inv(s)
    ensures Inv(Step(s, e))
  {
    hide Inv, OnBegin, OnResume, OnDispatch, OnBroker, Finish, Undo;
    match e
    case Begin(t, op, pid, written) =>
      if !(t in s.calls || !GuardsFree(s, HeldBy(op)) || !IdFree(s, pid)) { BeginKeeps(s, t, op, pid, written); }
    case Resume(t, pid, written) =>
      if t in s.calls && s.calls[t].answer.Some? && IdFree(Finish(s, t), pid) { ResumeKeeps(s, t, pid, written); }
    case Abort(t) => if t in s.calls { AbortKeeps(s, t); }
    case Dispatch => if s.down != [] { DispatchKeeps(s); }
    case Broker(codes) => if s.up != [] { BrokerKeeps(s, codes); }
    case RunEnds => RunEndsKeeps(s);
  }

  lemma {:induction false} ReachableStatesKeep(events: seq<Event>)
    ensures Inv(Run(FreshConnection, events))
  {
    if events != [] {
      ReachableStatesKeep(events[..|events| - 1]);
      StepKeeps(Run(FreshConnection, events[..|events| - 1]), events[|events| - 1]);
    }
  }

  // ----- Main results -----

  /** After any run, a filter that is in the index or observed and that no call is working on is
    subscribed at the broker, unless a call for it was handed another call's SUBACK. */
  lemma FreeFiltersAreOwned(events: seq<Event>, f: string)
    requires var s := Run(FreshConnection, events);
      !s.dead && GuardFree(s, f) && (f in s.index || f in s.observers) && f !in s.misled
    ensures Owned(Run(FreshConnection, events), f)
  {
    ReachableStatesKeep(events);
    AddedIsHeld(Run(FreshConnection, events), f);
  }

  /** The broker still owes a SUBACK for a SUBSCRIBE with this identifier. */
  predicate SubackOwed(s: State, pid: int) {
    || (exists k :: 0 <= k < |s.up| && s.up[k].Subscribe? && s.up[k].pid == pid)
    || (exists k :: 0 <= k < |s.down| && s.down[k].Suback? && s.down[k].pid == pid)
  }

  /** The event sends no SUBSCRIBE under an identifier that the broker still owes a SUBACK. */
  predicate SendsUnderFreshId(s: State, e: Event) {
    var up := Step(s, e).up;
    |up| > |s.up| && up[|s.up|].Subscribe? ==> !SubackOwed(s, up[|s.up|].pid)
  }

  predicate FreshIdsFrom(s: State, events: seq<Event>) {
    events != [] ==>
      FreshIdsFrom(s, events[..|events| - 1])
      && SendsUnderFreshId(Run(s, events[..|events| - 1]), events[|events| - 1])
  }

  predicate AlwaysFreshIds(events: seq<Event>) { FreshIdsFrom(FreshConnection, events) }

  predicate Answers(s: State, pid: int, serial: nat) {
    pid in s.pendingSubs && s.pendingSubs[pid] in s.calls ==> s.calls[s.pendingSubs[pid]].serial == serial
  }

  /** Every SUBACK to come will find the call that asked for it, or none. */
  ghost predicate AcksMatch(s: State) {
    && s.misled == {}
    && (forall k :: 0 <= k < |s.up| && s.up[k].Subscribe? ==> Answers(s, s.up[k].pid, s.up[k].serial))
    && (forall k :: 0 <= k < |s.down| && s.down[k].Suback? ==> Answers(s, s.down[k].pid, s.down[k].serial))
  }

  lemma SendSubscribeMatches(s: State, t: Task, held: set<string>, purpose: Purpose, filters: seq<string>, pid: int)
    requires AcksMatch(s) && !SubackOwed(s, pid) && t !in s.calls
    requires forall p :: p in s.pendingSubs ==> s.pendingSubs[p] in s.calls
    ensures AcksMatch(SendSubscribe(s, t, held, purpose, filters, pid))
  {}

  lemma SendUnsubscribeMatches(s: State, t: Task, held: set<string>, purpose: Purpose, filters: seq<string>, pid: int)
    requires AcksMatch(s) && t !in s.calls
    requires forall p :: p in s.pendingSubs ==> s.pendingSubs[p] in s.calls
    ensures AcksMatch(SendUnsubscribe(s, t, held, purpose, filters, pid))
  {}

  lemma FinishMatches(s: State, t: Task)
    requires AcksMatch(s) && CallsOk(s) && t in s.calls
    ensures AcksMatch(Finish(s, t))
    ensures forall p :: p in Finish(s, t).pendingSubs ==> Finish(s, t).pendingSubs[p] in Finish(s, t).calls
  {}

  lemma PendingCallsExist(s: State)
    requires CallsOk(s)
    ensures forall p :: p in s.pendingSubs ==> s.pendingSubs[p] in s.calls
  {}

  lemma BeginMatches(s: State, t: Task, op: Operation, pid: int, written: bool)
    requires AcksMatch(s) && CallsOk(s) && t !in s.calls
    requires var up := OnBegin(s, t, op, pid, written).up;
      |up| > |s.up| && up[|s.up|].Subscribe? ==> !SubackOwed(s, pid)
    ensures AcksMatch(OnBegin(s, t, op, pid, written))
  {
    hide AcksMatch, CallsOk, SubackOwed, Filter, Elements;
    PendingCallsExist(s);
    var after := OnBegin(s, t, op, pid, written);
    var sends := |after.up| > |s.up| && after.up[|s.up|].Subscribe?;
    match op
    case Subscribing(filters) =>
      var grown := s.(index := s.index + (Elements(filters) - s.index));
      MatchingIgnoresIndex(s, grown, pid);
      if sends { SendSubscribeMatches(grown, t, HeldBy(op), ForApplication(Elements(filters) - s.index), filters, pid); }
    case Unsubscribing(filters) =>
      var removed := s.(index := s.index - Elements(filters), misled := s.misled - (Elements(filters) - s.observers));
      MatchingIgnoresIndex(s, removed, pid);
      var observed, others := Filter(filters, In(s.observers)), Filter(filters, NotIn(s.observers));
      SendUnsubscribeMatches(removed, t, HeldBy(op), ToUnsubscribe(observed), others, pid);
      if sends { SendSubscribeMatches(removed, t, HeldBy(op), ToRestore, observed, pid); }
    case Observing(topic) =>
      var grown := s.(observers := s.observers + {topic});
      MatchingIgnoresIndex(s, grown, pid);
      if sends { SendSubscribeMatches(grown, t, HeldBy(op), ForObserver(topic), [topic], pid); }
    case Unobserving(topic) =>
      var removed := s.(observers := s.observers - {topic}, misled := s.misled - ({topic} - s.index));
      MatchingIgnoresIndex(s, removed, pid);
      SendUnsubscribeMatches(removed, t, HeldBy(op), ToUnobserve, [topic], pid);
  }

  lemma MatchingIgnoresIndex(a: State, b: State, pid: int)
    requires SameWires(a, b) && SameCalls(a, b) && b.misled <= a.misled && AcksMatch(a)
    ensures AcksMatch(b) && (SubackOwed(a, pid) <==> SubackOwed(b, pid))
  {}

  lemma ResumeMatches(s: State, t: Task, pid: int, written: bool)
    requires AcksMatch(s) && CallsOk(s) && t in s.calls && s.calls[t].answer.Some?
    requires var up := OnResume(s, t, pid, written).up; |up| > |s.up| ==> !SubackOwed(s, pid)
    ensures AcksMatch(OnResume(s, t, pid, written))
  {
    hide AcksMatch, CallsOk, SubackOwed;
    var undone, c := Undo(s, s.calls[t].purpose), s.calls[t];
    UndoKeepsCalls(s, c.purpose);
    MatchingIgnoresIndex(s, undone, pid);
    CallsOkIgnoresIndex(s, undone);
    FinishMatches(undone, t);
    FinishMatches(s, t);
    if |OnResume(s, t, pid, written).up| > |s.up| {
      SameOwed(s, Finish(s, t), pid);
      SendSubscribeMatches(Finish(s, t), t, c.held, ToRestore, c.purpose.observed, pid);
    }
  }

  lemma SameOwed(a: State, b: State, pid: int)
    requires a.up == b.up && a.down == b.down
    ensures SubackOwed(a, pid) <==> SubackOwed(b, pid)
  {}

  lemma CallsOkIgnoresIndex(a: State, b: State)
    requires SameWires(a, b) && SameCalls(a, b) && CallsOk(a)
    ensures CallsOk(b)
  {
    forall t | t in b.calls ensures CallOk(b, t, b.calls[t]) {
      assert CallOk(a, t, a.calls[t]);
    }
  }

  lemma DispatchMatches(s: State)
    requires AcksMatch(s) && CallsOk(s) && s.down != []
    ensures AcksMatch(OnDispatch(s))
  {
    var after := OnDispatch(s);
    assert forall k :: 0 <= k < |after.down| ==> after.down[k] == s.down[k + 1];
    assert s.down[0].Suback? ==> Answers(s, s.down[0].pid, s.down[0].serial);
  }

  lemma BrokerMatches(s: State, codes: seq<nat>)
    requires AcksMatch(s) && s.up != []
    ensures AcksMatch(OnBroker(s, codes))
  {
    var after := OnBroker(s, codes);
    assert forall k :: 0 <= k < |s.up| - 1 ==> s.up[1..][k] == s.up[k + 1];
    assert s.up[0].Subscribe? ==> Answers(s, s.up[0].pid, s.up[0].serial);
  }

  lemma StepMatches(s: State, e: Event)
    requires AcksMatch(s) && CallsOk(s) && SendsUnderFreshId(s, e)
    ensures AcksMatch(Step(s, e))
  {
    hide AcksMatch, CallsOk, SubackOwed, OnBegin, OnResume, OnDispatch, OnBroker, Undo;
    match e
    case Begin(t, op, pid, written) =>
      if Step(s, e) != s {
        SentUnderItsId(s, t, op, pid, written);
        BeginMatches(s, t, op, pid, written);
      }
    case Resume(t, pid, written) =>
      if Step(s, e) != s {
        ResumedUnderItsId(s, t, pid, written);
        ResumeMatches(s, t, pid, written);
      }
    case Abort(t) =>
      if t in s.calls {
        var undone := Undo(s, s.calls[t].purpose);
        UndoKeepsCalls(s, s.calls[t].purpose);
        MatchingIgnoresIndex(s, undone, 0);
        CallsOkIgnoresIndex(s, undone);
        FinishMatches(undone, t);
      }
    case Dispatch => if s.down != [] { DispatchMatches(s); }
    case Broker(codes) => if s.up != [] { BrokerMatches(s, codes); }
    case RunEnds => MatchingIgnoresIndex(s, s.(dead := true), 0);
  }

  lemma SentUnderItsId(s: State, t: Task, op: Operation, pid: int, written: bool)
    ensures var up := OnBegin(s, t, op, pid, written).up; |up| > |s.up| ==> up[|s.up|].pid == pid
  {}

  lemma ResumedUnderItsId(s: State, t: Task, pid: int, written: bool)
    requires t in s.calls && s.calls[t].answer.Some?
    ensures var up := OnResume(s, t, pid, written).up; |up| > |s.up| ==> up[|s.up|].pid == pid && up[|s.up|].Subscribe?
  {}

  lemma UndoKeepsCalls(s: State, purpose: Purpose)
    ensures SameWires(s, Undo(s, purpose)) && SameCalls(s, Undo(s, purpose)) && Undo(s, purpose).misled <= s.misled
  {}

  lemma {:induction false} FreshIdsNeverMislead(events: seq<Event>)
    requires AlwaysFreshIds(events)
    ensures AcksMatch(Run(FreshConnection, events))
  {
    if events != [] {
      var s := Run(FreshConnection, events[..|events| - 1]);
      FreshIdsNeverMislead(events[..|events| - 1]);
      ReachableStatesKeep(events[..|events| - 1]);
      StepMatches(s, events[|events| - 1]);
    }
  }

  /** When no SUBSCRIBE reuses an identifier that the broker still owes a SUBACK, every free filter
    in the index or observed is subscribed at the broker: through every order of subscribe,
    unsubscribe, observer changes, rejections and cancellations. */
  lemma OwnedUnderFreshIds(events: seq<Event>, f: string)
    requires AlwaysFreshIds(events)
    requires var s := Run(FreshConnection, events);
      !s.dead && GuardFree(s, f) && (f in s.index || f in s.observers)
    ensures Owned(Run(FreshConnection, events), f)
  {
    FreshIdsNeverMislead(events);
    FreeFiltersAreOwned(events, f);
  }

  // ----- When identifiers are reused -----

  lemma {:induction false} RunInTwo(s: State, a: seq<Event>, b: seq<Event>)
    ensures Run(s, a + b) == Run(Run(s, a), b)
    ensures FreshIdsFrom(s, a) && FreshIdsFrom(Run(s, a), b) ==> FreshIdsFrom(s, a + b)
  {
    hide Step;
    if b == [] {
      assert a + b == a;
    } else {
      var n := |b| - 1;
      RunInTwo(s, a, b[..n]);
      assert (a + b)[..|a| + n] == a + b[..n];
    }
  }

  lemma OneEvent(s: State, e: Event)
    ensures Run(s, [e]) == Step(s, e)
    ensures FreshIdsFrom(s, [e]) <==> SendsUnderFreshId(s, e)
  {
    hide Step, SendsUnderFreshId;
    assert [e][..0] == [];
  }

  /** A free filter that the connection counts on and the broker does not have, with nothing on its way to
    the broker that could change it. */
  ghost predicate Lost(s: State, f: string) {
    Forgone(s, f) && s.up == [] && !Owned(s, f)
  }

  /** The same while requests are on their way. */
  ghost predicate Forgone(s: State, f: string) {
    !s.dead && GuardFree(s, f) && (f in s.index || f in s.observers) && f !in s.granted
  }

  function Rejecting(s: State): Event
    requires s.up != []
  {
    Broker(seq(|s.up[0].filters|, _ => 0x80))
  }

  lemma RejectedOne(s: State, f: string)
    requires Forgone(s, f) && s.up != []
    ensures Forgone(Step(s, Rejecting(s)), f) && |Step(s, Rejecting(s)).up| == |s.up| - 1
    ensures SendsUnderFreshId(s, Rejecting(s))
  {}

  /** The broker rejects whatever is on its way. */
  lemma RejectedForGood(s: State, f: string) returns (after: seq<Event>)
    requires Forgone(s, f)
    ensures Lost(Run(s, after), f) && FreshIdsFrom(s, after)
    decreases |s.up|
  {
    hide Step, SendsUnderFreshId;
    if s.up == [] {
      after := [];
    } else {
      RejectedOne(s, f);
      var rest := RejectedForGood(Step(s, Rejecting(s)), f);
      OneEvent(s, Rejecting(s));
      RunInTwo(s, [Rejecting(s)], rest);
      after := [Rejecting(s)] + rest;
    }
  }

  /** The kind and the identifier of the answer that is due at place `k`, on the way or still owed. */
  function Due(s: State, k: nat): (bool, int)
    requires k < |s.down| + |s.up|
  {
    if k < |s.down| then (s.down[k].Suback?, s.down[k].pid)
    else (s.up[k - |s.down|].Subscribe?, s.up[k - |s.down|].pid)
  }

  /** A call waits for this answer. */
  predicate Awaited(s: State, due: (bool, int)) {
    var table := if due.0 then s.pendingSubs else s.pendingUnsubs;
    due.1 in table && table[due.1] in s.calls && s.calls[table[due.1]].answer.None?
  }

  /** The answer due at place `k` is a SUBACK for the identifier, for a SUBSCRIBE without `f`, and not a
    rejection of the first |filters| filters; each answer ahead of it has a waiting call of its own. */
  predicate OwedAnswerAt(s: State, k: nat, pid: int, filters: seq<string>, f: string) {
    && k < |s.down| + |s.up| && Due(s, k) == (true, pid)
    && (if k < |s.down| then !Rejects(filters, s.down[k]) else f !in s.up[k - |s.down|].filters)
    && (forall i :: 0 <= i < k ==> Awaited(s, Due(s, i)))
    && (forall i, j :: 0 <= i < j < k ==> Due(s, i) != Due(s, j))
  }

  predicate CanSubscribe(s: State, t: Task, filters: seq<string>, pid: int) {
    !s.dead && t !in s.calls && GuardsFree(s, Elements(filters)) && IdFree(s, pid)
  }

  /** The broker answers the next SUBSCRIBE with one code for all its filters. */
  function Coded(s: State, code: nat): Event
    requires s.up != []
  {
    Broker(seq(|s.up[0].filters|, _ => code))
  }

  /** The new call waits, and nobody but the broker stands in the way of its filter. */
  ghost predicate WaitsFor(s: State, t: Task, filters: seq<string>, pid: int, f: string) {
    && !s.dead && t in s.calls && s.calls[t].purpose.ForApplication? && s.calls[t].answer.None?
    && s.calls[t].filters == filters
    && s.calls[t].pid == pid && pid in s.pendingSubs && s.pendingSubs[pid] == t && pid !in s.pendingUnsubs
    && f in s.index && f !in s.granted && forall u :: u in s.calls && u != t ==> f !in s.calls[u].held
  }

  /** The new call waits for the SUBACK at place `k`, which is not its own, and nothing ahead is for it. */
  ghost predicate Coming(s: State, k: nat, t: Task, filters: seq<string>, pid: int, f: string) {
    && Inv(s) && WaitsFor(s, t, filters, pid, f) && OwedAnswerAt(s, k, pid, filters, f)
    && forall i :: 0 <= i < k ==> Due(s, i) != (true, pid)
  }

  /** The new call takes the SUBACK and completes. */
  lemma CompletesUngranted(s: State, t: Task, filters: seq<string>, pid: int, f: string)
    requires WaitsFor(s, t, filters, pid, f) && s.down != [] && s.down[0].Suback? && s.down[0].pid == pid
    requires !Rejects(filters, s.down[0])
    ensures var after := [Dispatch, Resume(t, pid, true)]; Forgone(Run(s, after), f) && FreshIdsFrom(s, after)
  {
    var taken := Step(s, Dispatch);
    OneEvent(s, Dispatch);
    OneEvent(taken, Resume(t, pid, true));
    RunInTwo(s, [Dispatch], [Resume(t, pid, true)]);
    assert [Dispatch] + [Resume(t, pid, true)] == [Dispatch, Resume(t, pid, true)];
  }

  /** The broker takes one more request, and the answers due stay the same. */
  lemma BrokerAnswers(s: State, k: nat, t: Task, filters: seq<string>, pid: int, f: string)
    requires Coming(s, k, t, filters, pid, f) && k >= |s.down|
    ensures var e := Coded(s, if k == |s.down| then 0 else 0x80);
      Coming(Step(s, e), k, t, filters, pid, f) && |Step(s, e).up| == |s.up| - 1 && SendsUnderFreshId(s, e)
  {
    hide Inv;
    var code := if k == |s.down| then 0 else 0x80;
    var after := Step(s, Coded(s, code));
    StepKeeps(s, Coded(s, code));
    assert code == 0x80 ==> Accepted(s.up[0].filters, seq(|s.up[0].filters|, _ => code)) == {};
    assert forall i :: 0 <= i < |s.down| + |s.up| ==> Due(after, i) == Due(s, i);
    forall i | 0 <= i < k ensures Awaited(after, Due(after, i)) { assert Awaited(s, Due(s, i)); }
  }

  function TableOf(s: State, due: (bool, int)): map<int, Task> { if due.0 then s.pendingSubs else s.pendingUnsubs }

  /** An answer ahead goes to its own call; the identifiers, the requests and the index stay. */
  lemma AnswerTaken(s: State)
    requires s.down != [] && !s.dead && Awaited(s, Due(s, 0))
    ensures Due(s, 0).1 in TableOf(s, Due(s, 0))
    ensures var u, after := TableOf(s, Due(s, 0))[Due(s, 0).1], Step(s, Dispatch);
      && u in s.calls && after.calls == s.calls[u := s.calls[u].(answer := Some(s.down[0]))]
      && after.down == s.down[1..] && after.up == s.up && !after.dead && after.index == s.index
      && after.granted == s.granted
      && after.pendingSubs == s.pendingSubs && after.pendingUnsubs == s.pendingUnsubs
  {}

  /** Different identifiers have different calls. */
  lemma CallsOfOthers(s: State, a: (bool, int), b: (bool, int))
    requires Inv(s) && Awaited(s, a) && Awaited(s, b) && a != b
    ensures a.1 in TableOf(s, a) && b.1 in TableOf(s, b) && TableOf(s, a)[a.1] != TableOf(s, b)[b.1]
  {
    hide Inv, Awaited;
    EntryFits(s, a);
    EntryFits(s, b);
  }

  lemma EntryFits(s: State, due: (bool, int))
    requires Inv(s) && Awaited(s, due)
    ensures due.1 in TableOf(s, due) && TableOf(s, due)[due.1] in s.calls
    ensures var c := s.calls[TableOf(s, due)[due.1]]; c.pid == due.1 && IsSubscribe(c.purpose) == due.0
  {}

  lemma OthersStillAwaited(s: State, after: State, u: Task, answer: Ack, due: (bool, int))
    requires Awaited(s, due) && due.1 in TableOf(s, due) && u in s.calls
    requires after.calls == s.calls[u := s.calls[u].(answer := Some(answer))]
    requires after.pendingSubs == s.pendingSubs && after.pendingUnsubs == s.pendingUnsubs && TableOf(s, due)[due.1] != u
    ensures Awaited(after, due)
  {}

  lemma NewCallStillWaits(s: State, after: State, u: Task, answer: Ack, t: Task, filters: seq<string>, pid: int, f: string)
    requires WaitsFor(s, t, filters, pid, f) && u in s.calls && u != t
    requires after.calls == s.calls[u := s.calls[u].(answer := Some(answer))] && after.dead == s.dead
    requires after.pendingSubs == s.pendingSubs && after.pendingUnsubs == s.pendingUnsubs
    requires after.index == s.index && after.granted == s.granted
    ensures WaitsFor(after, t, filters, pid, f)
  {}

  lemma DueMovesUp(s: State, after: State)
    requires s.down != [] && after.down == s.down[1..] && after.up == s.up
    ensures forall i :: 0 <= i < |after.down| + |after.up| ==> Due(after, i) == Due(s, i + 1)
  {}

  lemma NewIsAwaited(s: State, t: Task, filters: seq<string>, pid: int, f: string)
    requires WaitsFor(s, t, filters, pid, f)
    ensures Awaited(s, (true, pid)) && pid in TableOf(s, (true, pid)) && TableOf(s, (true, pid))[pid] == t && !s.dead
  {}

  lemma AheadIsTaken(s: State, k: nat, t: Task, filters: seq<string>, pid: int, f: string)
    requires Coming(s, k, t, filters, pid, f) && 0 < k < |s.down|
    ensures Coming(Step(s, Dispatch), k - 1, t, filters, pid, f) && |Step(s, Dispatch).up| == |s.up|
    ensures SendsUnderFreshId(s, Dispatch)
  {
    hide Step, Inv, Due, Awaited, Rejects;
    var after, first := Step(s, Dispatch), Due(s, 0);
    StepKeeps(s, Dispatch);
    NewIsAwaited(s, t, filters, pid, f);
    AnswerTaken(s);
    CallsOfOthers(s, first, (true, pid));
    var u := TableOf(s, first)[first.1];
    NewCallStillWaits(s, after, u, s.down[0], t, filters, pid, f);
    DueMovesUp(s, after);
    forall i | 0 <= i < k - 1 ensures Awaited(after, Due(after, i)) {
      assert Awaited(s, Due(s, i + 1)) && first != Due(s, i + 1);
      CallsOfOthers(s, first, Due(s, i + 1));
      OthersStillAwaited(s, after, u, s.down[0], Due(s, i + 1));
    }
  }

  lemma CompletesFirst(s: State, t: Task, filters: seq<string>, pid: int, f: string)
    requires Coming(s, 0, t, filters, pid, f) && s.down != []
    ensures var after := [Dispatch, Resume(t, pid, true)]; Forgone(Run(s, after), f) && FreshIdsFrom(s, after)
  {
    hide Step, SendsUnderFreshId, Forgone, WaitsFor, Rejects;
    CompletesUngranted(s, t, filters, pid, f);
  }

  lemma AnswerIsDue(s: State, k: nat, t: Task, filters: seq<string>, pid: int, f: string)
    requires Coming(s, k, t, filters, pid, f)
    ensures k < |s.down| + |s.up|
  {}

  /** Until the new call has the SUBACK it was not meant to have. */
  lemma AnswerComes(s: State, k: nat, t: Task, filters: seq<string>, pid: int, f: string) returns (after: seq<Event>)
    requires Coming(s, k, t, filters, pid, f)
    ensures Forgone(Run(s, after), f) && FreshIdsFrom(s, after)
    decreases |s.up|, k
  {
    hide Step, SendsUnderFreshId, Coming, Forgone;
    if k == 0 < |s.down| {
      CompletesFirst(s, t, filters, pid, f);
      after := [Dispatch, Resume(t, pid, true)];
    } else {
      AnswerIsDue(s, k, t, filters, pid, f);
      var e, next := Dispatch, k;
      if k < |s.down| {
        next := k - 1;
        AheadIsTaken(s, k, t, filters, pid, f);
      } else {
        e := Coded(s, if k == |s.down| then 0 else 0x80);
        BrokerAnswers(s, k, t, filters, pid, f);
      }
      var rest := AnswerComes(Step(s, e), next, t, filters, pid, f);
      OneEvent(s, e);
      RunInTwo(s, [e], rest);
      after := [e] + rest;
    }
  }

  lemma NewCallWaits(s: State, k: nat, t: Task, filters: seq<string>, pid: int, f: string)
    requires Inv(s) && CanSubscribe(s, t, filters, pid) && OwedAnswerAt(s, k, pid, filters, f)
    requires f in filters && f !in s.index && f !in s.granted
    ensures Coming(Step(s, Begin(t, Subscribing(filters), pid, true)), k, t, filters, pid, f)
  {
    hide Inv;
    var sent := Step(s, Begin(t, Subscribing(filters), pid, true));
    StepKeeps(s, Begin(t, Subscribing(filters), pid, true));
    assert forall i :: 0 <= i <= k ==> Due(sent, i) == Due(s, i);
    forall i | 0 <= i < k ensures Awaited(sent, Due(sent, i)) && Due(sent, i) != (true, pid) { assert Awaited(s, Due(s, i)); }
  }

  /** From every live state: a SUBSCRIBE for a new, ungranted filter that goes out under an identifier whose
    SUBACK is owed can lose that filter, when each answer ahead of that SUBACK has its call waiting. */
  lemma ReusedIdLosesOwnership(s: State, k: nat, t: Task, filters: seq<string>, pid: int,
                               f: string) returns (after: seq<Event>)
    requires Inv(s) && CanSubscribe(s, t, filters, pid) && OwedAnswerAt(s, k, pid, filters, f)
    requires f in filters && f !in s.index && f !in s.granted
    ensures var sent := Step(s, Begin(t, Subscribing(filters), pid, true));
      Lost(Run(sent, after), f) && FreshIdsFrom(sent, after)
  {
    var sent := Step(s, Begin(t, Subscribing(filters), pid, true));
    NewCallWaits(s, k, t, filters, pid, f);
    var until := AnswerComes(sent, k, t, filters, pid, f);
    var then_ := RejectedForGood(Run(sent, until), f);
    RunInTwo(sent, until, then_);
    after := until + then_;
  }

  ghost predicate OwedAnswerComes(s: State, pid: int, filters: seq<string>, f: string) {
    exists k: nat :: OwedAnswerAt(s, k, pid, filters, f)
  }

  /** Some continuation without further reuse loses the filter. */
  ghost predicate CanBeLost(s: State, f: string) { exists after :: FreshIdsFrom(s, after) && Lost(Run(s, after), f) }

  lemma LostBy(s: State, f: string, after: seq<Event>)
    requires FreshIdsFrom(s, after) && Lost(Run(s, after), f)
    ensures CanBeLost(s, f)
  {
    hide FreshIdsFrom, Lost, Run;
  }

  /** Where nothing went out under a used identifier so far and the calls whose answers are ahead of an owed
    SUBACK still wait: a `subscribe` for a new, ungranted filter can ever lose it to the reuse of its identifier
    if and only if the broker still owes a SUBACK for that identifier. */
  lemma OwnershipIsLostExactlyByReuse(events: seq<Event>, t: Task, filters: seq<string>, pid: int, f: string)
    requires AlwaysFreshIds(events)
    requires var s := Run(FreshConnection, events);
      && CanSubscribe(s, t, filters, pid) && f in filters && f !in s.index && f !in s.granted
      && (SubackOwed(s, pid) ==> OwedAnswerComes(s, pid, filters, f))
    ensures var s := Run(FreshConnection, events);
      CanBeLost(Step(s, Begin(t, Subscribing(filters), pid, true)), f) <==> SubackOwed(s, pid)
  {
    hide Step, CanBeLost, SendsUnderFreshId, CanSubscribe, OwedAnswerAt, SubackOwed, Lost, FreshIdsFrom, Run,
         AlwaysFreshIds;
    var s := Run(FreshConnection, events);
    var begin := Begin(t, Subscribing(filters), pid, true);
    if SubackOwed(s, pid) {
      ReachableStatesKeep(events);
      var k: nat :| OwedAnswerAt(s, k, pid, filters, f);
      var after := ReusedIdLosesOwnership(s, k, t, filters, pid, f);
      LostBy(Step(s, begin), f, after);
    } else {
      SubscribeSendsUnderItsId(s, t, filters, pid);
      FreshSubscribeKeepsOwnership(events, begin, f);
    }
  }

  lemma SubscribeSendsUnderItsId(s: State, t: Task, filters: seq<string>, pid: int)
    requires !SubackOwed(s, pid)
    ensures SendsUnderFreshId(s, Begin(t, Subscribing(filters), pid, true))
  {
    hide SubackOwed;
  }

  lemma FreshSubscribeKeepsOwnership(events: seq<Event>, e: Event, f: string)
    requires AlwaysFreshIds(events) && SendsUnderFreshId(Run(FreshConnection, events), e)
    ensures !CanBeLost(Step(Run(FreshConnection, events), e), f)
  {
    hide Step, SendsUnderFreshId;
    var s := Run(FreshConnection, events);
    forall after | FreshIdsFrom(Step(s, e), after) ensures !Lost(Run(Step(s, e), after), f) {
      assert (events + [e])[..|events|] == events;
      RunInTwo(FreshConnection, events + [e], after);
      if Lost(Run(FreshConnection, events + [e] + after), f) { OwnedUnderFreshIds(events + [e] + after, f); }
    }
  }

  const AbandonedSubscribe := [
    Begin(0, Subscribing(["a"]), 1, true), Abort(0),
    Begin(1, Subscribing(["b"]), 1, true),
    Broker([0]), Dispatch, Resume(1, 2, true), Broker([0x80])]

  lemma {:induction false} RunGoesThrough(events: seq<Event>, states: seq<State>)
    requires |states| == |events| + 1
    requires forall i :: 0 <= i < |events| ==> states[i + 1] == Step(states[i], events[i])
    ensures Run(states[0], events) == states[|events|]
  {
    if events != [] {
      var n := |events| - 1;
      RunGoesThrough(events[..n], states[..n + 1]);
    }
  }

  function Waiting(pid: int, serial: nat, f: string, answer: Option<Ack>): Call {
    Call({f}, ForApplication({f}), [f], pid, serial, answer)
  }

  lemma SubscribeToOne(s: State, t: Task, f: string, pid: int)
    requires s.calls == map[] && s.pendingSubs == map[] && s.pendingUnsubs == map[] && s.index == {} && !s.dead
    ensures Step(s, Begin(t, Subscribing([f]), pid, true))
         == s.(index := {f}, calls := map[t := Waiting(pid, s.sent, f, None)], pendingSubs := map[pid := t],
               up := s.up + [Subscribe(pid, s.sent, [f])], sent := s.sent + 1)
  {
    assert Elements([f]) == {f};
    assert s.index + (Elements([f]) - s.index) == {f};
    assert Elements([f]) - s.index == {f};
  }

  /** The second SUBSCRIBE is on its way to the broker, and the SUBACK of the first one to the client. */
  const SubackIsLate := FreshConnection.(
    index := {"b"}, calls := map[1 := Waiting(1, 1, "b", None)], pendingSubs := map[1 := 1], sent := 2,
    up := [Subscribe(1, 1, ["b"])], down := [Suback(1, 0, [0])], granted := {"a"})

  lemma FirstCallIsAbandoned()
    ensures Run(FreshConnection, AbandonedSubscribe[..4]) == SubackIsLate
  {
    var run := AbandonedSubscribe[..4];
    var s1 := Step(FreshConnection, run[0]);
    SubscribeToOne(FreshConnection, 0, "a", 1);
    var s2 := FreshConnection.(up := [Subscribe(1, 0, ["a"])], sent := 1);
    assert s2 == Step(s1, run[1]);
    var s3 := Step(s2, run[2]);
    SubscribeToOne(s2, 1, "b", 1);
    assert SubackIsLate == Step(s3, run[3]) by { OneCode("a", 0); }
    RunGoesThrough(run, [FreshConnection, s1, s2, s3, SubackIsLate]);
  }

  lemma SecondCallIsMisled()
    ensures var s := Run(SubackIsLate, AbandonedSubscribe[4..]);
      "b" in s.index && Lost(s, "b")
  {
    var run := AbandonedSubscribe[4..];
    var s5 := SubackIsLate.(calls := map[1 := Waiting(1, 1, "b", Some(Suback(1, 0, [0])))], down := [], misled := {"b"});
    assert s5 == Step(SubackIsLate, run[0]) by { assert Elements(["b"]) == {"b"}; }
    var s6 := s5.(calls := map[], pendingSubs := map[]);
    assert s6 == Step(s5, run[1]);
    var s7 := s6.(up := [], down := [Suback(1, 1, [0x80])]);
    assert s7 == Step(s6, run[2]) by { OneCode("b", 0x80); }
    RunGoesThrough(run, [SubackIsLate, s5, s6, s7]);
  }

  /** It happens: a SUBSCRIBE is cancelled, the next one reuses its identifier and takes its SUBACK,
    and the broker's rejection of the second one comes too late. */
  lemma IdentifierReuseCanMislead()
    ensures var s := Run(FreshConnection, AbandonedSubscribe);
      "b" in s.index && Lost(s, "b")
  {
    hide Step, Lost;
    FirstCallIsAbandoned();
    SecondCallIsMisled();
    RunInTwo(FreshConnection, AbandonedSubscribe[..4], AbandonedSubscribe[4..]);
    assert AbandonedSubscribe[..4] + AbandonedSubscribe[4..] == AbandonedSubscribe;
  }

  lemma OneCode(f: string, code: nat)
    ensures Accepted([f], [code]) == if code < 0x80 then {f} else {}
  {
    if code < 0x80 { assert [f][0] in Accepted([f], [code]); }
  }
}
