/** What the dispatcher does for its callers: nobody waits outside the table, a response reaches its waiter
  unless something took it away, closes finish, and the observer of an interest goes with its last close. */
module DispatcherProgress {
  import opened Prelude
  import opened RequestDispatcher

  /** A future that nothing has settled belongs to a request that a response can still find. */
  ghost predicate WaitersArePending(d: Dispatcher) {
    forall r :: 0 <= r < |d.requests| && d.requests[r].future == Waiting ==> IsPending(d, r)
  }

  lemma KeyOfPending(d: Dispatcher, max: nat, r: nat)
    requires Inv(d, max) && IsPending(d, r)
    ensures d.requests[r].key in d.pending && r in Waiters(d.pending)
  {}

  lemma RegisterKeepsWaiters(d: Dispatcher, key: Key)
    requires WaitersArePending(d)
    ensures WaitersArePending(OnRegister(d, key).0)
  {
    if d.permits > 0 && key !in d.pending && d.bound {
      var after := OnRegister(d, key).0;
      assert after.pending == d.pending[key := |d.requests|];
      assert after.requests == d.requests + [Request(key, Waiting, false)];
      forall r | 0 <= r < |after.requests| && after.requests[r].future == Waiting ensures IsPending(after, r) {
        if r < |d.requests| { assert IsPending(d, r); }
      }
    }
  }

  /** Closing and readiness touch neither the table nor the futures. */
  ghost predicate SameWaiters(d: Dispatcher, e: Dispatcher) { e.pending == d.pending && e.requests == d.requests }

  lemma DroppingKeepsWaiters(d: Dispatcher, r: nat, i: nat, active: bool)
    requires i < |d.interests|
    ensures SameWaiters(d, DropInterest(d, r, i, active))
  {}

  lemma UnregisterKeepsWaiters(d: Dispatcher, r: nat)
    requires WaitersArePending(d)
    ensures WaitersArePending(OnUnregister(d, r))
  {
    if IsPending(d, r) && InterestKnown(d, d.requests[r].key.0) {
      var i := d.topics[d.requests[r].key.0];
      var left := Removed(d, r, i);
      forall q | 0 <= q < |left.requests| && left.requests[q].future == Waiting ensures IsPending(left, q) {
        assert q != r && d.requests[q] == left.requests[q] && IsPending(d, q);
        assert d.requests[q].key != d.requests[r].key;
      }
      assert SameWaiters(left, OnUnregister(d, r)) by {
        hide Removed;
        DroppingKeepsWaiters(Leaving(d, r, i, AwaitRemoval), r, i, true);
        DroppingKeepsWaiters(Leaving(d, r, i, AwaitRemoval), r, i, false);
      }
    }
  }

  lemma CancelPendingKeepsWaiters(d: Dispatcher)
    requires WaitersArePending(d)
    ensures WaitersArePending(OnCancelPending(d))
    ensures forall r :: 0 <= r < |d.requests| ==> OnCancelPending(d).requests[r].future != Waiting
  {
    forall r | 0 <= r < |d.requests| ensures OnCancelPending(d).requests[r].future != Waiting {
      if d.requests[r].future == Waiting {
        assert IsPending(d, r);
        assert r in Waiters(d.pending);
      }
    }
  }

  lemma StepKeepsWaiters(d: Dispatcher, e: Event)
    requires WaitersArePending(d)
    ensures WaitersArePending(Step(d, e))
  {
    hide OnRegister, OnUnregister, OnCancelPending, DropInterest, EnsureReady;
    match e
    case Register(key) => RegisterKeepsWaiters(d, key);
    case Unregister(r) => UnregisterKeepsWaiters(d, r);
    case CancelPending => CancelPendingKeepsWaiters(d);
    case CloseGoesOn(r) => ClosesKeepWaiters(d, e);
    case CloseCancelled(r) => ClosesKeepWaiters(d, e);
    case Restore(i) => if i < |d.interests| { ReadyKeepsWaiters(d, i); }
    case _ => FuturesKeepWaiters(d, e);
  }

  lemma ReadyKeepsWaiters(d: Dispatcher, i: nat)
    requires i < |d.interests|
    ensures SameWaiters(d, EnsureReady(d, i))
  {}

  lemma ClosesKeepWaiters(d: Dispatcher, e: Event)
    requires e.CloseGoesOn? || e.CloseCancelled?
    ensures SameWaiters(d, Step(d, e))
  {
    hide DropInterest;
    forall r: nat, i: nat, active | i < |d.interests| ensures SameWaiters(d, DropInterest(d, r, i, active)) {
      DroppingKeepsWaiters(d, r, i, active);
    }
  }

  lemma FuturesKeepWaiters(d: Dispatcher, e: Event)
    requires WaitersArePending(d)
    requires e.ReadyEnds? || e.Bind? || e.TryClaim? || e.Complete? || e.CancelFuture?
    ensures WaitersArePending(Step(d, e))
  {
    hide Waiters;
    var t := Step(d, e);
    forall r | 0 <= r < |t.requests| && t.requests[r].future == Waiting ensures IsPending(t, r) {
      assert d.requests[r].future == Waiting && t.requests[r].key == d.requests[r].key;
      assert IsPending(d, r);
    }
  }

  /** In every run: whoever waits is in the table; and a shutdown leaves nobody waiting. */
  lemma {:induction false} NobodyWaitsOutsideTheTable(max: nat, events: seq<Event>)
    ensures WaitersArePending(Run(max, events))
    ensures forall r :: 0 <= r < |Run(max, events).requests| ==>
      Run(max, events + [CancelPending]).requests[r].future != Waiting
  {
    hide Step, OnCancelPending;
    if events != [] {
      NobodyWaitsOutsideTheTable(max, events[..|events| - 1]);
      StepKeepsWaiters(Run(max, events[..|events| - 1]), events[|events| - 1]);
    }
    var d := Run(max, events);
    assert (events + [CancelPending])[..|events|] == events;
    ShutdownIs(d);
    CancelPendingKeepsWaiters(d);
  }

  lemma ShutdownIs(d: Dispatcher)
    ensures Step(d, CancelPending) == OnCancelPending(d)
  {}

  // ----- Registration and responses -----

  /** `register` succeeds exactly with a permit, a key nobody uses and a connection; the new request then
    waits, unclaimed, under its key, and its topic's interest has a task that makes it ready. */
  lemma RegisterMeaning(d: Dispatcher, max: nat, key: Key)
    requires Inv(d, max)
    ensures OnRegister(d, key).1 == Fine <==> d.permits > 0 && key !in d.pending && d.bound
    ensures OnRegister(d, key).1 != Fine ==> OnRegister(d, key).0 == d
    ensures var t := OnRegister(d, key).0;
      OnRegister(d, key).1 == Fine ==>
        && t.requests == d.requests + [Request(key, Waiting, false)] && IsPending(t, |d.requests|)
        && t.permits == d.permits - 1 && InterestKnown(t, key.0) && t.interests[t.topics[key.0]].ready.Some?
  {
    hide TableOk, PermitsOk, ClaimsOk, CompletionsOk, IdleInterestsOk, KeysOn;
  }

  /** A request waits under its key and has no claim yet. */
  ghost predicate Claimable(d: Dispatcher, key: Key) {
    exists r: nat :: IsPending(d, r) && d.requests[r].key == key && !d.requests[r].claimed && d.requests[r].future == Waiting
  }

  /** A message is claimed exactly for such a request. */
  lemma ClaimMeaning(d: Dispatcher, max: nat, key: Key)
    requires Inv(d, max)
    ensures var t := Step(d, TryClaim(key));
      if Claimable(d, key) then
        && key in d.pending && d.pending[key] < |t.requests|
        && t.claims == d.claims + [Claim(d.pending[key], key, d.generation)] && t.requests[d.pending[key]].claimed
      else t == d
  {
    hide PermitsOk, ClaimsOk, CompletionsOk, InterestsOk, TasksOk, Waiters, IdleInterestsOk;
    if key in d.pending { assert IsPending(d, d.pending[key]); }
  }

  lemma ClaimsStay(d: Dispatcher, e: Event, c: nat)
    requires c < |d.claims|
    ensures var t := Step(d, e);
      && c < |t.claims| && t.claims[c] == d.claims[c] && d.generation <= t.generation
      && (t.generation == d.generation <==> e != Bind && e != CancelPending)
  {
    hide DropInterest, Waiters, Removed;
    forall r: nat, i: nat, active | i < |d.interests| ensures SameClaims(d, DropInterest(d, r, i, active)) {
      DroppingKeepsClaims(d, r, i, active);
    }
    if e.Unregister? { LeavingKeepsClaims(d, e.request); }
  }

  ghost predicate SameClaims(d: Dispatcher, e: Dispatcher) { e.claims == d.claims && e.generation == d.generation }

  lemma DroppingKeepsClaims(d: Dispatcher, r: nat, i: nat, active: bool)
    requires i < |d.interests|
    ensures SameClaims(d, DropInterest(d, r, i, active))
  {}

  lemma LeavingKeepsClaims(d: Dispatcher, r: nat)
    ensures SameClaims(d, OnUnregister(d, r))
  {}

  lemma {:induction false} ClaimsLast(max: nat, before: seq<Event>, between: seq<Event>, c: nat)
    requires c < |Run(max, before).claims|
    ensures var d, t := Run(max, before), Run(max, before + between);
      && c < |t.claims| && t.claims[c] == d.claims[c] && d.generation <= t.generation
      && (t.generation == d.generation <==> Bind !in between && CancelPending !in between)
  {
    hide Step;
    if between == [] {
      assert before + between == before;
    } else {
      var n := |between| - 1;
      ClaimsLast(max, before, between[..n], c);
      assert (before + between)[..|before| + n] == before + between[..n];
      assert between == between[..n] + [between[n]];
      ClaimsStay(Run(max, before + between[..n]), between[n], c);
    }
  }

  /** In every run: what a claim made by the last event before `between` delivers at the end. The response is in the
    request's future if and only if the connection is still the same, the request is still in the table
    and its future still waits. */
  lemma ResponseArrivesExactlyIfWaiting(max: nat, before: seq<Event>, key: Key, between: seq<Event>)
    requires |Run(max, before + [TryClaim(key)]).claims| > |Run(max, before).claims|
    ensures var c := |Run(max, before).claims|;
      var d, t := Run(max, before + [TryClaim(key)] + between), Run(max, before + [TryClaim(key)] + between + [Complete(c)]);
      && c < |d.claims| && d.claims[c].key == key && d.claims[c].request < |d.requests| == |t.requests|
      && var r := d.claims[c].request;
         if Bind !in between && CancelPending !in between && IsPending(d, r) && d.requests[r].future == Waiting
         then t.requests[r].future == Response(c) && t.completions == d.completions + [Completion(c, r, d.generation)]
         else t == d
  {
    hide Step, Inv;
    var s := Run(max, before);
    var c := |s.claims|;
    var claimed := before + [TryClaim(key)];
    assert claimed[..|before|] == before;
    ReachableStatesKeep(max, before);
    ClaimMeaning(s, max, key);
    ClaimsLast(max, claimed, between, c);
    var d := Run(max, claimed + between);
    ReachableStatesKeep(max, claimed + between);
    assert (claimed + between + [Complete(c)])[..|claimed + between|] == claimed + between;
    CompleteMeaning(d, max, c);
    ClaimGeneration(s, key);
  }

  lemma ClaimGeneration(d: Dispatcher, key: Key)
    ensures Step(d, TryClaim(key)).generation == d.generation
  {}

  lemma CompleteMeaning(d: Dispatcher, max: nat, c: nat)
    requires Inv(d, max) && c < |d.claims|
    ensures var t, r := Step(d, Complete(c)), d.claims[c].request;
      && r < |d.requests| && |t.requests| == |d.requests|
      && if d.generation == d.claims[c].generation && IsPending(d, r) && d.requests[r].future == Waiting
         then t.requests[r].future == Response(c) && t.completions == d.completions + [Completion(c, r, d.generation)]
         else t == d
  {
    hide PermitsOk, CompletionsOk, InterestsOk, TasksOk, Waiters, IdleInterestsOk;
  }

  /** A new connection: the same requests wait, none of them claimed, and no interest in a topic is ready. */
  lemma BindMeaning(d: Dispatcher, max: nat)
    requires Inv(d, max)
    ensures var t := Step(d, Bind);
      && t.bound && t.generation == d.generation + 1 && t.pending == d.pending && t.topics == d.topics
      && |t.requests| == |d.requests| && |t.interests| == |d.interests|
      && (forall r :: 0 <= r < |d.requests| ==> t.requests[r].future == d.requests[r].future && t.requests[r].key == d.requests[r].key)
      && (forall r: nat :: IsPending(d, r) ==> !t.requests[r].claimed)
      && (forall topic :: topic in d.topics ==> t.interests[d.topics[topic]] == d.interests[d.topics[topic]].(ready := None))
  {
    hide PermitsOk, CompletionsOk, ClaimsOk, TasksOk, IdleInterestsOk, KeysOn;
    forall r: nat | IsPending(d, r) ensures r in Waiters(d.pending) { KeyOfPending(d, max, r); }
    forall topic | topic in d.topics ensures d.topics[topic] in d.topics.Values {}
  }

  /** `restore` gives an interest that is still referred to a running task, once. */
  lemma RestoreMeaning(d: Dispatcher, max: nat, i: nat)
    requires Inv(d, max) && i < |d.interests|
    ensures var t := Step(d, Restore(i));
      if d.bound && d.interests[i].refcount > 0 && d.interests[i].ready.None?
      then t.interests[i].ready == Some(|d.tasks|) && t.tasks == d.tasks + [Running]
      else t == d
  {}

  // ----- Closes -----

  lemma PendingIsCounted(d: Dispatcher, max: nat, r: nat)
    requires Inv(d, max) && IsPending(d, r)
    ensures InterestKnown(d, d.requests[r].key.0)
    ensures var i := d.topics[d.requests[r].key.0]; d.interests[i].refcount >= 1 && d.interests[i].topic == d.requests[r].key.0
  {
    hide PermitsOk, ClaimsOk, CompletionsOk, TasksOk, IdleInterestsOk, TableOk;
    assert d.requests[r].key in KeysOn(d.pending, d.requests[r].key.0);
  }

  lemma DropMeaning(d: Dispatcher, r: nat, i: nat, active: bool)
    requires i < |d.interests| && d.interests[i].refcount == 0 && d.interests[i].topic in d.topics
    requires d.topics[d.interests[i].topic] == i
    ensures var t := DropInterest(d, r, i, active);
      && t.topics == d.topics - {d.interests[i].topic} && SameWaiters(d, t)
      && if active && d.bound then t.closing == d.closing[r := AwaitRemoval] else t.released[r] == d.released[r] + 1
  {}

  /** `unregister` takes a waiting request out of the table and settles its future. The last one for its topic
    waits while the readiness task runs; else the topic goes, and its observer first if the task had succeeded. */
  lemma UnregisterMeaning(d: Dispatcher, max: nat, r: nat)
    requires Inv(d, max) && IsPending(d, r)
    ensures var t, topic := Step(d, Unregister(r)), d.requests[r].key.0;
      && t.pending == d.pending - {d.requests[r].key} && InterestKnown(d, topic) && |t.requests| == |d.requests|
      && t.requests[r].future == (if d.requests[r].future == Waiting then Cancelled else d.requests[r].future)
      && var i, interest := d.topics[topic], d.interests[d.topics[topic]];
         var ready := if interest.ready.Some? && interest.ready.value < |d.tasks| then d.tasks[interest.ready.value] else Broken;
         if interest.refcount > 1 then t.topics == d.topics && t.released[r] == d.released[r] + 1
         else if ready == Running then t.topics == d.topics && t.closing == d.closing[r := AwaitReady(i, interest.ready.value)]
         else
           && t.topics == d.topics - {topic}
           && if ready == Succeeded && d.bound then t.closing == d.closing[r := AwaitRemoval]
              else t.released[r] == d.released[r] + 1
  {
    hide Inv, Leaving, DropInterest, GiveBack;
    PendingIsCounted(d, max, r);
    var i := d.topics[d.requests[r].key.0];
    LeavingShape(d, r, i, AwaitRemoval);
    var left := Leaving(d, r, i, AwaitRemoval);
    GiveBackChanges(left, r);
    var interest := d.interests[i];
    if interest.refcount == 1 {
      DropMeaning(left, r, i, true);
      DropMeaning(left, r, i, false);
      if interest.ready.Some? { LeavingShape(d, r, i, AwaitReady(i, interest.ready.value)); }
    }
  }

  /** A close that goes on after its readiness task ends gives the permit back; it first removes the
    observer exactly when it was the last one for its topic, the task had succeeded and there is a connection. */
  lemma CloseMeaning(d: Dispatcher, r: nat, i: nat, task: nat)
    requires r in d.closing && d.closing[r] == AwaitReady(i, task) && i < |d.interests| && task < |d.tasks|
    requires d.tasks[task] != Running
    ensures var t := Step(d, CloseGoesOn(r));
      var topic := d.interests[i].topic;
      var last := d.interests[i].refcount == 0 && topic in d.topics && d.topics[topic] == i;
      && t.topics == (if last then d.topics - {topic} else d.topics)
      && (if last && d.tasks[task] == Succeeded && d.bound then t.closing == d.closing[r := AwaitRemoval] && t.released == d.released
          else r !in t.closing && t.released[r] == d.released[r] + 1)
  {}

  lemma ThreeStepsFinish(d: Dispatcher, max: nat, r: nat, succeeds: bool)
    requires Inv(d, max) && r in d.closing && d.closing[r].AwaitReady?
    ensures var t := Step(Step(Step(d, ReadyEnds(d.closing[r].task, succeeds)), CloseGoesOn(r)), CloseGoesOn(r));
      r !in t.closing && t.released[r] == d.released[r] + 1
  {
    hide PermitsOk, CompletionsOk, ClaimsOk, InterestsOk, TableOk, Waiters, IdleInterestsOk;
    var i, task := d.closing[r].interest, d.closing[r].task;
    var ended := Step(d, ReadyEnds(task, succeeds));
    CloseMeaning(ended, r, i, task);
    var once := Step(ended, CloseGoesOn(r));
    if r in once.closing { RemovalFinishes(once, r); }
  }

  lemma RemovalFinishes(d: Dispatcher, r: nat)
    requires r in d.closing && d.closing[r] == AwaitRemoval
    ensures var t := Step(d, CloseGoesOn(r)); r !in t.closing && t.released[r] == d.released[r] + 1
  {}

  /** In every run: every close can finish, however its readiness task ends, and gives its one permit back. */
  lemma EveryCloseCanFinish(max: nat, events: seq<Event>, r: nat, succeeds: bool) returns (after: seq<Event>)
    requires r in Run(max, events).closing
    ensures var d, t := Run(max, events), Run(max, events + after); r !in t.closing && t.released[r] == d.released[r] + 1
  {
    hide Inv, Step;
    var d := Run(max, events);
    ReachableStatesKeep(max, events);
    if d.closing[r] == AwaitRemoval {
      after := [CloseGoesOn(r)];
      RunMore(max, events, CloseGoesOn(r));
      RemovalFinishes(d, r);
    } else {
      var ends := ReadyEnds(d.closing[r].task, succeeds);
      after := [ends, CloseGoesOn(r), CloseGoesOn(r)];
      RunMore(max, events, ends);
      RunMore(max, events + [ends], CloseGoesOn(r));
      RunMore(max, events + [ends] + [CloseGoesOn(r)], CloseGoesOn(r));
      assert events + after == events + [ends] + [CloseGoesOn(r)] + [CloseGoesOn(r)];
      ThreeStepsFinish(d, max, r, succeeds);
    }
  }

  lemma RunMore(max: nat, events: seq<Event>, e: Event)
    ensures Run(max, events + [e]) == Step(Run(max, events), e)
  {
    assert (events + [e])[..|events|] == events;
  }

  // ----- Shutdown, and what ends in between -----

  /** `cancel_pending`: nobody waits any more, every waiting future of the table has failed, all their permits are
    back and no later response of this connection is delivered. */
  lemma ShutdownMeaning(d: Dispatcher, max: nat)
    requires Inv(d, max)
    ensures var t := Step(d, CancelPending);
      && t.pending == map[] && t.topics == map[] && !t.bound && t.generation == d.generation + 1
      && t.permits == d.permits + |d.pending| && t.closing == d.closing && |t.requests| == |d.requests|
      && forall r: nat :: r < |d.requests| ==>
           t.requests[r].future == if IsPending(d, r) && d.requests[r].future == Waiting then Failed else d.requests[r].future
  {
    hide Inv, PermitsOk, InterestsOk, IdleInterestsOk, TasksOk, ClaimsOk, CompletionsOk;
    forall r: nat | r < |d.requests| ensures r in Waiters(d.pending) <==> IsPending(d, r) {
      if r in Waiters(d.pending) {
        var k :| k in d.pending && d.pending[k] == r;
        PendingHasItsKey(d, max, k);
      }
    }
  }

  lemma PendingHasItsKey(d: Dispatcher, max: nat, k: Key)
    requires Inv(d, max) && k in d.pending
    ensures d.pending[k] < |d.requests| && d.requests[d.pending[k]].key == k
  {}

  /** A readiness task ends as it ends, and a future that is cancelled by its caller no longer waits; nothing else. */
  lemma EndingsMeaning(d: Dispatcher, task: nat, succeeds: bool, r: nat)
    ensures task < |d.tasks| && d.tasks[task] == Running ==>
      Step(d, ReadyEnds(task, succeeds)) == d.(tasks := d.tasks[task := if succeeds then Succeeded else Broken])
    ensures r < |d.requests| && d.requests[r].future == Waiting ==>
      Step(d, CancelFuture(r)) == d.(requests := d.requests[r := Request(d.requests[r].key, Cancelled, d.requests[r].claimed)])
  {}

  /** A close that is cancelled while it waits gives its permit back at once; the topic goes with its last request,
    and the observer is left to the readiness task. */
  lemma CancelledCloseMeaning(d: Dispatcher, r: nat)
    requires r in d.closing && (d.closing[r].AwaitReady? ==> d.closing[r].interest < |d.interests|)
    ensures var t := Step(d, CloseCancelled(r));
      && r !in t.closing && t.released[r] == d.released[r] + 1 && t.permits == d.permits + 1
      && (d.closing[r].AwaitRemoval? ==> t.topics == d.topics)
      && (d.closing[r].AwaitReady? ==>
            var i := d.closing[r].interest;
            var topic := d.interests[i].topic;
            var last := d.interests[i].refcount == 0 && topic in d.topics && d.topics[topic] == i;
            t.topics == if last then d.topics - {topic} else d.topics)
  {}
}
