/** The dispatcher as an object: each method is one stretch of code between suspensions, proved
  against the event it realises. */
module DispatcherObject {
  import opened Prelude
  import opened RequestDispatcher

  class ResponseDispatcher {
    ghost const max: nat
    var permits: nat
    var pending: map<Key, nat>
    var topics: map<string, nat>
    var bound: bool
    var generation: nat
    /** Every request, interest and readiness task made so far. */
    var requests: seq<Request>
    var interests: seq<Interest>
    var tasks: seq<TaskState>
    var closing: map<nat, Close>
    var claims: seq<Claim>
    var completions: seq<Completion>
    ghost var released: multiset<nat>

    ghost function View(): Dispatcher
      reads this
    {
      Dispatcher(permits, pending, topics, bound, generation, requests, interests, tasks, closing, claims, completions, released)
    }

    ghost predicate Valid()
      reads this
    {
      Inv(View(), max)
    }

    constructor (max: nat)
      requires max > 0
      ensures Valid() && View() == NewDispatcher(max) && this.max == max
    {
      this.max := max;
      permits, pending, topics, bound, generation := max, map[], map[], false, 0;
      requests, interests, tasks, closing, claims, completions, released := [], [], [], map[], [], [], multiset{};
      new;
      ReachableStatesKeep(max, []);
    }

    /** `_ensure_topic_ready`. */
    method EnsureTopicReady(i: nat)
      requires i < |interests|
      modifies this`interests, this`tasks
      ensures View() == EnsureReady(old(View()), i)
    {
      if interests[i].ready.None? {
        interests := interests[i := interests[i].(ready := Some(|tasks|))];
        tasks := tasks + [Running];
      }
    }

    /** `register`, from its permit to its suspension or its failure. */
    method TryRegister(key: Key) returns (outcome: Outcome)
      requires Valid()
      modifies this
      ensures Valid() && (View(), outcome) == OnRegister(old(View()), key)
    {
      hide Inv, EnsureReady, WithInterest;
      RegisterKeeps(View(), max, key);
      if permits == 0 {
        return WouldWait;
      }
      if key in pending {
        return Duplicate;
      }
      if !bound {
        return NotConnected;
      }
      FindInterest(key.0);
      var i := topics[key.0];
      permits := permits - 1;
      pending := pending[key := |requests|];
      requests := requests + [Request(key, Waiting, false)];
      interests := interests[i := interests[i].(refcount := interests[i].refcount + 1)];
      EnsureTopicReady(i);
      outcome := Fine;
    }

    /** The interest in the topic, made when there is none. */
    method FindInterest(topic: string)
      modifies this`topics, this`interests
      ensures View() == WithInterest(old(View()), topic) && InterestKnown(View(), topic)
    {
      if !(topic in topics && topics[topic] < |interests|) {
        topics := topics[topic := |interests|];
        interests := interests + [Interest(topic, 0, None)];
      }
    }

    method ReleasePermit(r: nat)
      modifies this`permits, this`closing, this`released
      ensures View() == GiveBack(old(View()), r)
    {
      permits := permits + 1;
      closing := closing - {r};
      released := released + multiset{r};
    }

    /** The `finally` around the wait for readiness. */
    method FinishClose(r: nat, i: nat, active: bool)
      requires i < |interests|
      modifies this`permits, this`closing, this`released, this`topics
      ensures View() == DropInterest(old(View()), r, i, active)
    {
      hide GiveBack;
      var topic := interests[i].topic;
      if interests[i].refcount == 0 && topic in topics && topics[topic] == i {
        topics := topics - {topic};
        if active && bound {
          closing := closing[r := AwaitRemoval];
          return;
        }
      }
      ReleasePermit(r);
    }

    method TakeOut(r: nat, i: nat, close: Close)
      requires r < |requests| && i < |interests|
      modifies this`pending, this`requests, this`interests, this`closing
      ensures View() == Leaving(old(View()), r, i, close)
    {
      pending := pending - {requests[r].key};
      if requests[r].future == Waiting {
        requests := requests[r := requests[r].(future := Cancelled)];
      }
      interests := interests[i := interests[i].(refcount := interests[i].refcount - 1)];
      closing := closing[r := close];
    }

    /** `unregister`, up to its suspension or its end. */
    method StartClose(r: nat)
      requires Valid()
      modifies this
      ensures Valid() && View() == Step(old(View()), Unregister(r))
    {
      hide Inv, GiveBack, DropInterest;
      StepKeeps(View(), max, Unregister(r));
      if !(r < |requests| && requests[r].key in pending && pending[requests[r].key] == r) {
        return;
      }
      var topic := requests[r].key.0;
      if !(topic in topics && topics[topic] < |interests|) {
        return;
      }
      var i := topics[topic];
      var ready := interests[i].ready;
      if interests[i].refcount > 1 {
        TakeOut(r, i, AwaitRemoval);
        ReleasePermit(r);
      } else if ready.None? || ready.value >= |tasks| || tasks[ready.value] == Broken {
        TakeOut(r, i, AwaitRemoval);
        FinishClose(r, i, false);
      } else if tasks[ready.value] == Succeeded {
        TakeOut(r, i, AwaitRemoval);
        FinishClose(r, i, true);
      } else {
        TakeOut(r, i, AwaitReady(i, ready.value));
      }
    }

    /** A suspended close goes on: what it awaited is done, or it is cancelled. */
    method ResumeClose(r: nat, cancelled: bool)
      requires Valid() && r in closing
      requires !cancelled && closing[r].AwaitReady? ==> closing[r].task < |tasks| && tasks[closing[r].task] != Running
      modifies this
      ensures Valid() && View() == Step(old(View()), if cancelled then CloseCancelled(r) else CloseGoesOn(r))
    {
      hide Inv, GiveBack, DropInterest;
      var close := closing[r];
      if close.AwaitReady? { CloseInState(View(), max, r); }
      StepKeeps(View(), max, if cancelled then CloseCancelled(r) else CloseGoesOn(r));
      if close.AwaitReady? {
        FinishClose(r, close.interest, !cancelled && tasks[close.task] == Succeeded);
      } else {
        ReleasePermit(r);
      }
    }

    /** The readiness task of an interest ends. */
    method TaskEnds(task: nat, succeeds: bool)
      requires Valid()
      modifies this`tasks
      ensures Valid() && View() == Step(old(View()), ReadyEnds(task, succeeds))
    {
      hide Inv;
      StepKeeps(View(), max, ReadyEnds(task, succeeds));
      if task < |tasks| && tasks[task] == Running {
        tasks := tasks[task := if succeeds then Succeeded else Broken];
      }
    }

    /** One topic of `restore`. */
    method RestoreInterest(i: nat)
      requires Valid()
      modifies this
      ensures Valid() && View() == Step(old(View()), Restore(i))
    {
      hide Inv, EnsureReady;
      StepKeeps(View(), max, Restore(i));
      if i < |interests| && interests[i].refcount > 0 && bound {
        EnsureTopicReady(i);
      }
    }

    method BindConnection()
      requires Valid()
      modifies this
      ensures Valid() && View() == Step(old(View()), Bind)
    {
      hide Inv, Unclaim, Unready, Waiters;
      StepKeeps(View(), max, Bind);
      bound := true;
      generation := generation + 1;
      UnclaimAll();
      UnreadyAll();
    }

    /** `for pending in self._pending.values(): pending.claimed = False`. */
    method UnclaimAll()
      modifies this`requests
      ensures requests == Unclaim(old(requests), Waiters(pending))
    {
      var todo := Waiters(pending);
      while todo != {}
        invariant todo <= Waiters(pending)
        invariant requests == Unclaim(old(requests), Waiters(pending) - todo)
        decreases todo
      {
        var r :| r in todo;
        if r < |requests| {
          requests := requests[r := requests[r].(claimed := false)];
        }
        todo := todo - {r};
      }
    }

    /** `for interest in self._topics.values(): interest.ready = None`. */
    method UnreadyAll()
      modifies this`interests
      ensures interests == Unready(old(interests), topics.Values)
    {
      var todo := topics.Values;
      while todo != {}
        invariant todo <= topics.Values
        invariant interests == Unready(old(interests), topics.Values - todo)
        decreases todo
      {
        var i :| i in todo;
        if i < |interests| {
          interests := interests[i := interests[i].(ready := None)];
        }
        todo := todo - {i};
      }
    }

    /** `cancel_pending`, up to its wait for the cancelled tasks. */
    method Shutdown()
      requires Valid()
      modifies this
      ensures Valid() && View() == Step(old(View()), CancelPending)
    {
      hide Inv, OnCancelPending, Waiters;
      StepKeeps(View(), max, CancelPending);
      WaitersInState(View(), max);
      ghost var before := View();
      ForgetAll();
      AllCancelled(before, View());
    }

    method ForgetAll()
      modifies this`requests, this`permits, this`released, this`pending, this`topics, this`bound, this`generation
      ensures requests == FailAll(old(requests), Waiters(old(pending))) && permits == old(permits) + |Waiters(old(pending))|
      ensures released == old(released) + OnceEach(Waiters(old(pending)))
      ensures pending == map[] && topics == map[] && !bound && generation == old(generation) + 1
    {
      hide FailAll, OnceEach, Waiters;
      var waiting := Waiters(pending);
      released := released + OnceEach(waiting);
      FailEach(waiting);
      pending, topics, bound, generation := map[], map[], false, generation + 1;
    }

    /** Fails the waiting futures and gives one permit back for each request. */
    method FailEach(waiting: set<nat>)
      modifies this`requests, this`permits
      ensures requests == FailAll(old(requests), waiting) && permits == old(permits) + |waiting|
    {
      hide FailAll;
      var todo := waiting;
      while todo != {}
        invariant todo <= waiting
        invariant requests == FailAll(old(requests), waiting - todo) && permits + |todo| == old(permits) + |waiting|
        decreases todo
      {
        var r :| r in todo;
        FailOneMore(old(requests), waiting - todo, r);
        if r < |requests| && requests[r].future == Waiting {
          requests := requests[r := requests[r].(future := Failed)];
        }
        permits := permits + 1;
        assert waiting - (todo - {r}) == waiting - todo + {r};
        todo := todo - {r};
      }
      assert waiting - {} == waiting;
    }

    method ClaimResponse(key: Key) returns (claim: Option<nat>)
      requires Valid()
      modifies this
      ensures Valid() && View() == Step(old(View()), TryClaim(key))
      ensures claim == if View() == old(View()) then None else Some(|old(claims)|)
    {
      hide Inv;
      StepKeeps(View(), max, TryClaim(key));
      if key !in pending || pending[key] >= |requests| {
        return None;
      }
      var r := pending[key];
      if requests[r].claimed || requests[r].future != Waiting {
        return None;
      }
      claim := Some(|claims|);
      requests := requests[r := requests[r].(claimed := true)];
      claims := claims + [Claim(r, key, generation)];
    }

    /** `complete`: the future gets the response if the claim still belongs to this connection. */
    method CompleteClaim(c: nat)
      requires Valid() && c < |claims|
      modifies this
      ensures Valid() && View() == Step(old(View()), Complete(c))
    {
      hide Inv;
      StepKeeps(View(), max, Complete(c));
      var claim := claims[c];
      var r := claim.request;
      if generation == claim.generation && claim.key in pending && pending[claim.key] == r
         && r < |requests| && requests[r].future == Waiting {
        requests := requests[r := requests[r].(future := Response(c))];
        completions := completions + [Completion(c, r, generation)];
      }
    }

    /** The application cancels a request's future. */
    method CancelRequest(r: nat)
      requires Valid()
      modifies this`requests
      ensures Valid() && View() == Step(old(View()), CancelFuture(r))
    {
      hide Inv;
      StepKeeps(View(), max, CancelFuture(r));
      if r < |requests| && requests[r].future == Waiting {
        requests := requests[r := requests[r].(future := Cancelled)];
      }
    }
  }

  lemma {:induction false} WaitersAreAsManyAsKeys(pending: map<Key, nat>, requests: seq<Request>)
    requires TableOk(pending, requests)
    ensures |Waiters(pending)| == |pending|
    decreases |pending|
  {
    if pending == map[] {
      assert Waiters(pending) == {};
    } else {
      var key :| key in pending;
      TableShrinks(pending, requests, key);
      WaitersAreAsManyAsKeys(pending - {key}, requests);
      assert pending[key] in Waiters(pending);
    }
  }

  lemma WaitersInState(d: Dispatcher, max: nat)
    requires Inv(d, max)
    ensures |Waiters(d.pending)| == |d.pending|
  {
    WaitersAreAsManyAsKeys(d.pending, d.requests);
  }

  lemma CloseInState(d: Dispatcher, max: nat, r: nat)
    requires Inv(d, max) && r in d.closing && d.closing[r].AwaitReady?
    ensures d.closing[r].interest < |d.interests| && d.closing[r].task < |d.tasks|
  {}

  lemma FailOneMore(requests: seq<Request>, failed: set<nat>, r: nat)
    ensures FailAll(requests, failed + {r})
         == if r < |requests| && FailAll(requests, failed)[r].future == Waiting
            then FailAll(requests, failed)[r := FailAll(requests, failed)[r].(future := Failed)]
            else FailAll(requests, failed)
  {}

  lemma AllCancelled(before: Dispatcher, after: Dispatcher)
    requires after == before.(pending := map[], topics := map[], bound := false, generation := before.generation + 1,
                              requests := FailAll(before.requests, Waiters(before.pending)),
                              permits := before.permits + |before.pending|,
                              released := before.released + OnceEach(Waiters(before.pending)))
    ensures after == OnCancelPending(before)
  {}
}
