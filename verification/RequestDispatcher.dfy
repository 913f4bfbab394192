/** The request/response dispatcher: a bounded set of pending requests, the shared interest in each
  response topic, and claims that belong to one connection. Objects are named by their position in
  the list of objects made, so that identity (`is`) is equality of numbers. */
module RequestDispatcher {
  import opened Prelude

  /** A response topic and correlation data. */
  type Key = (string, string)

  datatype FutureState = Waiting | Response(claim: nat) | Cancelled | Failed

  datatype Request = Request(key: Key, future: FutureState, claimed: bool)

  /** The interest in `topic`; `ready` names its readiness task, which subscribes. */
  datatype Interest = Interest(topic: string, refcount: int, ready: Option<nat>)

  datatype TaskState = Running | Succeeded | Broken

  /** An `unregister` suspended on the readiness task, or on the removal of the observer. */
  datatype Close = AwaitReady(interest: nat, task: nat) | AwaitRemoval

  datatype Claim = Claim(request: nat, key: Key, generation: nat)

  /** A response that was put into a future: by which claim, and in which generation. */
  datatype Completion = Completion(claim: nat, request: nat, generation: nat)

  datatype Dispatcher = Dispatcher(
    permits: nat,
    pending: map<Key, nat>,
    topics: map<string, nat>,
    bound: bool,
    generation: nat,
    requests: seq<Request>,
    interests: seq<Interest>,
    tasks: seq<TaskState>,
    closing: map<nat, Close>,
    claims: seq<Claim>,
    completions: seq<Completion>,
    /** Permits given back, by the request they were taken for. */
    released: multiset<nat>)

  function NewDispatcher(max: nat): Dispatcher {
    Dispatcher(max, map[], map[], false, 0, [], [], [], map[], [], [], multiset{})
  }

  datatype Event =
    /** `register` after its permit; its failure or cancellation is an `Unregister`. */
    | Register(key: Key)
    /** `close()`, or the cleanup of a failed registration. */
    | Unregister(request: nat)
    | CloseGoesOn(request: nat)
    | CloseCancelled(request: nat)
    | ReadyEnds(task: nat, succeeds: bool)
    | Restore(interest: nat)
    | Bind
    | CancelPending
    | TryClaim(key: Key)
    | Complete(claim: nat)
    | CancelFuture(request: nat)

  datatype Outcome = Fine | WouldWait | Duplicate | NotConnected

  // ----- Operations -----

  function EnsureReady(d: Dispatcher, i: nat): Dispatcher
    requires i < |d.interests|
  {
    if d.interests[i].ready.Some? then d
    else d.(interests := d.interests[i := d.interests[i].(ready := Some(|d.tasks|))], tasks := d.tasks + [Running])
  }

  predicate InterestKnown(d: Dispatcher, topic: string) { topic in d.topics && d.topics[topic] < |d.interests| }

  /** `register` finds, or makes, the interest in its topic. */
  function WithInterest(d: Dispatcher, topic: string): Dispatcher {
    if InterestKnown(d, topic) then d
    else d.(interests := d.interests + [Interest(topic, 0, None)], topics := d.topics[topic := |d.interests|])
  }

  function Counted(d: Dispatcher, key: Key): Dispatcher
    requires d.permits > 0 && InterestKnown(d, key.0)
  {
    var i := d.topics[key.0];
    d.(permits := d.permits - 1,
       pending := d.pending[key := |d.requests|],
       requests := d.requests + [Request(key, Waiting, false)],
       interests := d.interests[i := d.interests[i].(refcount := d.interests[i].refcount + 1)])
  }

  function OnRegister(d: Dispatcher, key: Key): (Dispatcher, Outcome) {
    if d.permits == 0 then (d, WouldWait)
    else if key in d.pending then (d, Duplicate)
    else if !d.bound then (d, NotConnected)
    else
      var counted := Counted(WithInterest(d, key.0), key);
      (EnsureReady(counted, counted.topics[key.0]), Fine)
  }

  /** The requests that are in the table. */
  function Waiters(pending: map<Key, nat>): set<nat> { set k | k in pending :: pending[k] }

  function OnceEach(requests: set<nat>): multiset<nat> { multiset(requests) }

  function GiveBack(d: Dispatcher, r: nat): Dispatcher {
    d.(permits := d.permits + 1, closing := d.closing - {r}, released := d.released + multiset{r})
  }

  /** The `finally` of a close that waited, or did not have to wait, for readiness. */
  function DropInterest(d: Dispatcher, r: nat, i: nat, active: bool): Dispatcher
    requires i < |d.interests|
  {
    var topic := d.interests[i].topic;
    if d.interests[i].refcount == 0 && topic in d.topics && d.topics[topic] == i then
      var dropped := d.(topics := d.topics - {topic});
      if active && d.bound then dropped.(closing := dropped.closing[r := AwaitRemoval]) else GiveBack(dropped, r)
    else GiveBack(d, r)
  }

  predicate IsPending(d: Dispatcher, r: nat) {
    r < |d.requests| && d.requests[r].key in d.pending && d.pending[d.requests[r].key] == r
  }

  /** The request leaves the table, its future is cancelled and its interest loses one reference. */
  function Removed(d: Dispatcher, r: nat, i: nat): Dispatcher
    requires r < |d.requests| && i < |d.interests|
  {
    d.(pending := d.pending - {d.requests[r].key},
       requests := if d.requests[r].future == Waiting then d.requests[r := d.requests[r].(future := Cancelled)] else d.requests,
       interests := d.interests[i := d.interests[i].(refcount := d.interests[i].refcount - 1)])
  }

  predicate TaskMade(d: Dispatcher, interest: Interest) { interest.ready.Some? ==> interest.ready.value < |d.tasks| }

  /** An `unregister` that has taken its request out of the table and has not given the permit back. */
  function Leaving(d: Dispatcher, r: nat, i: nat, close: Close): Dispatcher
    requires r < |d.requests| && i < |d.interests|
  {
    var removed := Removed(d, r, i);
    removed.(closing := removed.closing[r := close])
  }

  function OnUnregister(d: Dispatcher, r: nat): Dispatcher {
    if !IsPending(d, r) || !InterestKnown(d, d.requests[r].key.0) then d
    else
      var i := d.topics[d.requests[r].key.0];
      var left := Leaving(d, r, i, AwaitRemoval);
      var interest := left.interests[i];
      if interest.refcount > 0 then GiveBack(left, r)
      else if interest.ready.None? || !TaskMade(d, interest) then DropInterest(left, r, i, false)
      else match d.tasks[interest.ready.value]
        case Running => Leaving(d, r, i, AwaitReady(i, interest.ready.value))
        case Succeeded => DropInterest(left, r, i, true)
        case Broken => DropInterest(left, r, i, false)
  }

  function Unclaim(requests: seq<Request>, pending: set<nat>): (s: seq<Request>)
    ensures |s| == |requests|
    ensures forall r :: 0 <= r < |s| ==> s[r] == if r in pending then requests[r].(claimed := false) else requests[r]
  {
    seq(|requests|, r requires 0 <= r < |requests| => if r in pending then requests[r].(claimed := false) else requests[r])
  }

  function Unready(interests: seq<Interest>, which: set<nat>): (s: seq<Interest>)
    ensures |s| == |interests|
    ensures forall i :: 0 <= i < |s| ==> s[i] == if i in which then interests[i].(ready := None) else interests[i]
  {
    seq(|interests|, i requires 0 <= i < |interests| => if i in which then interests[i].(ready := None) else interests[i])
  }

  function FailAll(requests: seq<Request>, pending: set<nat>): (s: seq<Request>)
    ensures |s| == |requests|
    ensures forall r :: 0 <= r < |s| ==>
      s[r] == if r in pending && requests[r].future == Waiting then requests[r].(future := Failed) else requests[r]
  {
    seq(|requests|, r requires 0 <= r < |requests| =>
      if r in pending && requests[r].future == Waiting then requests[r].(future := Failed) else requests[r])
  }

  function OnCancelPending(d: Dispatcher): Dispatcher {
    d.(pending := map[], topics := map[], bound := false, generation := d.generation + 1,
       requests := FailAll(d.requests, Waiters(d.pending)),
       permits := d.permits + |d.pending|,
       released := d.released + OnceEach(Waiters(d.pending)))
  }

  function OnClaim(d: Dispatcher, key: Key): Dispatcher {
    if key !in d.pending || d.pending[key] >= |d.requests| then d
    else
      var r := d.pending[key];
      if d.requests[r].claimed || d.requests[r].future != Waiting then d
      else d.(requests := d.requests[r := d.requests[r].(claimed := true)], claims := d.claims + [Claim(r, key, d.generation)])
  }

  function OnComplete(d: Dispatcher, c: nat): Dispatcher {
    if c >= |d.claims| then d
    else
      var claim := d.claims[c];
      var r := claim.request;
      if d.generation == claim.generation && claim.key in d.pending && d.pending[claim.key] == r
         && r < |d.requests| && d.requests[r].future == Waiting
      then d.(requests := d.requests[r := d.requests[r].(future := Response(c))],
              completions := d.completions + [Completion(c, r, d.generation)])
      else d
  }

  function Step(d: Dispatcher, e: Event): Dispatcher {
    match e
    case Register(key) => OnRegister(d, key).0
    case Unregister(r) => OnUnregister(d, r)
    case CloseGoesOn(r) =>
      if r !in d.closing then d
      else (match d.closing[r]
        case AwaitRemoval => GiveBack(d, r)
        case AwaitReady(i, task) =>
          if task >= |d.tasks| || i >= |d.interests| || d.tasks[task] == Running then d
          else DropInterest(d, r, i, d.tasks[task] == Succeeded))
    case CloseCancelled(r) =>
      if r !in d.closing then d
      else (match d.closing[r]
        case AwaitRemoval => GiveBack(d, r)
        case AwaitReady(i, task) => if i >= |d.interests| then d else DropInterest(d, r, i, false))
    case ReadyEnds(task, succeeds) =>
      if task < |d.tasks| && d.tasks[task] == Running
      then d.(tasks := d.tasks[task := if succeeds then Succeeded else Broken])
      else d
    case Restore(i) =>
      if i < |d.interests| && d.interests[i].refcount > 0 && d.bound then EnsureReady(d, i) else d
    case Bind =>
      d.(bound := true, generation := d.generation + 1,
         requests := Unclaim(d.requests, Waiters(d.pending)), interests := Unready(d.interests, d.topics.Values))
    case CancelPending => OnCancelPending(d)
    case TryClaim(key) => OnClaim(d, key)
    case Complete(c) => OnComplete(d, c)
    case CancelFuture(r) =>
      if r < |d.requests| && d.requests[r].future == Waiting
      then d.(requests := d.requests[r := d.requests[r].(future := Cancelled)])
      else d
  }

  function Run(max: nat, events: seq<Event>): Dispatcher {
    if events == [] then NewDispatcher(max) else Step(Run(max, events[..|events| - 1]), events[|events| - 1])
  }

  // ----- What every reachable state keeps -----

  predicate TableOk(pending: map<Key, nat>, requests: seq<Request>) {
    forall k :: k in pending ==> pending[k] < |requests| && requests[pending[k]].key == k
  }

  /** Every request's permit is taken while it is pending or closing, and given back exactly once. */
  ghost predicate PermitsOk(permits: nat, max: nat, count: nat, waiting: set<nat>, closing: set<nat>,
                            released: multiset<nat>, made: nat)
  {
    && permits + count + |closing| == max
    && waiting !! closing
    && (forall r :: r in waiting || r in closing ==> r < made)
    && (forall r: nat :: released[r] == if r < made && r !in waiting && r !in closing then 1 else 0)
  }

  function KeysOn(pending: map<Key, nat>, topic: string): set<Key> { set k | k in pending && k.0 == topic }

  /** Every topic with a pending request has its interest, which counts exactly those requests. */
  ghost predicate InterestsOk(pending: map<Key, nat>, topics: map<string, nat>, interests: seq<Interest>) {
    && (forall k :: k in pending ==> k.0 in topics)
    && (forall t :: t in topics ==>
          topics[t] < |interests| && interests[topics[t]].topic == t
          && interests[topics[t]].refcount == |KeysOn(pending, t)|)
  }

  predicate ClosesOn(closing: map<nat, Close>, r: nat, i: nat) {
    r in closing && closing[r].AwaitReady? && closing[r].interest == i
  }

  /** An interest nobody refers to is there only while a close waits for its readiness. */
  ghost predicate IdleInterestsOk(topics: map<string, nat>, interests: seq<Interest>, closing: map<nat, Close>) {
    forall t :: t in topics && topics[t] < |interests| && interests[topics[t]].refcount == 0 ==>
      exists r :: ClosesOn(closing, r, topics[t])
  }

  ghost predicate TasksOk(interests: seq<Interest>, closing: map<nat, Close>, tasks: nat) {
    && (forall i :: 0 <= i < |interests| && interests[i].ready.Some? ==> interests[i].ready.value < tasks)
    && (forall r :: r in closing && closing[r].AwaitReady? ==> closing[r].task < tasks && closing[r].interest < |interests|)
  }

  /** A request is claimed at most once in a generation, and by a claim with its own key. */
  ghost predicate ClaimsOk(claims: seq<Claim>, requests: seq<Request>, pending: set<nat>, generation: nat) {
    && (forall c :: 0 <= c < |claims| ==>
          claims[c].generation <= generation && claims[c].request < |requests|
          && requests[claims[c].request].key == claims[c].key)
    && (forall c :: 0 <= c < |claims| && claims[c].generation == generation && claims[c].request in pending ==>
          requests[claims[c].request].claimed)
    && (forall b, c :: 0 <= b < c < |claims| && claims[b].request == claims[c].request ==>
          claims[b].generation < claims[c].generation)
  }

  /** A future holds a response exactly when the one completion of its request put it there. */
  ghost predicate CompletionsOk(completions: seq<Completion>, claims: seq<Claim>, requests: seq<Request>) {
    && (forall k :: 0 <= k < |completions| ==> CompletionOk(completions[k], claims, requests))
    && (forall j, k :: 0 <= j < k < |completions| ==> completions[j].request != completions[k].request)
    && (forall r :: 0 <= r < |requests| && requests[r].future.Response? ==>
          exists k :: 0 <= k < |completions| && completions[k].request == r)
  }

  ghost predicate CompletionOk(done: Completion, claims: seq<Claim>, requests: seq<Request>) {
    && done.claim < |claims| && claims[done.claim].request == done.request
    && claims[done.claim].generation == done.generation
    && done.request < |requests| && requests[done.request].future == Response(done.claim)
  }

  ghost predicate Core(d: Dispatcher, max: nat) {
    && TableOk(d.pending, d.requests)
    && PermitsOk(d.permits, max, |d.pending|, Waiters(d.pending), d.closing.Keys, d.released, |d.requests|)
    && InterestsOk(d.pending, d.topics, d.interests)
    && TasksOk(d.interests, d.closing, |d.tasks|)
    && ClaimsOk(d.claims, d.requests, Waiters(d.pending), d.generation)
    && CompletionsOk(d.completions, d.claims, d.requests)
  }

  ghost predicate Inv(d: Dispatcher, max: nat) {
    Core(d, max) && IdleInterestsOk(d.topics, d.interests, d.closing)
  }

  // ----- Each part of the invariant, step by step -----

  lemma KeysOnGrow(pending: map<Key, nat>, key: Key, r: nat, topic: string)
    requires key !in pending
    ensures |KeysOn(pending[key := r], topic)| == |KeysOn(pending, topic)| + if key.0 == topic then 1 else 0
  {
    assert KeysOn(pending[key := r], topic) == KeysOn(pending, topic) + if key.0 == topic then {key} else {};
  }

  lemma KeysOnShrink(pending: map<Key, nat>, key: Key, topic: string)
    requires key in pending
    ensures |KeysOn(pending - {key}, topic)| == |KeysOn(pending, topic)| - if key.0 == topic then 1 else 0
  {
    assert KeysOn(pending - {key}, topic) == KeysOn(pending, topic) - if key.0 == topic then {key} else {};
    assert key.0 == topic ==> key in KeysOn(pending, topic);
  }

  lemma NoKeysOn(pending: map<Key, nat>, topic: string)
    requires forall k :: k in pending ==> k.0 != topic
    ensures KeysOn(pending, topic) == {}
  {}

  lemma TableGrows(pending: map<Key, nat>, key: Key, r: nat)
    requires key !in pending
    ensures Waiters(pending[key := r]) == Waiters(pending) + {r}
    ensures |pending[key := r]| == |pending| + 1
  {
    var more := pending[key := r];
    assert more.Keys == pending.Keys + {key};
    assert |pending| == |pending.Keys| && |more| == |more.Keys|;
    forall q | q in Waiters(pending) + {r} ensures q in Waiters(more) {
      if q in Waiters(pending) {
        var k :| k in pending && pending[k] == q;
        assert more[k] == q;
      } else {
        assert more[key] == q;
      }
    }
  }

  lemma TableOkGrows(pending: map<Key, nat>, requests: seq<Request>, key: Key)
    requires TableOk(pending, requests)
    ensures TableOk(pending[key := |requests|], requests + [Request(key, Waiting, false)])
  {}

  lemma TableShrinks(pending: map<Key, nat>, requests: seq<Request>, key: Key)
    requires TableOk(pending, requests) && key in pending
    ensures Waiters(pending - {key}) == Waiters(pending) - {pending[key]}
    ensures |pending - {key}| == |pending| - 1
  {
    var rest, r := pending - {key}, pending[key];
    assert pending.Keys == rest.Keys + {key};
    assert |pending| == |pending.Keys| && |rest| == |rest.Keys|;
    forall q | q in Waiters(pending) && q != r ensures q in Waiters(rest) {
      var k :| k in pending && pending[k] == q;
      assert k in rest && rest[k] == q;
    }
    forall k | k in rest ensures rest[k] != r {
      assert requests[rest[k]].key == k;
    }
  }

  lemma PermitsAfterRemoval(permits: nat, max: nat, count: nat, waiting: set<nat>, closing: set<nat>,
                            released: multiset<nat>,
                            made: nat, r: nat)
    requires PermitsOk(permits, max, count, waiting, closing, released, made) && r in waiting && count > 0
    ensures PermitsOk(permits, max, count - 1, waiting - {r}, closing + {r}, released, made)
  {}

  lemma PermitsAfterGivingBack(permits: nat, max: nat, count: nat, waiting: set<nat>, closing: set<nat>,
                               released: multiset<nat>,
                               made: nat, r: nat)
    requires PermitsOk(permits, max, count, waiting, closing, released, made) && r in closing
    ensures PermitsOk(permits + 1, max, count, waiting, closing - {r}, released + multiset{r}, made)
  {}

  lemma PermitsAfterRegistering(permits: nat, max: nat, count: nat, waiting: set<nat>, closing: set<nat>,
                                released: multiset<nat>,
                                made: nat)
    requires PermitsOk(permits, max, count, waiting, closing, released, made) && permits > 0
    ensures PermitsOk(permits - 1, max, count + 1, waiting + {made}, closing, released, made + 1)
  {}

  lemma PermitsAfterShutdown(permits: nat, max: nat, count: nat, waiting: set<nat>, closing: set<nat>,
                             released: multiset<nat>,
                             made: nat)
    requires PermitsOk(permits, max, count, waiting, closing, released, made)
    ensures PermitsOk(permits + count, max, 0, {}, closing, released + OnceEach(waiting), made)
  {}

  lemma InterestsAfterRegistering(pending: map<Key, nat>, topics: map<string, nat>, interests: seq<Interest>, key: Key,
                                  r: nat)
    requires InterestsOk(pending, topics, interests) && key !in pending && key.0 in topics
    ensures var i := topics[key.0];
      InterestsOk(pending[key := r], topics, interests[i := interests[i].(refcount := interests[i].refcount + 1)])
  {
    forall t | t in topics ensures |KeysOn(pending[key := r], t)| == |KeysOn(pending, t)| + if key.0 == t then 1 else 0 {
      KeysOnGrow(pending, key, r, t);
    }
  }

  lemma InterestsWithNew(pending: map<Key, nat>, topics: map<string, nat>, interests: seq<Interest>, topic: string)
    requires InterestsOk(pending, topics, interests) && topic !in topics
    ensures InterestsOk(pending, topics[topic := |interests|], interests + [Interest(topic, 0, None)])
  {
    NoKeysOn(pending, topic);
  }

  lemma InterestsAfterRemoval(pending: map<Key, nat>, topics: map<string, nat>, interests: seq<Interest>, key: Key)
    requires InterestsOk(pending, topics, interests) && key in pending
    ensures var i := topics[key.0];
      InterestsOk(pending - {key}, topics, interests[i := interests[i].(refcount := interests[i].refcount - 1)])
  {
    forall t | t in topics ensures |KeysOn(pending - {key}, t)| == |KeysOn(pending, t)| - if key.0 == t then 1 else 0 {
      KeysOnShrink(pending, key, t);
    }
  }

  lemma InterestsAfterDrop(pending: map<Key, nat>, topics: map<string, nat>, interests: seq<Interest>, topic: string)
    requires InterestsOk(pending, topics, interests) && topic in topics && interests[topics[topic]].refcount == 0
    ensures InterestsOk(pending, topics - {topic}, interests)
  {
    assert KeysOn(pending, topic) == {};
    forall k | k in pending ensures k.0 == topic ==> k in KeysOn(pending, topic) {}
  }

  lemma InterestsIgnoreReadiness(pending: map<Key, nat>, topics: map<string, nat>, before: seq<Interest>,
                                 after: seq<Interest>)
    requires InterestsOk(pending, topics, before) && |before| == |after|
    requires forall i :: 0 <= i < |before| ==> after[i].topic == before[i].topic && after[i].refcount == before[i].refcount
    ensures InterestsOk(pending, topics, after)
  {}

  /** Claims and completions look only at the requests, the generation and who is pending. */
  lemma ClaimsWithFewerPending(claims: seq<Claim>, before: seq<Request>, after: seq<Request>, pending: set<nat>,
                               fewer: set<nat>,
                               generation: nat)
    requires ClaimsOk(claims, before, pending, generation) && fewer <= pending && |before| == |after|
    requires forall r :: 0 <= r < |before| ==> after[r].key == before[r].key && after[r].claimed == before[r].claimed
    ensures ClaimsOk(claims, after, fewer, generation)
  {}

  lemma ClaimsInNextGeneration(claims: seq<Claim>, before: seq<Request>, after: seq<Request>, pending: set<nat>,
                               then_: set<nat>,
                               generation: nat)
    requires ClaimsOk(claims, before, pending, generation) && |before| == |after|
    requires forall r :: 0 <= r < |before| ==> after[r].key == before[r].key
    ensures ClaimsOk(claims, after, then_, generation + 1)
  {}

  lemma ClaimsWithNewRequest(claims: seq<Claim>, requests: seq<Request>, waiting: set<nat>, key: Key, generation: nat)
    requires ClaimsOk(claims, requests, waiting, generation)
    ensures ClaimsOk(claims, requests + [Request(key, Waiting, false)], waiting + {|requests|}, generation)
  {}

  /** Settling futures that still wait leaves the completions as they are. */
  lemma CompletionsIgnoreSettling(completions: seq<Completion>, claims: seq<Claim>, before: seq<Request>,
                                  after: seq<Request>)
    requires CompletionsOk(completions, claims, before) && |after| >= |before|
    requires forall r :: 0 <= r < |before| ==>
      after[r].future == before[r].future || (before[r].future == Waiting && !after[r].future.Response?)
    requires forall r :: |before| <= r < |after| ==> after[r].future == Waiting
    ensures CompletionsOk(completions, claims, after)
  {
    forall k | 0 <= k < |completions| ensures CompletionOk(completions[k], claims, after) {
      assert CompletionOk(completions[k], claims, before);
    }
  }

  // ----- Each event -----

  lemma EnsureReadyKeeps(d: Dispatcher, max: nat, i: nat)
    requires Inv(d, max) && i < |d.interests|
    ensures Inv(EnsureReady(d, i), max)
  {
    hide PermitsOk, ClaimsOk, InterestsOk, CompletionsOk, TableOk, Waiters;
    var after := EnsureReady(d, i);
    InterestsIgnoreReadiness(d.pending, d.topics, d.interests, after.interests);
  }

  lemma CountedInterests(d: Dispatcher, key: Key)
    requires d.permits > 0 && key !in d.pending
    requires InterestsOk(d.pending, d.topics, d.interests)
    ensures var c := Counted(WithInterest(d, key.0), key); InterestsOk(c.pending, c.topics, c.interests)
  {
    hide InterestsOk;
    var with := WithInterest(d, key.0);
    if !InterestKnown(d, key.0) { NewTopicInterest(d, key.0); }
    InterestsAfterRegistering(with.pending, with.topics, with.interests, key, |d.requests|);
  }

  lemma NewTopicInterest(d: Dispatcher, topic: string)
    requires InterestsOk(d.pending, d.topics, d.interests) && !InterestKnown(d, topic)
    ensures var with := WithInterest(d, topic); InterestsOk(with.pending, with.topics, with.interests)
  {
    InterestsWithNew(d.pending, d.topics, d.interests, topic);
  }

  /** Registering touches the interest in its own topic only, and refers to that. */
  lemma CountedShape(d: Dispatcher, key: Key)
    requires d.permits > 0
    requires InterestsOk(d.pending, d.topics, d.interests)
    ensures var c := Counted(WithInterest(d, key.0), key);
      && c.closing == d.closing && c.tasks == d.tasks && |d.interests| <= |c.interests|
      && key.0 in c.topics && c.topics[key.0] < |c.interests| && c.interests[c.topics[key.0]].refcount > 0
      && (forall t :: t in c.topics && t != key.0 ==> t in d.topics && c.topics[t] == d.topics[t])
      && (forall t :: t in c.topics && t != key.0 ==> c.interests[d.topics[t]] == d.interests[d.topics[t]])
      && (forall i :: 0 <= i < |c.interests| ==>
            c.interests[i].ready == if i < |d.interests| then d.interests[i].ready else None)
  {
    hide KeysOn;
  }

  lemma CountedIdle(d: Dispatcher, key: Key)
    requires d.permits > 0 && key !in d.pending
    requires InterestsOk(d.pending, d.topics, d.interests)
    requires IdleInterestsOk(d.topics, d.interests, d.closing) && TasksOk(d.interests, d.closing, |d.tasks|)
    ensures var c := Counted(WithInterest(d, key.0), key);
      IdleInterestsOk(c.topics, c.interests, c.closing) && TasksOk(c.interests, c.closing, |c.tasks|)
  {
    hide Counted, KeysOn;
    CountedShape(d, key);
    var c := Counted(WithInterest(d, key.0), key);
    forall t | t in c.topics && c.topics[t] < |c.interests| && c.interests[c.topics[t]].refcount == 0
      ensures exists r :: ClosesOn(c.closing, r, c.topics[t])
    {
      assert t in d.topics && d.interests[d.topics[t]].refcount == 0;
    }
  }

  lemma CountedPermits(d: Dispatcher, max: nat, key: Key)
    requires d.permits > 0 && key !in d.pending && TableOk(d.pending, d.requests)
    requires PermitsOk(d.permits, max, |d.pending|, Waiters(d.pending), d.closing.Keys, d.released, |d.requests|)
    requires ClaimsOk(d.claims, d.requests, Waiters(d.pending), d.generation)
    ensures var c := Counted(WithInterest(d, key.0), key);
      && TableOk(c.pending, c.requests)
      && PermitsOk(c.permits, max, |c.pending|, Waiters(c.pending), c.closing.Keys, c.released, |c.requests|)
      && ClaimsOk(c.claims, c.requests, Waiters(c.pending), c.generation)
  {
    hide PermitsOk, ClaimsOk, TableOk, Waiters;
    TableGrows(d.pending, key, |d.requests|);
    TableOkGrows(d.pending, d.requests, key);
    PermitsAfterRegistering(d.permits, max, |d.pending|, Waiters(d.pending), d.closing.Keys, d.released, |d.requests|);
    ClaimsWithNewRequest(d.claims, d.requests, Waiters(d.pending), key, d.generation);
  }

  lemma CountedKeeps(d: Dispatcher, max: nat, key: Key)
    requires Inv(d, max) && d.permits > 0 && key !in d.pending
    ensures Inv(Counted(WithInterest(d, key.0), key), max)
  {
    hide TableOk, PermitsOk, ClaimsOk, InterestsOk, IdleInterestsOk, CompletionsOk, TasksOk, Waiters;
    CountedPermits(d, max, key);
    CountedInterests(d, key);
    CountedIdle(d, key);
    CompletionsIgnoreSettling(d.completions, d.claims, d.requests, d.requests + [Request(key, Waiting, false)]);
  }

  lemma RegisterKeeps(d: Dispatcher, max: nat, key: Key)
    requires Inv(d, max)
    ensures Inv(OnRegister(d, key).0, max)
  {
    hide Inv, Counted;
    if d.permits > 0 && key !in d.pending && d.bound {
      var counted := Counted(WithInterest(d, key.0), key);
      CountedKeeps(d, max, key);
      CountedKnown(d, key);
      EnsureReadyKeeps(counted, max, counted.topics[key.0]);
    }
  }

  lemma CountedKnown(d: Dispatcher, key: Key)
    requires d.permits > 0
    ensures InterestKnown(Counted(WithInterest(d, key.0), key), key.0)
  {}

  /** The close of `r` is all that keeps interest `i` when nobody refers to it. */
  ghost predicate OnlyIdleFor(d: Dispatcher, r: nat, i: nat) {
    forall t :: t in d.topics && d.topics[t] < |d.interests| && d.interests[d.topics[t]].refcount == 0 && d.topics[t] != i ==>
      exists q :: q != r && ClosesOn(d.closing, q, d.topics[t])
  }

  lemma FewerCloses(interests: seq<Interest>, closing: map<nat, Close>, tasks: nat, r: nat)
    requires TasksOk(interests, closing, tasks)
    ensures TasksOk(interests, closing - {r}, tasks)
  {}

  lemma GiveBackChanges(d: Dispatcher, r: nat)
    ensures GiveBack(d, r)
            == d.(permits := d.permits + 1, closing := d.closing - {r}, released := d.released + multiset{r})
  {}

  lemma GiveBackKeepsCore(d: Dispatcher, max: nat, r: nat)
    requires Core(d, max) && r in d.closing
    ensures Core(GiveBack(d, r), max)
  {
    hide PermitsOk, ClaimsOk, InterestsOk, TableOk, Waiters, CompletionsOk, TasksOk, GiveBack;
    GiveBackChanges(d, r);
    FewerCloses(d.interests, d.closing, |d.tasks|, r);
    PermitsAfterGivingBack(d.permits, max, |d.pending|, Waiters(d.pending), d.closing.Keys, d.released, |d.requests|, r);
    assert (d.closing - {r}).Keys == d.closing.Keys - {r};
  }

  lemma DropTopicKeepsCore(d: Dispatcher, max: nat, topic: string)
    requires Core(d, max) && InterestKnown(d, topic) && d.interests[d.topics[topic]].refcount == 0
    ensures Core(d.(topics := d.topics - {topic}), max)
  {
    hide PermitsOk, ClaimsOk, InterestsOk, TableOk, Waiters, CompletionsOk;
    InterestsAfterDrop(d.pending, d.topics, d.interests, topic);
  }

  lemma AwaitRemovalKeepsCore(d: Dispatcher, max: nat, r: nat)
    requires Core(d, max) && r in d.closing
    ensures Core(d.(closing := d.closing[r := AwaitRemoval]), max)
  {
    hide PermitsOk, ClaimsOk, InterestsOk, TableOk, Waiters, CompletionsOk;
    assert d.closing[r := AwaitRemoval].Keys == d.closing.Keys;
  }

  lemma DropKeepsCore(d: Dispatcher, max: nat, r: nat, i: nat, active: bool)
    requires Core(d, max) && r in d.closing && i < |d.interests|
    ensures Core(DropInterest(d, r, i, active), max)
  {
    hide Core, GiveBack;
    var topic := d.interests[i].topic;
    if d.interests[i].refcount == 0 && topic in d.topics && d.topics[topic] == i {
      var dropped := d.(topics := d.topics - {topic});
      DropTopicKeepsCore(d, max, topic);
      if active && d.bound { AwaitRemovalKeepsCore(dropped, max, r); } else { GiveBackKeepsCore(dropped, max, r); }
    } else {
      GiveBackKeepsCore(d, max, r);
    }
  }

  lemma DropIdle(d: Dispatcher, r: nat, i: nat, active: bool)
    requires InterestsOk(d.pending, d.topics, d.interests) && OnlyIdleFor(d, r, i) && i < |d.interests|
    ensures var after := DropInterest(d, r, i, active); IdleInterestsOk(after.topics, after.interests, after.closing)
  {
    hide KeysOn;
    var after := DropInterest(d, r, i, active);
    assert after.interests == d.interests && forall q :: q != r ==> (ClosesOn(d.closing, q, i) ==> ClosesOn(after.closing, q, i));
    forall t | t in after.topics && after.topics[t] < |after.interests| && after.interests[after.topics[t]].refcount == 0
      ensures exists q :: ClosesOn(after.closing, q, after.topics[t])
    {
      var q :| q != r && ClosesOn(d.closing, q, d.topics[t]);
      assert ClosesOn(after.closing, q, after.topics[t]);
    }
  }

  lemma DropKeeps(d: Dispatcher, max: nat, r: nat, i: nat, active: bool)
    requires Core(d, max) && OnlyIdleFor(d, r, i) && r in d.closing && i < |d.interests|
    ensures Inv(DropInterest(d, r, i, active), max)
  {
    hide DropInterest, OnlyIdleFor, IdleInterestsOk, PermitsOk, TableOk, TasksOk, ClaimsOk, CompletionsOk, InterestsOk;
    DropKeepsCore(d, max, r, i, active);
    DropIdle(d, r, i, active);
  }

  /** A close that goes on was the reason its interest stayed. */
  lemma ClosingKeeps(d: Dispatcher, max: nat, r: nat, active: bool)
    requires Inv(d, max) && r in d.closing && d.closing[r].AwaitReady?
    ensures d.closing[r].interest < |d.interests|
    ensures Inv(DropInterest(d, r, d.closing[r].interest, active), max)
  {
    var i := d.closing[r].interest;
    hide DropInterest, PermitsOk, TableOk, ClaimsOk, CompletionsOk, InterestsOk;
    DropKeeps(d, max, r, i, active);
  }

  lemma LeavingTable(pending: map<Key, nat>, requests: seq<Request>, key: Key)
    requires TableOk(pending, requests) && key in pending
    ensures pending[key] < |requests| && requests[pending[key]].key == key
    ensures TableOk(pending - {key}, requests)
    ensures TableOk(pending - {key}, requests[pending[key] := requests[pending[key]].(future := Cancelled)])
  {}

  lemma OneMoreClosing(closing: map<nat, Close>, r: nat, close: Close)
    ensures closing[r := close].Keys == closing.Keys + {r}
  {}

  /** The request's future is cancelled, unless it is done. */
  lemma LeavingClaims(claims: seq<Claim>, requests: seq<Request>, r: nat, waiting: set<nat>, fewer: set<nat>,
                      generation: nat)
    requires ClaimsOk(claims, requests, waiting, generation) && fewer <= waiting && r < |requests|
    ensures ClaimsOk(claims, requests[r := requests[r].(future := Cancelled)], fewer, generation)
    ensures ClaimsOk(claims, requests, fewer, generation)
  {
    hide ClaimsOk;
    ClaimsWithFewerPending(claims, requests, requests[r := requests[r].(future := Cancelled)], waiting, fewer, generation);
    ClaimsWithFewerPending(claims, requests, requests, waiting, fewer, generation);
  }

  lemma LeavingPermits(d: Dispatcher, max: nat, key: Key, i: nat, close: Close)
    requires Core(d, max) && key in d.pending && i < |d.interests|
    ensures d.pending[key] < |d.requests|
    ensures var c := Leaving(d, d.pending[key], i, close);
      && TableOk(c.pending, c.requests)
      && PermitsOk(c.permits, max, |c.pending|, Waiters(c.pending), c.closing.Keys, c.released, |c.requests|)
      && ClaimsOk(c.claims, c.requests, Waiters(c.pending), c.generation)
  {
    hide PermitsOk, ClaimsOk, Waiters, InterestsOk, TasksOk, CompletionsOk, Leaving, TableOk;
    LeavingTable(d.pending, d.requests, key);
    var r, rest := d.pending[key], d.pending - {key};
    TableShrinks(d.pending, d.requests, key);
    WaiterIn(d.pending, key);
    PermitsAfterRemoval(d.permits, max, |d.pending|, Waiters(d.pending), d.closing.Keys, d.released, |d.requests|, r);
    LeavingClaims(d.claims, d.requests, r, Waiters(d.pending), Waiters(rest), d.generation);
    OneMoreClosing(d.closing, r, close);
    LeavingShape(d, r, i, close);
    if d.requests[r].future == Waiting {}
  }

  lemma WaiterIn(pending: map<Key, nat>, key: Key)
    requires key in pending
    ensures pending[key] in Waiters(pending) && |pending| > 0
  {}

  lemma TasksAfterLeaving(interests: seq<Interest>, closing: map<nat, Close>, tasks: nat, r: nat, i: nat, close: Close)
    requires TasksOk(interests, closing, tasks) && i < |interests|
    requires close.AwaitReady? ==> close.interest < |interests| && close.task < tasks
    ensures TasksOk(interests[i := interests[i].(refcount := interests[i].refcount - 1)], closing[r := close], tasks)
  {}

  lemma LeavingShape(d: Dispatcher, r: nat, i: nat, close: Close)
    requires r < |d.requests| && i < |d.interests|
    ensures Leaving(d, r, i, close)
            == d.(pending := d.pending - {d.requests[r].key},
                  requests := if d.requests[r].future == Waiting then d.requests[r := d.requests[r].(future := Cancelled)]
                              else d.requests,
                  interests := d.interests[i := d.interests[i].(refcount := d.interests[i].refcount - 1)],
                  closing := d.closing[r := close])
  {}

  lemma LeavingKeepsCore(d: Dispatcher, max: nat, key: Key, close: Close)
    requires Core(d, max) && key in d.pending && InterestKnown(d, key.0)
    requires close.AwaitReady? ==> close.interest < |d.interests| && close.task < |d.tasks|
    ensures d.pending[key] < |d.requests|
    ensures Core(Leaving(d, d.pending[key], d.topics[key.0], close), max)
  {
    hide PermitsOk, ClaimsOk, Waiters, CompletionsOk, InterestsOk, TasksOk, Leaving;
    var r, i := d.pending[key], d.topics[key.0];
    LeavingShape(d, r, i, close);
    TasksAfterLeaving(d.interests, d.closing, |d.tasks|, r, i, close);
    LeavingPermits(d, max, key, i, close);
    InterestsAfterRemoval(d.pending, d.topics, d.interests, key);
    CompletionsIgnoreSettling(d.completions, d.claims, d.requests, Leaving(d, r, i, close).requests);
  }

  lemma LeavingIdle(d: Dispatcher, r: nat, i: nat, close: Close)
    requires IdleInterestsOk(d.topics, d.interests, d.closing) && r !in d.closing
    requires r < |d.requests| && i < |d.interests|
    ensures var c := Leaving(d, r, i, close);
      && OnlyIdleFor(c, r, i)
      && (c.interests[i].refcount > 0 || ClosesOn(c.closing, r, i) ==> IdleInterestsOk(c.topics, c.interests, c.closing))
      && (c.interests[i].refcount > 0 ==> IdleInterestsOk(c.topics, c.interests, d.closing))
  {
    var c := Leaving(d, r, i, close);
    forall t | t in c.topics && c.topics[t] < |c.interests| && c.interests[c.topics[t]].refcount == 0 && c.topics[t] != i
      ensures exists q :: q != r && ClosesOn(c.closing, q, c.topics[t]) && ClosesOn(d.closing, q, c.topics[t])
    {
      var q :| ClosesOn(d.closing, q, d.topics[t]);
      assert q != r && ClosesOn(c.closing, q, c.topics[t]);
    }
  }

  lemma UnregisterKeeps(d: Dispatcher, max: nat, r: nat)
    requires Inv(d, max)
    ensures Inv(OnUnregister(d, r), max)
  {
    if IsPending(d, r) {
      PendingIsNotClosing(d, max, r);
      LeftKeeps(d, max, r);
    }
  }

  lemma PendingIsNotClosing(d: Dispatcher, max: nat, r: nat)
    requires Core(d, max) && IsPending(d, r)
    ensures r !in d.closing && InterestKnown(d, d.requests[r].key.0)
  {
    WaiterIn(d.pending, d.requests[r].key);
  }

  lemma LeftKeeps(d: Dispatcher, max: nat, r: nat)
    requires Inv(d, max) && IsPending(d, r) && r !in d.closing && InterestKnown(d, d.requests[r].key.0)
    ensures Inv(OnUnregister(d, r), max)
  {
    var key := d.requests[r].key;
    var i := d.topics[key.0];
    hide Inv, Core, GiveBack, DropInterest, OnlyIdleFor, Removed;
    var left := Leaving(d, r, i, AwaitRemoval);
    LeavingSame(d, r, i, AwaitRemoval);
    var interest := left.interests[i];
    if interest.refcount > 0 {
      SharedInterestKeeps(d, max, r);
    } else if interest.ready.None? || !TaskMade(d, interest) || d.tasks[interest.ready.value] != Running {
      LastInterestKeeps(d, max, r);
    } else {
      SuspendedCloseKeeps(d, max, r, interest.ready.value);
    }
  }

  lemma LeavingSame(d: Dispatcher, r: nat, i: nat, close: Close)
    requires r < |d.requests| && i < |d.interests|
    ensures var left := Leaving(d, r, i, close);
      |left.interests| == |d.interests| && left.tasks == d.tasks && r in left.closing && left.topics == d.topics
  {}

  lemma SharedInterestKeeps(d: Dispatcher, max: nat, r: nat)
    requires Inv(d, max) && IsPending(d, r) && r !in d.closing && InterestKnown(d, d.requests[r].key.0)
    requires d.interests[d.topics[d.requests[r].key.0]].refcount > 1
    ensures Inv(GiveBack(Leaving(d, r, d.topics[d.requests[r].key.0], AwaitRemoval), r), max)
  {
    hide Core, GiveBack, OnlyIdleFor, IdleInterestsOk;
    var key := d.requests[r].key;
    var i := d.topics[key.0];
    LeavingKeepsCore(d, max, key, AwaitRemoval);
    LeavingIdle(d, r, i, AwaitRemoval);
    GiveBackKeepsCore(Leaving(d, r, i, AwaitRemoval), max, r);
    GivenBack(d.closing, r, AwaitRemoval, Leaving(d, r, i, AwaitRemoval));
  }

  lemma LastInterestKeeps(d: Dispatcher, max: nat, r: nat)
    requires Inv(d, max) && IsPending(d, r) && r !in d.closing && InterestKnown(d, d.requests[r].key.0)
    ensures var i := d.topics[d.requests[r].key.0]; var left := Leaving(d, r, i, AwaitRemoval);
      |left.interests| == |d.interests| && forall active :: Inv(DropInterest(left, r, i, active), max)
  {
    hide Core, OnlyIdleFor, IdleInterestsOk, DropInterest, Removed;
    var key := d.requests[r].key;
    var i := d.topics[key.0];
    LeavingSame(d, r, i, AwaitRemoval);
    LeavingKeepsCore(d, max, key, AwaitRemoval);
    LeavingIdle(d, r, i, AwaitRemoval);
    forall active ensures Inv(DropInterest(Leaving(d, r, i, AwaitRemoval), r, i, active), max) {
      DropKeeps(Leaving(d, r, i, AwaitRemoval), max, r, i, active);
    }
  }

  lemma SuspendedCloseKeeps(d: Dispatcher, max: nat, r: nat, task: nat)
    requires Inv(d, max) && IsPending(d, r) && r !in d.closing && InterestKnown(d, d.requests[r].key.0) && task < |d.tasks|
    ensures Inv(Leaving(d, r, d.topics[d.requests[r].key.0], AwaitReady(d.topics[d.requests[r].key.0], task)), max)
  {
    hide Core, OnlyIdleFor, IdleInterestsOk;
    var key := d.requests[r].key;
    var i := d.topics[key.0];
    LeavingKeepsCore(d, max, key, AwaitReady(i, task));
    LeavingIdle(d, r, i, AwaitReady(i, task));
  }

  lemma GivenBack(closing: map<nat, Close>, r: nat, close: Close, d: Dispatcher)
    requires r !in closing && d.closing == closing[r := close]
    ensures GiveBack(d, r).closing == closing && GiveBack(d, r).topics == d.topics
    ensures GiveBack(d, r).interests == d.interests
  {}

  lemma EmptyTables(interests: seq<Interest>, requests: seq<Request>, closing: map<nat, Close>)
    ensures Waiters(map[]) == {} && TableOk(map[], requests) && InterestsOk(map[], map[], interests)
    ensures IdleInterestsOk(map[], interests, closing)
  {}

  lemma ShutdownClaims(d: Dispatcher, max: nat)
    requires Inv(d, max)
    ensures ClaimsOk(d.claims, FailAll(d.requests, Waiters(d.pending)), {}, d.generation + 1)
    ensures CompletionsOk(d.completions, d.claims, FailAll(d.requests, Waiters(d.pending)))
  {
    hide PermitsOk, ClaimsOk, CompletionsOk, TasksOk, InterestsOk, IdleInterestsOk, TableOk, Waiters, FailAll;
    var after := FailAll(d.requests, Waiters(d.pending));
    ClaimsInNextGeneration(d.claims, d.requests, after, Waiters(d.pending), {}, d.generation);
    CompletionsIgnoreSettling(d.completions, d.claims, d.requests, after);
  }

  lemma CancelPendingKeeps(d: Dispatcher, max: nat)
    requires Inv(d, max)
    ensures Inv(OnCancelPending(d), max)
  {
    hide PermitsOk, ClaimsOk, CompletionsOk, TasksOk, InterestsOk, IdleInterestsOk, TableOk, Waiters, FailAll, OnceEach;
    ShutdownClaims(d, max);
    EmptyTables(d.interests, OnCancelPending(d).requests, d.closing);
    PermitsAfterShutdown(d.permits, max, |d.pending|, Waiters(d.pending), d.closing.Keys, d.released, |d.requests|);
  }

  lemma SameKeysSameTable(pending: map<Key, nat>, before: seq<Request>, after: seq<Request>)
    requires TableOk(pending, before) && |before| == |after|
    requires forall r :: 0 <= r < |before| ==> after[r].key == before[r].key
    ensures TableOk(pending, after)
  {}

  lemma UnreadyKeeps(d: Dispatcher, after: seq<Interest>, which: set<nat>)
    requires InterestsOk(d.pending, d.topics, d.interests) && TasksOk(d.interests, d.closing, |d.tasks|)
    requires IdleInterestsOk(d.topics, d.interests, d.closing) && after == Unready(d.interests, which)
    ensures InterestsOk(d.pending, d.topics, after) && TasksOk(after, d.closing, |d.tasks|)
    ensures IdleInterestsOk(d.topics, after, d.closing)
  {
    InterestsIgnoreReadiness(d.pending, d.topics, d.interests, after);
    hide InterestsOk;
  }

  lemma BindKeeps(d: Dispatcher, max: nat)
    requires Inv(d, max)
    ensures Inv(Step(d, Bind), max)
  {
    hide PermitsOk, ClaimsOk, CompletionsOk, InterestsOk, IdleInterestsOk, TasksOk, TableOk, Waiters;
    var after := Step(d, Bind);
    UnreadyKeeps(d, after.interests, d.topics.Values);
    SameKeysSameTable(d.pending, d.requests, after.requests);
    ClaimsInNextGeneration(d.claims, d.requests, after.requests, Waiters(d.pending), Waiters(d.pending), d.generation);
    CompletionsIgnoreSettling(d.completions, d.claims, d.requests, after.requests);
  }

  lemma NewClaim(claims: seq<Claim>, requests: seq<Request>, waiting: set<nat>, generation: nat, r: nat)
    requires ClaimsOk(claims, requests, waiting, generation) && r < |requests| && r in waiting && !requests[r].claimed
    ensures ClaimsOk(claims + [Claim(r, requests[r].key, generation)], requests[r := requests[r].(claimed := true)],
                     waiting, generation)
  {
    forall c | 0 <= c < |claims| && claims[c].request == r ensures claims[c].generation < generation {}
  }

  lemma ClaimKeeps(d: Dispatcher, max: nat, key: Key)
    requires Inv(d, max)
    ensures Inv(OnClaim(d, key), max)
  {
    hide PermitsOk, ClaimsOk, CompletionsOk, InterestsOk, TasksOk, IdleInterestsOk, TableOk, Waiters;
    var after := OnClaim(d, key);
    if after != d {
      var r := d.pending[key];
      PendingFits(d.pending, d.requests, key);
      NewClaim(d.claims, d.requests, Waiters(d.pending), d.generation, r);
      SameKeysSameTable(d.pending, d.requests, after.requests);
      CompletionsIgnoreSettling(d.completions, d.claims, d.requests, after.requests);
      CompletionsIgnoreClaims(d.completions, d.claims, [Claim(r, key, d.generation)], after.requests);
    }
  }

  lemma PendingFits(pending: map<Key, nat>, requests: seq<Request>, key: Key)
    requires TableOk(pending, requests) && key in pending
    ensures pending[key] in Waiters(pending) && pending[key] < |requests| && requests[pending[key]].key == key
  {}

  lemma CompletionsIgnoreClaims(completions: seq<Completion>, claims: seq<Claim>, more: seq<Claim>, requests: seq<Request>)
    requires CompletionsOk(completions, claims, requests)
    ensures CompletionsOk(completions, claims + more, requests)
  {
    forall k | 0 <= k < |completions| ensures CompletionOk(completions[k], claims + more, requests) {
      assert CompletionOk(completions[k], claims, requests);
    }
  }

  lemma NewCompletion(completions: seq<Completion>, claims: seq<Claim>, requests: seq<Request>, c: nat)
    requires CompletionsOk(completions, claims, requests) && c < |claims|
    requires claims[c].request < |requests| && requests[claims[c].request].future == Waiting
    ensures var r := claims[c].request;
      CompletionsOk(completions + [Completion(c, r, claims[c].generation)], claims,
                    requests[r := requests[r].(future := Response(c))])
  {
    var r := claims[c].request;
    var more, after := completions + [Completion(c, r, claims[c].generation)], requests[r := requests[r].(future := Response(c))];
    forall k | 0 <= k < |completions| ensures completions[k].request != r && CompletionOk(more[k], claims, after) {
      assert CompletionOk(completions[k], claims, requests);
    }
    forall q | 0 <= q < |after| && after[q].future.Response?
      ensures exists k :: 0 <= k < |more| && more[k].request == q
    {
      if q == r {
        assert more[|completions|].request == q;
      } else {
        var k :| 0 <= k < |completions| && completions[k].request == q;
        assert more[k].request == q;
      }
    }
  }

  lemma CompleteKeeps(d: Dispatcher, max: nat, c: nat)
    requires Inv(d, max)
    ensures Inv(OnComplete(d, c), max)
  {
    hide PermitsOk, ClaimsOk, CompletionsOk, InterestsOk, TasksOk, Waiters;
    var after := OnComplete(d, c);
    if after != d {
      NewCompletion(d.completions, d.claims, d.requests, c);
      ClaimsWithFewerPending(d.claims, d.requests, after.requests, Waiters(d.pending), Waiters(d.pending), d.generation);
    }
  }

  lemma CancelFutureKeeps(d: Dispatcher, max: nat, r: nat)
    requires Inv(d, max)
    ensures Inv(Step(d, CancelFuture(r)), max)
  {
    hide PermitsOk, ClaimsOk, CompletionsOk, InterestsOk, TasksOk, Waiters, TableOk, IdleInterestsOk;
    hide OnRegister, OnUnregister, OnCancelPending, OnClaim, OnComplete, DropInterest, GiveBack, EnsureReady;
    var after := Step(d, CancelFuture(r));
    SameKeysSameTable(d.pending, d.requests, after.requests);
    CompletionsIgnoreSettling(d.completions, d.claims, d.requests, after.requests);
    ClaimsWithFewerPending(d.claims, d.requests, after.requests, Waiters(d.pending), Waiters(d.pending), d.generation);
  }

  lemma CloseKeeps(d: Dispatcher, max: nat, r: nat, cancelled: bool)
    requires Inv(d, max)
    ensures Inv(Step(d, if cancelled then CloseCancelled(r) else CloseGoesOn(r)), max)
  {
    if r in d.closing {
      if d.closing[r].AwaitReady? {
        hide Inv, DropInterest;
        forall active ensures d.closing[r].interest < |d.interests| && Inv(DropInterest(d, r, d.closing[r].interest, active), max) {
          ClosingKeeps(d, max, r, active);
        }
      } else {
        hide Core;
        GiveBackKeepsCore(d, max, r);
        IdleWithoutRemoval(d, r);
      }
    }
  }

  lemma IdleWithoutRemoval(d: Dispatcher, r: nat)
    requires IdleInterestsOk(d.topics, d.interests, d.closing) && r in d.closing && d.closing[r] == AwaitRemoval
    ensures IdleInterestsOk(d.topics, d.interests, GiveBack(d, r).closing)
  {
    forall t | t in d.topics && d.topics[t] < |d.interests| && d.interests[d.topics[t]].refcount == 0
      ensures exists q :: ClosesOn(GiveBack(d, r).closing, q, d.topics[t])
    {
      var q :| ClosesOn(d.closing, q, d.topics[t]);
      assert ClosesOn(GiveBack(d, r).closing, q, d.topics[t]);
    }
  }

  lemma ReadyEndsKeeps(d: Dispatcher, max: nat, task: nat, succeeds: bool)
    requires Inv(d, max)
    ensures Inv(Step(d, ReadyEnds(task, succeeds)), max)
  {
    hide PermitsOk, ClaimsOk, CompletionsOk, InterestsOk, TableOk, Waiters, IdleInterestsOk;
  }

  lemma StepKeeps(d: Dispatcher, max: nat, e: Event)
    requires Inv(d, max)
    ensures Inv(Step(d, e), max)
  {
    hide Inv, OnRegister, OnUnregister, OnCancelPending, OnClaim, OnComplete, DropInterest, GiveBack, EnsureReady;
    match e
    case Register(key) => RegisterKeeps(d, max, key);
    case Unregister(r) => UnregisterKeeps(d, max, r);
    case CloseGoesOn(r) => CloseKeeps(d, max, r, false);
    case CloseCancelled(r) => CloseKeeps(d, max, r, true);
    case ReadyEnds(task, succeeds) => ReadyEndsKeeps(d, max, task, succeeds);
    case Restore(i) => if i < |d.interests| { EnsureReadyKeeps(d, max, i); }
    case Bind => BindKeeps(d, max);
    case CancelPending => CancelPendingKeeps(d, max);
    case TryClaim(key) => ClaimKeeps(d, max, key);
    case Complete(c) => CompleteKeeps(d, max, c);
    case CancelFuture(r) => CancelFutureKeeps(d, max, r);
  }

  lemma {:induction false} ReachableStatesKeep(max: nat, events: seq<Event>)
    ensures Inv(Run(max, events), max)
  {
    if events != [] {
      ReachableStatesKeep(max, events[..|events| - 1]);
      StepKeeps(Run(max, events[..|events| - 1]), max, events[|events| - 1]);
    }
  }

  // ----- Main results -----

  /** After any run: free permits, pending requests and closes in progress are all the permits there
    are, and every other request ever made has given its permit back exactly once. */
  lemma PermitsAreConserved(max: nat, events: seq<Event>, r: nat)
    requires r < |Run(max, events).requests|
    ensures var d := Run(max, events);
      && d.permits + |d.pending| + |d.closing| == max
      && d.released[r] == (if IsPending(d, r) || r in d.closing then 0 else 1)
      && !(IsPending(d, r) && r in d.closing)
  {
    ReachableStatesKeep(max, events);
    var d := Run(max, events);
    assert d.closing.Keys !! Waiters(d.pending);
    if r in Waiters(d.pending) {
      var k :| k in d.pending && d.pending[k] == r;
      assert IsPending(d, r);
    }
    if IsPending(d, r) { WaiterIn(d.pending, d.requests[r].key); }
    assert |d.closing| == |d.closing.Keys|;
  }

  /** An interest counts the pending requests on its topic, and has no topic without them except
    while a close waits for its readiness. */
  lemma InterestsAreExact(max: nat, events: seq<Event>, topic: string)
    ensures var d := Run(max, events);
      && (topic in d.topics ==> InterestKnown(d, topic) && d.interests[d.topics[topic]].refcount == |KeysOn(d.pending, topic)|)
      && (topic !in d.topics ==> KeysOn(d.pending, topic) == {})
      && (topic in d.topics && KeysOn(d.pending, topic) == {} ==> exists r :: ClosesOn(d.closing, r, d.topics[topic]))
  {
    ReachableStatesKeep(max, events);
  }

  /** Within one generation a request is claimed at most once. */
  lemma ClaimedOncePerGeneration(max: nat, events: seq<Event>, b: nat, c: nat)
    requires var d := Run(max, events); b < c < |d.claims| && d.claims[b].request == d.claims[c].request
    ensures var d := Run(max, events); d.claims[b].generation < d.claims[c].generation
  {
    ReachableStatesKeep(max, events);
  }

  /** A future that holds a response got it from a claim of its own request and key, completed in
    the generation of the claim, and no future is completed twice. */
  lemma ResponsesComeFromCurrentClaims(max: nat, events: seq<Event>, r: nat)
    requires r < |Run(max, events).requests| && Run(max, events).requests[r].future.Response?
    ensures var d := Run(max, events); var c := d.requests[r].future.claim;
      && c < |d.claims| && d.claims[c].request == r && d.claims[c].key == d.requests[r].key
      && Completion(c, r, d.claims[c].generation) in d.completions
      && forall j, k :: 0 <= j < k < |d.completions| ==> d.completions[j].request != d.completions[k].request
  {
    ReachableStatesKeep(max, events);
    var d := Run(max, events);
    var k :| 0 <= k < |d.completions| && d.completions[k].request == r;
    assert CompletionOk(d.completions[k], d.claims, d.requests);
  }
}
