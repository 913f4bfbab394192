/** The subscription calls of the protocol object: each method is one stretch of code between
  suspensions, proved against the event it realises. */
module SubscriptionCalls {
  import opened Prelude
  import opened SubscriptionOwnership

  class Subscriptions {
    var index: set<string>
    var observers: set<string>
    /** The local variables of the suspended calls. */
    var calls: map<Task, Call>
    var pendingSubs: map<int, Task>
    var pendingUnsubs: map<int, Task>
    var sent: nat
    var dead: bool
    var up: seq<Request>
    var down: seq<Ack>
    var granted: set<string>
    /** Filters whose call a foreign SUBACK misled, until they are withdrawn or properly accepted. */
    ghost var misled: set<string>

    ghost function View(): State
      reads this
    {
      State(index, observers, calls, pendingSubs, pendingUnsubs, sent, dead, up, down, granted, misled)
    }

    ghost predicate Valid()
      reads this
    {
      Inv(View())
    }

    constructor ()
      ensures Valid() && View() == FreshConnection
    {
      index, observers, calls, pendingSubs, pendingUnsubs := {}, {}, map[], map[], map[];
      sent, dead, up, down, granted, misled := 0, false, [], [], {}, {};
      new;
      ReachableStatesKeep([]);
    }

    /** `_send_subscribe` up to its suspension. */
    method SendSubscription(t: Task, held: set<string>, purpose: Purpose, filters: seq<string>, pid: int)
      modifies this`calls, this`pendingSubs, this`up, this`sent
      ensures View() == SendSubscribe(old(View()), t, held, purpose, filters, pid)
    {
      calls := calls[t := Call(held, purpose, filters, pid, sent, None)];
      pendingSubs := pendingSubs[pid := t];
      up := up + [Request.Subscribe(pid, sent, filters)];
      sent := sent + 1;
    }

    /** `_send_unsubscribe` up to its suspension. */
    method SendWithdrawal(t: Task, held: set<string>, purpose: Purpose, filters: seq<string>, pid: int)
      modifies this`calls, this`pendingUnsubs, this`up, this`sent
      ensures View() == SendUnsubscribe(old(View()), t, held, purpose, filters, pid)
    {
      calls := calls[t := Call(held, purpose, filters, pid, sent, None)];
      pendingUnsubs := pendingUnsubs[pid := t];
      up := up + [Request.Unsubscribe(pid, sent, filters)];
      sent := sent + 1;
    }

    /** The filters that are not in the index yet. */
    method NewFilters(filters: seq<string>) returns (added: set<string>)
      ensures added == Elements(filters) - index
    {
      added := {};
      for i := 0 to |filters|
        invariant added == Elements(filters[..i]) - index
      {
        assert filters[..i + 1] == filters[..i] + [filters[i]];
        if filters[i] !in index {
          added := added + {filters[i]};
        }
      }
      assert filters[..|filters|] == filters;
    }

    /** `subscribe` once its guards are held. */
    method Subscribe(t: Task, filters: seq<string>, pid: int, written: bool)
      requires Valid() && t !in calls && GuardsFree(View(), Elements(filters)) && IdFree(View(), pid)
      modifies this
      ensures Valid() && View() == Step(old(View()), Begin(t, Subscribing(filters), pid, written))
    {
      hide Inv, GuardsFree, IdFree, SendSubscribe, Elements;
      StepKeeps(View(), Begin(t, Subscribing(filters), pid, written));
      var added := NewFilters(filters);
      index := index + added;
      if dead || !written {
        index := index - added;
        return;
      }
      SendSubscription(t, Elements(filters), ForApplication(added), filters, pid);
    }

    /** Splits the filters by whether they have a response observer. */
    method Partition(filters: seq<string>) returns (observed: seq<string>, others: seq<string>)
      ensures observed == Filter(filters, In(observers)) && others == Filter(filters, NotIn(observers))
    {
      hide Filter;
      observed, others := [], [];
      FilterNone([], In(observers));
      FilterNone([], NotIn(observers));
      for i := 0 to |filters|
        invariant observed == Filter(filters[..i], In(observers)) && others == Filter(filters[..i], NotIn(observers))
      {
        FilterOneMore(filters, i, In(observers));
        FilterOneMore(filters, i, NotIn(observers));
        if filters[i] in observers {
          observed := observed + [filters[i]];
        } else {
          others := others + [filters[i]];
        }
      }
      assert filters[..|filters|] == filters;
    }

    method RemoveAll(filters: seq<string>)
      modifies this`index
      ensures index == old(index) - Elements(filters)
    {
      for i := 0 to |filters|
        invariant index == old(index) - Elements(filters[..i])
      {
        assert filters[..i + 1] == filters[..i] + [filters[i]];
        index := index - {filters[i]};
      }
      assert filters[..|filters|] == filters;
    }

    /** `unsubscribe` once its guards are held. */
    method Unsubscribe(t: Task, filters: seq<string>, pid: int, written: bool)
      requires Valid() && t !in calls && GuardsFree(View(), Elements(filters)) && IdFree(View(), pid)
      modifies this
      ensures Valid() && View() == Step(old(View()), Begin(t, Unsubscribing(filters), pid, written))
    {
      hide Inv, GuardsFree, IdFree, SendSubscribe, SendUnsubscribe, Elements, Filter;
      StepKeeps(View(), Begin(t, Unsubscribing(filters), pid, written));
      if dead {
        return;
      }
      var observed, others := Partition(filters);
      RemoveAll(filters);
      misled := misled - (Elements(filters) - observers);
      if !written || filters == [] {
        return;
      }
      if others != [] {
        SendWithdrawal(t, Elements(filters), ToUnsubscribe(observed), others, pid);
      } else {
        SendSubscription(t, Elements(filters), ToRestore, observed, pid);
      }
    }

    /** `add_response_observer` once its guard is held. */
    method Observe(t: Task, topic: string, pid: int, written: bool)
      requires Valid() && t !in calls && GuardsFree(View(), {topic}) && IdFree(View(), pid)
      modifies this
      ensures Valid() && View() == Step(old(View()), Begin(t, Observing(topic), pid, written))
    {
      hide Inv, GuardsFree, IdFree, SendSubscribe;
      StepKeeps(View(), Begin(t, Observing(topic), pid, written));
      if dead || topic in observers {
        return;
      }
      observers := observers + {topic};
      if topic in index {
        return;
      }
      if written {
        SendSubscription(t, {topic}, ForObserver(topic), [topic], pid);
      } else {
        observers := observers - {topic};
        assert observers == old(observers);
      }
    }

    /** `remove_response_observer` once its guard is held. */
    method Unobserve(t: Task, topic: string, pid: int, written: bool)
      requires Valid() && t !in calls && GuardsFree(View(), {topic}) && IdFree(View(), pid)
      modifies this
      ensures Valid() && View() == Step(old(View()), Begin(t, Unobserving(topic), pid, written))
    {
      hide Inv, GuardsFree, IdFree, SendUnsubscribe;
      StepKeeps(View(), Begin(t, Unobserving(topic), pid, written));
      misled := misled - ({topic} - index);
      if topic !in observers {
        assert observers == observers - {topic};
        return;
      }
      observers := observers - {topic};
      if topic !in index && !dead && written {
        SendWithdrawal(t, {topic}, ToUnobserve, [topic], pid);
      }
    }

    /** The `finally` blocks of a call: its identifier and its guards. */
    method Leave(t: Task)
      requires t in calls
      modifies this`calls, this`pendingSubs, this`pendingUnsubs
      ensures View() == Finish(old(View()), t)
    {
      var c := calls[t];
      calls := calls - {t};
      if IsSubscribe(c.purpose) {
        pendingSubs := pendingSubs - {c.pid};
      } else {
        pendingUnsubs := pendingUnsubs - {c.pid};
      }
    }

    method TakeBack(purpose: Purpose)
      modifies this`index, this`observers, this`misled
      ensures View() == Undo(old(View()), purpose)
    {
      match purpose
      case ForApplication(added) =>
        index := index - added;
        misled := misled - (added - observers);
      case ForObserver(topic) =>
        observers := observers - {topic};
        misled := misled - ({topic} - index);
      case _ =>
    }

    /** A call goes on after its answer came. */
    method Continue(t: Task, pid: int, written: bool)
      requires Valid() && t in calls && calls[t].answer.Some? && IdFree(Finish(View(), t), pid)
      modifies this
      ensures Valid() && View() == Step(old(View()), Resume(t, pid, written))
    {
      hide Inv, IdFree, SendSubscribe, Finish, Undo;
      StepKeeps(View(), Resume(t, pid, written));
      var c := calls[t];
      if IsSubscribe(c.purpose) {
        if Rejects(c.filters, c.answer.value) {
          TakeBack(c.purpose);
          assert t in calls;
        }
        Leave(t);
      } else {
        Leave(t);
        if c.purpose.ToUnsubscribe? && c.purpose.observed != [] && !dead && written {
          SendSubscription(t, c.held, ToRestore, c.purpose.observed, pid);
        }
      }
    }

    /** A suspended call is cancelled or fails. */
    method Fail(t: Task)
      requires Valid() && t in calls
      modifies this
      ensures Valid() && View() == Step(old(View()), Abort(t))
    {
      hide Inv;
      StepKeeps(View(), Abort(t));
      TakeBack(calls[t].purpose);
      Leave(t);
    }

    /** `_handle_suback` and `_handle_unsuback`. */
    method HandleAck()
      requires Valid() && !dead && down != []
      modifies this
      ensures Valid() && View() == Step(old(View()), Dispatch)
    {
      hide Inv;
      StepKeeps(View(), Dispatch);
      var ack := down[0];
      down := down[1..];
      var table := if ack.Suback? then pendingSubs else pendingUnsubs;
      if ack.pid !in table || table[ack.pid] !in calls || calls[table[ack.pid]].answer.Some? {
        dead := true;
        return;
      }
      var t := table[ack.pid];
      var c := calls[t];
      calls := calls[t := c.(answer := Some(ack))];
      if ack.Suback? {
        misled := if ack.serial != c.serial then misled + Elements(c.filters) else misled - Accepted(c.filters, ack.codes);
      }
    }

    /** The other end of the wires. */
    method BrokerTakes(codes: seq<nat>)
      requires Valid() && up != []
      modifies this`up, this`down, this`granted
      ensures Valid() && View() == Step(old(View()), Broker(codes))
    {
      hide Inv;
      StepKeeps(View(), Broker(codes));
      match up[0]
      case Subscribe(pid, serial, filters) =>
        if |codes| == |filters| {
          up, down, granted := up[1..], down + [Suback(pid, serial, codes)], granted + Accepted(filters, codes);
        }
      case Unsubscribe(pid, serial, filters) =>
        up, down, granted := up[1..], down + [Unsuback(pid, serial)], granted - Elements(filters);
    }

    /** The end of `run`. */
    method Close()
      requires Valid()
      modifies this`dead
      ensures Valid() && View() == Step(old(View()), RunEnds)
    {
      hide Inv;
      StepKeeps(View(), RunEnds);
      dead := true;
    }
  }

  lemma FilterOneMore(filters: seq<string>, i: nat, p: string -> bool)
    requires i < |filters|
    ensures Filter(filters[..i + 1], p) == if p(filters[i]) then Filter(filters[..i], p) + [filters[i]] else Filter(filters[..i], p)
  {
    assert filters[..i + 1] == filters[..i] + [filters[i]];
    FilterConcat(filters[..i], [filters[i]], p);
    assert [filters[i]][1..] == [];
  }
}
