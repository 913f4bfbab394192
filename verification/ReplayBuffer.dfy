/** The buffer of a resumed session: messages that wait for a local recipient, with the counters
  the source keeps beside the queue. */
module ReplayBuffer {
  import opened Prelude

  datatype Qos = AtMostOnce | AtLeastOnce | ExactlyOnce

  /** An arrived PUBLISH; `serial` numbers arrivals and so names the message. */
  datatype Publish = Publish(serial: nat, topic: string, qos: Qos, pid: Option<int>)

  /** The application recipient chosen for a message. */
  datatype Recipient = Request | Subscription(queue: nat, manual: bool) | Nobody

  predicate AutoAck(r: Recipient) { !(r.Subscription? && r.manual) }

  datatype Buffer = Buffer(publishes: seq<Publish>, packetIds: set<int>, topics: map<string, int>, count: int)

  const EmptyBuffer := Buffer([], {}, map[], 0)

  // ----- Counting -----

  function TopicCount(held: seq<Publish>, topic: string): nat {
    if held == [] then 0 else (if held[0].topic == topic then 1 else 0) + TopicCount(held[1..], topic)
  }

  lemma {:induction false} TopicCountConcat(a: seq<Publish>, b: seq<Publish>, topic: string)
    ensures TopicCount(a + b, topic) == TopicCount(a, topic) + TopicCount(b, topic)
  {
    if a == [] {
      assert a + b == b;
    } else {
      assert (a + b)[1..] == a[1..] + b;
      TopicCountConcat(a[1..], b, topic);
    }
  }

  lemma {:induction false} TopicCountZero(held: seq<Publish>, topic: string)
    ensures TopicCount(held, topic) == 0 <==> forall i :: 0 <= i < |held| ==> held[i].topic != topic
  {
    if held != [] {
      TopicCountZero(held[1..], topic);
      assert forall i :: 1 <= i < |held| ==> held[i] == held[1..][i - 1];
      if TopicCount(held[1..], topic) == 0 && held[0].topic != topic {
        forall i | 0 <= i < |held| ensures held[i].topic != topic {
          if i > 0 { assert held[1..][i - 1].topic != topic; }
        }
      }
    }
  }

  function HeldIds(held: seq<Publish>): set<int> {
    set i | 0 <= i < |held| && held[i].pid.Some? :: held[i].pid.value
  }

  /** The counters describe exactly the held messages. */
  ghost predicate CountersOk(b: Buffer, held: seq<Publish>) {
    && b.count == |held|
    && b.packetIds == HeldIds(held)
    && (forall t :: t in b.topics <==> TopicCount(held, t) > 0)
    && (forall t :: t in b.topics ==> b.topics[t] == TopicCount(held, t))
  }

  /** Held messages are in arrival order, and no two carry the same identifier. */
  ghost predicate HeldOk(held: seq<Publish>) {
    && (forall i, j :: 0 <= i < j < |held| ==> held[i].serial < held[j].serial)
    && (forall i, j :: 0 <= i < j < |held| && held[i].pid.Some? ==> held[i].pid != held[j].pid)
  }

  // ----- Accepting -----

  datatype Verdict = Pass | Hold | Ignore | Overflow

  function Judge(b: Buffer, limit: nat, p: Publish, r: Recipient): Verdict {
    if r.Request? then Pass
    else if r.Subscription? && p.topic !in b.topics then Pass
    else if p.pid.Some? && p.pid.value in b.packetIds then Ignore
    else if limit != 0 && b.count >= limit then Overflow
    else Hold
  }

  function Append(b: Buffer, p: Publish): Buffer {
    Buffer(b.publishes + [p],
           if p.pid.Some? then b.packetIds + {p.pid.value} else b.packetIds,
           b.topics[p.topic := (if p.topic in b.topics then b.topics[p.topic] else 0) + 1],
           b.count + 1)
  }

  /** `_discard`; defined when the topic has its counter. */
  function Discard(b: Buffer, p: Publish): Buffer
    requires p.topic in b.topics
  {
    b.(count := b.count - 1,
       topics := if b.topics[p.topic] - 1 != 0 then b.topics[p.topic := b.topics[p.topic] - 1] else b.topics - {p.topic},
       packetIds := if p.pid.Some? then b.packetIds - {p.pid.value} else b.packetIds)
  }

  lemma AppendKeepsCounters(b: Buffer, held: seq<Publish>, p: Publish)
    requires CountersOk(b, held)
    ensures CountersOk(Append(b, p), held + [p])
  {
    forall t ensures TopicCount(held + [p], t) == TopicCount(held, t) + if p.topic == t then 1 else 0 {
      TopicCountConcat(held, [p], t);
      assert [p][1..] == [];
    }
    HeldIdsConcat(held, [p]);
    assert HeldIds([p]) == if p.pid.Some? then {p.pid.value} else {} by {
      if p.pid.Some? { assert [p][0].pid.value in HeldIds([p]); }
    }
  }

  lemma HeldIdsConcat(a: seq<Publish>, b: seq<Publish>)
    ensures HeldIds(a + b) == HeldIds(a) + HeldIds(b)
  {
    forall x | x in HeldIds(a) + HeldIds(b) ensures x in HeldIds(a + b) {
      if x in HeldIds(a) {
        var i :| 0 <= i < |a| && a[i].pid == Some(x);
        assert (a + b)[i] == a[i];
      } else {
        var i :| 0 <= i < |b| && b[i].pid == Some(x);
        assert (a + b)[|a| + i] == b[i];
      }
    }
  }

  lemma AppendKeepsHeld(held: seq<Publish>, p: Publish)
    requires HeldOk(held)
    requires forall i :: 0 <= i < |held| ==> held[i].serial < p.serial
    requires p.pid.Some? ==> p.pid.value !in HeldIds(held)
    ensures HeldOk(held + [p])
  {
    forall i | 0 <= i < |held| && held[i].pid.Some? ensures held[i].pid != p.pid {
      assert held[i].pid.value in HeldIds(held);
    }
  }

  /** Taking one message out of the held ones takes it out of every counter. */
  lemma DiscardKeepsCounters(b: Buffer, front: seq<Publish>, p: Publish, back: seq<Publish>)
    requires CountersOk(b, front + [p] + back) && HeldOk(front + [p] + back)
    ensures p.topic in b.topics
    ensures CountersOk(Discard(b, p), front + back)
  {
    var held := front + [p] + back;
    forall t ensures TopicCount(held, t) == TopicCount(front + back, t) + if p.topic == t then 1 else 0 {
      TopicCountConcat(front + [p], back, t);
      TopicCountConcat(front, [p], t);
      TopicCountConcat(front, back, t);
      assert [p][1..] == [];
    }
    IdsWithout(front, p, back);
  }

  lemma IdsWithout(front: seq<Publish>, p: Publish, back: seq<Publish>)
    requires HeldOk(front + [p] + back)
    ensures HeldIds(front + back)
         == if p.pid.Some? then HeldIds(front + [p] + back) - {p.pid.value} else HeldIds(front + [p] + back)
  {
    var held := front + [p] + back;
    HeldIdsConcat(front + [p], back);
    HeldIdsConcat(front, [p]);
    HeldIdsConcat(front, back);
    assert held[|front|] == p;
    if p.pid.Some? {
      assert HeldIds([p]) == {p.pid.value} by { assert [p][0].pid.value in HeldIds([p]); }
      assert forall i :: 0 <= i < |front| ==> held[i] == front[i];
      assert forall i :: 0 <= i < |back| ==> held[|front| + 1 + i] == back[i];
      assert p.pid.value !in HeldIds(front) && p.pid.value !in HeldIds(back);
    } else {
      assert HeldIds([p]) == {};
    }
  }

  lemma DiscardKeepsHeld(front: seq<Publish>, p: Publish, back: seq<Publish>)
    requires HeldOk(front + [p] + back)
    ensures HeldOk(front + back)
  {
    var held, rest := front + [p] + back, front + back;
    forall i | 0 <= i < |rest| ensures rest[i] == held[if i < |front| then i else i + 1] {}
  }

  /** A message is passed straight to a subscription only when nothing on its topic is held. */
  lemma PassedNeverOvertakes(b: Buffer, held: seq<Publish>, limit: nat, p: Publish, r: Recipient)
    requires CountersOk(b, held) && r.Subscription?
    ensures Judge(b, limit, p, r) == Pass <==> forall i :: 0 <= i < |held| ==> held[i].topic != p.topic
  {
    TopicCountZero(held, p.topic);
  }

  lemma HeldStaysWithinLimit(b: Buffer, held: seq<Publish>, limit: nat, p: Publish, r: Recipient)
    requires CountersOk(b, held) && Judge(b, limit, p, r) == Hold
    ensures limit != 0 ==> |held + [p]| <= limit
  {}
}
