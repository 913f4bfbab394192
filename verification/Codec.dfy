/** The fifteen control packets in both protocol versions: their bodies, their frames, and the
  normal form that a packet has after a round trip. */
module Codec {
  import opened Prelude
  import opened Wire
  import opened PropertyBlocks
  import opened TypedProperties

  datatype Version = V311 | V5

  type Qos = q: int | 0 <= q <= 2

  type RetainHandling = h: int | 0 <= h <= 2

  datatype Will = Will(topic: bytes, payload: bytes, qos: Qos, retain: bool, properties: Option<Properties>)

  datatype SubscriptionRequest = SubscriptionRequest(
    filter: bytes, qos: Qos, noLocal: bool, retainAsPublished: bool, retainHandling: RetainHandling)

  datatype Packet =
    | Connect(clientId: bytes, cleanSession: bool, keepalive: int, username: Option<bytes>, password: Option<bytes>,
              will: Option<Will>, properties: Option<Properties>)
    | ConnAck(sessionPresent: bool, returnCode: int, properties: Option<Properties>)
    | Publish(topic: bytes, payload: bytes, qos: Qos, retain: bool, dup: bool, id: Option<int>, properties: Option<Properties>)
    | PubAck(packetId: int, reasonCode: int, properties: Option<Properties>)
    | PubRec(packetId: int, reasonCode: int, properties: Option<Properties>)
    | PubRel(packetId: int, reasonCode: int, properties: Option<Properties>)
    | PubComp(packetId: int, reasonCode: int, properties: Option<Properties>)
    | Subscribe(packetId: int, subscriptions: seq<SubscriptionRequest>, properties: Option<Properties>)
    | SubAck(packetId: int, codes: seq<int>, properties: Option<Properties>)
    | Unsubscribe(packetId: int, filters: seq<bytes>, properties: Option<Properties>)
    | UnsubAck(packetId: int, codes: seq<int>, properties: Option<Properties>)
    | PingReq
    | PingResp
    | Disconnect(reasonCode: int, properties: Option<Properties>)
    | Auth(reasonCode: int, properties: Option<Properties>)

  function TypeOf(p: Packet): (t: int)
    ensures 1 <= t <= 15
  {
    match p
    case Connect(_, _, _, _, _, _, _) => 1
    case ConnAck(_, _, _) => 2
    case Publish(_, _, _, _, _, _, _) => 3
    case PubAck(_, _, _) => 4
    case PubRec(_, _, _) => 5
    case PubRel(_, _, _) => 6
    case PubComp(_, _, _) => 7
    case Subscribe(_, _, _) => 8
    case SubAck(_, _, _) => 9
    case Unsubscribe(_, _, _) => 10
    case UnsubAck(_, _, _) => 11
    case PingReq => 12
    case PingResp => 13
    case Disconnect(_, _) => 14
    case Auth(_, _) => 15
  }

  function Bit(on: bool): (b: int)
    ensures 0 <= b <= 1
  {
    if on then 1 else 0
  }

  predicate IsSet(flags: nat, weight: nat)
    requires weight > 0
  {
    flags / weight % 2 == 1
  }

  /** The low four bits of the first byte. */
  function FlagsOf(p: Packet): (f: int)
    ensures 0 <= f < 16
  {
    match p
    case Publish(_, _, qos, retain, dup, _, _) => 8 * Bit(dup) + 2 * qos + Bit(retain)
    case PubRel(_, _, _) => 2
    case Subscribe(_, _, _) => 2
    case Unsubscribe(_, _, _) => 2
    case _ => 0
  }

  // ----- Pieces of bodies -----

  function Join(front: Written, back: Written): Written {
    var a :- front;
    var b :- back;
    Ok(a + b)
  }

  /** Properties are on the wire only in version 5.0. */
  function PackVersioned(kind: Kind, p: Option<Properties>, v: Version): Written {
    if v == V5 then PackProperties(kind, p) else Ok([])
  }

  function ReadVersioned(kind: Kind, v: Version, s: bytes): (r: Read<Option<Properties>>)
    ensures r.Ok? ==> r.value.1 <= |s|
  {
    if v == V5 then ReadProperties(kind, s) else Ok((None, 0))
  }

  function NormalVersioned(p: Option<Properties>, v: Version): Option<Properties> {
    if v == V5 then NormalProperties(p) else None
  }

  predicate TypedFor(kind: Kind, p: Option<Properties>) { p.Some? ==> WellTyped(kind, p.value) }

  lemma VersionedRoundTrip(kind: Kind, p: Option<Properties>, v: Version, rest: bytes)
    requires TypedFor(kind, p) && PackVersioned(kind, p, v).Ok?
    ensures var b := PackVersioned(kind, p, v).value;
      ReadVersioned(kind, v, b + rest) == Ok((NormalVersioned(p, v), |b|)) && (v == V5 ==> b != [])
  {
    if v == V5 { PropertiesRoundTrip(kind, p, rest); }
  }

  function PackOptional(data: Option<bytes>): Written {
    if data.Some? then PackField(data.value) else Ok([])
  }

  function ReadOptional(present: bool, s: bytes): (r: Read<Option<bytes>>)
    ensures r.Ok? ==> r.value.1 <= |s|
  {
    if !present then Ok((None, 0))
    else
      var (data, n) :- ReadField(s);
      Ok((Some(data), n))
  }

  lemma OptionalRoundTrip(data: Option<bytes>, rest: bytes)
    requires PackOptional(data).Ok?
    ensures var b := PackOptional(data).value; ReadOptional(data.Some?, b + rest) == Ok((data, |b|))
  {
    if data.Some? { FieldRoundTrip(data.value, rest); } else { assert [] + rest == rest; }
  }

  // ----- CONNECT -----

  const MQTT: bytes := [77, 81, 84, 84]

  function ConnectFlags(p: Packet): (f: int)
    requires p.Connect?
    ensures 0 <= f < 0x100
  {
    0x02 * Bit(p.cleanSession)
    + (if p.will.Some? then 0x04 + 0x08 * p.will.value.qos + 0x20 * Bit(p.will.value.retain) else 0)
    + 0x80 * Bit(p.username.Some?) + 0x40 * Bit(p.password.Some?)
  }

  function Level(v: Version): int { if v == V5 then 5 else 4 }

  function PackConnectHead(flags: int, keepalive: int, v: Version): Written {
    Join(Join(PackField(MQTT), Join(PackByte(Level(v)), PackByte(flags))), PackTwo(keepalive))
  }

  datatype ConnectHead = ConnectHead(version: Version, flags: nat, keepalive: nat)

  function ReadConnectHead(s: bytes): (r: Read<ConnectHead>)
    ensures r.Ok? ==> r.value.1 <= |s| && r.value.0.flags / 0x08 % 4 != 3
  {
    var (name, n) :- ReadField(s);
    if name != MQTT then Err(InvalidProtocol)
    else
      var (level, _) :- ReadByte(s[n..]);
      if level != 4 && level != 5 then Err(InvalidProtocol)
      else
        var (flags, _) :- ReadByte(s[n + 1..]);
        if flags / 0x08 % 4 == 3 then Err(InvalidQos)
        else
          var (keepalive, _) :- ReadTwo(s[n + 2..]);
          Ok((ConnectHead(if level == 5 then V5 else V311, flags, keepalive), n + 4))
  }

  lemma ConnectHeadRoundTrip(flags: int, keepalive: int, v: Version, rest: bytes)
    requires PackConnectHead(flags, keepalive, v).Ok? && flags / 0x08 % 4 != 3
    ensures var b := PackConnectHead(flags, keepalive, v).value;
      flags >= 0 && keepalive >= 0 && ReadConnectHead(b + rest) == Ok((ConnectHead(v, flags, keepalive), |b|))
  {
    var name, two := PackField(MQTT).value, PackTwo(keepalive).value;
    var b := PackConnectHead(flags, keepalive, v).value;
    var level: byte, flagByte: byte := Level(v), flags;
    assert b == name + ([level] + [flagByte]) + two;
    var s := b + rest;
    assert s == name + ([level, flagByte] + two + rest);
    FieldRoundTrip(MQTT, [level, flagByte] + two + rest);
    assert |name| == 6;
    assert s[6] == level && s[7] == flagByte;
    assert s[8..] == two + rest;
    TwoRoundTrip(keepalive, rest);
  }

  function PackWill(will: Option<Will>, v: Version): Written {
    if will.None? then Ok([])
    else
      Join(PackVersioned(OfWill, will.value.properties, v),
           Join(PackField(will.value.topic), PackField(will.value.payload)))
  }

  function ReadWill(head: ConnectHead, s: bytes): (r: Read<Option<Will>>)
    requires head.flags / 0x08 % 4 != 3
    ensures r.Ok? ==> r.value.1 <= |s|
  {
    if !IsSet(head.flags, 0x04) then Ok((None, 0))
    else
      var (properties, n) :- ReadVersioned(OfWill, head.version, s);
      var (topic, m) :- ReadField(s[n..]);
      var (payload, k) :- ReadField(s[n + m..]);
      Ok((Some(Will(topic, payload, head.flags / 0x08 % 4, IsSet(head.flags, 0x20), properties)), n + m + k))
  }

  function NormalWill(will: Option<Will>, v: Version): Option<Will> {
    if will.None? then None else Some(will.value.(properties := NormalVersioned(will.value.properties, v)))
  }

  lemma WillRoundTrip(head: ConnectHead, will: Option<Will>, rest: bytes)
    requires will.Some? ==> TypedFor(OfWill, will.value.properties)
    requires PackWill(will, head.version).Ok? && head.flags / 0x08 % 4 != 3
    requires IsSet(head.flags, 0x04) <==> will.Some?
    requires will.Some? ==> head.flags / 0x08 % 4 == will.value.qos && (IsSet(head.flags, 0x20) <==> will.value.retain)
    ensures var b := PackWill(will, head.version).value;
      ReadWill(head, b + rest) == Ok((NormalWill(will, head.version), |b|))
  {
    hide PackVersioned, ReadVersioned, PackField, ReadField, IsSet, TypedFor, NormalVersioned;
    if will.None? {
      assert [] + rest == rest;
    } else {
      var w := will.value;
      var props := PackVersioned(OfWill, w.properties, head.version).value;
      var topic, payload := PackField(w.topic).value, PackField(w.payload).value;
      var s := PackWill(will, head.version).value + rest;
      assert s == props + (topic + (payload + rest));
      VersionedRoundTrip(OfWill, w.properties, head.version, topic + (payload + rest));
      assert s[|props|..] == topic + (payload + rest);
      FieldRoundTrip(w.topic, payload + rest);
      assert s[|props| + |topic|..] == payload + rest;
      FieldRoundTrip(w.payload, rest);
    }
  }

  lemma ConnectFlagsRoundTrip(p: Packet)
    requires p.Connect?
    ensures var f := ConnectFlags(p);
      && f / 0x08 % 4 != 3
      && (IsSet(f, 0x02) <==> p.cleanSession) && (IsSet(f, 0x04) <==> p.will.Some?)
      && (IsSet(f, 0x80) <==> p.username.Some?) && (IsSet(f, 0x40) <==> p.password.Some?)
      && (p.will.Some? ==> f / 0x08 % 4 == p.will.value.qos && (IsSet(f, 0x20) <==> p.will.value.retain))
  {
    var clean, user, password := Bit(p.cleanSession), Bit(p.username.Some?), Bit(p.password.Some?);
    if p.will.Some? {
      WeightedBits(clean, 1, p.will.value.qos, Bit(p.will.value.retain), password, user);
    } else {
      WeightedBits(clean, 0, 0, 0, password, user);
    }
  }

  /** A bit of weight `w` is found under whatever is above it and below it. */
  lemma BitAt(high: nat, width: nat, b: nat, w: nat, low: nat)
    requires w > 0 && b < width && low < w
    ensures ((high * width + b) * w + low) / w % width == b
  {
    var f := (high * width + b) * w + low;
    assert f / w == high * width + b by { QuotientOf(high * width + b, w, low); }
    QuotientOf(high, width, b);
  }

  lemma QuotientOf(q: nat, w: nat, low: nat)
    requires w > 0 && low < w
    ensures (q * w + low) / w == q && (q * w + low) % w == low
  {
    var f := q * w + low;
    assert f == w * (f / w) + f % w;
    assert w * (f / w - q) == low - f % w;
    MultiplesAreFar(w, f / w - q);
  }

  lemma MultiplesAreFar(w: int, k: int)
    requires w >= 0
    ensures k >= 1 ==> w * k >= w
    ensures k <= -1 ==> w * k <= -w
  {
    if k >= 1 { assert w * k == w + w * (k - 1); }
    if k <= -1 { assert w * k == -w - w * (-k - 1); }
  }

  lemma WeightedBits(b1: nat, b2: nat, q: nat, b5: nat, b6: nat, b7: nat)
    requires b1 <= 1 && b2 <= 1 && q <= 2 && b5 <= 1 && b6 <= 1 && b7 <= 1
    ensures var f := 0x02 * b1 + 0x04 * b2 + 0x08 * q + 0x20 * b5 + 0x40 * b6 + 0x80 * b7;
      && f / 0x02 % 2 == b1 && f / 0x04 % 2 == b2 && f / 0x08 % 4 == q
      && f / 0x20 % 2 == b5 && f / 0x40 % 2 == b6 && f / 0x80 % 2 == b7
  {
    BitAt(0, 2, b7, 0x80, 0x02 * b1 + 0x04 * b2 + 0x08 * q + 0x20 * b5 + 0x40 * b6);
    BitAt(b7, 2, b6, 0x40, 0x02 * b1 + 0x04 * b2 + 0x08 * q + 0x20 * b5);
    BitAt(2 * b7 + b6, 2, b5, 0x20, 0x02 * b1 + 0x04 * b2 + 0x08 * q);
    BitAt(4 * b7 + 2 * b6 + b5, 4, q, 0x08, 0x02 * b1 + 0x04 * b2);
    BitAt(16 * b7 + 8 * b6 + 4 * b5 + q, 2, b2, 0x04, 0x02 * b1);
    BitAt(32 * b7 + 16 * b6 + 8 * b5 + 2 * q + b2, 2, b1, 0x02, 0);
  }

  function PackConnect(p: Packet, v: Version): Written
    requires p.Connect?
  {
    Join(PackConnectHead(ConnectFlags(p), p.keepalive, v),
    Join(PackVersioned(OfConnect, p.properties, v),
    Join(PackField(p.clientId),
    Join(PackWill(p.will, v),
    Join(PackOptional(p.username), PackOptional(p.password))))))
  }

  function ReadConnect(s: bytes): Result<Packet, WireError> {
    var (head, n0) :- ReadConnectHead(s);
    var (properties, n1) :- ReadVersioned(OfConnect, head.version, s[n0..]);
    var (clientId, n2) :- ReadField(s[n0 + n1..]);
    var (will, n3) :- ReadWill(head, s[n0 + n1 + n2..]);
    var (username, n4) :- ReadOptional(IsSet(head.flags, 0x80), s[n0 + n1 + n2 + n3..]);
    var (password, _) :- ReadOptional(IsSet(head.flags, 0x40), s[n0 + n1 + n2 + n3 + n4..]);
    Ok(Connect(clientId, IsSet(head.flags, 0x02), head.keepalive, username, password, will, properties))
  }

  lemma ConnectRoundTrip(p: Packet, v: Version)
    requires p.Connect? && PropertiesTyped(p) && PackConnect(p, v).Ok?
    ensures ReadConnect(PackConnect(p, v).value) == Ok(Normal(p, v))
  {
    hide PackConnectHead, ReadConnectHead, PackVersioned, ReadVersioned, PackField, ReadField, PackWill, ReadWill,
         PackOptional, ReadOptional, ConnectFlags, IsSet;
    var flags := ConnectFlags(p);
    ConnectFlagsRoundTrip(p);
    var b0, b1 := PackConnectHead(flags, p.keepalive, v).value, PackVersioned(OfConnect, p.properties, v).value;
    var b2, b3 := PackField(p.clientId).value, PackWill(p.will, v).value;
    var b4, b5 := PackOptional(p.username).value, PackOptional(p.password).value;
    var s := PackConnect(p, v).value;
    assert s == b0 + (b1 + (b2 + (b3 + (b4 + b5))));
    ConnectHeadRoundTrip(flags, p.keepalive, v, b1 + (b2 + (b3 + (b4 + b5))));
    assert s[|b0|..] == b1 + (b2 + (b3 + (b4 + b5)));
    VersionedRoundTrip(OfConnect, p.properties, v, b2 + (b3 + (b4 + b5)));
    assert s[|b0| + |b1|..] == b2 + (b3 + (b4 + b5));
    FieldRoundTrip(p.clientId, b3 + (b4 + b5));
    assert s[|b0| + |b1| + |b2|..] == b3 + (b4 + b5);
    WillRoundTrip(ConnectHead(v, flags, p.keepalive), p.will, b4 + b5);
    assert s[|b0| + |b1| + |b2| + |b3|..] == b4 + b5;
    OptionalRoundTrip(p.username, b5);
    assert s[|b0| + |b1| + |b2| + |b3| + |b4|..] == b5 + [];
    OptionalRoundTrip(p.password, []);
  }

  // ----- PUBLISH -----

  function PackPublish(p: Packet, v: Version): Written
    requires p.Publish?
  {
    var topic :- PackField(p.topic);
    if p.qos != 0 && p.id.None? then Err(MissingPacketId)
    else
      Join(Join(Ok(topic), if p.qos != 0 then PackTwo(p.id.value) else Ok([])),
           Join(PackVersioned(OfPublish, p.properties, v), Ok(p.payload)))
  }

  function ReadPublishId(qos: Qos, s: bytes): (r: Read<Option<int>>)
    ensures r.Ok? ==> r.value.1 <= |s|
  {
    if qos == 0 then Ok((None, 0))
    else
      var (id, n) :- ReadTwo(s);
      Ok((Some(id), n))
  }

  function ReadPublish(s: bytes, flags: nat, v: Version): Result<Packet, WireError> {
    if flags / 2 % 4 == 3 then Err(InvalidQos)
    else
      var qos: Qos := flags / 2 % 4;
      var (topic, n) :- ReadField(s);
      var (id, m) :- ReadPublishId(qos, s[n..]);
      var (properties, k) :- ReadVersioned(OfPublish, v, s[n + m..]);
      Ok(Publish(topic, s[n + m + k..], qos, IsSet(flags, 1), IsSet(flags, 8), id, properties))
  }

  lemma PublishFlags(p: Packet)
    requires p.Publish?
    ensures FlagsOf(p) / 2 % 4 == p.qos && IsSet(FlagsOf(p), 1) == p.retain && IsSet(FlagsOf(p), 8) == p.dup
  {}

  /** The four parts of the body, from each of their places on. */
  lemma FourParts(a: bytes, b: bytes, c: bytes, d: bytes)
    ensures var s := (a + b) + (c + d);
      s == a + (b + (c + d)) && s[|a|..] == b + (c + d) && s[|a| + |b|..] == c + d && s[|a| + |b| + |c|..] == d
  {}

  lemma PublishRoundTrip(p: Packet, v: Version)
    requires p.Publish? && PropertiesTyped(p) && PackPublish(p, v).Ok?
    ensures ReadPublish(PackPublish(p, v).value, FlagsOf(p), v) == Ok(Normal(p, v))
  {
    hide PackVersioned, ReadVersioned, PackField, ReadField, PackTwo, ReadTwo, FlagsOf, IsSet;
    PublishFlags(p);
    var topic, props := PackField(p.topic).value, PackVersioned(OfPublish, p.properties, v).value;
    var id := if p.qos != 0 then PackTwo(p.id.value).value else [];
    FourParts(topic, id, props, p.payload);
    FieldRoundTrip(p.topic, id + (props + p.payload));
    if p.qos != 0 { TwoRoundTrip(p.id.value, props + p.payload); }
    VersionedRoundTrip(OfPublish, p.properties, v, p.payload);
  }

  // ----- PUBACK, PUBREC, PUBREL, PUBCOMP -----

  function PackAck(id: int, reason: int, properties: Option<Properties>, v: Version): Written {
    if v == V5 && (reason != 0 || properties.Some?) then
      Join(Join(PackTwo(id), PackByte(reason)), PackProperties(OfPubAck, properties))
    else PackTwo(id)
  }

  datatype Ack = Ack(id: nat, reason: nat, properties: Option<Properties>)

  function ReadAck(s: bytes, v: Version): Result<Ack, WireError> {
    var (id, _) :- ReadTwo(s);
    if v == V311 || |s| == 2 then Ok(Ack(id, 0, None))
    else if |s| == 3 then Ok(Ack(id, s[2], None))
    else
      var (properties, _) :- ReadProperties(OfPubAck, s[3..]);
      Ok(Ack(id, s[2], properties))
  }

  lemma AckRoundTrip(id: int, reason: int, properties: Option<Properties>, v: Version)
    requires TypedFor(OfPubAck, properties) && PackAck(id, reason, properties, v).Ok?
    ensures var r := ReadAck(PackAck(id, reason, properties, v).value, v);
      r.Ok? && r.value.id == id && r.value.reason == (if v == V5 then reason else 0)
      && r.value.properties == NormalVersioned(properties, v)
  {
    hide PackProperties, ReadProperties, PackTwo, ReadTwo;
    var two := PackTwo(id).value;
    var s := PackAck(id, reason, properties, v).value;
    if v == V5 && (reason != 0 || properties.Some?) {
      var code, props := PackByte(reason).value, PackProperties(OfPubAck, properties).value;
      assert s == two + (code + props);
      TwoRoundTrip(id, code + props);
      PropertiesRoundTrip(OfPubAck, properties, []);
      assert s[2] == reason && s[3..] == props + [];
    } else {
      TwoRoundTrip(id, []);
      assert s == two + [];
    }
  }

  // ----- SUBSCRIBE, SUBACK, UNSUBSCRIBE, UNSUBACK -----

  function PackOptions(r: SubscriptionRequest, v: Version): (o: int)
    ensures 0 <= o < 0x40
  {
    if v == V5 then r.qos + 4 * Bit(r.noLocal) + 8 * Bit(r.retainAsPublished) + 0x10 * r.retainHandling else r.qos
  }

  function ReadOptions(filter: bytes, o: byte, v: Version): Result<SubscriptionRequest, WireError> {
    if o % 4 == 3 then Err(InvalidQos)
    else if v == V311 then Ok(SubscriptionRequest(filter, o % 4, false, false, 0))
    else if o / 0x10 % 4 == 3 then Err(InvalidRetainHandling)
    else Ok(SubscriptionRequest(filter, o % 4, IsSet(o, 4), IsSet(o, 8), o / 0x10 % 4))
  }

  function NormalRequest(r: SubscriptionRequest, v: Version): SubscriptionRequest {
    if v == V5 then r else SubscriptionRequest(r.filter, r.qos, false, false, 0)
  }

  lemma OptionsRoundTrip(r: SubscriptionRequest, v: Version)
    ensures ReadOptions(r.filter, PackOptions(r, v), v) == Ok(NormalRequest(r, v))
  {}

  function PackRequests(requests: seq<SubscriptionRequest>, v: Version): Written {
    if requests == [] then Ok([])
    else
      Join(Join(PackField(requests[0].filter), PackByte(PackOptions(requests[0], v))), PackRequests(requests[1..], v))
  }

  /** One filter with its options. */
  function ReadRequest(s: bytes, v: Version): (r: Read<SubscriptionRequest>)
    ensures r.Ok? ==> 1 <= r.value.1 <= |s|
  {
    var (filter, n) :- ReadField(s);
    if n >= |s| then Err(TooShort)
    else
      var request :- ReadOptions(filter, s[n], v);
      Ok((request, n + 1))
  }

  function ReadRequests(s: bytes, v: Version): Result<seq<SubscriptionRequest>, WireError>
    decreases |s|
  {
    if s == [] then Ok([])
    else
      var (request, n) :- ReadRequest(s, v);
      var others :- ReadRequests(s[n..], v);
      Ok([request] + others)
  }

  function NormalRequests(requests: seq<SubscriptionRequest>, v: Version): seq<SubscriptionRequest> {
    if requests == [] then [] else [NormalRequest(requests[0], v)] + NormalRequests(requests[1..], v)
  }

  lemma RequestRoundTrip(r: SubscriptionRequest, v: Version, rest: bytes)
    requires PackField(r.filter).Ok?
    ensures var b := PackField(r.filter).value + PackByte(PackOptions(r, v)).value;
      b != [] && ReadRequest(b + rest, v) == Ok((NormalRequest(r, v), |b|))
  {
    hide PackField, ReadField, PackOptions, ReadOptions;
    var field: bytes, o: byte := PackField(r.filter).value, PackOptions(r, v);
    var s := field + [o] + rest;
    FieldRoundTrip(r.filter, [o] + rest);
    assert s == field + ([o] + rest);
    assert s[|field|] == o;
    OptionsRoundTrip(r, v);
  }

  lemma {:induction false} RequestsRoundTrip(requests: seq<SubscriptionRequest>, v: Version)
    requires PackRequests(requests, v).Ok?
    ensures ReadRequests(PackRequests(requests, v).value, v) == Ok(NormalRequests(requests, v))
  {
    if requests != [] {
      hide PackField, ReadRequest, PackOptions;
      var first := PackField(requests[0].filter).value + PackByte(PackOptions(requests[0], v)).value;
      var others := PackRequests(requests[1..], v).value;
      RequestRoundTrip(requests[0], v, others);
      assert (first + others)[|first|..] == others;
      RequestsRoundTrip(requests[1..], v);
    }
  }

  function PackFilters(filters: seq<bytes>): Written {
    if filters == [] then Ok([]) else Join(PackField(filters[0]), PackFilters(filters[1..]))
  }

  function ReadFilters(s: bytes): Result<seq<bytes>, WireError>
    decreases |s|
  {
    if s == [] then Ok([])
    else
      var (filter, n) :- ReadField(s);
      var others :- ReadFilters(s[n..]);
      Ok([filter] + others)
  }

  lemma {:induction false} FiltersRoundTrip(filters: seq<bytes>)
    requires PackFilters(filters).Ok?
    ensures ReadFilters(PackFilters(filters).value) == Ok(filters)
  {
    if filters != [] {
      hide PackField, ReadField;
      var first, others := PackField(filters[0]).value, PackFilters(filters[1..]).value;
      FieldRoundTrip(filters[0], others);
      assert (first + others)[|first|..] == others;
      FiltersRoundTrip(filters[1..]);
      assert filters == [filters[0]] + filters[1..];
    }
  }

  function PackCodes(codes: seq<int>): Written {
    if forall i :: 0 <= i < |codes| ==> 0 <= codes[i] < 0x100 then
      Ok(seq(|codes|, i requires 0 <= i < |codes| && 0 <= codes[i] < 0x100 => codes[i]))
    else Err(OutOfRange)
  }

  /** What SUBSCRIBE, SUBACK, UNSUBSCRIBE and UNSUBACK begin with. */
  function PackIdAndProperties(id: int, kind: Kind, p: Option<Properties>, v: Version): Written {
    Join(PackTwo(id), PackVersioned(kind, p, v))
  }

  function ReadIdAndProperties(s: bytes, kind: Kind, v: Version): (r: Read<(nat, Option<Properties>)>)
    ensures r.Ok? ==> r.value.1 <= |s|
  {
    var (id, n) :- ReadTwo(s);
    var (properties, m) :- ReadVersioned(kind, v, s[n..]);
    Ok(((id, properties), n + m))
  }

  lemma IdAndPropertiesRoundTrip(id: int, kind: Kind, p: Option<Properties>, v: Version, rest: bytes)
    requires TypedFor(kind, p) && PackIdAndProperties(id, kind, p, v).Ok?
    ensures var b := PackIdAndProperties(id, kind, p, v).value;
      id >= 0 && ReadIdAndProperties(b + rest, kind, v) == Ok(((id, NormalVersioned(p, v)), |b|))
  {
    hide PackVersioned, ReadVersioned, ReadTwo;
    var two, props := PackTwo(id).value, PackVersioned(kind, p, v).value;
    var s := PackIdAndProperties(id, kind, p, v).value + rest;
    assert s == two + (props + rest);
    TwoRoundTrip(id, props + rest);
    assert s[2..] == props + rest;
    VersionedRoundTrip(kind, p, v, rest);
  }

  // ----- Bodies -----

  function PackBody(p: Packet, v: Version): Written {
    match p
    case Connect(_, _, _, _, _, _, _) => PackConnect(p, v)
    case ConnAck(present, code, properties) =>
      Join(Join(PackByte(Bit(present)), PackByte(code)), PackVersioned(OfConnAck, properties, v))
    case Publish(_, _, _, _, _, _, _) => PackPublish(p, v)
    case PubAck(id, reason, properties) => PackAck(id, reason, properties, v)
    case PubRec(id, reason, properties) => PackAck(id, reason, properties, v)
    case PubRel(id, reason, properties) => PackAck(id, reason, properties, v)
    case PubComp(id, reason, properties) => PackAck(id, reason, properties, v)
    case Subscribe(id, requests, properties) =>
      Join(PackIdAndProperties(id, OfSubscribe, properties, v), PackRequests(requests, v))
    case SubAck(id, codes, properties) => Join(PackIdAndProperties(id, OfSubAck, properties, v), PackCodes(codes))
    case Unsubscribe(id, filters, properties) =>
      Join(PackIdAndProperties(id, OfUnsubscribe, properties, v), PackFilters(filters))
    case UnsubAck(id, codes, properties) =>
      if v == V5 then Join(PackIdAndProperties(id, OfUnsubAck, properties, v), PackCodes(codes)) else PackTwo(id)
    case PingReq => Ok([])
    case PingResp => Ok([])
    case Disconnect(reason, properties) =>
      if v == V5 && (reason != 0 || properties.Some?) then Join(PackByte(reason), PackProperties(OfDisconnect, properties))
      else Ok([])
    case Auth(reason, properties) => Join(PackByte(reason), PackProperties(OfAuth, properties))
  }

  function ReadConnAck(s: bytes, v: Version): Result<Packet, WireError> {
    if |s| < 2 then Err(TooShort)
    else if v == V311 || |s| == 2 then Ok(ConnAck(IsSet(s[0], 1), s[1], None))
    else
      var (properties, _) :- ReadProperties(OfConnAck, s[2..]);
      Ok(ConnAck(IsSet(s[0], 1), s[1], properties))
  }

  function ReadDisconnect(s: bytes, v: Version): Result<Packet, WireError> {
    if v == V311 || s == [] then Ok(Disconnect(0, None))
    else if |s| == 1 then Ok(Disconnect(s[0], None))
    else
      var (properties, _) :- ReadProperties(OfDisconnect, s[1..]);
      Ok(Disconnect(s[0], properties))
  }

  function ReadAuth(s: bytes): Result<Packet, WireError> {
    if s == [] then Err(TooShort)
    else if |s| == 1 then Ok(Auth(s[0], None))
    else
      var (properties, _) :- ReadProperties(OfAuth, s[1..]);
      Ok(Auth(s[0], properties))
  }

  function ReadSubscribe(s: bytes, v: Version): Result<Packet, WireError> {
    var ((id, properties), n) :- ReadIdAndProperties(s, OfSubscribe, v);
    var requests :- ReadRequests(s[n..], v);
    Ok(Subscribe(id, requests, properties))
  }

  function ReadUnsubscribe(s: bytes, v: Version): Result<Packet, WireError> {
    var ((id, properties), n) :- ReadIdAndProperties(s, OfUnsubscribe, v);
    var filters :- ReadFilters(s[n..]);
    Ok(Unsubscribe(id, filters, properties))
  }

  function ReadSubAck(s: bytes, v: Version): Result<Packet, WireError> {
    var ((id, properties), n) :- ReadIdAndProperties(s, OfSubAck, v);
    Ok(SubAck(id, s[n..], properties))
  }

  function ReadUnsubAck(s: bytes, v: Version): Result<Packet, WireError> {
    var ((id, properties), n) :- ReadIdAndProperties(s, OfUnsubAck, v);
    Ok(UnsubAck(id, if v == V5 then s[n..] else [], properties))
  }

  function ReadBody(kind: int, flags: nat, s: bytes, v: Version): Result<Packet, WireError> {
    match kind
    case 1 => ReadConnect(s)
    case 2 => ReadConnAck(s, v)
    case 3 => ReadPublish(s, flags, v)
    case 4 => var a :- ReadAck(s, v); Ok(PubAck(a.id, a.reason, a.properties))
    case 5 => var a :- ReadAck(s, v); Ok(PubRec(a.id, a.reason, a.properties))
    case 6 => var a :- ReadAck(s, v); Ok(PubRel(a.id, a.reason, a.properties))
    case 7 => var a :- ReadAck(s, v); Ok(PubComp(a.id, a.reason, a.properties))
    case 8 => ReadSubscribe(s, v)
    case 9 => ReadSubAck(s, v)
    case 10 => ReadUnsubscribe(s, v)
    case 11 => ReadUnsubAck(s, v)
    case 12 => Ok(PingReq)
    case 13 => Ok(PingResp)
    case 14 => ReadDisconnect(s, v)
    case 15 => ReadAuth(s)
    case _ => Err(UnknownPacketType)
  }

  // ----- The normal form -----

  /** What a packet is after a round trip: properties without any are None, a QoS 0 PUBLISH has no
    identifier, and fields that only version 5.0 has are at their defaults under 3.1.1. */
  function Normal(p: Packet, v: Version): Packet {
    match p
    case Connect(clientId, clean, keepalive, username, password, will, properties) =>
      Connect(clientId, clean, keepalive, username, password, NormalWill(will, v), NormalVersioned(properties, v))
    case ConnAck(present, code, properties) => ConnAck(present, code, NormalVersioned(properties, v))
    case Publish(topic, payload, qos, retain, dup, id, properties) =>
      Publish(topic, payload, qos, retain, dup, if qos == 0 then None else id, NormalVersioned(properties, v))
    case PubAck(id, reason, properties) => PubAck(id, NormalReason(reason, v), NormalVersioned(properties, v))
    case PubRec(id, reason, properties) => PubRec(id, NormalReason(reason, v), NormalVersioned(properties, v))
    case PubRel(id, reason, properties) => PubRel(id, NormalReason(reason, v), NormalVersioned(properties, v))
    case PubComp(id, reason, properties) => PubComp(id, NormalReason(reason, v), NormalVersioned(properties, v))
    case Subscribe(id, requests, properties) =>
      Subscribe(id, NormalRequests(requests, v), NormalVersioned(properties, v))
    case SubAck(id, codes, properties) => SubAck(id, codes, NormalVersioned(properties, v))
    case Unsubscribe(id, filters, properties) => Unsubscribe(id, filters, NormalVersioned(properties, v))
    case UnsubAck(id, codes, properties) =>
      UnsubAck(id, if v == V5 then codes else [], NormalVersioned(properties, v))
    case PingReq => p
    case PingResp => p
    case Disconnect(reason, properties) => Disconnect(NormalReason(reason, v), NormalVersioned(properties, v))
    case Auth(reason, properties) => Auth(reason, NormalProperties(properties))
  }

  function NormalReason(reason: int, v: Version): int { if v == V5 then reason else 0 }

  /** The properties of every packet are of its own kind. */
  predicate PropertiesTyped(p: Packet) {
    match p
    case Connect(_, _, _, _, _, will, properties) =>
      TypedFor(OfConnect, properties) && (will.Some? ==> TypedFor(OfWill, will.value.properties))
    case ConnAck(_, _, properties) => TypedFor(OfConnAck, properties)
    case Publish(_, _, _, _, _, _, properties) => TypedFor(OfPublish, properties)
    case PubAck(_, _, properties) => TypedFor(OfPubAck, properties)
    case PubRec(_, _, properties) => TypedFor(OfPubAck, properties)
    case PubRel(_, _, properties) => TypedFor(OfPubAck, properties)
    case PubComp(_, _, properties) => TypedFor(OfPubAck, properties)
    case Subscribe(_, _, properties) => TypedFor(OfSubscribe, properties)
    case SubAck(_, _, properties) => TypedFor(OfSubAck, properties)
    case Unsubscribe(_, _, properties) => TypedFor(OfUnsubscribe, properties)
    case UnsubAck(_, _, properties) => TypedFor(OfUnsubAck, properties)
    case PingReq => true
    case PingResp => true
    case Disconnect(_, properties) => TypedFor(OfDisconnect, properties)
    case Auth(_, properties) => TypedFor(OfAuth, properties)
  }
}
