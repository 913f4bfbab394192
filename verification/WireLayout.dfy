/** The bytes of an encoding against the layouts of chapters 2 and 3 of MQTT Version 5.0 and the fields of
  MQTT Version 3.1.1, said with arithmetic on bytes and without the functions of the encoder. */
module WireLayout {
  import opened Prelude
  import opened Wire
  import opened PropertyBlocks
  import opened TypedProperties
  import opened Codec
  import opened Framing

  // ----- Numbers and strings (section 1.5) -----

  function Two(n: int): seq<int> { [n / 256, n % 256] }

  function Prefixed(data: seq<int>): seq<int> { Two(|data|) + data }

  function Maybe(data: Option<bytes>): seq<int> { if data.Some? then Prefixed(data.value) else [] }

  function OneIf(on: bool): int { if on then 1 else 0 }

  /** The number that groups of seven bits stand for, least significant group first. */
  function SevenBits(s: seq<int>): int { if s == [] then 0 else s[0] % 128 + 128 * SevenBits(s[1..]) }

  /** Section 1.5.5: every byte but the last one has its top bit set. */
  lemma {:induction false} VarintIsBase128(n: nat)
    ensures var b := VarintBytes(n);
      && SevenBits(b) == n && b[|b| - 1] < 128
      && forall i :: 0 <= i < |b| - 1 ==> b[i] >= 128
  {
    var b := VarintBytes(n);
    if n >= 128 {
      VarintIsBase128(n / 128);
      assert b[1..] == VarintBytes(n / 128);
      forall i | 0 <= i < |b| - 1 ensures b[i] >= 128 {
        if i > 0 { assert b[i] == b[1..][i - 1]; }
      }
    }
  }

  lemma NumbersAreBigEndian(n: int)
    ensures PackTwo(n).Ok? ==> PackTwo(n).value == Two(n)
    ensures PackFour(n).Ok? ==> PackFour(n).value == Two(n / 65536) + Two(n % 65536)
  {
    if PackFour(n).Ok? {
      assert n / 0x100 / 0x100 / 0x100 == n / 65536 / 256 && n / 0x100 / 0x100 % 0x100 == n / 65536 % 256;
      assert n / 0x100 % 0x100 == n % 65536 / 256 && n % 0x100 == n % 65536 % 256;
    }
  }

  lemma FieldsArePrefixed(data: bytes)
    ensures PackField(data).Ok? ==> PackField(data).value == Prefixed(data)
  {}

  // ----- The fixed header (section 2.1) -----

  /** The first byte of every packet, as tables 2-1 and 2-2 give it. */
  function FirstByte(p: Packet): int {
    match p
    case Connect(_, _, _, _, _, _, _) => 0x10
    case ConnAck(_, _, _) => 0x20
    case Publish(_, _, qos, retain, dup, _, _) => 0x30 + 8 * OneIf(dup) + 2 * qos + OneIf(retain)
    case PubAck(_, _, _) => 0x40
    case PubRec(_, _, _) => 0x50
    case PubRel(_, _, _) => 0x62
    case PubComp(_, _, _) => 0x70
    case Subscribe(_, _, _) => 0x82
    case SubAck(_, _, _) => 0x90
    case Unsubscribe(_, _, _) => 0xA2
    case UnsubAck(_, _, _) => 0xB0
    case PingReq => 0xC0
    case PingResp => 0xD0
    case Disconnect(_, _) => 0xE0
    case Auth(_, _) => 0xF0
  }

  // ----- The bodies (chapter 3) -----

  /** A property block, in version 5.0 only. */
  function Props(kind: Kind, p: Option<Properties>, v: Version): seq<int> {
    if v == V5 && PackProperties(kind, p).Ok? then PackProperties(kind, p).value else []
  }

  function StandardConnect(p: Packet, v: Version): seq<int>
    requires p.Connect?
  {
    [0, 4, 77, 81, 84, 84, if v == V5 then 5 else 4,
     128 * OneIf(p.username.Some?) + 64 * OneIf(p.password.Some?)
     + (if p.will.Some? then 32 * OneIf(p.will.value.retain) + 8 * p.will.value.qos + 4 else 0)
     + 2 * OneIf(p.cleanSession)]
    + Two(p.keepalive) + Props(OfConnect, p.properties, v) + Prefixed(p.clientId)
    + (if p.will.None? then []
       else Props(OfWill, p.will.value.properties, v) + Prefixed(p.will.value.topic) + Prefixed(p.will.value.payload))
    + Maybe(p.username) + Maybe(p.password)
  }

  function StandardAck(id: int, reason: int, properties: Option<Properties>, v: Version): seq<int> {
    Two(id) + if v == V5 && (reason != 0 || properties.Some?) then [reason] + Props(OfPubAck, properties, v) else []
  }

  /** The filters of a SUBSCRIBE with their options: QoS, No Local, Retain As Published, Retain Handling. */
  function StandardRequests(requests: seq<SubscriptionRequest>, v: Version): seq<int> {
    if requests == [] then []
    else
      var r := requests[0];
      Prefixed(r.filter)
      + [r.qos + if v == V5 then 4 * OneIf(r.noLocal) + 8 * OneIf(r.retainAsPublished) + 16 * r.retainHandling else 0]
      + StandardRequests(requests[1..], v)
  }

  function StandardFilters(filters: seq<bytes>): seq<int> {
    if filters == [] then [] else Prefixed(filters[0]) + StandardFilters(filters[1..])
  }

  function StandardBody(p: Packet, v: Version): seq<int> {
    match p
    case Connect(_, _, _, _, _, _, _) => StandardConnect(p, v)
    case ConnAck(present, code, properties) => [OneIf(present), code] + Props(OfConnAck, properties, v)
    case Publish(topic, payload, qos, _, _, id, properties) =>
      Prefixed(topic) + (if qos > 0 && id.Some? then Two(id.value) else []) + Props(OfPublish, properties, v) + payload
    case PubAck(id, reason, properties) => StandardAck(id, reason, properties, v)
    case PubRec(id, reason, properties) => StandardAck(id, reason, properties, v)
    case PubRel(id, reason, properties) => StandardAck(id, reason, properties, v)
    case PubComp(id, reason, properties) => StandardAck(id, reason, properties, v)
    case Subscribe(id, requests, properties) => Two(id) + Props(OfSubscribe, properties, v) + StandardRequests(requests, v)
    case SubAck(id, codes, properties) => Two(id) + Props(OfSubAck, properties, v) + codes
    case Unsubscribe(id, filters, properties) => Two(id) + Props(OfUnsubscribe, properties, v) + StandardFilters(filters)
    case UnsubAck(id, codes, properties) =>
      Two(id) + if v == V5 then Props(OfUnsubAck, properties, v) + codes else []
    case PingReq => []
    case PingResp => []
    case Disconnect(reason, properties) =>
      if v == V5 && (reason != 0 || properties.Some?) then [reason] + Props(OfDisconnect, properties, v) else []
    case Auth(reason, properties) => [reason] + Props(OfAuth, properties, V5)
  }

  lemma {:induction false} RequestsByTheStandard(requests: seq<SubscriptionRequest>, v: Version)
    requires PackRequests(requests, v).Ok?
    ensures PackRequests(requests, v).value == StandardRequests(requests, v)
  {
    if requests != [] {
      FieldsArePrefixed(requests[0].filter);
      RequestsByTheStandard(requests[1..], v);
    }
  }

  lemma {:induction false} FiltersByTheStandard(filters: seq<bytes>)
    requires PackFilters(filters).Ok?
    ensures PackFilters(filters).value == StandardFilters(filters)
  {
    if filters != [] {
      FieldsArePrefixed(filters[0]);
      FiltersByTheStandard(filters[1..]);
    }
  }

  lemma OptionalByTheStandard(data: Option<bytes>)
    ensures PackOptional(data).Ok? ==> PackOptional(data).value == Maybe(data)
  {
    if data.Some? { FieldsArePrefixed(data.value); }
  }

  lemma VersionedByTheStandard(kind: Kind, p: Option<Properties>, v: Version)
    ensures PackVersioned(kind, p, v).Ok? ==> PackVersioned(kind, p, v).value == Props(kind, p, v)
  {}

  lemma AckByTheStandard(id: int, reason: int, properties: Option<Properties>, v: Version)
    ensures PackAck(id, reason, properties, v).Ok? ==> PackAck(id, reason, properties, v).value == StandardAck(id, reason, properties, v)
  {
    hide PackProperties;
    NumbersAreBigEndian(id);
    if PackAck(id, reason, properties, v).Ok? && v == V5 && (reason != 0 || properties.Some?) {
      var props := PackProperties(OfPubAck, properties).value;
      assert PackAck(id, reason, properties, v).value == PackTwo(id).value + [reason] + props;
    }
  }

  lemma WillByTheStandard(will: Option<Will>, v: Version)
    requires PackWill(will, v).Ok?
    ensures PackWill(will, v).value
         == if will.None? then []
            else Props(OfWill, will.value.properties, v) + Prefixed(will.value.topic) + Prefixed(will.value.payload)
  {
    hide PackVersioned, PackField;
    if will.Some? {
      VersionedByTheStandard(OfWill, will.value.properties, v);
      FieldsArePrefixed(will.value.topic);
      FieldsArePrefixed(will.value.payload);
    }
  }

  lemma HeadByTheStandard(p: Packet, v: Version)
    requires p.Connect? && PackConnectHead(ConnectFlags(p), p.keepalive, v).Ok?
    ensures PackConnectHead(ConnectFlags(p), p.keepalive, v).value
         == [0, 4, 77, 81, 84, 84, if v == V5 then 5 else 4,
             128 * OneIf(p.username.Some?) + 64 * OneIf(p.password.Some?)
             + (if p.will.Some? then 32 * OneIf(p.will.value.retain) + 8 * p.will.value.qos + 4 else 0)
             + 2 * OneIf(p.cleanSession)] + Two(p.keepalive)
  {
    NumbersAreBigEndian(p.keepalive);
    FieldsArePrefixed(MQTT);
    var flags: byte := ConnectFlags(p);
    var level: byte := Level(v);
    assert PackConnectHead(ConnectFlags(p), p.keepalive, v).value == PackField(MQTT).value + ([level] + [flags]) + PackTwo(p.keepalive).value;
  }

  lemma ConnectByTheStandard(p: Packet, v: Version)
    requires p.Connect? && PackConnect(p, v).Ok?
    ensures PackConnect(p, v).value == StandardConnect(p, v)
  {
    hide PackConnectHead, PackVersioned, PackField, PackWill, PackOptional, Props, Prefixed, Maybe, ConnectFlags;
    HeadByTheStandard(p, v);
    VersionedByTheStandard(OfConnect, p.properties, v);
    FieldsArePrefixed(p.clientId);
    WillByTheStandard(p.will, v);
    OptionalByTheStandard(p.username);
    OptionalByTheStandard(p.password);
  }

  lemma PublishByTheStandard(p: Packet, v: Version)
    requires p.Publish? && PackPublish(p, v).Ok?
    ensures PackPublish(p, v).value == StandardBody(p, v)
  {
    hide PackVersioned, PackField, Props, Prefixed;
    FieldsArePrefixed(p.topic);
    VersionedByTheStandard(OfPublish, p.properties, v);
    if p.qos > 0 { NumbersAreBigEndian(p.id.value); }
  }

  /** Every body is the one of its section. */
  lemma BodyByTheStandard(p: Packet, v: Version)
    requires PackBody(p, v).Ok?
    ensures PackBody(p, v).value == StandardBody(p, v)
  {
    hide PackConnect, PackPublish, PackAck, PackVersioned, PackProperties, PackRequests, PackFilters, PackTwo,
         StandardConnect,
         StandardAck;
    match p
    case Connect(_, _, _, _, _, _, _) => ConnectByTheStandard(p, v);
    case ConnAck(present, code, properties) => VersionedByTheStandard(OfConnAck, properties, v);
    case Publish(_, _, _, _, _, _, _) => PublishByTheStandard(p, v);
    case PubAck(id, reason, properties) => AckByTheStandard(id, reason, properties, v);
    case PubRec(id, reason, properties) => AckByTheStandard(id, reason, properties, v);
    case PubRel(id, reason, properties) => AckByTheStandard(id, reason, properties, v);
    case PubComp(id, reason, properties) => AckByTheStandard(id, reason, properties, v);
    case Subscribe(id, requests, properties) =>
      NumbersAreBigEndian(id);
      VersionedByTheStandard(OfSubscribe, properties, v);
      RequestsByTheStandard(requests, v);
    case SubAck(id, codes, properties) =>
      NumbersAreBigEndian(id);
      VersionedByTheStandard(OfSubAck, properties, v);
    case Unsubscribe(id, filters, properties) =>
      NumbersAreBigEndian(id);
      VersionedByTheStandard(OfUnsubscribe, properties, v);
      FiltersByTheStandard(filters);
    case UnsubAck(id, codes, properties) =>
      NumbersAreBigEndian(id);
      VersionedByTheStandard(OfUnsubAck, properties, v);
    case _ =>
  }

  /** Every encoding, byte by byte: the first byte of its type, the length of the rest in groups of seven
    bits, and the body of its section. */
  lemma EncodingByTheStandard(p: Packet, v: Version) returns (n: nat)
    requires Encode(p, v).Ok?
    ensures var b := Encode(p, v).value;
      && 2 <= n <= |b| && b[0] == FirstByte(p) && b[n..] == StandardBody(p, v)
      && SevenBits(b[1..n]) == |b| - n && b[n - 1] < 128 && forall i :: 1 <= i < n - 1 ==> b[i] >= 128
  {
    hide PackBody, StandardBody, FirstByte, TypeOf, FlagsOf, SevenBits, VarintBytes;
    var body := PackBody(p, v).value;
    BodyByTheStandard(p, v);
    VarintIsBase128(|body|);
    var length, b := VarintBytes(|body|), Encode(p, v).value;
    n := 1 + |length|;
    FirstByteIs(p);
    PartsOfFrame(FirstByte(p), length, body);
    assert b == [FirstByte(p)] + length + body;
  }

  lemma PartsOfFrame(first: int, length: seq<int>, body: seq<int>)
    requires length != [] && length[|length| - 1] < 128 && forall i :: 0 <= i < |length| - 1 ==> length[i] >= 128
    ensures var b, n := [first] + length + body, 1 + |length|;
      && b[0] == first && b[1..n] == length && b[n..] == body && b[n - 1] < 128 && forall i :: 1 <= i < n - 1 ==> b[i] >= 128
  {
    var b := [first] + length + body;
    forall i | 1 <= i < |length| + 1 ensures b[i] == length[i - 1] {}
  }

  lemma FirstByteIs(p: Packet)
    ensures FirstByte(p) == TypeOf(p) * 16 + FlagsOf(p)
  {}

  // ----- Properties (section 2.2.2.2) -----

  /** The data type of every property, in the order of their identifiers. */
  lemma WireTypesByTheStandard(id: int)
    ensures WireTypeOf(id)
         == match id
            case 1 => OneByte       // Payload Format Indicator
            case 2 => FourBytes     // Message Expiry Interval
            case 3 => Field         // Content Type
            case 8 => Field         // Response Topic
            case 9 => Field         // Correlation Data
            case 11 => Varint       // Subscription Identifier
            case 17 => FourBytes    // Session Expiry Interval
            case 18 => Field        // Assigned Client Identifier
            case 19 => TwoBytes     // Server Keep Alive
            case 21 => Field        // Authentication Method
            case 22 => Field        // Authentication Data
            case 23 => OneByte      // Request Problem Information
            case 24 => FourBytes    // Will Delay Interval
            case 25 => OneByte      // Request Response Information
            case 26 => Field        // Response Information
            case 28 => Field        // Server Reference
            case 31 => Field        // Reason String
            case 33 => TwoBytes     // Receive Maximum
            case 34 => TwoBytes     // Topic Alias Maximum
            case 35 => TwoBytes     // Topic Alias
            case 36 => OneByte      // Maximum QoS
            case 37 => OneByte      // Retain Available
            case 38 => StringPair   // User Property
            case 39 => FourBytes    // Maximum Packet Size
            case 40 => OneByte      // Wildcard Subscription Available
            case 41 => OneByte      // Subscription Identifier Available
            case 42 => OneByte      // Shared Subscription Available
            case _ => Unassigned
  {}

  /** The packets and the will that each property may appear in; user properties may in all of them. */
  function KindsOf(id: int): set<Kind> {
    match id
    case 1 => {OfPublish, OfWill}
    case 2 => {OfPublish, OfWill}
    case 3 => {OfPublish, OfWill}
    case 8 => {OfPublish, OfWill}
    case 9 => {OfPublish, OfWill}
    case 11 => {OfPublish, OfSubscribe}
    case 17 => {OfConnect, OfConnAck, OfDisconnect}
    case 18 => {OfConnAck}
    case 19 => {OfConnAck}
    case 21 => {OfConnect, OfConnAck, OfAuth}
    case 22 => {OfConnect, OfConnAck, OfAuth}
    case 23 => {OfConnect}
    case 24 => {OfWill}
    case 25 => {OfConnect}
    case 26 => {OfConnAck}
    case 28 => {OfConnAck, OfDisconnect}
    case 31 => {OfConnAck, OfPubAck, OfSubAck, OfUnsubAck, OfDisconnect, OfAuth}
    case 33 => {OfConnect, OfConnAck}
    case 34 => {OfConnect, OfConnAck}
    case 35 => {OfPublish}
    case 36 => {OfConnAck}
    case 37 => {OfConnAck}
    case 39 => {OfConnect, OfConnAck}
    case 40 => {OfConnAck}
    case 41 => {OfConnAck}
    case 42 => {OfConnAck}
    case _ => {}
  }

  lemma ConnAckSchema(id: int)
    ensures id in Schema(OfConnAck) <==> OfConnAck in KindsOf(id)
  {}

  lemma ConnectSchema(id: int)
    ensures id in Schema(OfConnect) <==> OfConnect in KindsOf(id)
  {}

  lemma MessageSchemas(id: int)
    ensures id in Schema(OfWill) <==> OfWill in KindsOf(id)
    ensures id in Schema(OfPublish) <==> OfPublish in KindsOf(id)
  {}

  lemma AnswerSchemas(id: int)
    ensures id in Schema(OfPubAck) <==> OfPubAck in KindsOf(id)
    ensures id in Schema(OfSubAck) <==> OfSubAck in KindsOf(id)
    ensures id in Schema(OfUnsubAck) <==> OfUnsubAck in KindsOf(id)
    ensures id in Schema(OfDisconnect) <==> OfDisconnect in KindsOf(id)
    ensures id in Schema(OfAuth) <==> OfAuth in KindsOf(id)
  {}

  lemma RequestSchemas(id: int)
    ensures id in Schema(OfSubscribe) <==> OfSubscribe in KindsOf(id)
    ensures id in Schema(OfUnsubscribe) <==> OfUnsubscribe in KindsOf(id)
  {}

  /** Every kind has exactly the properties of table 2-4. */
  lemma SchemasByTheStandard(kind: Kind, id: int)
    ensures id in Schema(kind) <==> kind in KindsOf(id)
  {
    hide Schema, KindsOf;
    ConnectSchema(id);
    ConnAckSchema(id);
    MessageSchemas(id);
    AnswerSchemas(id);
    RequestSchemas(id);
  }

  lemma SchemasNameEachOnce(kind: Kind)
    ensures forall i, j :: 0 <= i < j < |Schema(kind)| ==> Schema(kind)[i] != Schema(kind)[j]
  {}

  /** How the value of a scalar property is written. */
  ghost predicate ValueByTheStandard(t: WireType, value: Value, b: seq<int>) {
    match value
    case Data(data) => t == Field && b == Prefixed(data)
    case Number(n) =>
      || (t == OneByte && b == [n])
      || (t == TwoBytes && b == Two(n))
      || (t == FourBytes && b == Two(n / 65536) + Two(n % 65536))
      || (t == Varint && b != [] && SevenBits(b) == n && b[|b| - 1] < 128 && forall i :: 0 <= i < |b| - 1 ==> b[i] >= 128)
  }

  /** A scalar property is its identifier and its value in the format of its type. */
  lemma EntryByTheStandard(e: Entry)
    requires PackEntry(e).Ok?
    ensures var b := PackEntry(e).value; b != [] && b[0] == e.0 && ValueByTheStandard(WireTypeOf(e.0), e.1, b[1..])
  {
    var b, payload := PackEntry(e).value, PackPayload(e.0, e.1).value;
    assert b == [e.0] + payload && b[1..] == payload;
    match e.1
    case Data(data) => FieldsArePrefixed(data);
    case Number(n) =>
      NumbersAreBigEndian(n);
      if WireTypeOf(e.0) == Varint { VarintIsBase128(n); }
  }

  /** A user property is 38, its name and its value. */
  lemma PairByTheStandard(p: Pair)
    requires PackPair(p).Ok?
    ensures PackPair(p).value == [38] + Prefixed(p.0) + Prefixed(p.1)
  {
    FieldsArePrefixed(p.0);
    FieldsArePrefixed(p.1);
  }
}
