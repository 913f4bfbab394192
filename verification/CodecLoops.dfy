/** The encoders and decoders as they run: bodies built up piece by piece, a cursor over the buffer,
  loops over lists, and the frame around them. */
module CodecLoops {
  import opened Prelude
  import opened Wire
  import opened PropertyBlocks
  import opened TypedProperties
  import opened Codec
  import opened Framing

  // ----- Properties -----

  method EncodeProperties(kind: Kind, p: Option<Properties>) returns (r: Written)
    ensures r == PackProperties(kind, p)
  {
    if p.None? {
      r := EncodeVarint(0);
    } else {
      r := EncodePropsBlock(Entries(Schema(kind), p.value.fields), p.value.user);
    }
  }

  method DecodeProperties(kind: Kind, buf: bytes, offset: nat) returns (r: Read<Option<Properties>>)
    requires offset <= |buf|
    ensures r == ReadProperties(kind, buf[offset..])
  {
    var d := DecodePropsBlock(buf, offset);
    if d.Err? {
      return Err(d.error);
    }
    r := Ok((FromBlock(kind, d.value.0), d.value.1));
  }

  method EncodeVersioned(kind: Kind, p: Option<Properties>, v: Version) returns (r: Written)
    ensures r == PackVersioned(kind, p, v)
  {
    if v == V5 {
      r := EncodeProperties(kind, p);
    } else {
      r := Ok([]);
    }
  }

  method DecodeVersioned(kind: Kind, v: Version, buf: bytes, offset: nat) returns (r: Read<Option<Properties>>)
    requires offset <= |buf|
    ensures r == ReadVersioned(kind, v, buf[offset..])
  {
    if v == V5 {
      r := DecodeProperties(kind, buf, offset);
    } else {
      r := Ok((None, 0));
    }
  }

  /** The identifier and the properties that four kinds of packet begin with. */
  method EncodeIdAndProperties(id: int, kind: Kind, p: Option<Properties>, v: Version) returns (r: Written)
    ensures r == PackIdAndProperties(id, kind, p, v)
  {
    var two := PackTwo(id);
    var properties := EncodeVersioned(kind, p, v);
    r := Join(two, properties);
  }

  method DecodeIdAndProperties(buf: bytes, kind: Kind, v: Version) returns (r: Read<(nat, Option<Properties>)>)
    ensures r == ReadIdAndProperties(buf, kind, v)
  {
    hide ReadVersioned;
    var id := ReadTwo(buf);
    if id.Err? {
      return Err(id.error);
    }
    var properties := DecodeVersioned(kind, v, buf, 2);
    if properties.Err? {
      return Err(properties.error);
    }
    r := Ok(((id.value.0, properties.value.0), 2 + properties.value.1));
  }

  // ----- Lists of filters -----

  /** The rest of the list after the part that is already written. */
  lemma JoinIsAfter(front: bytes, one: Written, rest: Written)
    ensures After(front, Join(one, rest)) == if one.Err? then Err(one.error) else After(front + one.value, rest)
  {
    if one.Ok? && rest.Ok? { assert front + (one.value + rest.value) == front + one.value + rest.value; }
  }

  lemma RequestsFrom(requests: seq<SubscriptionRequest>, i: nat, v: Version)
    requires i < |requests|
    ensures PackRequests(requests[i..], v)
         == Join(Join(PackField(requests[i].filter), PackByte(PackOptions(requests[i], v))), PackRequests(requests[i + 1..], v))
  {
    assert requests[i..][0] == requests[i] && requests[i..][1..] == requests[i + 1..];
  }

  lemma NoMoreRequests(requests: seq<SubscriptionRequest>, v: Version)
    requires requests == []
    ensures PackRequests(requests, v) == Ok([])
  {}

  method EncodeSubscribe(p: Packet, v: Version) returns (r: Written)
    requires p.Subscribe?
    ensures r == PackBody(p, v)
  {
    hide PackRequests, PackIdAndProperties, PackField, PackOptions;
    var head := EncodeIdAndProperties(p.packetId, OfSubscribe, p.properties, v);
    if head.Err? {
      return head;
    }
    var body := head.value;
    assert p.subscriptions[0..] == p.subscriptions;
    for i := 0 to |p.subscriptions|
      invariant PackBody(p, v) == After(body, PackRequests(p.subscriptions[i..], v))
    {
      var request := p.subscriptions[i];
      RequestsFrom(p.subscriptions, i, v);
      var one := Join(PackField(request.filter), PackByte(PackOptions(request, v)));
      JoinIsAfter(body, one, PackRequests(p.subscriptions[i + 1..], v));
      if one.Err? {
        return one;
      }
      body := body + one.value;
    }
    NoMoreRequests(p.subscriptions[|p.subscriptions|..], v);
    assert body + [] == body;
    r := Ok(body);
  }

  method EncodeUnsubscribe(p: Packet, v: Version) returns (r: Written)
    requires p.Unsubscribe?
    ensures r == PackBody(p, v)
  {
    hide PackFilters, PackIdAndProperties, PackField;
    var head := EncodeIdAndProperties(p.packetId, OfUnsubscribe, p.properties, v);
    if head.Err? {
      return head;
    }
    var body := head.value;
    assert p.filters[0..] == p.filters;
    for i := 0 to |p.filters|
      invariant PackBody(p, v) == After(body, PackFilters(p.filters[i..]))
    {
      FiltersFrom(p.filters, i);
      var one := PackField(p.filters[i]);
      JoinIsAfter(body, one, PackFilters(p.filters[i + 1..]));
      if one.Err? {
        return one;
      }
      body := body + one.value;
    }
    NoFiltersLeft(p.filters[|p.filters|..]);
    assert body + [] == body;
    r := Ok(body);
  }

  lemma FiltersFrom(filters: seq<bytes>, i: nat)
    requires i < |filters|
    ensures PackFilters(filters[i..]) == Join(PackField(filters[i]), PackFilters(filters[i + 1..]))
  {
    assert filters[i..][0] == filters[i] && filters[i..][1..] == filters[i + 1..];
  }

  lemma NoFiltersLeft(filters: seq<bytes>)
    requires filters == []
    ensures PackFilters(filters) == Ok([])
  {}

  /** A list that was read in part: what is there, then the rest. */
  function Prepend<T>(front: seq<T>, rest: Result<seq<T>, WireError>): Result<seq<T>, WireError> {
    var others :- rest;
    Ok(front + others)
  }

  lemma PrependMore<T>(front: seq<T>, x: T, rest: Result<seq<T>, WireError>)
    ensures Prepend(front, Prepend([x], rest)) == Prepend(front + [x], rest)
  {
    if rest.Ok? { assert front + ([x] + rest.value) == front + [x] + rest.value; }
  }

  lemma RequestsStep(s: bytes, v: Version)
    requires s != []
    ensures ReadRequests(s, v)
         == if ReadRequest(s, v).Err? then Err(ReadRequest(s, v).error)
            else Prepend([ReadRequest(s, v).value.0], ReadRequests(s[ReadRequest(s, v).value.1..], v))
  {}

  /** `while pos < len(buf)` of SUBSCRIBE. */
  method DecodeRequests(buf: bytes, offset: nat, v: Version) returns (r: Result<seq<SubscriptionRequest>, WireError>)
    requires offset <= |buf|
    ensures r == ReadRequests(buf[offset..], v)
  {
    hide ReadRequest, ReadRequests, Prepend;
    var pos, requests := offset, [];
    PrependNothing(ReadRequests(buf[offset..], v));
    while pos < |buf|
      invariant offset <= pos <= |buf|
      invariant ReadRequests(buf[offset..], v) == Prepend(requests, ReadRequests(buf[pos..], v))
      decreases |buf| - pos
    {
      RequestsStep(buf[pos..], v);
      var one := ReadRequest(buf[pos..], v);
      if one.Err? {
        PrependError(requests, one.error);
        return Err(one.error);
      }
      assert buf[pos..][one.value.1..] == buf[pos + one.value.1..];
      PrependMore(requests, one.value.0, ReadRequests(buf[pos + one.value.1..], v));
      requests := requests + [one.value.0];
      pos := pos + one.value.1;
    }
    NothingToRead(buf[pos..], requests, v);
    r := Ok(requests);
  }

  lemma PrependNothing<T>(rest: Result<seq<T>, WireError>)
    ensures Prepend([], rest) == rest
  {
    if rest.Ok? { assert [] + rest.value == rest.value; }
  }

  lemma PrependError<T>(front: seq<T>, error: WireError)
    ensures Prepend(front, Err(error)) == Err(error)
  {}

  lemma NothingToRead(s: bytes, requests: seq<SubscriptionRequest>, v: Version)
    requires s == []
    ensures Prepend(requests, ReadRequests(s, v)) == Ok(requests)
  {
    assert requests + [] == requests;
  }

  method DecodeSubscribe(buf: bytes, v: Version) returns (r: Result<Packet, WireError>)
    ensures r == ReadSubscribe(buf, v)
  {
    hide ReadIdAndProperties, ReadRequests;
    var head := DecodeIdAndProperties(buf, OfSubscribe, v);
    if head.Err? {
      return Err(head.error);
    }
    var requests := DecodeRequests(buf, head.value.1, v);
    if requests.Err? {
      return Err(requests.error);
    }
    r := Ok(Subscribe(head.value.0.0, requests.value, head.value.0.1));
  }

  /** `while pos < len(buf)` of UNSUBSCRIBE. */
  method DecodeFilters(buf: bytes, offset: nat) returns (r: Result<seq<bytes>, WireError>)
    requires offset <= |buf|
    ensures r == ReadFilters(buf[offset..])
  {
    hide Prepend;
    var pos, filters := offset, [];
    PrependNothing(ReadFilters(buf[offset..]));
    while pos < |buf|
      invariant offset <= pos <= |buf|
      invariant ReadFilters(buf[offset..]) == Prepend(filters, ReadFilters(buf[pos..]))
      decreases |buf| - pos
    {
      FiltersStep(buf[pos..]);
      var one := ReadField(buf[pos..]);
      if one.Err? {
        PrependError(filters, one.error);
        return Err(one.error);
      }
      assert buf[pos..][one.value.1..] == buf[pos + one.value.1..];
      PrependMore(filters, one.value.0, ReadFilters(buf[pos + one.value.1..]));
      filters := filters + [one.value.0];
      pos := pos + one.value.1;
    }
    NoMoreFilters(buf[pos..], filters);
    r := Ok(filters);
  }

  lemma FiltersStep(s: bytes)
    requires s != []
    ensures ReadFilters(s)
         == if ReadField(s).Err? then Err(ReadField(s).error)
            else Prepend([ReadField(s).value.0], ReadFilters(s[ReadField(s).value.1..]))
  {}

  lemma NoMoreFilters(s: bytes, filters: seq<bytes>)
    requires s == []
    ensures Prepend(filters, ReadFilters(s)) == Ok(filters)
  {
    assert filters + [] == filters;
  }

  method DecodeUnsubscribe(buf: bytes, v: Version) returns (r: Result<Packet, WireError>)
    ensures r == ReadUnsubscribe(buf, v)
  {
    hide ReadIdAndProperties, ReadFilters;
    var head := DecodeIdAndProperties(buf, OfUnsubscribe, v);
    if head.Err? {
      return Err(head.error);
    }
    var filters := DecodeFilters(buf, head.value.1);
    if filters.Err? {
      return Err(filters.error);
    }
    r := Ok(Unsubscribe(head.value.0.0, filters.value, head.value.0.1));
  }

  // ----- The other bodies -----

  method EncodeWill(will: Option<Will>, v: Version) returns (r: Written)
    ensures r == PackWill(will, v)
  {
    if will.None? {
      return Ok([]);
    }
    var properties := EncodeVersioned(OfWill, will.value.properties, v);
    r := Join(properties, Join(PackField(will.value.topic), PackField(will.value.payload)));
  }

  method EncodeConnect(p: Packet, v: Version) returns (r: Written)
    requires p.Connect?
    ensures r == PackConnect(p, v)
  {
    hide PackConnectHead, PackVersioned, PackField, PackWill, PackOptional, ConnectFlags;
    var head := PackConnectHead(ConnectFlags(p), p.keepalive, v);
    var properties := EncodeVersioned(OfConnect, p.properties, v);
    var will := EncodeWill(p.will, v);
    r := Join(head, Join(properties, Join(PackField(p.clientId),
              Join(will, Join(PackOptional(p.username), PackOptional(p.password))))));
  }

  method EncodePublish(p: Packet, v: Version) returns (r: Written)
    requires p.Publish?
    ensures r == PackPublish(p, v)
  {
    var topic := PackField(p.topic);
    if topic.Err? {
      return topic;
    }
    if p.qos != 0 && p.id.None? {
      return Err(MissingPacketId);
    }
    var id := if p.qos != 0 then PackTwo(p.id.value) else Ok([]);
    var properties := EncodeVersioned(OfPublish, p.properties, v);
    r := Join(Join(topic, id), Join(properties, Ok(p.payload)));
  }

  method EncodeAck(id: int, reason: int, properties: Option<Properties>, v: Version) returns (r: Written)
    ensures r == PackAck(id, reason, properties, v)
  {
    if v == V5 && (reason != 0 || properties.Some?) {
      var block := EncodeProperties(OfPubAck, properties);
      r := Join(Join(PackTwo(id), PackByte(reason)), block);
    } else {
      r := PackTwo(id);
    }
  }

  method EncodeBody(p: Packet, v: Version) returns (r: Written)
    ensures r == PackBody(p, v)
  {
    hide PackConnect, PackPublish, PackAck, PackIdAndProperties, PackVersioned, PackProperties, PackCodes;
    match p
    case Connect(_, _, _, _, _, _, _) => r := EncodeConnect(p, v);
    case ConnAck(present, code, properties) =>
      var block := EncodeVersioned(OfConnAck, properties, v);
      r := Join(Join(PackByte(Bit(present)), PackByte(code)), block);
    case Publish(_, _, _, _, _, _, _) => r := EncodePublish(p, v);
    case PubAck(id, reason, properties) => r := EncodeAck(id, reason, properties, v);
    case PubRec(id, reason, properties) => r := EncodeAck(id, reason, properties, v);
    case PubRel(id, reason, properties) => r := EncodeAck(id, reason, properties, v);
    case PubComp(id, reason, properties) => r := EncodeAck(id, reason, properties, v);
    case Subscribe(_, _, _) => r := EncodeSubscribe(p, v);
    case SubAck(id, codes, properties) =>
      var head := EncodeIdAndProperties(id, OfSubAck, properties, v);
      r := Join(head, PackCodes(codes));
    case Unsubscribe(_, _, _) => r := EncodeUnsubscribe(p, v);
    case UnsubAck(id, codes, properties) =>
      if v == V5 {
        var head := EncodeIdAndProperties(id, OfUnsubAck, properties, v);
        r := Join(head, PackCodes(codes));
      } else {
        r := PackTwo(id);
      }
    case PingReq => r := Ok([]);
    case PingResp => r := Ok([]);
    case Disconnect(reason, properties) =>
      if v == V5 && (reason != 0 || properties.Some?) {
        var block := EncodeProperties(OfDisconnect, properties);
        r := Join(PackByte(reason), block);
      } else {
        r := Ok([]);
      }
    case Auth(reason, properties) =>
      var block := EncodeProperties(OfAuth, properties);
      r := Join(PackByte(reason), block);
  }

  /** `encode`. */
  method EncodePacket(p: Packet, v: Version) returns (r: Written)
    ensures r == Encode(p, v)
  {
    hide PackBody, TypeOf, FlagsOf;
    var body := EncodeBody(p, v);
    if body.Err? {
      return body;
    }
    var length := EncodeVarint(|body.value|);
    if length.Err? {
      return length;
    }
    r := Ok([TypeOf(p) * 16 + FlagsOf(p)] + length.value + body.value);
  }

  method DecodeWill(head: ConnectHead, buf: bytes, offset: nat) returns (r: Read<Option<Will>>)
    requires head.flags / 0x08 % 4 != 3 && offset <= |buf|
    ensures r == ReadWill(head, buf[offset..])
  {
    hide ReadVersioned, ReadField, IsSet;
    if !IsSet(head.flags, 0x04) {
      return Ok((None, 0));
    }
    var properties := DecodeVersioned(OfWill, head.version, buf, offset);
    if properties.Err? {
      return Err(properties.error);
    }
    var n := properties.value.1;
    assert buf[offset..][n..] == buf[offset + n..];
    var topic := ReadField(buf[offset + n..]);
    if topic.Err? {
      return Err(topic.error);
    }
    var m := topic.value.1;
    assert buf[offset..][n + m..] == buf[offset + n + m..];
    var payload := ReadField(buf[offset + n + m..]);
    if payload.Err? {
      return Err(payload.error);
    }
    r := Ok((Some(Will(topic.value.0, payload.value.0, head.flags / 0x08 % 4, IsSet(head.flags, 0x20), properties.value.0)),
             n + m + payload.value.1));
  }

  method DecodeConnect(buf: bytes) returns (r: Result<Packet, WireError>)
    ensures r == ReadConnect(buf)
  {
    hide ReadConnectHead, ReadVersioned, ReadField, ReadWill, ReadOptional, IsSet;
    var first := ReadConnectHead(buf);
    if first.Err? {
      return Err(first.error);
    }
    var (head, pos) := first.value;
    var properties := DecodeVersioned(OfConnect, head.version, buf, pos);
    if properties.Err? {
      return Err(properties.error);
    }
    pos := pos + properties.value.1;
    var clientId := ReadField(buf[pos..]);
    if clientId.Err? {
      return Err(clientId.error);
    }
    pos := pos + clientId.value.1;
    var will := DecodeWill(head, buf, pos);
    if will.Err? {
      return Err(will.error);
    }
    pos := pos + will.value.1;
    var username := ReadOptional(IsSet(head.flags, 0x80), buf[pos..]);
    if username.Err? {
      return Err(username.error);
    }
    pos := pos + username.value.1;
    var password := ReadOptional(IsSet(head.flags, 0x40), buf[pos..]);
    if password.Err? {
      return Err(password.error);
    }
    r := Ok(Connect(clientId.value.0, IsSet(head.flags, 0x02), head.keepalive, username.value.0, password.value.0,
                    will.value.0, properties.value.0));
  }

  method DecodePublish(buf: bytes, flags: nat, v: Version) returns (r: Result<Packet, WireError>)
    ensures r == ReadPublish(buf, flags, v)
  {
    hide ReadVersioned, ReadField, IsSet;
    if flags / 2 % 4 == 3 {
      return Err(InvalidQos);
    }
    var qos: Qos := flags / 2 % 4;
    var topic := ReadField(buf);
    if topic.Err? {
      return Err(topic.error);
    }
    var pos := topic.value.1;
    var id := ReadPublishId(qos, buf[pos..]);
    if id.Err? {
      return Err(id.error);
    }
    pos := pos + id.value.1;
    var properties := DecodeVersioned(OfPublish, v, buf, pos);
    if properties.Err? {
      return Err(properties.error);
    }
    pos := pos + properties.value.1;
    r := Ok(Publish(topic.value.0, buf[pos..], qos, IsSet(flags, 1), IsSet(flags, 8), id.value.0, properties.value.0));
  }

  method DecodeAck(buf: bytes, v: Version) returns (r: Result<Ack, WireError>)
    ensures r == ReadAck(buf, v)
  {
    hide ReadProperties;
    var id := ReadTwo(buf);
    if id.Err? {
      return Err(id.error);
    }
    if v == V311 || |buf| == 2 {
      return Ok(Ack(id.value.0, 0, None));
    }
    if |buf| == 3 {
      return Ok(Ack(id.value.0, buf[2], None));
    }
    var properties := DecodeProperties(OfPubAck, buf, 3);
    if properties.Err? {
      return Err(properties.error);
    }
    r := Ok(Ack(id.value.0, buf[2], properties.value.0));
  }

  /** SUBACK and UNSUBACK: the codes are the rest of the body. */
  method DecodeCodes(buf: bytes, kind: Kind, v: Version) returns (r: Result<(nat, Option<Properties>, bytes), WireError>)
    ensures r == match ReadIdAndProperties(buf, kind, v)
      case Err(error) => Err(error)
      case Ok(((id, properties), n)) => Ok((id, properties, buf[n..]))
  {
    hide ReadIdAndProperties;
    var head := DecodeIdAndProperties(buf, kind, v);
    if head.Err? {
      return Err(head.error);
    }
    r := Ok((head.value.0.0, head.value.0.1, buf[head.value.1..]));
  }

  method DecodeConnAck(buf: bytes, v: Version) returns (r: Result<Packet, WireError>)
    ensures r == ReadConnAck(buf, v)
  {
    hide ReadProperties, IsSet;
    if |buf| < 2 {
      return Err(TooShort);
    }
    if v == V311 || |buf| == 2 {
      return Ok(ConnAck(IsSet(buf[0], 1), buf[1], None));
    }
    var properties := DecodeProperties(OfConnAck, buf, 2);
    if properties.Err? {
      return Err(properties.error);
    }
    r := Ok(ConnAck(IsSet(buf[0], 1), buf[1], properties.value.0));
  }

  method DecodeDisconnect(buf: bytes, v: Version) returns (r: Result<Packet, WireError>)
    ensures r == ReadDisconnect(buf, v)
  {
    hide ReadProperties;
    if v == V311 || buf == [] {
      return Ok(Disconnect(0, None));
    }
    if |buf| == 1 {
      return Ok(Disconnect(buf[0], None));
    }
    var properties := DecodeProperties(OfDisconnect, buf, 1);
    if properties.Err? {
      return Err(properties.error);
    }
    r := Ok(Disconnect(buf[0], properties.value.0));
  }

  method DecodeAuth(buf: bytes) returns (r: Result<Packet, WireError>)
    ensures r == ReadAuth(buf)
  {
    hide ReadProperties;
    if buf == [] {
      return Err(TooShort);
    }
    if |buf| == 1 {
      return Ok(Auth(buf[0], None));
    }
    var properties := DecodeProperties(OfAuth, buf, 1);
    if properties.Err? {
      return Err(properties.error);
    }
    r := Ok(Auth(buf[0], properties.value.0));
  }

  /** The four acknowledgements of a PUBLISH. */
  method DecodePubAckVariant(kind: int, buf: bytes, v: Version) returns (r: Result<Packet, WireError>)
    requires 4 <= kind <= 7
    ensures r == ReadBody(kind, 0, buf, v)
  {
    hide ReadAck;
    var ack := DecodeAck(buf, v);
    if ack.Err? {
      return Err(ack.error);
    }
    var a := ack.value;
    match kind
    case 4 => r := Ok(PubAck(a.id, a.reason, a.properties));
    case 5 => r := Ok(PubRec(a.id, a.reason, a.properties));
    case 6 => r := Ok(PubRel(a.id, a.reason, a.properties));
    case _ => r := Ok(PubComp(a.id, a.reason, a.properties));
  }

  method DecodeAckCodes(kind: int, buf: bytes, v: Version) returns (r: Result<Packet, WireError>)
    requires kind == 9 || kind == 11
    ensures r == ReadBody(kind, 0, buf, v)
  {
    hide ReadIdAndProperties;
    var parts := DecodeCodes(buf, if kind == 9 then OfSubAck else OfUnsubAck, v);
    if parts.Err? {
      return Err(parts.error);
    }
    var (id, properties, codes) := parts.value;
    if kind == 9 {
      r := Ok(SubAck(id, codes, properties));
    } else {
      r := Ok(UnsubAck(id, if v == V5 then codes else [], properties));
    }
  }

  lemma FlagsMatterToPublish(kind: int, flags: nat, s: bytes, v: Version)
    ensures kind != 3 ==> ReadBody(kind, flags, s, v) == ReadBody(kind, 0, s, v)
  {
    hide ReadConnect, ReadConnAck, ReadAck, ReadSubscribe, ReadSubAck, ReadUnsubscribe, ReadUnsubAck, ReadDisconnect,
         ReadAuth;
  }

  method DecodeBody(kind: int, flags: nat, buf: bytes, v: Version) returns (r: Result<Packet, WireError>)
    ensures r == ReadBody(kind, flags, buf, v)
  {
    hide ReadConnect, ReadConnAck, ReadPublish, ReadAck, ReadSubscribe, ReadSubAck, ReadUnsubscribe, ReadUnsubAck,
         ReadDisconnect, ReadAuth;
    FlagsMatterToPublish(kind, flags, buf, v);
    match kind
    case 1 => r := DecodeConnect(buf);
    case 2 => r := DecodeConnAck(buf, v);
    case 3 => r := DecodePublish(buf, flags, v);
    case 4 => r := DecodePubAckVariant(kind, buf, v);
    case 5 => r := DecodePubAckVariant(kind, buf, v);
    case 6 => r := DecodePubAckVariant(kind, buf, v);
    case 7 => r := DecodePubAckVariant(kind, buf, v);
    case 8 => r := DecodeSubscribe(buf, v);
    case 9 => r := DecodeAckCodes(kind, buf, v);
    case 10 => r := DecodeUnsubscribe(buf, v);
    case 11 => r := DecodeAckCodes(kind, buf, v);
    case 12 => r := Ok(PingReq);
    case 13 => r := Ok(PingResp);
    case 14 => r := DecodeDisconnect(buf, v);
    case 15 => r := DecodeAuth(buf);
    case _ => r := Err(UnknownPacketType);
  }

  // ----- Frames -----

  /** The remaining length, without failing on an unfinished one. */
  method DecodeLength(buffer: bytes) returns (r: Read<nat>)
    requires buffer != []
    ensures r == ReadVarint(buffer[1..])
  {
    hide AddScaled, Continued, ReadVarintUpTo;
    var length: nat, multiplier: nat := 0, 1;
    var s := buffer[1..];
    NothingRead(ReadVarintUpTo(s, 4));
    for i := 0 to 4
      invariant i <= |s|
      invariant ReadVarint(s) == Continued(length, multiplier, i, ReadVarintUpTo(s[i..], 4 - i))
    {
      if 1 + i >= |buffer| {
        NothingMore(length, multiplier, i, s[i..], 4 - i);
        return Err(TooShort);
      }
      var b: int := buffer[1 + i];
      assert s[i] == b;
      ContinuedStep(length, multiplier, i, s[i..], 4 - i);
      assert s[i..][1..] == s[i + 1..];
      var low := b % 0x80;
      length := AddScaled(length, low, multiplier);
      if b < 0x80 {
        return Ok((length, i + 1));
      }
      multiplier := multiplier * 0x80;
    }
    NothingMore(length, multiplier, 4, s[4..], 0);
    r := Err(VarintTooLong);
  }

  /** `decode`. */
  method DecodeFrame(buffer: bytes, v: Version) returns (r: Outcome)
    ensures r == Decode(buffer, v)
  {
    hide ReadBody, ReadVarint;
    if |buffer| < 2 {
      return Incomplete;
    }
    var header := DecodeLength(buffer);
    if header == Err(TooShort) {
      return Incomplete;
    }
    if header.Err? {
      return Failed(header.error);
    }
    var (length, used) := header.value;
    var total := 1 + used + length;
    if |buffer| < total {
      return Incomplete;
    }
    var body := DecodeBody(buffer[0] / 16, buffer[0] % 16, buffer[1 + used..total], v);
    if body.Err? {
      return Failed(body.error);
    }
    r := Decoded(body.value, total);
  }
}
