/** Packets as frames in a byte stream: `encode`, `decode` and what a decoder may conclude from the
  bytes it has so far. */
module Framing {
  import opened Prelude
  import opened Wire
  import opened TypedProperties
  import opened Codec

  datatype Outcome = Incomplete | Failed(error: WireError) | Decoded(packet: Packet, consumed: nat)

  function BuildPacket(kind: int, flags: int, body: bytes): Written
    requires 0 <= kind < 16 && 0 <= flags < 16
  {
    var length :- PackVarint(|body|);
    Ok([kind * 16 + flags] + length + body)
  }

  function Encode(p: Packet, v: Version): Written {
    var body :- PackBody(p, v);
    BuildPacket(TypeOf(p), FlagsOf(p), body)
  }

  function Decode(s: bytes, v: Version): Outcome {
    if |s| < 2 then Incomplete
    else
      match ReadVarint(s[1..])
      case Err(TooShort) => Incomplete
      case Err(error) => Failed(error)
      case Ok((length, n)) =>
        var total := 1 + n + length;
        if |s| < total then Incomplete
        else
          match ReadBody(s[0] / 16, s[0] % 16, s[1 + n..total], v)
          case Err(error) => Failed(error)
          case Ok(packet) => Decoded(packet, total)
  }

  // ----- Bodies round-trip -----

  lemma AckBodyRoundTrip(p: Packet, v: Version)
    requires p.PubAck? || p.PubRec? || p.PubRel? || p.PubComp?
    requires PropertiesTyped(p) && PackBody(p, v).Ok?
    ensures ReadBody(TypeOf(p), FlagsOf(p), PackBody(p, v).value, v) == Ok(Normal(p, v))
  {
    hide PackAck, ReadAck, NormalVersioned;
    AckRoundTrip(p.packetId, p.reasonCode, p.properties, v);
  }

  lemma ConnAckBodyRoundTrip(p: Packet, v: Version)
    requires p.ConnAck? && PropertiesTyped(p) && PackBody(p, v).Ok?
    ensures ReadConnAck(PackBody(p, v).value, v) == Ok(Normal(p, v))
  {
    hide PackProperties, ReadProperties, NormalProperties;
    var s := PackBody(p, v).value;
    var present: byte := Bit(p.sessionPresent);
    if v == V5 {
      var props := PackProperties(OfConnAck, p.properties).value;
      PropertiesRoundTrip(OfConnAck, p.properties, []);
      assert s[2..] == props + [];
    }
  }

  lemma DisconnectBodyRoundTrip(p: Packet, v: Version)
    requires p.Disconnect? && PropertiesTyped(p) && PackBody(p, v).Ok?
    ensures ReadDisconnect(PackBody(p, v).value, v) == Ok(Normal(p, v))
  {
    hide PackProperties, ReadProperties;
    if v == V5 && (p.reasonCode != 0 || p.properties.Some?) {
      PropertiesRoundTrip(OfDisconnect, p.properties, []);
      assert PackBody(p, v).value[1..] == PackProperties(OfDisconnect, p.properties).value + [];
    }
  }

  lemma AuthBodyRoundTrip(p: Packet, v: Version)
    requires p.Auth? && PropertiesTyped(p) && PackBody(p, v).Ok?
    ensures ReadAuth(PackBody(p, v).value) == Ok(Normal(p, v))
  {
    hide PackProperties, ReadProperties, NormalProperties;
    PropertiesRoundTrip(OfAuth, p.properties, []);
    assert PackBody(p, v).value[1..] == PackProperties(OfAuth, p.properties).value + [];
  }

  lemma SubscribeBodyRoundTrip(p: Packet, v: Version)
    requires p.Subscribe? && PropertiesTyped(p) && PackBody(p, v).Ok?
    ensures ReadSubscribe(PackBody(p, v).value, v) == Ok(Normal(p, v))
  {
    hide PackIdAndProperties, ReadIdAndProperties, PackRequests, ReadRequests, NormalVersioned;
    var front, back := PackIdAndProperties(p.packetId, OfSubscribe, p.properties, v).value, PackRequests(p.subscriptions, v).value;
    IdAndPropertiesRoundTrip(p.packetId, OfSubscribe, p.properties, v, back);
    assert (front + back)[|front|..] == back;
    RequestsRoundTrip(p.subscriptions, v);
  }

  lemma UnsubscribeBodyRoundTrip(p: Packet, v: Version)
    requires p.Unsubscribe? && PropertiesTyped(p) && PackBody(p, v).Ok?
    ensures ReadUnsubscribe(PackBody(p, v).value, v) == Ok(Normal(p, v))
  {
    hide PackIdAndProperties, ReadIdAndProperties, PackFilters, ReadFilters, NormalVersioned;
    var front, back := PackIdAndProperties(p.packetId, OfUnsubscribe, p.properties, v).value, PackFilters(p.filters).value;
    IdAndPropertiesRoundTrip(p.packetId, OfUnsubscribe, p.properties, v, back);
    assert (front + back)[|front|..] == back;
    FiltersRoundTrip(p.filters);
  }

  lemma SubAckBodyRoundTrip(p: Packet, v: Version)
    requires p.SubAck? && PropertiesTyped(p) && PackBody(p, v).Ok?
    ensures ReadSubAck(PackBody(p, v).value, v) == Ok(Normal(p, v))
  {
    hide PackIdAndProperties, ReadIdAndProperties, NormalVersioned;
    var front, back := PackIdAndProperties(p.packetId, OfSubAck, p.properties, v).value, PackCodes(p.codes).value;
    IdAndPropertiesRoundTrip(p.packetId, OfSubAck, p.properties, v, back);
    assert (front + back)[|front|..] == back;
    assert back == p.codes;
  }

  lemma UnsubAckBodyRoundTrip(p: Packet, v: Version)
    requires p.UnsubAck? && PropertiesTyped(p) && PackBody(p, v).Ok?
    ensures ReadUnsubAck(PackBody(p, v).value, v) == Ok(Normal(p, v))
  {
    hide PackVersioned, ReadVersioned, PackTwo, ReadTwo;
    if v == V5 {
      hide PackIdAndProperties, ReadIdAndProperties;
      var front, back := PackIdAndProperties(p.packetId, OfUnsubAck, p.properties, v).value, PackCodes(p.codes).value;
      IdAndPropertiesRoundTrip(p.packetId, OfUnsubAck, p.properties, v, back);
      assert (front + back)[|front|..] == back;
      assert back == p.codes;
    } else {
      var two := PackTwo(p.packetId).value;
      TwoRoundTrip(p.packetId, []);
      assert two + [] == two;
      OldUnsubAck(p.packetId, two);
    }
  }

  lemma OldUnsubAck(id: int, two: bytes)
    requires ReadTwo(two) == Ok((id, 2)) && |two| == 2
    ensures ReadUnsubAck(two, V311) == Ok(UnsubAck(id, [], None))
  {}

  lemma PingsAreNormal(v: Version)
    ensures Normal(PingReq, v) == PingReq && Normal(PingResp, v) == PingResp
  {}

  lemma BodyRoundTrip(p: Packet, v: Version)
    requires PropertiesTyped(p) && PackBody(p, v).Ok?
    ensures ReadBody(TypeOf(p), FlagsOf(p), PackBody(p, v).value, v) == Ok(Normal(p, v))
  {
    hide PackConnect, ReadConnect, PackPublish, ReadPublish, PackAck, ReadAck, ReadConnAck, ReadDisconnect, ReadAuth,
         ReadSubscribe, ReadSubAck, ReadUnsubscribe, ReadUnsubAck, PackIdAndProperties, PackRequests, PackFilters, PackCodes,
         PackProperties, PackVersioned, PropertiesTyped, FlagsOf, Join, Normal;
    PingsAreNormal(v);
    match p
    case Connect(_, _, _, _, _, _, _) => ConnectRoundTrip(p, v);
    case ConnAck(_, _, _) => ConnAckBodyRoundTrip(p, v);
    case Publish(_, _, _, _, _, _, _) => PublishRoundTrip(p, v);
    case PubAck(_, _, _) => AckBodyRoundTrip(p, v);
    case PubRec(_, _, _) => AckBodyRoundTrip(p, v);
    case PubRel(_, _, _) => AckBodyRoundTrip(p, v);
    case PubComp(_, _, _) => AckBodyRoundTrip(p, v);
    case Subscribe(_, _, _) => SubscribeBodyRoundTrip(p, v);
    case SubAck(_, _, _) => SubAckBodyRoundTrip(p, v);
    case Unsubscribe(_, _, _) => UnsubscribeBodyRoundTrip(p, v);
    case UnsubAck(_, _, _) => UnsubAckBodyRoundTrip(p, v);
    case PingReq =>
    case PingResp =>
    case Disconnect(_, _) => DisconnectBodyRoundTrip(p, v);
    case Auth(_, _) => AuthBodyRoundTrip(p, v);
  }

  // ----- Main results -----

  /** Every packet that can be encoded decodes to its normal form, whatever follows it, and takes
    exactly its own bytes. */
  lemma RoundTrip(p: Packet, v: Version, rest: bytes)
    requires PropertiesTyped(p) && Encode(p, v).Ok?
    ensures Decode(Encode(p, v).value + rest, v) == Decoded(Normal(p, v), |Encode(p, v).value|)
  {
    hide PackBody, ReadBody, PackVarint, ReadVarint, Normal, TypeOf, FlagsOf;
    var body := PackBody(p, v).value;
    var length, first := PackVarint(|body|).value, TypeOf(p) * 16 + FlagsOf(p);
    var s := Encode(p, v).value + rest;
    VarintRoundTrip(|body|, body + rest);
    assert s[1..] == length + (body + rest);
    assert s[1 + |length|..1 + |length| + |body|] == body;
    BodyRoundTrip(p, v);
  }

  /** A packet of which the last bytes are missing is never an error and never a packet. */
  lemma StrictPrefixIsIncomplete(p: Packet, v: Version, k: nat)
    requires Encode(p, v).Ok? && k < |Encode(p, v).value|
    ensures Decode(Encode(p, v).value[..k], v) == Incomplete
  {
    hide PackBody, ReadBody, TypeOf, FlagsOf;
    var body := PackBody(p, v).value;
    var length := VarintBytes(|body|);
    var s := Encode(p, v).value[..k];
    if k >= 2 {
      if k < 1 + |length| {
        assert s[1..] == length[..k - 1];
        VarintLimit();
        VarintPrefixIsTooShort(|body|, k - 1, 4);
      } else {
        var some := s[1 + |length|..];
        assert s[1..] == length + some;
        VarintRoundTrip(|body|, some);
      }
    }
  }

  lemma VarintLimit()
    ensures Radix(4) == MAX_VARINT + 1
  {
    assert Radix(4) == 0x80 * (0x80 * (0x80 * (0x80 * Radix(0))));
  }

  /** What is decided is decided: more bytes change neither the packet, nor its length, nor the failure. */
  lemma DecodeIsPrefixStable(s: bytes, more: bytes, v: Version)
    requires Decode(s, v) != Incomplete
    ensures Decode(s + more, v) == Decode(s, v)
  {
    hide ReadBody;
    assert (s + more)[1..] == s[1..] + more;
    VarintIsPrefixStable(s[1..], more, 4);
    if ReadVarint(s[1..]).Ok? {
      var (length, n) := ReadVarint(s[1..]).value;
      assert (s + more)[1 + n..1 + n + length] == s[1 + n..1 + n + length];
    }
  }

  /** Every success takes at least two bytes, and only bytes that are there. */
  lemma DecodeMakesProgress(s: bytes, v: Version)
    ensures Decode(s, v).Decoded? ==> 2 <= Decode(s, v).consumed <= |s|
  {
    hide ReadBody;
  }

  /** A frame determines its packet: encodings of packets with different normal forms differ, and
    none is the beginning of another. */
  lemma EncodingsAreUnambiguous(p: Packet, q: Packet, v: Version)
    requires PropertiesTyped(p) && PropertiesTyped(q) && Encode(p, v).Ok? && Encode(q, v).Ok?
    requires Encode(p, v).value <= Encode(q, v).value
    ensures Encode(p, v) == Encode(q, v) && Normal(p, v) == Normal(q, v)
  {
    hide Encode, Decode, Normal, PropertiesTyped;
    var a, b := Encode(p, v).value, Encode(q, v).value;
    assert a + [] == a && b + [] == b && b[..|a|] == a;
    RoundTrip(p, v, []);
    RoundTrip(q, v, []);
    if |a| < |b| { StrictPrefixIsIncomplete(q, v, |a|); }
  }
}
