/** Which packets can be encoded: exactly those of which every part fits its place on the wire. */
module Encodable {
  import opened Prelude
  import opened Wire
  import opened PropertyBlocks
  import opened TypedProperties
  import opened Codec
  import opened Framing

  predicate FitsByte(n: int) { 0 <= n < 0x100 }

  predicate FitsTwo(n: int) { 0 <= n < 0x1_0000 }

  predicate FitsField(data: bytes) { |data| < 0x1_0000 }

  predicate OptionalFits(data: Option<bytes>) { data.Some? ==> FitsField(data.value) }

  predicate PairsFit(pairs: seq<Pair>) {
    forall i :: 0 <= i < |pairs| ==> FitsField(pairs[i].0) && FitsField(pairs[i].1)
  }

  /** The bytes that written parts take; 0 when they cannot be written. */
  function LengthOf(w: Written): nat { if w.Ok? then |w.value| else 0 }

  predicate PropertiesFit(kind: Kind, p: Option<Properties>) {
    p.Some? ==>
      && (forall id :: id in p.value.fields && id in Schema(kind) ==> InRange(id, Raw(p.value.fields[id])))
      && PairsFit(p.value.user)
      && LengthOf(PackProps(Entries(Schema(kind), p.value.fields), p.value.user)) <= MAX_VARINT
  }

  predicate VersionedFit(kind: Kind, p: Option<Properties>, v: Version) { v == V5 ==> PropertiesFit(kind, p) }

  predicate AckFits(id: int, reason: int, properties: Option<Properties>, v: Version) {
    FitsTwo(id) && (v == V5 ==> FitsByte(reason) && PropertiesFit(OfPubAck, properties))
  }

  predicate CodesFit(codes: seq<int>) { forall i :: 0 <= i < |codes| ==> FitsByte(codes[i]) }

  predicate FiltersFit(filters: seq<bytes>) { forall i :: 0 <= i < |filters| ==> FitsField(filters[i]) }

  predicate RequestsFit(requests: seq<SubscriptionRequest>) {
    forall i :: 0 <= i < |requests| ==> FitsField(requests[i].filter)
  }

  predicate WillFits(will: Option<Will>, v: Version) {
    will.Some? ==>
      FitsField(will.value.topic) && FitsField(will.value.payload) && VersionedFit(OfWill, will.value.properties, v)
  }

  /** Every part of the packet that version `v` writes fits its place. */
  predicate PartsFit(p: Packet, v: Version) {
    match p
    case Connect(clientId, _, keepalive, username, password, will, properties) =>
      && FitsField(clientId) && FitsTwo(keepalive) && OptionalFits(username) && OptionalFits(password)
      && WillFits(will, v) && VersionedFit(OfConnect, properties, v)
    case ConnAck(_, code, properties) => FitsByte(code) && VersionedFit(OfConnAck, properties, v)
    case Publish(topic, _, qos, _, _, id, properties) =>
      && FitsField(topic) && (qos != 0 ==> id.Some? && FitsTwo(id.value)) && VersionedFit(OfPublish, properties, v)
    case PubAck(id, reason, properties) => AckFits(id, reason, properties, v)
    case PubRec(id, reason, properties) => AckFits(id, reason, properties, v)
    case PubRel(id, reason, properties) => AckFits(id, reason, properties, v)
    case PubComp(id, reason, properties) => AckFits(id, reason, properties, v)
    case Subscribe(id, requests, properties) =>
      FitsTwo(id) && RequestsFit(requests) && VersionedFit(OfSubscribe, properties, v)
    case SubAck(id, codes, properties) => FitsTwo(id) && CodesFit(codes) && VersionedFit(OfSubAck, properties, v)
    case Unsubscribe(id, filters, properties) =>
      FitsTwo(id) && FiltersFit(filters) && VersionedFit(OfUnsubscribe, properties, v)
    case UnsubAck(id, codes, properties) =>
      FitsTwo(id) && (v == V5 ==> CodesFit(codes) && PropertiesFit(OfUnsubAck, properties))
    case PingReq => true
    case PingResp => true
    case Disconnect(reason, properties) => v == V5 ==> FitsByte(reason) && PropertiesFit(OfDisconnect, properties)
    case Auth(reason, properties) => FitsByte(reason) && PropertiesFit(OfAuth, properties)
  }

  lemma {:induction false} EntriesFit(ids: seq<int>, fields: map<int, FieldValue>)
    ensures PackEntries(Entries(ids, fields)).Ok? <==> forall id :: id in fields && id in ids ==> InRange(id, Raw(fields[id]))
  {
    hide PackEntry, InRange;
    if ids != [] {
      var id, others := ids[0], Entries(ids[1..], fields);
      assert ids == [id] + ids[1..];
      EntriesFit(ids[1..], fields);
      if id in fields {
        var e := (id, Raw(fields[id]));
        ValueFits(e);
        assert Entries(ids, fields) == [e] + others;
        assert Entries(ids, fields)[1..] == others;
      } else {
        assert Entries(ids, fields) == [] + others == others;
      }
    }
  }

  lemma {:induction false} PairsPack(pairs: seq<Pair>)
    ensures PackPairs(pairs).Ok? <==> PairsFit(pairs)
  {
    if pairs != [] {
      PairsPack(pairs[1..]);
      assert PackPair(pairs[0]).Ok? <==> FitsField(pairs[0].0) && FitsField(pairs[0].1);
      assert PairsFit(pairs) <==> FitsField(pairs[0].0) && FitsField(pairs[0].1) && PairsFit(pairs[1..]) by {
        assert forall i :: 0 < i < |pairs| ==> pairs[i] == pairs[1..][i - 1];
      }
    }
  }

  lemma PropertiesPack(kind: Kind, p: Option<Properties>)
    ensures PackProperties(kind, p).Ok? <==> PropertiesFit(kind, p)
  {
    hide Schema, Entries, PackEntries, PackPairs, InRange, PairsFit;
    if p.Some? {
      EntriesFit(Schema(kind), p.value.fields);
      PairsPack(p.value.user);
    }
  }

  lemma VersionedPacks(kind: Kind, p: Option<Properties>, v: Version)
    ensures PackVersioned(kind, p, v).Ok? <==> VersionedFit(kind, p, v)
  {
    PropertiesPack(kind, p);
  }

  lemma {:induction false} RequestsPack(requests: seq<SubscriptionRequest>, v: Version)
    ensures PackRequests(requests, v).Ok? <==> RequestsFit(requests)
  {
    hide PackOptions;
    if requests != [] {
      RequestsPack(requests[1..], v);
      assert RequestsFit(requests) <==> FitsField(requests[0].filter) && RequestsFit(requests[1..]) by {
        assert forall i :: 0 < i < |requests| ==> requests[i] == requests[1..][i - 1];
      }
    }
  }

  lemma {:induction false} FiltersPack(filters: seq<bytes>)
    ensures PackFilters(filters).Ok? <==> FiltersFit(filters)
  {
    if filters != [] {
      FiltersPack(filters[1..]);
      assert FiltersFit(filters) <==> FitsField(filters[0]) && FiltersFit(filters[1..]) by {
        assert forall i :: 0 < i < |filters| ==> filters[i] == filters[1..][i - 1];
      }
    }
  }

  lemma ConnectPacks(p: Packet, v: Version)
    requires p.Connect?
    ensures PackConnect(p, v).Ok? <==> PartsFit(p, v)
  {
    hide PackVersioned, VersionedFit;
    VersionedPacks(OfConnect, p.properties, v);
    if p.will.Some? { VersionedPacks(OfWill, p.will.value.properties, v); }
  }

  lemma BodyPacks(p: Packet, v: Version)
    ensures PackBody(p, v).Ok? <==> PartsFit(p, v)
  {
    hide PackVersioned, VersionedFit, PackProperties, PropertiesFit, PackRequests, RequestsFit, PackFilters,
         FiltersFit, PackConnect;
    match p
    case Connect(_, _, _, _, _, _, _) => ConnectPacks(p, v);
    case ConnAck(_, _, properties) => VersionedPacks(OfConnAck, properties, v);
    case Publish(_, _, _, _, _, _, properties) => VersionedPacks(OfPublish, properties, v);
    case PubAck(_, _, properties) => AckPacks(p.packetId, p.reasonCode, properties, v);
    case PubRec(_, _, properties) => AckPacks(p.packetId, p.reasonCode, properties, v);
    case PubRel(_, _, properties) => AckPacks(p.packetId, p.reasonCode, properties, v);
    case PubComp(_, _, properties) => AckPacks(p.packetId, p.reasonCode, properties, v);
    case Subscribe(_, requests, properties) =>
      VersionedPacks(OfSubscribe, properties, v);
      RequestsPack(requests, v);
    case SubAck(_, _, properties) => VersionedPacks(OfSubAck, properties, v);
    case Unsubscribe(_, filters, properties) =>
      VersionedPacks(OfUnsubscribe, properties, v);
      FiltersPack(filters);
    case UnsubAck(_, _, properties) =>
      VersionedPacks(OfUnsubAck, properties, v);
      PropertiesPack(OfUnsubAck, properties);
      VersionedIsPlain(OfUnsubAck, properties);
    case PingReq =>
    case PingResp =>
    case Disconnect(_, properties) =>
      PropertiesPack(OfDisconnect, properties);
      NoPropertiesFit(OfDisconnect);
    case Auth(_, properties) => PropertiesPack(OfAuth, properties);
  }

  lemma VersionedIsPlain(kind: Kind, p: Option<Properties>)
    ensures PackVersioned(kind, p, V5) == PackProperties(kind, p) && (VersionedFit(kind, p, V5) <==> PropertiesFit(kind, p))
  {}

  lemma NoPropertiesFit(kind: Kind)
    ensures PropertiesFit(kind, None)
  {}

  lemma AckPacks(id: int, reason: int, properties: Option<Properties>, v: Version)
    ensures PackAck(id, reason, properties, v).Ok? <==> AckFits(id, reason, properties, v)
  {
    hide PackProperties, PropertiesFit;
    PropertiesPack(OfPubAck, properties);
    NoPropertiesFit(OfPubAck);
  }

  /** `encode` succeeds exactly on the packets whose parts fit and whose body fits a frame. */
  lemma EncodesExactlyWhatFits(p: Packet, v: Version)
    ensures Encode(p, v).Ok? <==> PartsFit(p, v) && LengthOf(PackBody(p, v)) <= MAX_VARINT
  {
    hide PackBody, PartsFit;
    BodyPacks(p, v);
  }

  /** So every packet whose parts fit comes back from the wire as its normal form. */
  lemma FittingPacketsRoundTrip(p: Packet, v: Version, rest: bytes)
    requires PropertiesTyped(p) && PartsFit(p, v) && LengthOf(PackBody(p, v)) <= MAX_VARINT
    ensures Encode(p, v).Ok?
    ensures Decode(Encode(p, v).value + rest, v) == Decoded(Normal(p, v), |Encode(p, v).value|)
  {
    hide PartsFit, PackBody, PropertiesTyped, Encode, Decode;
    EncodesExactlyWhatFits(p, v);
    RoundTrip(p, v, rest);
  }
}
