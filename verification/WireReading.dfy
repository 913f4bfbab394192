/** What the decoder makes of arbitrary bytes: which numbers, fields, flags and packets it finds in them, and
  which error it reports, said with arithmetic on the bytes. */
module WireReading {
  import opened Prelude
  import opened Wire
  import opened PropertyBlocks
  import opened TypedProperties
  import opened Codec
  import opened Framing
  import opened WireLayout

  // ----- Numbers and fields (section 1.5) -----

  /** The two bytes at `i`, the high one first. */
  function Word(s: seq<int>, i: nat): int
    requires i + 1 < |s|
  {
    256 * s[i] + s[i + 1]
  }

  lemma NumbersMeaning(s: bytes)
    ensures ReadByte(s).Ok? <==> |s| >= 1
    ensures |s| >= 1 ==> ReadByte(s).value == (s[0] as int, 1)
    ensures ReadTwo(s) == if |s| < 2 then Err(TooShort) else Ok((Word(s, 0), 2))
    ensures ReadFour(s) == if |s| < 4 then Err(TooShort) else Ok((65536 * Word(s, 0) + Word(s, 2), 4))
  {}

  /** Two bytes of length and as many bytes as they say. */
  lemma FieldMeaning(s: bytes)
    ensures ReadField(s) == if |s| < 2 || |s| < 2 + Word(s, 0) then Err(TooShort)
                            else Ok((s[2..2 + Word(s, 0)], 2 + Word(s, 0)))
  {}

  lemma {:induction false} GroupsAreRead(s: bytes, k: nat, most: nat)
    requires k < |s| && k < most && s[k] < 128 && forall i :: 0 <= i < k ==> s[i] >= 128
    ensures ReadVarintUpTo(s, most) == Ok((SevenBits(s[..k + 1]), k + 1))
  {
    if k == 0 {
      assert s[..1][0] == s[0] && s[..1][1..] == [];
    } else {
      forall i | 0 <= i < k - 1 ensures s[1..][i] >= 128 { assert s[1..][i] == s[i + 1]; }
      GroupsAreRead(s[1..], k - 1, most - 1);
      assert s[..k + 1][1..] == s[1..][..k];
    }
  }

  lemma {:induction false} GroupsGoOn(s: bytes, most: nat)
    requires forall i :: 0 <= i < |s| && i < most ==> s[i] >= 128
    ensures ReadVarintUpTo(s, most) == Err(if |s| < most then TooShort else VarintTooLong)
  {
    if most > 0 && s != [] {
      forall i | 0 <= i < |s[1..]| && i < most - 1 ensures s[1..][i] >= 128 { assert s[1..][i] == s[i + 1]; }
      GroupsGoOn(s[1..], most - 1);
    }
  }

  /** The first byte below 128 among the first four ends the number; without one it is too long, or not there yet. */
  lemma VarintMeaning(s: bytes, k: nat)
    ensures k < 4 && k < |s| && s[k] < 128 && (forall i :: 0 <= i < k ==> s[i] >= 128) ==>
      ReadVarint(s) == Ok((SevenBits(s[..k + 1]), k + 1))
    ensures (forall i :: 0 <= i < |s| && i < 4 ==> s[i] >= 128) ==>
      ReadVarint(s) == Err(if |s| < 4 then TooShort else VarintTooLong)
  {
    if k < 4 && k < |s| && s[k] < 128 && (forall i :: 0 <= i < k ==> s[i] >= 128) { GroupsAreRead(s, k, 4); }
    if forall i :: 0 <= i < |s| && i < 4 ==> s[i] >= 128 { GroupsGoOn(s, 4); }
  }

  // ----- Frames -----

  /** Four bytes of length that all go on are an error; before that, and with less than two bytes, nothing is decided. */
  lemma LengthMeaning(s: bytes, v: Version)
    ensures |s| >= 5 && (forall i :: 1 <= i <= 4 ==> s[i] >= 128) ==> Decode(s, v) == Failed(VarintTooLong)
    ensures |s| < 5 && (forall i :: 1 <= i < |s| ==> s[i] >= 128) ==> Decode(s, v) == Incomplete
  {
    if |s| >= 2 && forall i :: 0 <= i < |s[1..]| && i < 4 ==> s[1..][i] >= 128 { GroupsGoOn(s[1..], 4); }
  }

  /** A frame whose length is complete: nothing is decided before all of it is there; then exactly it is consumed,
    and the packet is of the type in the upper half of the first byte. Type 0 is an error. */
  lemma FrameMeaning(s: bytes, v: Version, k: nat)
    requires k < 4 && k + 1 < |s| && s[k + 1] < 128 && forall i :: 1 <= i <= k ==> s[i] >= 128
    ensures var total := 2 + k + SevenBits(s[1..k + 2]);
      && (|s| < total <==> Decode(s, v) == Incomplete)
      && (|s| >= total && s[0] < 16 ==> Decode(s, v) == Failed(UnknownPacketType))
      && (Decode(s, v).Decoded? ==>
            && Decode(s, v).consumed == total <= |s| && FirstByte(Decode(s, v).packet) / 16 == s[0] / 16
            && ReadBody(s[0] / 16, s[0] % 16, s[k + 2..total], v) == Ok(Decode(s, v).packet))
  {
    hide ReadBody, FirstByte, SevenBits, ReadVarint;
    LengthIsRead(s, k);
    var total := 2 + k + SevenBits(s[1..k + 2]);
    assert total >= 2 by { assert ReadVarint(s[1..]).value.0 >= 0; }
    if |s| >= total {
      UnknownTypes(s[0] % 16, s[k + 2..total], v);
      TypesMatch(s[0] / 16, s[0] % 16, s[k + 2..total], v);
    }
  }

  lemma LengthIsRead(s: bytes, k: nat)
    requires k < 4 && k + 1 < |s| && s[k + 1] < 128 && forall i :: 1 <= i <= k ==> s[i] >= 128
    ensures ReadVarint(s[1..]) == Ok((SevenBits(s[1..k + 2]), k + 1))
  {
    forall i | 0 <= i < k ensures s[1..][i] >= 128 { assert s[1..][i] == s[i + 1]; }
    GroupsAreRead(s[1..], k, 4);
    assert s[1..][..k + 1] == s[1..k + 2];
  }

  lemma UnknownTypes(flags: nat, s: bytes, v: Version)
    ensures ReadBody(0, flags, s, v) == Err(UnknownPacketType)
  {}

  lemma TypesMatch(kind: int, flags: nat, s: bytes, v: Version)
    ensures ReadBody(kind, flags, s, v).Ok? ==> FirstByte(ReadBody(kind, flags, s, v).value) / 16 == kind
  {
    hide ReadConnect, ReadPublish, ReadConnAck, ReadAck, ReadSubscribe, ReadSubAck, ReadUnsubscribe, ReadUnsubAck,
         ReadDisconnect, ReadAuth, FirstByte;
    if ReadBody(kind, flags, s, v).Ok? {
      BodiesAreOfTheirKind(s, flags, v);
      UpperHalf(ReadBody(kind, flags, s, v).value);
    }
  }

  lemma UpperHalf(p: Packet)
    ensures FirstByte(p) / 16 == TypeOf(p)
  {}

  lemma BodiesAreOfTheirKind(s: bytes, flags: nat, v: Version)
    ensures ReadConnect(s).Ok? ==> ReadConnect(s).value.Connect?
    ensures ReadConnAck(s, v).Ok? ==> ReadConnAck(s, v).value.ConnAck?
    ensures ReadPublish(s, flags, v).Ok? ==> ReadPublish(s, flags, v).value.Publish?
    ensures ReadSubscribe(s, v).Ok? ==> ReadSubscribe(s, v).value.Subscribe?
    ensures ReadSubAck(s, v).Ok? ==> ReadSubAck(s, v).value.SubAck?
    ensures ReadUnsubscribe(s, v).Ok? ==> ReadUnsubscribe(s, v).value.Unsubscribe?
    ensures ReadUnsubAck(s, v).Ok? ==> ReadUnsubAck(s, v).value.UnsubAck?
    ensures ReadDisconnect(s, v).Ok? ==> ReadDisconnect(s, v).value.Disconnect?
    ensures ReadAuth(s).Ok? ==> ReadAuth(s).value.Auth?
  {
    hide ReadConnectHead, ReadVersioned, ReadField, ReadWill, ReadOptional, ReadPublishId, ReadIdAndProperties,
         ReadRequests, ReadFilters, ReadProperties, IsSet;
  }

  // ----- Bodies -----

  /** PUBLISH: its flags are the low bits of the first byte, QoS 3 is an error; then the topic, the identifier above
    QoS 0, and at the end the payload. */
  lemma PublishMeaning(b: bytes, flags: nat, v: Version)
    requires flags < 16
    ensures flags / 2 % 4 == 3 ==> ReadPublish(b, flags, v) == Err(InvalidQos)
    ensures ReadPublish(b, flags, v).Ok? ==>
      var p := ReadPublish(b, flags, v).value;
      && p.Publish? && p.qos == flags / 2 % 4 && (p.dup <==> flags >= 8) && (p.retain <==> flags % 2 == 1)
      && |b| >= 2 && |b| >= 2 + Word(b, 0)
      && var t := 2 + Word(b, 0);
      && p.topic == b[2..t]
      && (p.qos == 0 ==> p.id == None) && (p.qos > 0 ==> |b| >= t + 2 && p.id == Some(Word(b, t)))
      && |p.payload| <= |b| && p.payload == b[|b| - |p.payload|..]
      && (v == V311 ==> p.properties == None && |p.payload| == |b| - t - if p.qos == 0 then 0 else 2)
  {
    hide ReadProperties, ReadField, ReadTwo;
    FieldMeaning(b);
    if flags / 2 % 4 != 3 && ReadField(b).Ok? {
      var t := 2 + Word(b, 0);
      NumbersMeaning(b[t..]);
    }
  }

  /** PUBACK, PUBREC, PUBREL, PUBCOMP: the identifier; in version 5.0 also a reason, and properties behind it. */
  lemma AckMeaning(s: bytes, v: Version)
    ensures |s| < 2 ==> ReadAck(s, v) == Err(TooShort)
    ensures |s| == 2 || (v == V311 && |s| > 2) ==> ReadAck(s, v) == Ok(Ack(Word(s, 0), 0, None))
    ensures |s| == 3 && v == V5 ==> ReadAck(s, v) == Ok(Ack(Word(s, 0), s[2], None))
    ensures |s| > 3 && v == V5 ==>
      match ReadProperties(OfPubAck, s[3..])
      case Ok((properties, _)) => ReadAck(s, v) == Ok(Ack(Word(s, 0), s[2], properties))
      case Err(error) => ReadAck(s, v) == Err(error)
  {
    hide ReadProperties;
  }

  /** CONNACK: the session-present bit and the return code; DISCONNECT: a reason, 0 when there is none; AUTH: a
    reason. Properties stand behind them in version 5.0, and nothing else is looked at in version 3.1.1. */
  lemma ShortBodiesMeaning(s: bytes, v: Version)
    ensures |s| < 2 ==> ReadConnAck(s, v) == Err(TooShort)
    ensures |s| >= 2 && (v == V311 || |s| == 2) ==> ReadConnAck(s, v) == Ok(ConnAck(s[0] % 2 == 1, s[1], None))
    ensures |s| > 2 && v == V5 && ReadProperties(OfConnAck, s[2..]).Ok? ==>
      ReadConnAck(s, v) == Ok(ConnAck(s[0] % 2 == 1, s[1], ReadProperties(OfConnAck, s[2..]).value.0))
    ensures v == V311 || s == [] ==> ReadDisconnect(s, v) == Ok(Disconnect(0, None))
    ensures v == V5 && |s| == 1 ==> ReadDisconnect(s, v) == Ok(Disconnect(s[0], None))
    ensures v == V5 && |s| > 1 && ReadProperties(OfDisconnect, s[1..]).Ok? ==>
      ReadDisconnect(s, v) == Ok(Disconnect(s[0], ReadProperties(OfDisconnect, s[1..]).value.0))
    ensures s == [] ==> ReadAuth(s) == Err(TooShort)
    ensures |s| == 1 ==> ReadAuth(s) == Ok(Auth(s[0], None))
    ensures |s| > 1 && ReadProperties(OfAuth, s[1..]).Ok? ==>
      ReadAuth(s) == Ok(Auth(s[0], ReadProperties(OfAuth, s[1..]).value.0))
  {
    hide ReadProperties;
  }

  /** A request is a filter and a byte of options; a filter without that byte is an error. */
  lemma RequestMeaning(s: bytes, v: Version)
    requires |s| >= 2 && |s| >= 2 + Word(s, 0)
    ensures var n := 2 + Word(s, 0);
      if |s| == n then ReadRequest(s, v) == Err(TooShort)
      else if ReadOptions(s[2..n], s[n], v).Ok? then ReadRequest(s, v) == Ok((ReadOptions(s[2..n], s[n], v).value, n + 1))
      else ReadRequest(s, v) == Err(ReadOptions(s[2..n], s[n], v).error)
  {
    hide ReadField, ReadOptions;
    FieldMeaning(s);
  }

  /** The options of a SUBSCRIBE, by their bits: the maximum QoS at the low end, 3 being an error; above it No Local,
    Retain As Published and Retain Handling, where 3 is an error again. Version 3.1.1 ignores all but the QoS. */
  lemma OptionsMeaning(filter: bytes, o: byte, qos: nat, noLocal: bool, asPublished: bool, handling: nat, top: nat,
                       v: Version)
    requires o == qos + 4 * OneIf(noLocal) + 8 * OneIf(asPublished) + 16 * handling + 64 * top && qos < 4 && handling < 4
    ensures ReadOptions(filter, o, v)
         == if qos == 3 then Err(InvalidQos)
            else if v == V311 then Ok(SubscriptionRequest(filter, qos, false, false, 0))
            else if handling == 3 then Err(InvalidRetainHandling)
            else Ok(SubscriptionRequest(filter, qos, noLocal, asPublished, handling))
  {
    var b2, b3 := OneIf(noLocal), OneIf(asPublished);
    assert o % 4 == qos && o / 4 == b2 + 2 * b3 + 4 * handling + 16 * top;
    assert o / 4 % 2 == b2 && o / 8 == b3 + 2 * handling + 8 * top;
    assert o / 8 % 2 == b3 && o / 16 == handling + 4 * top;
    assert o / 16 % 4 == handling;
  }

  /** A field and what follows it, found in exactly the bytes that begin with it. */
  lemma FieldAtFront(s: bytes, data: bytes, rest: bytes)
    ensures ReadField(s) == Ok((data, 2 + |data|)) && s[2 + |data|..] == rest <==> |data| < 65536 && s == Prefixed(data) + rest
  {
    hide ReadField;
    FieldMeaning(s);
    var n := 2 + |data|;
    if ReadField(s) == Ok((data, n)) && s[n..] == rest {
      assert s == [s[0], s[1]] + s[2..n] + s[n..];
      assert Word(s, 0) / 256 == s[0] && Word(s, 0) % 256 == s[1];
    }
    if |data| < 65536 && s == Prefixed(data) + rest {
      assert s[0] == |data| / 256 && s[1] == |data| % 256;
      assert s[2..n] == data && s[n..] == rest;
    }
  }

  /** The filters of an UNSUBSCRIBE are found in exactly the bytes that list them, to the end of the body. */
  lemma {:induction false} FiltersMeaning(s: bytes, filters: seq<bytes>)
    ensures ReadFilters(s) == Ok(filters) <==>
      s == StandardFilters(filters) && forall i :: 0 <= i < |filters| ==> |filters[i]| < 65536
    decreases |filters|
  {
    hide ReadField, Prefixed;
    if filters != [] {
      var data, others := filters[0], filters[1..];
      assert filters == [data] + others;
      if ReadFilters(s) == Ok(filters) {
        var n := ReadField(s).value.1;
        FieldAtFront(s, data, s[n..]);
        FiltersMeaning(s[n..], others);
        forall i | 0 <= i < |filters| ensures |filters[i]| < 65536 { if i > 0 { assert filters[i] == others[i - 1]; } }
      }
      if s == StandardFilters(filters) && forall i :: 0 <= i < |filters| ==> |filters[i]| < 65536 {
        FieldIsSomething(data);
        var rest := s[|Prefixed(data)|..];
        assert rest == StandardFilters(others) && s == Prefixed(data) + rest;
        FieldAtFront(s, data, rest);
        FiltersMeaning(rest, others);
      }
    }
  }

  lemma FieldIsSomething(data: bytes)
    ensures |Prefixed(data)| == 2 + |data|
  {}

  /** The filters of a SUBSCRIBE, each with its byte of options. */
  function Listed(requests: seq<SubscriptionRequest>, options: bytes): seq<int>
    requires |requests| == |options|
  {
    if requests == [] then [] else Prefixed(requests[0].filter) + [options[0]] + Listed(requests[1..], options[1..])
  }

  /** The requests of a SUBSCRIBE are found only in bytes that list them, to the end of the body, with options that say so. */
  lemma {:induction false} RequestsMeaning(s: bytes, v: Version) returns (options: bytes)
    requires ReadRequests(s, v).Ok?
    ensures var requests := ReadRequests(s, v).value;
      && |options| == |requests| && s == Listed(requests, options)
      && forall i :: 0 <= i < |options| ==> ReadOptions(requests[i].filter, options[i], v) == Ok(requests[i])
    decreases |s|
  {
    hide ReadField, Prefixed, ReadOptions;
    options := [];
    if s != [] {
      var (request, n) := ReadRequest(s, v).value;
      OneRequest(s, v);
      var others := RequestsMeaning(s[n..], v);
      options := [s[n - 1]] + others;
      var requests := ReadRequests(s, v).value;
      assert requests == [request] + requests[1..] && requests[1..] == ReadRequests(s[n..], v).value;
      assert options[1..] == others;
      forall i | 0 <= i < |options| ensures ReadOptions(requests[i].filter, options[i], v) == Ok(requests[i]) {
        if i > 0 { assert requests[i] == requests[1..][i - 1] && options[i] == others[i - 1]; }
      }
    }
  }

  lemma OneRequest(s: bytes, v: Version)
    requires ReadRequest(s, v).Ok?
    ensures var (r, n) := ReadRequest(s, v).value;
      ReadOptions(r.filter, s[n - 1], v) == Ok(r) && s == Prefixed(r.filter) + [s[n - 1]] + s[n..]
  {
    hide ReadField, Prefixed;
    var (filter, k) := ReadField(s).value;
    FieldAtFront(s, filter, s[k..]);
    OptionsKeepFilter(filter, s[k], v);
    assert s[k..] == [s[k]] + s[k + 1..];
  }

  lemma OptionsKeepFilter(filter: bytes, o: byte, v: Version)
    ensures ReadOptions(filter, o, v).Ok? ==> ReadOptions(filter, o, v).value.filter == filter
  {}

  /** SUBSCRIBE, SUBACK, UNSUBSCRIBE and UNSUBACK begin with the identifier and, in version 5.0, their properties; the
    rest are the requests, the codes or the filters, and an UNSUBACK of version 3.1.1 has no codes. */
  lemma ListsMeaning(s: bytes, v: Version)
    requires |s| >= 2
    ensures v == V311 ==>
      && ReadSubAck(s, v) == Ok(SubAck(Word(s, 0), s[2..], None))
      && ReadUnsubAck(s, v) == Ok(UnsubAck(Word(s, 0), [], None))
      && ReadUnsubscribe(s, v) == (match ReadFilters(s[2..])
                                   case Ok(filters) => Ok(Unsubscribe(Word(s, 0), filters, None))
                                   case Err(error) => Err(error))
      && ReadSubscribe(s, v) == (match ReadRequests(s[2..], v)
                                 case Ok(requests) => Ok(Subscribe(Word(s, 0), requests, None))
                                 case Err(error) => Err(error))
    ensures v == V5 && ReadProperties(OfSubAck, s[2..]).Ok? ==>
      var (p, n) := ReadProperties(OfSubAck, s[2..]).value; ReadSubAck(s, v) == Ok(SubAck(Word(s, 0), s[2 + n..], p))
    ensures v == V5 && ReadProperties(OfUnsubAck, s[2..]).Ok? ==>
      var (p, n) := ReadProperties(OfUnsubAck, s[2..]).value; ReadUnsubAck(s, v) == Ok(UnsubAck(Word(s, 0), s[2 + n..], p))
  {
    hide ReadProperties, ReadTwo, ReadRequests, ReadFilters;
    NumbersMeaning(s);
  }

  const PROTOCOL: seq<int> := [0, 4, 77, 81, 84, 84]

  /** CONNECT begins with the name of the protocol, a level of 4 or 5 and flags without will QoS 3. */
  lemma ConnectHeadMeaning(s: bytes)
    requires |s| >= 10
    ensures ReadConnectHead(s).Ok? <==> s[..6] == PROTOCOL && (s[6] == 4 || s[6] == 5) && s[7] / 8 % 4 != 3
    ensures ReadConnectHead(s).Ok? ==>
      ReadConnectHead(s).value == (ConnectHead(if s[6] == 5 then V5 else V311, s[7], Word(s, 8)), 10)
    ensures s[..6] == PROTOCOL && s[6] != 4 && s[6] != 5 ==> ReadConnectHead(s) == Err(InvalidProtocol)
    ensures s[..6] == PROTOCOL && (s[6] == 4 || s[6] == 5) && s[7] / 8 % 4 == 3 ==> ReadConnectHead(s) == Err(InvalidQos)
    ensures ReadField(s).Ok? && s[..6] != PROTOCOL ==> ReadConnectHead(s) == Err(InvalidProtocol)
  {
    hide ReadField, ReadTwo;
    FieldMeaning(s);
    if s[..6] == PROTOCOL {
      assert s[0] == s[..6][0] == 0 && s[1] == s[..6][1] == 4;
      assert s[2..6] == s[..6][2..6] == MQTT;
      assert s[8..][0] == s[8] && s[8..][1] == s[9];
      NumbersMeaning(s[8..]);
    }
  }

  // ----- Properties -----

  /** One property: its identifier says how its value is read, and an identifier that the standard does not
    assign is an error; a repeated one replaces the value, user properties are kept all. */
  lemma PropertyMeaning(s: bytes, d: Block)
    requires s != []
    ensures WireTypeOf(s[0]) == Unassigned ==> ReadProp(s, d) == Err(UnknownProperty)
    ensures WireTypeOf(s[0]) == OneByte && |s| >= 2 ==>
      ReadProp(s, d) == Ok((d.(scalars := d.scalars[s[0] := Number(s[1])]), 2))
    ensures WireTypeOf(s[0]) == TwoBytes && |s| >= 3 ==>
      ReadProp(s, d) == Ok((d.(scalars := d.scalars[s[0] := Number(Word(s, 1))]), 3))
    ensures WireTypeOf(s[0]) == FourBytes && |s| >= 5 ==>
      ReadProp(s, d) == Ok((d.(scalars := d.scalars[s[0] := Number(65536 * Word(s, 1) + Word(s, 3))]), 5))
    ensures WireTypeOf(s[0]) == Field && |s| >= 3 && |s| >= 3 + Word(s, 1) ==>
      ReadProp(s, d) == Ok((d.(scalars := d.scalars[s[0] := Data(s[3..3 + Word(s, 1)])]), 3 + Word(s, 1)))
  {
    hide WireTypeOf, ReadTwo, ReadFour, ReadField, ReadVarint, ReadPair;
    var rest := s[1..];
    NumbersMeaning(rest);
    FieldMeaning(rest);
    if |s| >= 3 && |s| >= 3 + Word(s, 1) { assert rest[2..2 + Word(s, 1)] == s[3..3 + Word(s, 1)]; }
  }

  /** The typed properties of a block: the fields of the packet's own kind, a flag being set by any byte but 0, and
    all user properties; a block without anything is None. */
  lemma TypedMeaning(kind: Kind, d: Block)
    ensures FromBlock(kind, d) == None <==> d.scalars == map[] && d.pairs == []
    ensures FromBlock(kind, d).Some? ==>
      var p := FromBlock(kind, d).value;
      && p.user == d.pairs && p.fields.Keys == (set id | id in d.scalars && id in Schema(kind))
      && (forall id :: id in p.fields && IsFlag(id) ==>
            p.fields[id] == Flag(d.scalars[id].Number? && d.scalars[id] != Number(0)))
      && (forall id :: id in p.fields && !IsFlag(id) ==> p.fields[id] == Plain(d.scalars[id]))
  {
    hide IsFlag, Schema;
  }
}
