/** Property blocks (section 2.2.2 of MQTT Version 5.0): the table of identifiers and wire types, the
  generic block, and the typed properties of each kind of packet. */
module PropertyBlocks {
  import opened Prelude
  import opened Wire

  datatype WireType = OneByte | TwoBytes | FourBytes | Varint | Field | StringPair | Unassigned

  const USER_PROPERTY := 0x26

  function WireTypeOf(id: int): WireType {
    if id in {0x01, 0x17, 0x19, 0x24, 0x25, 0x28, 0x29, 0x2A} then OneByte
    else if id in {0x13, 0x21, 0x22, 0x23} then TwoBytes
    else if id in {0x02, 0x11, 0x18, 0x27} then FourBytes
    else if id == 0x0B then Varint
    else if id in {0x03, 0x08, 0x12, 0x15, 0x1F, 0x1A, 0x1C, 0x09, 0x16} then Field
    else if id == USER_PROPERTY then StringPair
    else Unassigned
  }

  /** An integer, or a string or binary data. */
  datatype Value = Number(n: int) | Data(data: bytes)

  type Entry = (int, Value)
  type Pair = (bytes, bytes)

  /** A decoded block: the last value of every scalar property, and the user properties in order. */
  datatype Block = Block(scalars: map<int, Value>, pairs: seq<Pair>)

  const EmptyBlock := Block(map[], [])

  // ----- The generic block -----

  function After(front: bytes, rest: Written): Written {
    var b :- rest;
    Ok(front + b)
  }

  function Id(id: int): Written
    ensures Id(id).Ok? ==> Id(id).value == [id]
  {
    PackByte(id)
  }

  function PackPayload(id: int, v: Value): Written {
    match v
    case Number(n) =>
      (match WireTypeOf(id)
       case OneByte => PackByte(n)
       case TwoBytes => PackTwo(n)
       case FourBytes => PackFour(n)
       case Varint => PackVarint(n)
       case _ => Err(OutOfRange))
    case Data(data) => if WireTypeOf(id) == Field then PackField(data) else Err(OutOfRange)
  }

  function PackEntry(e: Entry): Written {
    var id :- Id(e.0);
    After(id, PackPayload(e.0, e.1))
  }

  function PackPair(p: Pair): Written {
    var name :- PackField(p.0);
    var value :- PackField(p.1);
    Ok([USER_PROPERTY] + name + value)
  }

  function PackEntries(entries: seq<Entry>): Written {
    if entries == [] then Ok([])
    else
      var first :- PackEntry(entries[0]);
      After(first, PackEntries(entries[1..]))
  }

  function PackPairs(pairs: seq<Pair>): Written {
    if pairs == [] then Ok([])
    else
      var first :- PackPair(pairs[0]);
      After(first, PackPairs(pairs[1..]))
  }

  /** The scalar properties in the order of the dictionary, then the user properties. */
  function PackProps(entries: seq<Entry>, pairs: seq<Pair>): Written {
    var front :- PackEntries(entries);
    After(front, PackPairs(pairs))
  }

  function PackBlock(entries: seq<Entry>, pairs: seq<Pair>): Written {
    var raw :- PackProps(entries, pairs);
    var length :- PackVarint(|raw|);
    Ok(length + raw)
  }

  function ReadPayload(id: int, s: bytes): (r: Read<Value>)
    ensures r.Ok? ==> r.value.1 <= |s|
  {
    match WireTypeOf(id)
    case OneByte => var (n, used) :- ReadByte(s); Ok((Number(n), used))
    case TwoBytes => var (n, used) :- ReadTwo(s); Ok((Number(n), used))
    case FourBytes => var (n, used) :- ReadFour(s); Ok((Number(n), used))
    case Varint => var (n, used) :- ReadVarint(s); Ok((Number(n), used))
    case Field => var (data, used) :- ReadField(s); Ok((Data(data), used))
    case _ => Err(UnknownProperty)
  }

  function ReadPair(s: bytes): (r: Read<Pair>)
    ensures r.Ok? ==> r.value.1 <= |s|
  {
    var (name, n) :- ReadField(s);
    var (value, m) :- ReadField(s[n..]);
    Ok(((name, value), n + m))
  }

  /** One property, identifier included, put into the block. */
  function ReadProp(s: bytes, d: Block): (r: Read<Block>)
    ensures r.Ok? ==> 1 <= r.value.1 <= |s|
  {
    if s == [] then Err(TooShort)
    else if WireTypeOf(s[0]) == Unassigned then Err(UnknownProperty)
    else if WireTypeOf(s[0]) == StringPair then
      var (p, n) :- ReadPair(s[1..]);
      Ok((d.(pairs := d.pairs + [p]), 1 + n))
    else
      var (v, n) :- ReadPayload(s[0], s[1..]);
      Ok((d.(scalars := d.scalars[s[0] := v]), 1 + n))
  }

  /** Properties until `left` bytes are used up; the last one may run past them. */
  function ReadProps(s: bytes, left: int, d: Block): (r: Result<Block, WireError>)
    ensures r.Ok? ==> left <= |s|
    decreases |s|
  {
    if left <= 0 then Ok(d)
    else
      var (more, n) :- ReadProp(s, d);
      ReadProps(s[n..], left - n, more)
  }

  function ReadBlock(s: bytes): (r: Read<Block>)
    ensures r.Ok? ==> r.value.1 <= |s|
  {
    var (length, n) :- ReadVarint(s);
    var d :- ReadProps(s[n..], length, EmptyBlock);
    Ok((d, n + length))
  }

  // ----- Every property is read by the wire type it was written with -----

  lemma PayloadRoundTrip(id: int, v: Value, rest: bytes)
    requires PackPayload(id, v).Ok?
    ensures ReadPayload(id, PackPayload(id, v).value + rest) == Ok((v, |PackPayload(id, v).value|))
  {
    hide PackByte, PackTwo, PackFour, PackVarint, PackField, ReadByte, ReadTwo, ReadFour, ReadVarint, ReadField, WireTypeOf;
    match v
    case Number(n) =>
      ByteRoundTrip(n, rest);
      TwoRoundTrip(n, rest);
      FourRoundTrip(n, rest);
      VarintRoundTrip(n, rest);
    case Data(data) =>
      FieldRoundTrip(data, rest);
  }

  /** The value fits the wire type of its property. */
  predicate InRange(id: int, v: Value) {
    match WireTypeOf(id)
    case OneByte => v.Number? && 0 <= v.n < 0x100
    case TwoBytes => v.Number? && 0 <= v.n < 0x1_0000
    case FourBytes => v.Number? && 0 <= v.n < 0x1_0000_0000
    case Varint => v.Number? && 0 <= v.n <= MAX_VARINT
    case Field => v.Data? && |v.data| < 0x1_0000
    case _ => false
  }

  lemma ValueFits(e: Entry)
    ensures PackEntry(e).Ok? <==> InRange(e.0, e.1)
  {
    hide WireTypeOf;
    assert WireTypeOf(e.0) != Unassigned ==> 0 <= e.0 < 0x100 by { AssignedIds(e.0); }
  }

  lemma AssignedIds(id: int)
    ensures WireTypeOf(id) != Unassigned ==> 0 < id < 0x100
  {}

  lemma PairRoundTrip(p: Pair, rest: bytes)
    requires PackPair(p).Ok?
    ensures var b := PackPair(p).value;
      b != [] && b[0] == USER_PROPERTY && ReadPair((b + rest)[1..]) == Ok((p, |b| - 1))
  {
    hide PackField, ReadField;
    var name, value := PackField(p.0).value, PackField(p.1).value;
    var b := PackPair(p).value;
    assert (b + rest)[1..] == name + (value + rest);
    FieldRoundTrip(p.0, value + rest);
    FieldRoundTrip(p.1, rest);
    assert (name + (value + rest))[|name|..] == value + rest;
  }

  lemma EntryIsRead(e: Entry, rest: bytes, d: Block)
    requires PackEntry(e).Ok?
    ensures var b := PackEntry(e).value;
      b != [] && ReadProp(b + rest, d) == Ok((d.(scalars := d.scalars[e.0 := e.1]), |b|))
  {
    hide PackPayload, ReadPayload;
    var payload := PackPayload(e.0, e.1).value;
    var s := PackEntry(e).value + rest;
    assert PackEntry(e).value == [e.0] + payload;
    assert s[1..] == payload + rest;
    PayloadRoundTrip(e.0, e.1, rest);
    PayloadIsTyped(e.0, e.1);
  }

  lemma PayloadIsTyped(id: int, v: Value)
    ensures PackPayload(id, v).Ok? ==> WireTypeOf(id) != Unassigned && WireTypeOf(id) != StringPair
  {}

  lemma PairIsRead(p: Pair, rest: bytes, d: Block)
    requires PackPair(p).Ok?
    ensures var b := PackPair(p).value; b != [] && ReadProp(b + rest, d) == Ok((d.(pairs := d.pairs + [p]), |b|))
  {
    hide PackPair, ReadPair;
    PairRoundTrip(p, rest);
  }

  lemma OnePropRead(b: bytes, rest: bytes, left: int, d: Block, more: Block)
    requires b != [] && left >= |b| && ReadProp(b + rest, d) == Ok((more, |b|))
    ensures ReadProps(b + rest, left, d) == ReadProps(rest, left - |b|, more)
  {
    hide ReadProp;
    assert (b + rest)[|b|..] == rest;
  }

  function PutAll(d: Block, entries: seq<Entry>): Block
    decreases |entries|
  {
    if entries == [] then d
    else PutAll(d.(scalars := d.scalars[entries[0].0 := entries[0].1]), entries[1..])
  }

  lemma {:induction false} EntriesAreRead(entries: seq<Entry>, rest: bytes, left: int, d: Block)
    requires PackEntries(entries).Ok? && left >= |PackEntries(entries).value|
    ensures var b := PackEntries(entries).value;
      ReadProps(b + rest, left, d) == ReadProps(rest, left - |b|, PutAll(d, entries))
  {
    hide PackEntry, ReadProps;
    var b := PackEntries(entries).value;
    if entries == [] {
      assert b + rest == rest;
    } else {
      var first, others := PackEntry(entries[0]).value, PackEntries(entries[1..]).value;
      assert b + rest == first + (others + rest);
      EntryIsRead(entries[0], others + rest, d);
      OnePropRead(first, others + rest, left, d, d.(scalars := d.scalars[entries[0].0 := entries[0].1]));
      EntriesAreRead(entries[1..], rest, left - |first|, d.(scalars := d.scalars[entries[0].0 := entries[0].1]));
    }
  }

  lemma {:induction false} PairsAreRead(pairs: seq<Pair>, rest: bytes, left: int, d: Block)
    requires PackPairs(pairs).Ok? && left >= |PackPairs(pairs).value|
    ensures var b := PackPairs(pairs).value;
      ReadProps(b + rest, left, d) == ReadProps(rest, left - |b|, d.(pairs := d.pairs + pairs))
  {
    hide PackPair, ReadProps;
    var b := PackPairs(pairs).value;
    if pairs == [] {
      assert b + rest == rest && d.pairs + pairs == d.pairs;
    } else {
      var first, others := PackPair(pairs[0]).value, PackPairs(pairs[1..]).value;
      assert b + rest == first + (others + rest);
      PairIsRead(pairs[0], others + rest, d);
      OnePropRead(first, others + rest, left, d, d.(pairs := d.pairs + [pairs[0]]));
      PairsAreRead(pairs[1..], rest, left - |first|, d.(pairs := d.pairs + [pairs[0]]));
      assert d.pairs + [pairs[0]] + pairs[1..] == d.pairs + pairs;
    }
  }

  /** A block reads back as what was written, and takes all its bytes, the length prefix included. */
  lemma BlockRoundTrip(entries: seq<Entry>, pairs: seq<Pair>, rest: bytes)
    requires PackBlock(entries, pairs).Ok?
    ensures ReadBlock(PackBlock(entries, pairs).value + rest)
         == Ok((PutAll(EmptyBlock, entries).(pairs := pairs), |PackBlock(entries, pairs).value|))
  {
    hide PackEntries, PackPairs, PackVarint, ReadVarint, ReadProps;
    var front, back := PackEntries(entries).value, PackPairs(pairs).value;
    var raw := PackProps(entries, pairs).value;
    var length := PackVarint(|raw|).value;
    var s := PackBlock(entries, pairs).value + rest;
    assert s == length + (raw + rest);
    VarintRoundTrip(|raw|, raw + rest);
    assert s[|length|..] == front + (back + rest);
    EntriesAreRead(entries, back + rest, |raw|, EmptyBlock);
    var d := PutAll(EmptyBlock, entries);
    PutAllKeepsPairs(EmptyBlock, entries);
    PairsAreRead(pairs, rest, |back|, d);
    assert d.pairs + pairs == pairs;
    NothingLeft(rest, d.(pairs := pairs));
  }

  lemma NothingLeft(s: bytes, d: Block)
    ensures ReadProps(s, 0, d) == Ok(d)
  {}

  lemma {:induction false} PutAllKeepsPairs(d: Block, entries: seq<Entry>)
    ensures PutAll(d, entries).pairs == d.pairs
    decreases |entries|
  {
    if entries != [] { PutAllKeepsPairs(d.(scalars := d.scalars[entries[0].0 := entries[0].1]), entries[1..]); }
  }

  // ----- The loops of the generic block -----

  method EncodeProps(entries: seq<Entry>, pairs: seq<Pair>) returns (r: Written)
    ensures r == PackProps(entries, pairs)
  {
    hide PackEntry, PackPair, PackEntries, PackPairs;
    var buf: bytes := [];
    NothingBefore(PackEntries(entries));
    assert entries[0..] == entries && pairs[0..] == pairs;
    for i := 0 to |entries|
      invariant PackEntries(entries) == After(buf, PackEntries(entries[i..]))
    {
      EntriesFrom(entries, i);
      var one := PackEntry(entries[i]);
      if one.Err? {
        return Err(one.error);
      }
      AfterAfter(buf, one.value, PackEntries(entries[i + 1..]));
      buf := buf + one.value;
    }
    NonePacked(entries[|entries|..], pairs[|pairs|..]);
    ghost var front := buf;
    assert buf + [] == buf;
    for i := 0 to |pairs|
      invariant After(front, PackPairs(pairs)) == After(buf, PackPairs(pairs[i..]))
    {
      PairsFrom(pairs, i);
      var one := PackPair(pairs[i]);
      if one.Err? {
        return Err(one.error);
      }
      AfterAfter(buf, one.value, PackPairs(pairs[i + 1..]));
      buf := buf + one.value;
    }
    assert buf + [] == buf;
    r := Ok(buf);
  }

  lemma EntriesFrom(entries: seq<Entry>, i: nat)
    requires i < |entries|
    ensures PackEntries(entries[i..])
         == if PackEntry(entries[i]).Err? then Err(PackEntry(entries[i]).error)
            else After(PackEntry(entries[i]).value, PackEntries(entries[i + 1..]))
  {
    assert entries[i..][0] == entries[i] && entries[i..][1..] == entries[i + 1..];
  }

  lemma PairsFrom(pairs: seq<Pair>, i: nat)
    requires i < |pairs|
    ensures PackPairs(pairs[i..])
         == if PackPair(pairs[i]).Err? then Err(PackPair(pairs[i]).error)
            else After(PackPair(pairs[i]).value, PackPairs(pairs[i + 1..]))
  {
    assert pairs[i..][0] == pairs[i] && pairs[i..][1..] == pairs[i + 1..];
  }

  lemma NonePacked(entries: seq<Entry>, pairs: seq<Pair>)
    requires entries == [] && pairs == []
    ensures PackEntries(entries) == Ok([]) && PackPairs(pairs) == Ok([])
  {}

  lemma NothingBefore(rest: Written)
    ensures After([], rest) == rest
  {
    if rest.Ok? { assert [] + rest.value == rest.value; }
  }

  lemma AfterAfter(a: bytes, b: bytes, rest: Written)
    ensures After(a, After(b, rest)) == After(a + b, rest)
  {
    if rest.Ok? { assert a + (b + rest.value) == a + b + rest.value; }
  }

  method EncodePropsBlock(entries: seq<Entry>, pairs: seq<Pair>) returns (r: Written)
    ensures r == PackBlock(entries, pairs)
  {
    if entries == [] && pairs == [] {
      r := EncodeVarint(0);
      assert PackProps(entries, pairs) == Ok([]) && r == Ok([0]);
      assert r.value + [] == r.value;
      return;
    }
    var raw := EncodeProps(entries, pairs);
    if raw.Err? {
      return raw;
    }
    var length := EncodeVarint(|raw.value|);
    if length.Err? {
      return length;
    }
    r := Ok(length.value + raw.value);
  }

  /** The value of one scalar property. */
  method DecodePayload(id: int, buf: bytes, offset: nat) returns (r: Read<Value>)
    requires offset <= |buf|
    ensures r == ReadPayload(id, buf[offset..])
  {
    if WireTypeOf(id) == Varint {
      var n := DecodeVarint(buf, offset);
      if n.Err? {
        return Err(n.error);
      }
      return Ok((Number(n.value.0), n.value.1));
    }
    r := ReadPayload(id, buf[offset..]);
  }

  method DecodeProp(buf: bytes, offset: nat, d: Block) returns (r: Read<Block>)
    requires offset <= |buf|
    ensures r == ReadProp(buf[offset..], d)
  {
    hide ReadPayload, ReadPair, WireTypeOf;
    if offset >= |buf| {
      return Err(TooShort);
    }
    var id, pos := buf[offset], offset + 1;
    assert buf[offset..][1..] == buf[pos..];
    if WireTypeOf(id) == Unassigned {
      return Err(UnknownProperty);
    }
    if WireTypeOf(id) == StringPair {
      var pair := ReadPair(buf[pos..]);
      if pair.Err? {
        return Err(pair.error);
      }
      return Ok((d.(pairs := d.pairs + [pair.value.0]), 1 + pair.value.1));
    }
    var value := DecodePayload(id, buf, pos);
    if value.Err? {
      return Err(value.error);
    }
    r := Ok((d.(scalars := d.scalars[id := value.value.0]), 1 + value.value.1));
  }

  method DecodePropsBlock(buf: bytes, offset: nat) returns (r: Read<Block>)
    ensures r == ReadBlock(Skip(buf, offset))
  {
    hide ReadProp;
    var prefix := DecodeVarint(buf, offset);
    if prefix.Err? {
      return Err(prefix.error);
    }
    var (length, n) := prefix.value;
    var pos, end := offset + n, offset + n + length;
    assert Skip(buf, offset)[n..] == buf[pos..];
    var d := EmptyBlock;
    while pos < end
      invariant offset + n <= pos <= |buf|
      invariant ReadProps(buf[offset + n..], length, EmptyBlock) == ReadProps(buf[pos..], end - pos, d)
      decreases end - pos
    {
      var one := DecodeProp(buf, pos, d);
      if one.Err? {
        return Err(one.error);
      }
      assert buf[pos..][one.value.1..] == buf[pos + one.value.1..];
      d := one.value.0;
      pos := pos + one.value.1;
    }
    r := Ok((d, n + length));
  }
}
