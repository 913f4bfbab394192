/** The incremental reader: bytes arrive in chunks, packets come out. */
module Reader {
  import opened Prelude
  import opened Wire
  import opened Codec
  import opened Framing
  import opened CodecLoops

  /** What reading to the end of the available bytes gives: packets, the bytes left over, and the
    failure that stopped it, if there was one. */
  datatype Progress = Progress(packets: seq<Packet>, rest: bytes, failure: Option<WireError>)

  function ReadAll(s: bytes, v: Version): Progress
    decreases |s|
  {
    match Decode(s, v)
    case Incomplete => Progress([], s, None)
    case Failed(error) => Progress([], s, Some(error))
    case Decoded(packet, n) =>
      DecodeMakesProgress(s, v);
      var later := ReadAll(s[n..], v);
      later.(packets := [packet] + later.packets)
  }

  lemma ReadAllStops(s: bytes, v: Version)
    requires !Decode(s, v).Decoded?
    ensures ReadAll(s, v) == Progress([], s, if Decode(s, v).Failed? then Some(Decode(s, v).error) else None)
  {
    hide Decode;
  }

  lemma ReadAllGoesOn(s: bytes, v: Version)
    requires Decode(s, v).Decoded?
    ensures 2 <= Decode(s, v).consumed <= |s|
    ensures var later := ReadAll(s[Decode(s, v).consumed..], v);
      ReadAll(s, v) == later.(packets := [Decode(s, v).packet] + later.packets)
  {
    hide Decode;
    DecodeMakesProgress(s, v);
  }

  /** Packets already read, then what is read later. */
  function Behind(front: seq<Packet>, later: Progress): Progress { later.(packets := front + later.packets) }

  lemma BehindBehind(a: seq<Packet>, b: seq<Packet>, later: Progress)
    ensures Behind(a, Behind(b, later)) == Behind(a + b, later)
  {
    assert a + (b + later.packets) == a + b + later.packets;
  }

  lemma BehindNothing(later: Progress)
    ensures Behind([], later) == later
  {
    assert [] + later.packets == later.packets;
  }

  /** More bytes after an unfinished packet: the packets so far, then those of what was left. */
  lemma {:induction false} ReadAllInTwo(s: bytes, more: bytes, v: Version)
    ensures ReadAll(s, v).failure.None? ==>
      ReadAll(s + more, v) == Behind(ReadAll(s, v).packets, ReadAll(ReadAll(s, v).rest + more, v))
    ensures ReadAll(s, v).failure.Some? ==>
      ReadAll(s + more, v) == ReadAll(s, v).(rest := ReadAll(s, v).rest + more)
    decreases |s|
  {
    hide Decode, ReadAll;
    var one := Decode(s, v);
    if one.Decoded? {
      ReadAllGoesOn(s, v);
      DecodeIsPrefixStable(s, more, v);
      ReadAllGoesOn(s + more, v);
      assert (s + more)[one.consumed..] == s[one.consumed..] + more;
      ReadAllInTwo(s[one.consumed..], more, v);
      var first := ReadAll(s[one.consumed..], v);
      BehindBehind([one.packet], first.packets, ReadAll(first.rest + more, v));
    } else {
      ReadAllStops(s, v);
      BehindNothing(ReadAll(s + more, v));
      if one.Failed? {
        DecodeIsPrefixStable(s, more, v);
        ReadAllStops(s + more, v);
      }
    }
  }

  /** Reading stops at once only at an unfinished packet or at a failure; the rest of a rest is itself. */
  lemma {:induction false} RestIsStuck(s: bytes, v: Version)
    ensures var r := ReadAll(s, v); ReadAll(r.rest, v) == Progress([], r.rest, r.failure)
    decreases |s|
  {
    hide Decode;
    if Decode(s, v).Decoded? {
      DecodeMakesProgress(s, v);
      RestIsStuck(s[Decode(s, v).consumed..], v);
    }
  }

  // ----- Any chunking -----

  function Concat(chunks: seq<bytes>): bytes {
    if chunks == [] then [] else Concat(chunks[..|chunks| - 1]) + chunks[|chunks| - 1]
  }

  /** Feeding the chunks one by one, reading as far as possible after each. */
  function ReadChunks(chunks: seq<bytes>, v: Version): Progress {
    if chunks == [] then Progress([], [], None)
    else
      var before := ReadChunks(chunks[..|chunks| - 1], v);
      var fed := before.rest + chunks[|chunks| - 1];
      var later := ReadAll(fed, v);
      later.(packets := before.packets + later.packets)
  }

  /** For every stream and every way to cut it: the same packets in the same order, the same bytes
    left over and the same failure as from the whole stream at once. */
  lemma {:induction false} ChunkingDoesNotMatter(chunks: seq<bytes>, v: Version)
    ensures ReadChunks(chunks, v) == ReadAll(Concat(chunks), v)
  {
    if chunks == [] {
      assert ReadAll([], v) == Progress([], [], None);
    } else {
      var front, last := chunks[..|chunks| - 1], chunks[|chunks| - 1];
      ChunkingDoesNotMatter(front, v);
      var before := ReadAll(Concat(front), v);
      ReadAllInTwo(Concat(front), last, v);
      if before.failure.Some? {
        RestIsStuck(Concat(front), v);
        ReadAllInTwo(before.rest, last, v);
        assert before.packets + [] == before.packets;
      }
    }
  }

  function EncodeAll(packets: seq<Packet>, v: Version): Written {
    if packets == [] then Ok([]) else Join(Encode(packets[0], v), EncodeAll(packets[1..], v))
  }

  function NormalAll(packets: seq<Packet>, v: Version): seq<Packet> {
    if packets == [] then [] else [Normal(packets[0], v)] + NormalAll(packets[1..], v)
  }

  /** A stream of encoded packets, with any unfinished packet behind it, reads as those packets in
    their normal forms. */
  lemma {:induction false} StreamRoundTrip(packets: seq<Packet>, tail: bytes, v: Version)
    requires forall i :: 0 <= i < |packets| ==> PropertiesTyped(packets[i])
    requires EncodeAll(packets, v).Ok? && Decode(tail, v) == Incomplete
    ensures ReadAll(EncodeAll(packets, v).value + tail, v) == Progress(NormalAll(packets, v), tail, None)
    decreases |packets|
  {
    hide Encode, Decode, Normal, PropertiesTyped;
    if packets == [] {
      assert [] + tail == tail;
    } else {
      var first, others := Encode(packets[0], v).value, EncodeAll(packets[1..], v).value;
      RoundTrip(packets[0], v, others + tail);
      var s := EncodeAll(packets, v).value + tail;
      assert s == first + (others + tail);
      assert s[|first|..] == others + tail;
      StreamRoundTrip(packets[1..], tail, v);
    }
  }

  // ----- The reader as an object -----

  class PacketBuffer {
    const version: Version
    var buf: bytes
    /** Everything fed and everything yielded so far. */
    ghost var fed: bytes
    ghost var yielded: seq<Packet>

    /** What is still to come from the buffer is what the whole stream gives after the yielded packets. */
    ghost predicate Valid()
      reads this
    {
      ReadAll(fed, version) == Behind(yielded, ReadAll(buf, version))
    }

    constructor (version: Version)
      ensures Valid() && this.version == version && fed == [] && yielded == [] && buf == []
    {
      this.version := version;
      buf, fed, yielded := [], [], [];
      new;
      BehindNothing(ReadAll([], version));
    }

    method Feed(data: bytes)
      requires Valid()
      modifies this`buf, this`fed
      ensures Valid() && fed == old(fed) + data && buf == old(buf) + data
    {
      hide Decode, ReadAll;
      ReadAllInTwo(fed, data, version);
      ReadAllInTwo(buf, data, version);
      ghost var left := ReadAll(buf, version);
      if left.failure.None? { BehindBehind(yielded, left.packets, ReadAll(left.rest + data, version)); }
      buf := buf + data;
      fed := fed + data;
    }

    /** One step of the iteration: a packet, the end of what is complete, or the failure. */
    method Next() returns (r: Outcome)
      requires Valid()
      modifies this`buf, this`yielded
      ensures Valid() && r == Decode(old(buf), version)
      ensures r.Decoded? ==> yielded == old(yielded) + [r.packet] && |buf| < |old(buf)|
      ensures !r.Decoded? ==> yielded == old(yielded) && buf == old(buf)
    {
      hide Decode;
      r := DecodeFrame(buf, version);
      if r.Decoded? {
        DecodeMakesProgress(buf, version);
        ReadAllGoesOn(buf, version);
        BehindBehind(yielded, [r.packet], ReadAll(buf[r.consumed..], version));
        buf := buf[r.consumed..];
        yielded := yielded + [r.packet];
      }
    }

    /** The whole iteration: afterwards exactly the packets of the whole stream have been yielded. */
    method Drain() returns (packets: seq<Packet>, failure: Option<WireError>)
      requires Valid()
      modifies this`buf, this`yielded
      ensures Valid() && yielded == old(yielded) + packets
      ensures yielded == ReadAll(fed, version).packets && failure == ReadAll(fed, version).failure
      ensures buf == ReadAll(fed, version).rest
    {
      packets := [];
      while true
        invariant Valid() && yielded == old(yielded) + packets
        decreases |buf|
      {
        var one := Next();
        match one
        case Decoded(packet, _) => packets := packets + [packet];
        case Incomplete =>
          failure := None;
          break;
        case Failed(error) =>
          failure := Some(error);
          break;
      }
      assert yielded + [] == yielded;
    }
  }
}
