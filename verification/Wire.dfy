/** The wire formats below packets: fixed-width integers, variable byte integers and
  length-prefixed fields. A reader takes the bytes from its position on, and says how many it used. */
module Wire {
  import opened Prelude

  type byte = x: int | 0 <= x < 256

  type bytes = seq<byte>

  datatype WireError =
    | OutOfRange | TooShort | VarintTooLong
    | UnknownProperty | UnknownPacketType | MissingPacketId
    | InvalidProtocol | InvalidQos | InvalidRetainHandling

  /** A value and the number of bytes it took. */
  type Read<+T> = Result<(T, nat), WireError>

  type Written = Result<bytes, WireError>

  const MAX_VARINT := 268_435_455

  /** What is left after `n` bytes; nothing when there are fewer. */
  function Skip(s: bytes, n: nat): (r: bytes)
    ensures |r| <= |s|
  {
    if n <= |s| then s[n..] else []
  }

  // ----- Fixed-width integers -----

  function PackByte(n: int): Written { if 0 <= n < 0x100 then Ok([n]) else Err(OutOfRange) }

  function PackTwo(n: int): Written {
    if 0 <= n < 0x1_0000 then Ok([n / 0x100, n % 0x100]) else Err(OutOfRange)
  }

  function PackFour(n: int): Written {
    if 0 <= n < 0x1_0000_0000 then
      Ok([n / 0x100 / 0x100 / 0x100, n / 0x100 / 0x100 % 0x100, n / 0x100 % 0x100, n % 0x100])
    else Err(OutOfRange)
  }

  /** One more byte at the low end. */
  function BigEndian(high: nat, low: nat): nat { high * 0x100 + low }

  function ReadByte(s: bytes): Read<nat> { if |s| < 1 then Err(TooShort) else Ok((s[0], 1)) }

  function ReadTwo(s: bytes): Read<nat> { if |s| < 2 then Err(TooShort) else Ok((BigEndian(s[0], s[1]), 2)) }

  function ReadFour(s: bytes): Read<nat> {
    if |s| < 4 then Err(TooShort)
    else Ok((BigEndian(BigEndian(BigEndian(s[0], s[1]), s[2]), s[3]), 4))
  }

  lemma ByteRoundTrip(n: int, rest: bytes)
    ensures PackByte(n).Ok? ==> ReadByte(PackByte(n).value + rest) == Ok((n, 1)) && |PackByte(n).value| == 1
  {}

  lemma TwoRoundTrip(n: int, rest: bytes)
    ensures PackTwo(n).Ok? ==> ReadTwo(PackTwo(n).value + rest) == Ok((n, 2)) && |PackTwo(n).value| == 2
  {}

  lemma FourRoundTrip(n: int, rest: bytes)
    ensures PackFour(n).Ok? ==> ReadFour(PackFour(n).value + rest) == Ok((n, 4)) && |PackFour(n).value| == 4
  {
    if PackFour(n).Ok? {
      var high := n / 0x100 / 0x100;
      assert BigEndian(high / 0x100, high % 0x100) == high;
      assert BigEndian(high, n / 0x100 % 0x100) == n / 0x100;
      assert BigEndian(n / 0x100, n % 0x100) == n;
    }
  }

  // ----- Variable byte integers (section 1.5.5 of MQTT Version 5.0) -----

  function VarintBytes(n: nat): (r: bytes)
    ensures r != []
  {
    if n < 0x80 then [n] else [n % 0x80 + 0x80] + VarintBytes(n / 0x80)
  }

  function PackVarint(n: int): Written {
    if n < 0 || n > MAX_VARINT then Err(OutOfRange) else Ok(VarintBytes(n))
  }

  /** A variable byte integer of at most `most` bytes. */
  function ReadVarintUpTo(s: bytes, most: nat): (r: Read<nat>)
    ensures r.Ok? ==> 1 <= r.value.1 <= most && r.value.1 <= |s|
    decreases most
  {
    if most == 0 then Err(VarintTooLong)
    else if s == [] then Err(TooShort)
    else if s[0] < 0x80 then Ok((s[0], 1))
    else
      var (high, n) :- ReadVarintUpTo(s[1..], most - 1);
      Ok((s[0] - 0x80 + 0x80 * high, n + 1))
  }

  function ReadVarint(s: bytes): (r: Read<nat>)
    ensures r.Ok? ==> 1 <= r.value.1 <= 4 && r.value.1 <= |s|
  {
    ReadVarintUpTo(s, 4)
  }

  /** `128 ** k`. */
  function Radix(k: nat): (r: nat)
    ensures r >= 1
  {
    if k == 0 then 1 else 0x80 * Radix(k - 1)
  }

  lemma {:induction false} VarintRoundTripUpTo(n: nat, rest: bytes, most: nat)
    requires most >= 1 && n < Radix(most)
    ensures ReadVarintUpTo(VarintBytes(n) + rest, most) == Ok((n, |VarintBytes(n)|))
  {
    if n >= 0x80 {
      assert Radix(most) == 0x80 * Radix(most - 1);
      assert Radix(1) == 0x80 by { assert Radix(0) == 1; }
      assert n / 0x80 < Radix(most - 1);
      VarintRoundTripUpTo(n / 0x80, rest, most - 1);
      assert (VarintBytes(n) + rest)[1..] == VarintBytes(n / 0x80) + rest;
    }
  }

  /** Decoding gives the encoded value back and takes exactly its bytes, at most four. */
  lemma VarintRoundTrip(n: int, rest: bytes)
    ensures PackVarint(n).Ok? <==> 0 <= n <= MAX_VARINT
    ensures PackVarint(n).Ok? ==>
      ReadVarint(PackVarint(n).value + rest) == Ok((n, |PackVarint(n).value|)) && 1 <= |PackVarint(n).value| <= 4
  {
    if PackVarint(n).Ok? {
      assert Radix(4) == 0x80 * (0x80 * (0x80 * (0x80 * Radix(0))));
      VarintRoundTripUpTo(n, rest, 4);
    }
  }

  /** A whole varint is not read differently when more bytes follow; a strict prefix of one is too short. */
  lemma {:induction false} VarintIsPrefixStable(s: bytes, more: bytes, most: nat)
    ensures ReadVarintUpTo(s, most) != Err(TooShort) ==> ReadVarintUpTo(s + more, most) == ReadVarintUpTo(s, most)
    decreases most
  {
    if most > 0 && s != [] && s[0] >= 0x80 {
      assert (s + more)[1..] == s[1..] + more;
      VarintIsPrefixStable(s[1..], more, most - 1);
    }
  }

  lemma {:induction false} VarintPrefixIsTooShort(n: nat, k: nat, most: nat)
    requires most >= 1 && n < Radix(most) && k < |VarintBytes(n)|
    ensures ReadVarintUpTo(VarintBytes(n)[..k], most) == Err(TooShort)
  {
    if k > 0 {
      assert n >= 0x80;
      assert Radix(1) == 0x80 by { assert Radix(0) == 1; }
      assert n / 0x80 < Radix(most - 1);
      VarintPrefixIsTooShort(n / 0x80, k - 1, most - 1);
      assert VarintBytes(n)[..k][1..] == VarintBytes(n / 0x80)[..k - 1];
    }
  }

  /** Seven bits at a time, least significant first. */
  method EncodeVarint(value: int) returns (r: Written)
    ensures r == PackVarint(value)
  {
    if value < 0 || value > MAX_VARINT {
      return Err(OutOfRange);
    }
    var left: nat, result: bytes := value, [];
    while true
      invariant result + VarintBytes(left) == VarintBytes(value)
      decreases left
    {
      var low := left % 0x80;
      if left / 0x80 != 0 {
        assert VarintBytes(left) == [low + 0x80] + VarintBytes(left / 0x80);
        result := result + [low + 0x80];
        left := left / 0x80;
      } else {
        result := result + [low];
        break;
      }
    }
    r := Ok(result);
  }

  method DecodeVarint(buf: bytes, offset: nat) returns (r: Read<nat>)
    ensures r == ReadVarint(Skip(buf, offset))
  {
    hide AddScaled, Continued, ReadVarintUpTo;
    var multiplier: nat, value: nat := 1, 0;
    var s := Skip(buf, offset);
    NothingRead(ReadVarintUpTo(s, 4));
    for i := 0 to 4
      invariant i <= |s| && multiplier >= 1 && value >= 0
      invariant ReadVarint(s) == Continued(value, multiplier, i, ReadVarintUpTo(s[i..], 4 - i))
    {
      var pos := offset + i;
      if pos >= |buf| {
        assert s[i..] == [];
        NothingMore(value, multiplier, i, s[i..], 4 - i);
        return Err(TooShort);
      }
      var b: int := buf[pos];
      assert s[i] == b;
      ContinuedStep(value, multiplier, i, s[i..], 4 - i);
      assert s[i..][1..] == s[i + 1..];
      var low := b % 0x80;
      value := AddScaled(value, low, multiplier);
      if b < 0x80 {
        return Ok((value, i + 1));
      }
      multiplier := multiplier * 0x80;
    }
    NothingMore(value, multiplier, 4, s[4..], 0);
    r := Err(VarintTooLong);
  }

  function AddScaled(value: nat, low: nat, multiplier: nat): nat { value + low * multiplier }

  /** The result of the whole read when `done` bytes gave `value` and the rest is still to be added. */
  function Continued(value: nat, multiplier: nat, done: nat, rest: Read<nat>): Read<nat> {
    var (high, n) :- rest;
    Ok((AddScaled(value, high, multiplier), done + n))
  }

  lemma NothingRead(whole: Read<nat>)
    ensures Continued(0, 1, 0, whole) == whole
  {
    if whole.Ok? { assert whole == Ok((whole.value.0, whole.value.1)); }
  }

  lemma NothingMore(value: nat, multiplier: nat, done: nat, s: bytes, most: nat)
    requires most == 0 || s == []
    ensures Continued(value, multiplier, done, ReadVarintUpTo(s, most)) == Err(if most == 0 then VarintTooLong else TooShort)
  {}

  lemma ContinuedStep(value: nat, multiplier: nat, done: nat, s: bytes, most: nat)
    requires most > 0 && s != []
    ensures Continued(value, multiplier, done, ReadVarintUpTo(s, most))
         == if s[0] < 0x80 then Ok((AddScaled(value, s[0], multiplier), done + 1))
            else Continued(AddScaled(value, s[0] - 0x80, multiplier), multiplier * 0x80, done + 1, ReadVarintUpTo(s[1..], most - 1))
  {
    var rest := ReadVarintUpTo(s[1..], most - 1);
    if s[0] >= 0x80 && rest.Ok? {
      var high := rest.value.0;
      assert (s[0] - 0x80 + 0x80 * high) * multiplier == (s[0] - 0x80) * multiplier + high * (multiplier * 0x80);
    }
  }

  // ----- Length-prefixed fields: strings (already in UTF-8) and binary data -----

  function PackField(data: bytes): Written {
    var length :- PackTwo(|data|);
    Ok(length + data)
  }

  function ReadField(s: bytes): (r: Read<bytes>)
    ensures r.Ok? ==> r.value.1 == 2 + |r.value.0| <= |s|
  {
    var (length, _) :- ReadTwo(s);
    if 2 + length > |s| then Err(TooShort) else Ok((s[2..2 + length], 2 + length))
  }

  lemma FieldRoundTrip(data: bytes, rest: bytes)
    ensures PackField(data).Ok? <==> |data| < 0x1_0000
    ensures PackField(data).Ok? ==>
      ReadField(PackField(data).value + rest) == Ok((data, 2 + |data|)) && |PackField(data).value| == 2 + |data|
  {
    if PackField(data).Ok? {
      var b := PackField(data).value;
      TwoRoundTrip(|data|, data + rest);
      assert b + rest == PackTwo(|data|).value + (data + rest);
      assert (b + rest)[2..2 + |data|] == data;
    }
  }
}
