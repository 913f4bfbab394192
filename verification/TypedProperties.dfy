/** The typed properties of each kind of packet: which fields there are, in which order they are
  written, and which of them are flags. */
module TypedProperties {
  import opened Prelude
  import opened Wire
  import opened PropertyBlocks

  datatype Kind =
    | OfConnect | OfWill | OfConnAck | OfPublish | OfPubAck | OfSubscribe
    | OfSubAck | OfUnsubscribe | OfUnsubAck | OfDisconnect | OfAuth

  /** The fields of the properties of a kind, in the order of their encoder. */
  function Schema(kind: Kind): seq<int> {
    match kind
    case OfConnect => [0x11, 0x21, 0x27, 0x22, 0x19, 0x17, 0x15, 0x16]
    case OfWill => [0x18, 0x01, 0x02, 0x03, 0x08, 0x09]
    case OfConnAck => [0x11, 0x21, 0x24, 0x25, 0x27, 0x12, 0x22, 0x1F, 0x28, 0x29, 0x2A, 0x13, 0x1A, 0x1C, 0x15, 0x16]
    case OfPublish => [0x01, 0x02, 0x23, 0x08, 0x09, 0x0B, 0x03]
    case OfPubAck => [0x1F]
    case OfSubscribe => [0x0B]
    case OfSubAck => [0x1F]
    case OfUnsubscribe => []
    case OfUnsubAck => [0x1F]
    case OfDisconnect => [0x11, 0x1F, 0x1C]
    case OfAuth => [0x15, 0x16, 0x1F]
  }

  /** Fields that are booleans: one byte on the wire. */
  predicate IsFlag(id: int) { id in {0x17, 0x19, 0x25, 0x28, 0x29, 0x2A} }

  datatype FieldValue = Flag(on: bool) | Plain(value: Value)

  /** The fields that are not None, and the user properties. */
  datatype Properties = Properties(fields: map<int, FieldValue>, user: seq<Pair>)

  predicate WellTyped(kind: Kind, p: Properties) {
    forall id :: id in p.fields ==> id in Schema(kind) && (p.fields[id].Flag? <==> IsFlag(id))
  }

  predicate AllEmpty(p: Properties) { p.fields == map[] && p.user == [] }

  function Raw(v: FieldValue): Value {
    match v
    case Flag(on) => Number(if on then 1 else 0)
    case Plain(value) => value
  }

  function Typed(id: int, v: Value): FieldValue {
    if IsFlag(id) then Flag(v.Number? && v.n != 0) else Plain(v)
  }

  // ----- Encoding -----

  function Entries(ids: seq<int>, fields: map<int, FieldValue>): seq<Entry> {
    if ids == [] then []
    else (if ids[0] in fields then [(ids[0], Raw(fields[ids[0]]))] else []) + Entries(ids[1..], fields)
  }

  /** The typed encoders; None is an empty block. */
  function PackProperties(kind: Kind, p: Option<Properties>): Written {
    match p
    case None => PackVarint(0)
    case Some(props) => PackBlock(Entries(Schema(kind), props.fields), props.user)
  }

  // ----- Decoding -----

  function FromBlock(kind: Kind, d: Block): Option<Properties> {
    if d == EmptyBlock then None
    else Some(Properties(map id | id in d.scalars && id in Schema(kind) :: Typed(id, d.scalars[id]), d.pairs))
  }

  /** The typed decoders; an empty block is None. */
  function ReadProperties(kind: Kind, s: bytes): (r: Read<Option<Properties>>)
    ensures r.Ok? ==> r.value.1 <= |s|
  {
    var (d, n) :- ReadBlock(s);
    Ok((FromBlock(kind, d), n))
  }

  /** Properties without any are not told from none. */
  function NormalProperties(p: Option<Properties>): Option<Properties> {
    if p.Some? && AllEmpty(p.value) then None else p
  }

  // ----- Round trip -----

  lemma {:induction false} EntriesPutFields(d: Block, ids: seq<int>, fields: map<int, FieldValue>)
    ensures var r := PutAll(d, Entries(ids, fields)).scalars;
      && (forall id :: id in r <==> id in d.scalars || (id in ids && id in fields))
      && (forall id :: id in r ==> r[id] == if id in ids && id in fields then Raw(fields[id]) else d.scalars[id])
    decreases |ids|
  {
    if ids != [] {
      var id := ids[0];
      assert ids == [id] + ids[1..];
      var first := if id in fields then [(id, Raw(fields[id]))] else [];
      var more := if id in fields then d.(scalars := d.scalars[id := Raw(fields[id])]) else d;
      assert Entries(ids, fields) == first + Entries(ids[1..], fields);
      assert first == [] ==> first + Entries(ids[1..], fields) == Entries(ids[1..], fields);
      assert first != [] ==> (first + Entries(ids[1..], fields))[1..] == Entries(ids[1..], fields);
      EntriesPutFields(more, ids[1..], fields);
    }
  }

  lemma FieldsAreBack(kind: Kind, p: Properties)
    requires WellTyped(kind, p)
    ensures FromBlock(kind, PutAll(EmptyBlock, Entries(Schema(kind), p.fields)).(pairs := p.user)) == NormalProperties(Some(p))
  {
    hide Schema;
    var d := PutAll(EmptyBlock, Entries(Schema(kind), p.fields)).(pairs := p.user);
    EntriesPutFields(EmptyBlock, Schema(kind), p.fields);
    assert forall id :: id in d.scalars <==> id in p.fields;
    assert d.scalars.Keys == p.fields.Keys;
    assert d.scalars == map[] <==> p.fields == map[] by {
      assert |d.scalars| == |d.scalars.Keys| && |p.fields| == |p.fields.Keys|;
    }
    if AllEmpty(p) {
      assert d.scalars == map[];
    } else {
      var back := map id | id in d.scalars && id in Schema(kind) :: Typed(id, d.scalars[id]);
      forall id | id in p.fields ensures id in back && back[id] == p.fields[id] {
        assert d.scalars[id] == Raw(p.fields[id]);
      }
      assert back == p.fields;
    }
  }

  /** Every set of properties reads back as its normal form: every field by the wire type it was
    written with, user properties in order and with their repetitions; the block is used up exactly. */
  lemma PropertiesRoundTrip(kind: Kind, p: Option<Properties>, rest: bytes)
    requires p.Some? ==> WellTyped(kind, p.value)
    requires PackProperties(kind, p).Ok?
    ensures var b := PackProperties(kind, p).value;
      ReadProperties(kind, b + rest) == Ok((NormalProperties(p), |b|)) && b != []
  {
    hide PackBlock, ReadBlock, Schema, PutAll;
    if p.Some? {
      BlockRoundTrip(Entries(Schema(kind), p.value.fields), p.value.user, rest);
      FieldsAreBack(kind, p.value);
      BlockIsNotEmpty(Entries(Schema(kind), p.value.fields), p.value.user);
    } else {
      assert PackProperties(kind, p) == Ok([0]);
      NoProperties(rest);
      assert NormalProperties(p) == None;
    }
  }

  lemma NoProperties(rest: bytes)
    ensures ReadBlock([0] + rest) == Ok((EmptyBlock, 1))
  {
    assert ([0] + rest)[1..] == rest;
  }

  lemma BlockIsNotEmpty(entries: seq<Entry>, pairs: seq<Pair>)
    ensures PackBlock(entries, pairs).Ok? ==> PackBlock(entries, pairs).value != []
  {}
}
