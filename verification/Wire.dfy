/**
 * The bytes on the wire, said in numbers: protocol version, packet types,
 * field numbers, wire types and enum values.
 */
module Wire {
  import opened Types
  import opened Proto
  import opened Engine
  import opened Framing
  import opened Codec

  // Packets

  /** The header is version 1, the payload's length with the high byte first, and the type. */
  lemma HeaderOnTheWire(f: Frame)
    requires |f.payload| < 0x1_0000
    ensures var bs := Framing.Encode(f);
      |bs| == 4 + |f.payload| && bs[0] == 1 && bs[1] as int * 256 + bs[2] == |f.payload| && bs[3] == f.kind && bs[4..] == f.payload
  {
  }

  /** Types 1 to 5 are HELLO, KEEPALIVE, SUBSCRIBE, UNSUBSCRIBE and UPDATE, in both directions. */
  lemma {:induction false} TypesOnTheWire(m: Message, f: Frame)
    requires ToFrame(m) == Ok(f) || FromFrame(f) == Ok(m)
    ensures match m
      case Hello(_, _) => f.kind == 1
      case Keepalive => f.kind == 2
      case Subscribe(_) => f.kind == 3
      case Unsubscribe(_) => f.kind == 4
      case Update(_, _) => f.kind == 5
  {
    hide DecodeFields;
    hide UnmarshalUpdate;
    hide SerializeUpdate;
  }

  // UPDATE by field number

  /** The fields of a message; none when it does not parse. */
  function Fields(bs: seq<byte>): seq<Field> {
    match DecodeFields(bs)
    case None => []
    case Some(fs) => fs
  }

  /** The submessage in field `num`. */
  function Part(bs: seq<byte>, num: nat): seq<byte> {
    match Submessage(Fields(bs), num)
    case None => []
    case Some(part) => part
  }

  /**
   * UPDATE: 1 action (ADD 0, REMOVE 1), 2 vni, 3 destination, 4 next hop.
   * Destination: 1 IP version (IPv4 0, IPv6 1), 2 prefix, 3 its length.
   * Next hop: 1 target, 2 target VNI, 3 type, 4 and 5 the port range of a NAT hop.
   */
  lemma {:induction false} UpdateOnTheWire(m: Message)
    requires m.Update? && WellTypedPath(m.path) && SerializeUpdate(m).Ok?
    ensures var bs := SerializeUpdate(m).value;
      var d, h := Part(bs, 3), Part(bs, 4);
      var dest, hop := m.path.dest, m.path.hop;
      && DecodeFields(bs).Some? && DecodeFields(d).Some? && DecodeFields(h).Some?
      && LastScalar(Fields(bs), 1) == (if m.action == REMOVE then 1 else 0)
      && LastScalar(Fields(bs), 2) == m.path.vni
      && LastScalar(Fields(d), 1) == (if dest.ipVersion == 4 then 0 else 1)
      && LastBytes(Fields(d), 2) == dest.prefix.addr.bytes
      && LastScalar(Fields(d), 3) == (if dest.prefix.bits >= 0 then dest.prefix.bits else 0xFFFF_FFFF)
      && LastBytes(Fields(h), 1) == hop.target.bytes
      && LastScalar(Fields(h), 2) == hop.targetVNI
      && LastScalar(Fields(h), 3) == (if hop.kind >= 0 then hop.kind else hop.kind + 0x1_0000_0000_0000_0000)
      && LastScalar(Fields(h), 4) == (if hop.kind == 1 then hop.natFrom else 0)
      && LastScalar(Fields(h), 5) == (if hop.kind == 1 then hop.natTo else 0)
  {
    hide DecodeFields;
    hide EncodeFields;
    hide DestinationFields;
    hide NextHopFields;
    hide LastScalar;
    hide LastBytes;
    hide MarshalUpdate;
    hide SerializeUpdate;
    hide Part;
    hide Fields;
    ToPbIfSerializes(m);
    UpdatePayloadFits(m);
    var u := ToPb(m).value;
    DestinationSize(u.destination.value);
    NextHopSize(u.nextHop.value);
    PartsDecode(u);
    ParsedFields(MarshalUpdate(u));
    PbOnTheWire(u);
  }

  lemma ParsedFields(bs: seq<byte>)
    ensures DecodeFields(bs).Some? ==> DecodeFields(bs) == Some(Fields(bs))
  {
  }

  lemma ToPbIfSerializes(m: Message)
    requires m.Update? && SerializeUpdate(m).Ok?
    ensures ToPb(m).Ok?
  {
  }

  /** The encoding and its two submessages decode to the fields they were made of. */
  lemma {:induction false} PartsDecode(u: PbUpdate)
    requires u.destination.Some? && u.nextHop.Some?
    requires |u.destination.value.prefix| <= 16 && |u.nextHop.value.target| <= 16
    requires |EncodeFields(DestinationFields(u.destination.value))| < 128 && |EncodeFields(NextHopFields(u.nextHop.value))| < 128
    ensures DecodeFields(MarshalUpdate(u)) == Some(UpdateFields(u))
    ensures DecodeFields(EncodeFields(DestinationFields(u.destination.value))) == Some(DestinationFields(u.destination.value))
    ensures DecodeFields(EncodeFields(NextHopFields(u.nextHop.value))) == Some(NextHopFields(u.nextHop.value))
  {
    DestinationFieldsEncodable(u.destination.value);
    NextHopFieldsEncodable(u.nextHop.value);
    UpdateFieldsEncodable(u);
    DecodesBack(UpdateFields(u));
    DecodesBack(DestinationFields(u.destination.value));
    DecodesBack(NextHopFields(u.nextHop.value));
  }

  lemma {:induction false} PbOnTheWire(u: PbUpdate)
    requires u.destination.Some? && u.nextHop.Some?
    requires DecodeFields(MarshalUpdate(u)) == Some(UpdateFields(u))
    requires DecodeFields(EncodeFields(DestinationFields(u.destination.value))) == Some(DestinationFields(u.destination.value))
    requires DecodeFields(EncodeFields(NextHopFields(u.nextHop.value))) == Some(NextHopFields(u.nextHop.value))
    ensures var bs := MarshalUpdate(u);
      var d, h := u.destination.value, u.nextHop.value;
      var top, df, hf := Fields(bs), Fields(Part(bs, 3)), Fields(Part(bs, 4));
      && LastScalar(top, 1) == FromInt32(u.action) && LastScalar(top, 2) == u.vni
      && DecodeFields(Part(bs, 3)) == Some(df) && DecodeFields(Part(bs, 4)) == Some(hf)
      && LastScalar(df, 1) == FromInt32(d.ipVersion) && LastBytes(df, 2) == d.prefix && LastScalar(df, 3) == d.prefixLength
      && LastBytes(hf, 1) == h.target && LastScalar(hf, 2) == h.targetVNI && LastScalar(hf, 3) == FromInt32(h.kind)
      && LastScalar(hf, 4) == h.natFrom && LastScalar(hf, 5) == h.natTo
  {
    hide DecodeFields;
    hide MarshalUpdate;
    hide EncodeFields;
    hide UpdateFields;
    hide DestinationFields;
    hide NextHopFields;
    hide LastScalar;
    hide LastBytes;
    hide Submessage;
    hide FromInt32;
    var d, h := u.destination.value, u.nextHop.value;
    var db, hb := EncodeFields(DestinationFields(d)), EncodeFields(NextHopFields(h));
    UpdateAt(u, db, hb, 1);
    UpdateAt(u, db, hb, 2);
    UpdateAt(u, db, hb, 3);
    UpdateAt(u, db, hb, 4);
    DestinationAt(d, 1);
    DestinationAt(d, 2);
    DestinationAt(d, 3);
    NextHopAt(h, 1);
    NextHopAt(h, 2);
    NextHopAt(h, 3);
    NextHopAt(h, 4);
    NextHopAt(h, 5);
  }

  /** The same numbers, read from any bytes that deserialize; what does not fit its Go type is cut off. */
  lemma {:induction false} UpdateOffTheWire(bs: seq<byte>)
    requires DeserializeUpdate(bs).Ok?
    ensures var m := DeserializeUpdate(bs).value;
      var d, h := Part(bs, 3), Part(bs, 4);
      && DecodeFields(bs).Some? && DecodeFields(d).Some? && DecodeFields(h).Some? && m.Update?
      && var dest, hop := m.path.dest, m.path.hop;
      && m.action == (if LastScalar(Fields(bs), 1) % TWO_32 == 1 then REMOVE else ADD)
      && m.path.vni == LastScalar(Fields(bs), 2) % TWO_32
      && dest.ipVersion == (if LastScalar(Fields(d), 1) % TWO_32 == 0 then 4 else 6)
      && dest.prefix.addr == Addr(LastBytes(Fields(d), 2), "")
      && dest.prefix.bits == (var bits := LastScalar(Fields(d), 3) % TWO_32; if bits <= 8 * |dest.prefix.addr.bytes| then bits else -1)
      && hop.target == Addr(LastBytes(Fields(h), 1), "")
      && hop.targetVNI == LastScalar(Fields(h), 2) % TWO_32
      && (hop.kind == LastScalar(Fields(h), 3) % TWO_32 || hop.kind + TWO_32 == LastScalar(Fields(h), 3) % TWO_32)
      && hop.natFrom == LastScalar(Fields(h), 4) % TWO_32 % 0x1_0000
      && hop.natTo == LastScalar(Fields(h), 5) % TWO_32 % 0x1_0000
  {
    hide DecodeFields;
    hide LastScalar;
    hide LastBytes;
    hide Submessage;
  }

  /** An UPDATE is a REMOVE exactly when its action is 1, and one for IPv4 exactly when its IP version is 0. */
  lemma {:induction false} ActionAndVersion(bs: seq<byte>, m: Message)
    requires m.Update? && WellTypedPath(m.path) && (SerializeUpdate(m) == Ok(bs) || DeserializeUpdate(bs) == Ok(m))
    ensures UnmarshalUpdate(bs).Some? && UnmarshalUpdate(bs).value.destination.Some?
    ensures var u := UnmarshalUpdate(bs).value;
      && (m.action == REMOVE <==> u.action == 1)
      && (m.path.dest.ipVersion == IPV4 <==> u.destination.value.ipVersion == 0)
  {
    if SerializeUpdate(m) == Ok(bs) {
      UnmarshalsBack(m);
    }
  }

  // HELLO, SUBSCRIBE and UNSUBSCRIBE by field number

  /** HELLO: 1 interval, 2 isServer. */
  lemma {:induction false} HelloOnTheWire(m: Message)
    requires m.Hello? && m.interval < TWO_32
    ensures var bs := SerializeHello(m);
      && DecodeFields(bs).Some?
      && LastScalar(Fields(bs), 1) == m.interval && LastScalar(Fields(bs), 2) == (if m.isServer then 1 else 0)
  {
    hide DecodeFields;
    hide EncodeFields;
    hide LastScalar;
    var server := if m.isServer then 1 else 0;
    var a1 := [] + ScalarIfSet(1, m.interval);
    AfterScalar([], 1, m.interval, 1);
    AfterScalar([], 1, m.interval, 2);
    AfterScalar(a1, 2, server, 1);
    AfterScalar(a1, 2, server, 2);
    NoFields(1);
    NoFields(2);
    DecodesBack(a1 + ScalarIfSet(2, server));
  }

  /** SUBSCRIBE and UNSUBSCRIBE: 1 vni. */
  lemma {:induction false} SubscriptionOnTheWire(vni: VNI)
    ensures DecodeFields(SerializeSubscription(vni)).Some? && LastScalar(Fields(SerializeSubscription(vni)), 1) == vni
  {
    hide DecodeFields;
    hide EncodeFields;
    AfterScalar([], 1, vni, 1);
    DecodesBack([] + ScalarIfSet(1, vni));
  }

  /** The same numbers, read from any bytes that deserialize; isServer is not read. */
  lemma {:induction false} ControlOffTheWire(bs: seq<byte>)
    ensures DeserializeHello(bs).Ok? ==> DecodeFields(bs).Some? && DeserializeHello(bs).value == Hello(LastScalar(Fields(bs), 1) % TWO_32, false)
    ensures DeserializeSubscription(bs).Some? ==> DecodeFields(bs).Some? && DeserializeSubscription(bs).value == LastScalar(Fields(bs), 1) % TWO_32
  {
    hide LastScalar;
    hide DecodeFields;
  }

  // One packet of each type, byte by byte

  lemma {:induction false} OneField(f: Field)
    ensures EncodeFields([f]) == EncodeField(f)
  {
    assert [f][1..] == [];
    assert EncodeField(f) + EncodeFields([]) == EncodeField(f);
  }

  lemma {:induction false} AppendScalar(a: seq<Field>, num: nat, v: nat)
    requires 0 < num < 16 && v > 0
    ensures EncodeFields(a + ScalarIfSet(num, v)) == EncodeFields(a) + ([8 * num] + Varint(v))
  {
    hide EncodeFields;
    EncodeFieldsConcat(a, [Scalar(num, v)]);
    OneField(Scalar(num, v));
    assert Varint(num * 8) == [8 * num];
  }

  lemma {:induction false} AppendBytes(a: seq<Field>, num: nat, p: seq<byte>)
    requires 0 < num < 15 && |p| < 128
    ensures EncodeFields(a + [Bytes(num, p)]) == EncodeFields(a) + ([8 * num + 2, |p|] + p)
  {
    hide EncodeFields;
    EncodeFieldsConcat(a, [Bytes(num, p)]);
    OneField(Bytes(num, p));
    assert Varint(num * 8 + 2) == [8 * num + 2];
    assert Varint(|p|) == [|p|];
    assert [8 * num + 2] + ([|p|] + p) == [8 * num + 2, |p|] + p;
  }

  /** The packets of HELLO with interval 5, of KEEPALIVE, and of SUBSCRIBE and UNSUBSCRIBE for VNI 300. */
  lemma {:induction false} ShortPackets()
    ensures Framing.Encode(ToFrame(Hello(5, false)).value) == [1, 0, 2, 1, 8, 5]
    ensures Framing.Encode(ToFrame(Hello(5, true)).value) == [1, 0, 4, 1, 8, 5, 16, 1]
    ensures Framing.Encode(ToFrame(Message.Keepalive).value) == [1, 0, 0, 2]
    ensures Framing.Encode(ToFrame(Message.Subscribe(300)).value) == [1, 0, 3, 3, 8, 172, 2]
    ensures Framing.Encode(ToFrame(Message.Unsubscribe(300)).value) == [1, 0, 3, 4, 8, 172, 2]
  {
    var empty: seq<Field> := [];
    NoFields(1);
    AppendScalar(empty, 1, 5);
    AppendScalar(empty, 1, 300);
    AppendScalar(empty + ScalarIfSet(1, 5), 2, 1);
    assert Varint(300) == [172] + Varint(2);
    assert SerializeHello(Hello(5, false)) == [8, 5] by {
      assert empty + ScalarIfSet(1, 5) + ScalarIfSet(2, 0) == empty + ScalarIfSet(1, 5);
    }
    assert SerializeHello(Hello(5, true)) == [8, 5, 16, 1];
    assert SerializeSubscription(300) == [8, 172, 2];
  }

  /** 2001:db8::/32 */
  const EXAMPLE_PREFIX := Prefix(Addr([32, 1, 13, 184, 0, 0, 0, 0, 0, 0, 0, 0, 0, 0, 0, 0], ""), 32)

  /** Withdraws that prefix in VNI 300: a NAT hop at 10.0.0.1, VNI 9, ports 1024 to 2047. */
  const EXAMPLE_UPDATE := Update(REMOVE, Path(300, Destination(IPV6, EXAMPLE_PREFIX), NextHop(Addr([10, 0, 0, 1], ""), 9, NAT, 1024, 2047)))

  const EXAMPLE_DESTINATION: seq<byte> :=
    [8, 1] + ([18, 16] + EXAMPLE_PREFIX.addr.bytes) + [24, 32]

  const EXAMPLE_HOP: seq<byte> :=
    ([10, 4] + [10, 0, 0, 1]) + [16, 9] + [24, 1] + [32, 128, 8] + [40, 255, 15]

  lemma {:induction false} ExampleDestination(d: PbDestination)
    requires d == PbDestination(1, EXAMPLE_PREFIX.addr.bytes, 32)
    ensures EncodeFields(DestinationFields(d)) == EXAMPLE_DESTINATION
  {
    hide EncodeFields;
    var empty: seq<Field> := [];
    var a1 := empty + ScalarIfSet(1, 1);
    NoFields(1);
    AppendScalar(empty, 1, 1);
    AppendBytes(a1, 2, d.prefix);
    AppendScalar(a1 + BytesIfSet(2, d.prefix), 3, 32);
    assert Varint(1) == [1] && Varint(32) == [32];
  }

  lemma {:induction false} ExampleHop(h: PbNextHop)
    requires h == PbNextHop([10, 0, 0, 1], 9, 1, 1024, 2047)
    ensures EncodeFields(NextHopFields(h)) == EXAMPLE_HOP
  {
    hide EncodeFields;
    var empty: seq<Field> := [];
    var a1 := empty + BytesIfSet(1, h.target);
    var a2 := a1 + ScalarIfSet(2, 9);
    var a3 := a2 + ScalarIfSet(3, 1);
    var a4 := a3 + ScalarIfSet(4, 1024);
    NoFields(1);
    AppendBytes(empty, 1, h.target);
    AppendScalar(a1, 2, 9);
    AppendScalar(a2, 3, 1);
    AppendScalar(a3, 4, 1024);
    AppendScalar(a4, 5, 2047);
    assert Varint(9) == [9] && Varint(1) == [1];
    assert Varint(1024) == [128] + Varint(8);
    assert Varint(2047) == [255] + Varint(15);
  }

  lemma {:induction false} ExamplePayload(u: PbUpdate)
    requires ToPb(EXAMPLE_UPDATE) == Ok(u)
    ensures MarshalUpdate(u) == [8, 1] + [16, 172, 2] + ([26, 22] + EXAMPLE_DESTINATION) + ([34, 16] + EXAMPLE_HOP)
  {
    hide EncodeFields;
    ExampleDestination(u.destination.value);
    ExampleHop(u.nextHop.value);
    hide DestinationFields;
    hide NextHopFields;
    var empty: seq<Field> := [];
    var a1 := empty + ScalarIfSet(1, 1);
    var a2 := a1 + ScalarIfSet(2, 300);
    var a3 := a2 + [Bytes(3, EXAMPLE_DESTINATION)];
    NoFields(1);
    AppendScalar(empty, 1, 1);
    AppendScalar(a1, 2, 300);
    AppendBytes(a2, 3, EXAMPLE_DESTINATION);
    AppendBytes(a3, 4, EXAMPLE_HOP);
    assert Varint(1) == [1] && Varint(300) == [172] + Varint(2);
    assert UpdateFields(u) == a3 + [Bytes(4, EXAMPLE_HOP)];
  }

  /** The packet of an UPDATE in which no field has its default value. */
  lemma {:induction false} UpdatePacket()
    ensures ToFrame(EXAMPLE_UPDATE).Ok?
    ensures Framing.Encode(ToFrame(EXAMPLE_UPDATE).value) ==
      [1, 0, 47, 5] + ([8, 1] + [16, 172, 2] + ([26, 22] + EXAMPLE_DESTINATION) + ([34, 16] + EXAMPLE_HOP))
  {
    hide MarshalUpdate;
    hide SerializeUpdate;
    UpdatePayloadFits(EXAMPLE_UPDATE);
    ExamplePayload(ToPb(EXAMPLE_UPDATE).value);
  }
}
