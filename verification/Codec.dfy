/**
 * The conversions of types.go between messages and their protobuf encoding.
 */
module Codec {
  import opened Types
  import opened Proto
  import opened Engine
  import opened Framing

  /** Crash is a nil pointer dereference. */
  datatype Result<T> = Ok(value: T) | Err | Crash

  const MAX_PAYLOAD: nat := 1188

  // The messages of pb/metalbond.proto

  datatype PbDestination = PbDestination(ipVersion: int32, prefix: seq<byte>, prefixLength: uint32)

  datatype PbNextHop = PbNextHop(target: seq<byte>, targetVNI: uint32, kind: int32, natFrom: uint32, natTo: uint32)

  datatype PbUpdate = PbUpdate(action: int32, vni: uint32, destination: Option<PbDestination>, nextHop: Option<PbNextHop>)

  function DestinationFields(d: PbDestination): seq<Field> {
    [] + ScalarIfSet(1, FromInt32(d.ipVersion)) + BytesIfSet(2, d.prefix) + ScalarIfSet(3, d.prefixLength)
  }

  function NextHopFields(h: PbNextHop): seq<Field> {
    [] + BytesIfSet(1, h.target) + ScalarIfSet(2, h.targetVNI) + ScalarIfSet(3, FromInt32(h.kind))
    + ScalarIfSet(4, h.natFrom) + ScalarIfSet(5, h.natTo)
  }

  function UpdateFields(u: PbUpdate): seq<Field> {
    [] + ScalarIfSet(1, FromInt32(u.action)) + ScalarIfSet(2, u.vni)
    + (if u.destination.Some? then [Bytes(3, EncodeFields(DestinationFields(u.destination.value)))] else [])
    + (if u.nextHop.Some? then [Bytes(4, EncodeFields(NextHopFields(u.nextHop.value)))] else [])
  }

  function MarshalUpdate(u: PbUpdate): seq<byte> {
    EncodeFields(UpdateFields(u))
  }

  function ReadDestination(fs: seq<Field>): PbDestination {
    PbDestination(ToInt32(LastScalar(fs, 1)), LastBytes(fs, 2), ToUint32(LastScalar(fs, 3)))
  }

  function ReadNextHop(fs: seq<Field>): PbNextHop {
    PbNextHop(LastBytes(fs, 1), ToUint32(LastScalar(fs, 2)), ToInt32(LastScalar(fs, 3)),
              ToUint32(LastScalar(fs, 4)), ToUint32(LastScalar(fs, 5)))
  }

  /** None when the bytes do not parse; Some(None) when the submessage is absent. */
  function ReadSub<T>(sub: Option<seq<byte>>, read: seq<Field> -> T): Option<Option<T>> {
    if sub.None? then Some(None)
    else
      match DecodeFields(sub.value)
      case None => None
      case Some(fs) => Some(Some(read(fs)))
  }

  function UnmarshalUpdate(bs: seq<byte>): Option<PbUpdate> {
    match DecodeFields(bs)
    case None => None
    case Some(fs) => ReadUpdate(fs)
  }

  function ReadUpdate(fs: seq<Field>): Option<PbUpdate> {
    var dest := ReadSub(Submessage(fs, 3), ReadDestination);
    var hop := ReadSub(Submessage(fs, 4), ReadNextHop);
    if dest.None? || hop.None? then None
    else Some(PbUpdate(ToInt32(LastScalar(fs, 1)), ToUint32(LastScalar(fs, 2)), dest.value, hop.value))
  }

  // msgUpdate.Serialize and deserializeUpdateMsg

  function AsUint32(i: int): uint32 {
    i % 0x1_0000_0000
  }

  /** The protobuf message Serialize fills in, or its error for an unknown action or IP version. */
  function ToPb(m: Message): Result<PbUpdate>
    requires m.Update?
  {
    if m.action !in {ADD, REMOVE} then Err
    else if m.path.dest.ipVersion !in {IPV4, IPV6} then Err
    else
      var hop := m.path.hop;
      var dest := m.path.dest;
      Ok(PbUpdate(
        if m.action == ADD then 0 else 1,
        m.path.vni,
        Some(PbDestination(if dest.ipVersion == IPV4 then 0 else 1, dest.prefix.addr.bytes, AsUint32(dest.prefix.bits))),
        Some(PbNextHop(hop.target.bytes, hop.targetVNI, hop.kind,
                       if hop.kind == NAT then hop.natFrom else 0,
                       if hop.kind == NAT then hop.natTo else 0))))
  }

  function SerializeUpdate(m: Message): Result<seq<byte>>
    requires m.Update?
  {
    match ToPb(m)
    case Ok(u) => if |MarshalUpdate(u)| > MAX_PAYLOAD then Err else Ok(MarshalUpdate(u))
    case Err => Err
    case Crash => Crash
  }

  /** netip.AddrFromSlice */
  predicate IsAddr(bs: seq<byte>) {
    |bs| == 4 || |bs| == 16
  }

  /** netip.PrefixFrom on a zone-free address: an impossible length gives an invalid prefix. */
  function PrefixFrom(addr: Addr, bits: int): Prefix {
    Prefix(addr, if 0 <= bits <= |addr.bytes| * 8 then bits else -1)
  }

  function FromPb(u: PbUpdate): Result<Message> {
    if u.destination.None? then Err
    else if !IsAddr(u.destination.value.prefix) then Err
    else if u.nextHop.None? then Crash
    else if !IsAddr(u.nextHop.value.target) then Err
    else
      var d, h := u.destination.value, u.nextHop.value;
      Ok(Update(
        if u.action == 1 then REMOVE else ADD,
        Path(u.vni,
             Destination(if d.ipVersion == 0 then IPV4 else IPV6, PrefixFrom(Addr(d.prefix, ""), d.prefixLength)),
             NextHop(Addr(h.target, ""), h.targetVNI, h.kind, h.natFrom % 0x1_0000, h.natTo % 0x1_0000))))
  }

  function DeserializeUpdate(bs: seq<byte>): Result<Message> {
    match UnmarshalUpdate(bs)
    case None => Err
    case Some(u) => FromPb(u)
  }

  // Reading fields back

  lemma {:induction false} AfterScalar(a: seq<Field>, k: nat, v: nat, num: nat)
    ensures var fs := a + ScalarIfSet(k, v);
      && LastScalar(fs, num) == (if num == k && v != 0 then v else LastScalar(a, num))
      && LastBytes(fs, num) == LastBytes(a, num)
      && Submessage(fs, num) == Submessage(a, num)
  {
    if v == 0 {
      assert a + ScalarIfSet(k, v) == a;
    } else {
      assert (a + [Scalar(k, v)])[..|a|] == a;
    }
  }

  lemma {:induction false} AfterBytes(a: seq<Field>, k: nat, p: seq<byte>, num: nat)
    ensures var fs := a + BytesIfSet(k, p);
      && LastScalar(fs, num) == LastScalar(a, num)
      && LastBytes(fs, num) == (if num == k && p != [] then p else LastBytes(a, num))
  {
    if p == [] {
      assert a + BytesIfSet(k, p) == a;
    } else {
      assert (a + [Bytes(k, p)])[..|a|] == a;
    }
  }

  lemma {:induction false} AfterSub(a: seq<Field>, k: nat, p: seq<byte>, num: nat)
    requires Submessage(a, k).None?
    ensures var fs := a + [Bytes(k, p)];
      && LastScalar(fs, num) == LastScalar(a, num)
      && Submessage(fs, num) == (if num == k then Some(p) else Submessage(a, num))
  {
    assert (a + [Bytes(k, p)])[..|a|] == a;
  }

  lemma {:induction false} DestinationAt(d: PbDestination, num: nat)
    ensures var fs := DestinationFields(d);
      && LastScalar(fs, num) == (if num == 3 then d.prefixLength else if num == 1 then FromInt32(d.ipVersion) else 0)
      && LastBytes(fs, num) == (if num == 2 then d.prefix else [])
  {
    var a1 := [] + ScalarIfSet(1, FromInt32(d.ipVersion));
    var a2 := a1 + BytesIfSet(2, d.prefix);
    AfterScalar([], 1, FromInt32(d.ipVersion), num);
    AfterBytes(a1, 2, d.prefix, num);
    AfterScalar(a2, 3, d.prefixLength, num);
  }

  lemma {:induction false} DestinationBack(d: PbDestination)
    ensures ReadDestination(DestinationFields(d)) == d
  {
    Int32Back(d.ipVersion);
    DestinationAt(d, 1);
    DestinationAt(d, 2);
    DestinationAt(d, 3);
  }

  lemma {:induction false} NextHopAt(h: PbNextHop, num: nat)
    ensures var fs := NextHopFields(h);
      && LastScalar(fs, num) ==
           (if num == 5 then h.natTo else if num == 4 then h.natFrom else if num == 3 then FromInt32(h.kind)
            else if num == 2 then h.targetVNI else 0)
      && LastBytes(fs, num) == (if num == 1 then h.target else [])
  {
    var a1 := [] + BytesIfSet(1, h.target);
    var a2 := a1 + ScalarIfSet(2, h.targetVNI);
    var a3 := a2 + ScalarIfSet(3, FromInt32(h.kind));
    var a4 := a3 + ScalarIfSet(4, h.natFrom);
    AfterBytes([], 1, h.target, num);
    AfterScalar(a1, 2, h.targetVNI, num);
    AfterScalar(a2, 3, FromInt32(h.kind), num);
    AfterScalar(a3, 4, h.natFrom, num);
    AfterScalar(a4, 5, h.natTo, num);
  }

  lemma {:induction false} NextHopBack(h: PbNextHop)
    ensures ReadNextHop(NextHopFields(h)) == h
  {
    Int32Back(h.kind);
    NextHopAt(h, 1);
    NextHopAt(h, 2);
    NextHopAt(h, 3);
    NextHopAt(h, 4);
    NextHopAt(h, 5);
  }

  lemma {:induction false} UpdateAt(u: PbUpdate, d: seq<byte>, h: seq<byte>, num: nat)
    requires u.destination.Some? && u.nextHop.Some?
    requires d == EncodeFields(DestinationFields(u.destination.value)) && h == EncodeFields(NextHopFields(u.nextHop.value))
    ensures var fs := UpdateFields(u);
      && LastScalar(fs, num) == (if num == 2 then u.vni else if num == 1 then FromInt32(u.action) else 0)
      && Submessage(fs, num) == (if num == 4 then Some(h) else if num == 3 then Some(d) else None)
  {
    var a1 := [] + ScalarIfSet(1, FromInt32(u.action));
    var a2 := a1 + ScalarIfSet(2, u.vni);
    var a3 := a2 + [Bytes(3, d)];
    AfterScalar([], 1, FromInt32(u.action), num);
    AfterScalar(a1, 2, u.vni, num);
    AfterScalar([], 1, FromInt32(u.action), 3);
    AfterScalar(a1, 2, u.vni, 3);
    AfterScalar([], 1, FromInt32(u.action), 4);
    AfterScalar(a1, 2, u.vni, 4);
    AfterSub(a2, 3, d, num);
    AfterSub(a2, 3, d, 4);
    AfterSub(a3, 4, h, num);
    assert UpdateFields(u) == a3 + [Bytes(4, h)];
  }

  lemma {:induction false} DestinationFieldsEncodable(d: PbDestination)
    requires |d.prefix| <= 16
    ensures forall f :: f in DestinationFields(d) ==> Proto.Encodable(f)
  {
    Int32Back(d.ipVersion);
  }

  lemma {:induction false} NextHopFieldsEncodable(h: PbNextHop)
    requires |h.target| <= 16
    ensures forall f :: f in NextHopFields(h) ==> Proto.Encodable(f)
  {
    Int32Back(h.kind);
  }

  lemma {:induction false} UpdateFieldsEncodable(u: PbUpdate)
    requires u.destination.Some? && u.nextHop.Some?
    requires |EncodeFields(DestinationFields(u.destination.value))| < 128 && |EncodeFields(NextHopFields(u.nextHop.value))| < 128
    ensures forall f :: f in UpdateFields(u) ==> Proto.Encodable(f)
  {
    hide EncodeFields;
    hide DestinationFields;
    hide NextHopFields;
    Int32Back(u.action);
  }

  // Sizes

  lemma {:induction false} EncodeFieldsConcat(a: seq<Field>, b: seq<Field>)
    ensures EncodeFields(a + b) == EncodeFields(a) + EncodeFields(b)
  {
    if a == [] {
      assert a + b == b;
    } else {
      assert (a + b)[1..] == a[1..] + b;
      EncodeFieldsConcat(a[1..], b);
    }
  }

  lemma {:induction false} ScalarSize(a: seq<Field>, num: nat, v: nat, k: nat)
    requires num < 16 && k >= 1 && v < Pow128(k)
    ensures |EncodeFields(a + ScalarIfSet(num, v))| <= |EncodeFields(a)| + 1 + k
  {
    EncodeFieldsConcat(a, ScalarIfSet(num, v));
    Pow128Values();
    VarintLength(num * 8, 1);
    VarintLength(v, k);
    if v != 0 {
      assert EncodeFields([Scalar(num, v)]) == EncodeField(Scalar(num, v)) + EncodeFields([Scalar(num, v)][1..]);
    }
  }

  lemma {:induction false} BytesSize(a: seq<Field>, num: nat, p: seq<byte>)
    requires num < 15 && |p| < 128
    ensures |EncodeFields(a + [Bytes(num, p)])| <= |EncodeFields(a)| + 2 + |p|
    ensures |EncodeFields(a + BytesIfSet(num, p))| <= |EncodeFields(a)| + 2 + |p|
  {
    EncodeFieldsConcat(a, [Bytes(num, p)]);
    Pow128Values();
    VarintLength(num * 8 + 2, 1);
    VarintLength(|p|, 1);
    assert EncodeFields([Bytes(num, p)]) == EncodeField(Bytes(num, p)) + EncodeFields([Bytes(num, p)][1..]);
    if p == [] {
      assert a + BytesIfSet(num, p) == a;
    }
  }

  lemma {:induction false} DestinationSize(d: PbDestination)
    requires |d.prefix| <= 16 && d.ipVersion in {0, 1}
    ensures |EncodeFields(DestinationFields(d))| <= 26
  {
    Pow128Values();
    var a1 := [] + ScalarIfSet(1, FromInt32(d.ipVersion));
    var a2 := a1 + BytesIfSet(2, d.prefix);
    ScalarSize([], 1, FromInt32(d.ipVersion), 1);
    BytesSize(a1, 2, d.prefix);
    ScalarSize(a2, 3, d.prefixLength, 5);
  }

  lemma {:induction false} NextHopSize(h: PbNextHop)
    requires |h.target| <= 16 && h.natFrom < 0x1_0000 && h.natTo < 0x1_0000
    ensures |EncodeFields(NextHopFields(h))| <= 43
  {
    Pow128Values();
    Int32Back(h.kind);
    var a1 := [] + BytesIfSet(1, h.target);
    var a2 := a1 + ScalarIfSet(2, h.targetVNI);
    var a3 := a2 + ScalarIfSet(3, FromInt32(h.kind));
    var a4 := a3 + ScalarIfSet(4, h.natFrom);
    BytesSize([], 1, h.target);
    ScalarSize(a1, 2, h.targetVNI, 5);
    ScalarSize(a2, 3, FromInt32(h.kind), 10);
    ScalarSize(a3, 4, h.natFrom, 3);
    ScalarSize(a4, 5, h.natTo, 3);
  }

  // The UPDATE message as a whole

  /** What netip guarantees of its values. */
  predicate WellTyped(addr: Addr) {
    |addr.bytes| in {0, 4, 16} && (|addr.bytes| != 16 ==> addr.zone == "")
  }

  predicate WellTypedPath(p: Path) {
    && WellTyped(p.dest.prefix.addr) && WellTyped(p.hop.target)
    && p.dest.prefix.addr.zone == ""
    && -1 <= p.dest.prefix.bits <= |p.dest.prefix.addr.bytes| * 8
  }

  /** The payload is at most 81 bytes, so the limit of 1188 never refuses an UPDATE. */
  lemma {:induction false} UpdatePayloadFits(m: Message)
    requires m.Update? && WellTypedPath(m.path) && ToPb(m).Ok?
    ensures |MarshalUpdate(ToPb(m).value)| <= 81
    ensures SerializeUpdate(m) == Ok(MarshalUpdate(ToPb(m).value))
  {
    var u := ToPb(m).value;
    Pow128Values();
    DestinationSize(u.destination.value);
    NextHopSize(u.nextHop.value);
    var d, h := EncodeFields(DestinationFields(u.destination.value)), EncodeFields(NextHopFields(u.nextHop.value));
    var a1 := [] + ScalarIfSet(1, FromInt32(u.action));
    var a2 := a1 + ScalarIfSet(2, u.vni);
    ScalarSize([], 1, FromInt32(u.action), 1);
    ScalarSize(a1, 2, u.vni, 5);
    BytesSize(a2, 3, d);
    BytesSize(a2 + [Bytes(3, d)], 4, h);
  }

  lemma {:induction false} UnmarshalsBack(m: Message)
    requires m.Update? && WellTypedPath(m.path) && ToPb(m).Ok?
    ensures UnmarshalUpdate(MarshalUpdate(ToPb(m).value)) == Some(ToPb(m).value)
  {
    var u := ToPb(m).value;
    var fs := UpdateFields(u);
    var dest, hop := DestinationFields(u.destination.value), NextHopFields(u.nextHop.value);
    DestinationSize(u.destination.value);
    NextHopSize(u.nextHop.value);
    DestinationFieldsEncodable(u.destination.value);
    NextHopFieldsEncodable(u.nextHop.value);
    UpdateFieldsEncodable(u);
    DecodesBack(fs);
    DecodesBack(dest);
    DecodesBack(hop);
    DestinationBack(u.destination.value);
    NextHopBack(u.nextHop.value);
    ReadsUpdateBack(u, EncodeFields(dest), EncodeFields(hop));
  }

  lemma {:induction false} ReadsUpdateBack(u: PbUpdate, d: seq<byte>, h: seq<byte>)
    requires u.destination.Some? && u.nextHop.Some?
    requires d == EncodeFields(DestinationFields(u.destination.value)) && h == EncodeFields(NextHopFields(u.nextHop.value))
    requires ReadSub(Some(d), ReadDestination) == Some(u.destination)
    requires ReadSub(Some(h), ReadNextHop) == Some(u.nextHop)
    ensures ReadUpdate(UpdateFields(u)) == Some(u)
  {
    Int32Back(u.action);
    UpdateAt(u, d, h, 1);
    UpdateAt(u, d, h, 2);
    UpdateAt(u, d, h, 3);
    UpdateAt(u, d, h, 4);
  }

  /** An UPDATE carries the NAT port range of NAT hops only. */
  function Normal(m: Message): Message {
    if m.Update? && m.path.hop.kind != NAT
    then m.(path := m.path.(hop := m.path.hop.(natFrom := 0, natTo := 0)))
    else m
  }

  predicate PlainAddresses(p: Path) {
    p.dest.prefix.addr.bytes != [] && p.hop.target.bytes != [] && p.hop.target.zone == ""
  }

  /**
   * Whatever Serialize accepts comes back from deserialization unchanged, up to
   * the port range of a hop that is not NAT, if and only if both addresses are
   * valid and the next hop has no zone.
   */
  lemma {:induction false} UpdateRoundTrip(m: Message)
    requires m.Update? && WellTypedPath(m.path) && SerializeUpdate(m).Ok?
    ensures DeserializeUpdate(SerializeUpdate(m).value) == Ok(Normal(m)) <==> PlainAddresses(m.path)
  {
    UpdatePayloadFits(m);
    UnmarshalsBack(m);
    ConversionRoundTrip(m);
  }

  lemma {:induction false} ConversionRoundTrip(m: Message)
    requires m.Update? && WellTypedPath(m.path) && ToPb(m).Ok?
    ensures FromPb(ToPb(m).value) == Ok(Normal(m)) <==> PlainAddresses(m.path)
  {
    var u := ToPb(m).value;
    var prefix := m.path.dest.prefix;
    if prefix.addr.bytes != [] {
      assert PrefixFrom(Addr(prefix.addr.bytes, ""), AsUint32(prefix.bits)) == prefix;
    }
  }

  /** Serialize fails exactly on an unknown action or IP version. */
  lemma {:induction false} SerializesIff(m: Message)
    requires m.Update? && WellTypedPath(m.path)
    ensures SerializeUpdate(m).Ok? <==> Engine.Encodable(m)
  {
    if ToPb(m).Ok? {
      UpdatePayloadFits(m);
    }
  }

  /** What arrives always names ADD or REMOVE and IP version 4 or 6. */
  lemma DecodedUpdateIsEncodable(bs: seq<byte>)
    requires DeserializeUpdate(bs).Ok?
    ensures DeserializeUpdate(bs).value.Update? && Engine.Encodable(DeserializeUpdate(bs).value)
  {
  }

  /** A destination without a next hop is not refused: the field is read through a nil pointer. */
  lemma MissingNextHopCrashes(bs: seq<byte>)
    requires UnmarshalUpdate(bs).Some?
    ensures var u := UnmarshalUpdate(bs).value;
      DeserializeUpdate(bs) == Crash <==>
        u.destination.Some? && IsAddr(u.destination.value.prefix) && u.nextHop.None?
  {
  }

  /** An UPDATE that names the destination 10.0.0.0/0 and no next hop. */
  const CRASHING: seq<byte> := [26, 6, 18, 4, 10, 0, 0, 0]

  lemma {:induction false} CrashingPayload()
    ensures DeserializeUpdate(CRASHING) == Crash
  {
    hide DecodeFields;
    var prefix: seq<byte> := [10, 0, 0, 0];
    var dest := [18] + ([4] + prefix);
    assert CRASHING == [26] + ([6] + dest);
    OneSubmessage(26, 3, dest);
    OneSubmessage(18, 2, prefix);
    AfterSub([], 3, dest, 3);
    AfterSub([], 3, dest, 4);
    assert [] + [Bytes(3, dest)] == [Bytes(3, dest)];
    AfterBytes([], 2, prefix, 2);
    assert [] + BytesIfSet(2, prefix) == [Bytes(2, prefix)];
  }

  /** A message that consists of one short length-delimited field. */
  lemma {:induction false} OneSubmessage(tag: byte, num: nat, payload: seq<byte>)
    requires tag < 128 && tag == num * 8 + 2 && num > 0 && |payload| < 128
    ensures DecodeFields([tag] + ([|payload|] + payload)) == Some([Bytes(num, payload)])
  {
    var f := Bytes(num, payload);
    hide DecodeFields;
    DecodesBack([f]);
    assert EncodeFields([f][1..]) == [];
    assert EncodeFields([f]) == EncodeField(f) + [];
    assert EncodeField(f) == [tag] + ([|payload|] + payload);
    assert EncodeFields([f]) == [tag] + ([|payload|] + payload);
  }

  // HELLO, SUBSCRIBE and UNSUBSCRIBE

  function SerializeHello(m: Message): seq<byte>
    requires m.Hello?
  {
    EncodeFields([] + ScalarIfSet(1, m.interval) + ScalarIfSet(2, if m.isServer then 1 else 0))
  }

  /** deserializeHelloMsg does not copy the isServer field. */
  function DeserializeHello(bs: seq<byte>): Result<Message> {
    match DecodeFields(bs)
    case None => Err
    case Some(fs) => Ok(Hello(ToUint32(LastScalar(fs, 1)), false))
  }

  function SerializeSubscription(vni: VNI): seq<byte> {
    EncodeFields([] + ScalarIfSet(1, vni))
  }

  function DeserializeSubscription(bs: seq<byte>): Option<VNI> {
    match DecodeFields(bs)
    case None => None
    case Some(fs) => Some(ToUint32(LastScalar(fs, 1)))
  }

  lemma NoFields(num: nat)
    ensures LastScalar([], num) == 0 && EncodeFields([]) == []
  {
  }

  lemma {:induction false} HelloRoundTrip(m: Message)
    requires m.Hello? && m.interval < TWO_32
    ensures DeserializeHello(SerializeHello(m)) == Ok(Hello(m.interval, false))
    ensures |SerializeHello(m)| <= 8
  {
    hide DecodeFields;
    hide EncodeFields;
    hide LastScalar;
    var server := if m.isServer then 1 else 0;
    var a1 := [] + ScalarIfSet(1, m.interval);
    AfterScalar([], 1, m.interval, 1);
    AfterScalar(a1, 2, server, 1);
    NoFields(1);
    DecodesBack(a1 + ScalarIfSet(2, server));
    Pow128Values();
    ScalarSize([], 1, m.interval, 5);
    ScalarSize(a1, 2, server, 1);
  }

  lemma {:induction false} SubscriptionRoundTrip(vni: VNI)
    ensures DeserializeSubscription(SerializeSubscription(vni)) == Some(vni)
    ensures |SerializeSubscription(vni)| <= 6
  {
    AfterScalar([], 1, vni, 1);
    DecodesBack([] + ScalarIfSet(1, vni));
    Pow128Values();
    ScalarSize([], 1, vni, 5);
  }

  // From message to packet and back

  /** sendMessage: the packet of a message, or no packet when it does not serialize. */
  function ToFrame(m: Message): Result<Frame> {
    match m
    case Hello(_, _) => Ok(Frame(HELLO, SerializeHello(m)))
    case Keepalive => Ok(Frame(KEEPALIVE, []))
    case Subscribe(vni) => Ok(Frame(SUBSCRIBE, SerializeSubscription(vni)))
    case Unsubscribe(vni) => Ok(Frame(UNSUBSCRIBE, SerializeSubscription(vni)))
    case Update(_, _) =>
      match SerializeUpdate(m)
      case Ok(bs) => Ok(Frame(UPDATE, bs))
      case Err => Err
      case Crash => Crash
  }

  /** The branch of rxLoop for the packet's type. */
  function FromFrame(f: Frame): Result<Message> {
    if f.kind == HELLO then DeserializeHello(f.payload)
    else if f.kind == KEEPALIVE then Ok(Keepalive)
    else if f.kind == SUBSCRIBE then
      var r := DeserializeSubscription(f.payload);
      if r.Some? then Ok(Subscribe(r.value)) else Err
    else if f.kind == UNSUBSCRIBE then
      var r := DeserializeSubscription(f.payload);
      if r.Some? then Ok(Unsubscribe(r.value)) else Err
    else if f.kind == UPDATE then DeserializeUpdate(f.payload)
    else Err
  }

  function Decodes(kind: byte, payload: seq<byte>): Verdict {
    match FromFrame(Frame(kind, payload))
    case Ok(_) => Accept
    case Err => Refuse
    case Crash => Die
  }

  predicate Transmittable(m: Message) {
    && (m.Hello? ==> m.interval < TWO_32)
    && (m.Update? ==> Engine.Encodable(m) && WellTypedPath(m.path) && PlainAddresses(m.path))
  }

  /** The message the receiver sees. */
  function Arrives(m: Message): Message {
    if m.Hello? then Hello(m.interval, false) else Normal(m)
  }

  lemma {:induction false} PacketRoundTrip(m: Message)
    requires Transmittable(m)
    ensures ToFrame(m).Ok?
    ensures FromFrame(ToFrame(m).value) == Ok(Arrives(m))
    ensures Sendable(Decodes, ToFrame(m).value)
    ensures |ToFrame(m).value.payload| <= 81
  {
    match m
    case Hello(_, _) => HelloRoundTrip(m);
    case Keepalive =>
    case Subscribe(vni) => SubscriptionRoundTrip(vni);
    case Unsubscribe(vni) => SubscriptionRoundTrip(vni);
    case Update(_, _) =>
      SerializesIff(m);
      UpdatePayloadFits(m);
      UpdateRoundTrip(m);
  }

  /** One such packet kills the process that reads it, whatever the buffer held before. */
  lemma {:induction false} CrashingPacketPanics(buf: seq<byte>)
    requires |buf| == BUFFER
    ensures ReceiveAll(buf, [Encode(Frame(UPDATE, CRASHING))], Decodes) == Parsed([], Panic)
  {
    var f := Frame(UPDATE, CRASHING);
    CrashingPayload();
    assert Decodes(UPDATE, CRASHING) == Die;
    hide DeserializeUpdate;
    hide FromFrame;
    hide ReadPacket;
    HeaderLength(f);
    var filled := Filled(buf, Encode(f));
    assert Stands(filled, 0, Encode(f));
    FatalFrame(filled, 0, f, Decodes);
    assert ParseFrom(filled, 0, |Encode(f)|, Decodes) == Parsed([], Panic);
    assert [Encode(f)][0] == Encode(f);
  }

  /** The packets of the messages that serialize. */
  function Frames(ms: seq<Message>): seq<Frame> {
    if ms == [] then []
    else (if ToFrame(ms[0]).Ok? then [ToFrame(ms[0]).value] else []) + Frames(ms[1..])
  }

  function FrameGroups(groups: seq<seq<Message>>): (fs: seq<seq<Frame>>)
    ensures |fs| == |groups|
    ensures forall i :: 0 <= i < |groups| ==> fs[i] == Frames(groups[i])
  {
    if groups == [] then [] else [Frames(groups[0])] + FrameGroups(groups[1..])
  }

  ghost predicate AllTransmittable(ms: seq<Message>) {
    forall m :: m in ms ==> Transmittable(m)
  }

  lemma {:induction false} FramesOfTransmittable(ms: seq<Message>)
    requires AllTransmittable(ms)
    ensures |Frames(ms)| == |ms| && AllSendable(Decodes, Frames(ms))
    ensures forall i :: 0 <= i < |ms| ==> FromFrame(Frames(ms)[i]) == Ok(Arrives(ms[i]))
  {
    if ms != [] {
      assert ms[0] in ms;
      PacketRoundTrip(ms[0]);
      FramesOfTransmittable(ms[1..]);
    }
  }

  /**
   * Any messages the node may send, however the stream is cut into reads
   * between packets, are seen by the receiver in order and as they were sent,
   * up to the isServer flag and the ports of hops that are not NAT.
   */
  lemma {:induction false} MessagesSurviveTheWire(buf: seq<byte>, groups: seq<seq<Message>>)
    requires |buf| == BUFFER
    requires forall g :: g in groups ==> g != [] && AllTransmittable(g)
    requires forall g :: g in groups ==> |EncodeAll(Frames(g))| < BUFFER
    ensures forall r :: r in EncodeGroups(FrameGroups(groups)) ==> |r| <= BUFFER
    ensures var p := ReceiveAll(buf, EncodeGroups(FrameGroups(groups)), Decodes);
      p.outcome == Done && p.frames == Flatten(FrameGroups(groups))
    ensures forall g :: g in groups ==> |Frames(g)| == |g|
    ensures forall g, i :: g in groups && 0 <= i < |g| ==> FromFrame(Frames(g)[i]) == Ok(Arrives(g[i]))
  {
    var fgs := FrameGroups(groups);
    forall g | g in groups
      ensures |Frames(g)| == |g| && AllSendable(Decodes, Frames(g))
      ensures forall i :: 0 <= i < |g| ==> FromFrame(Frames(g)[i]) == Ok(Arrives(g[i]))
    {
      FramesOfTransmittable(g);
    }
    forall fg | fg in fgs ensures fg != [] && AllSendable(Decodes, fg) && |EncodeAll(fg)| < BUFFER {
      var i :| 0 <= i < |groups| && fgs[i] == fg;
      assert groups[i] in groups;
    }
    ReceivesWhatWasSent(buf, fgs, Decodes);
  }
}
