/**
 * The part of the Protocol Buffers wire format (Protocol Buffers Encoding,
 * sections "Base 128 Varints" and "Length-Delimited Records") that the messages
 * of pb/metalbond.proto use.
 */
module Proto {
  import opened Types

  datatype Option<T> = None | Some(value: T)

  const TWO_32: nat := 0x1_0000_0000
  const TWO_64: nat := 0x1_0000_0000_0000_0000

  /** A decoded field: wire type 0, wire type 2, or a fixed-size field no message here declares. */
  datatype Field = Scalar(num: nat, value: nat) | Bytes(num: nat, payload: seq<byte>) | Fixed(num: nat)

  // Varints

  function Varint(n: nat): (r: seq<byte>)
    ensures |r| >= 1
  {
    if n < 128 then [n] else [128 + n % 128] + Varint(n / 128)
  }

  /** The varint at the front of `bs`, of at most `k` bytes, and what follows it. */
  function TakeVarint(bs: seq<byte>, k: nat): (r: Option<(nat, seq<byte>)>)
    ensures r.Some? ==> |r.value.1| < |bs|
  {
    if bs == [] || k == 0 then None
    else if bs[0] < 128 then Some((bs[0], bs[1..]))
    else
      match TakeVarint(bs[1..], k - 1)
      case None => None
      case Some((high, rest)) => Some((bs[0] - 128 + 128 * high, rest))
  }

  /** Ten bytes at most, and a value below 2^64. */
  function ConsumeVarint(bs: seq<byte>): (r: Option<(nat, seq<byte>)>)
    ensures r.Some? ==> |r.value.1| < |bs|
  {
    var r := TakeVarint(bs, 10);
    if r.Some? && r.value.0 < TWO_64 then r else None
  }

  function Pow128(k: nat): nat {
    if k == 0 then 1 else 128 * Pow128(k - 1)
  }

  lemma {:induction false} VarintLength(n: nat, k: nat)
    requires k >= 1 && n < Pow128(k)
    ensures |Varint(n)| <= k
    decreases k
  {
    if n >= 128 {
      assert k > 1 by { assert Pow128(1) == 128 * Pow128(0); }
      VarintLength(n / 128, k - 1);
    }
  }

  lemma {:induction false} Pow128Values()
    ensures Pow128(1) == 0x80 && Pow128(2) == 0x4000 && Pow128(3) == 0x20_0000
    ensures Pow128(5) == 0x8_0000_0000 && Pow128(10) == 0x40_0000_0000_0000_0000
  {
    assert Pow128(1) == 128 * Pow128(0);
    assert Pow128(2) == 128 * Pow128(1);
    assert Pow128(3) == 128 * Pow128(2);
    assert Pow128(4) == 128 * Pow128(3);
    assert Pow128(5) == 128 * Pow128(4);
    assert Pow128(6) == 128 * Pow128(5);
    assert Pow128(7) == 128 * Pow128(6);
    assert Pow128(8) == 128 * Pow128(7);
    assert Pow128(9) == 128 * Pow128(8);
    assert Pow128(10) == 128 * Pow128(9);
  }

  lemma {:induction false} TakesBack(n: nat, rest: seq<byte>, k: nat)
    requires |Varint(n)| <= k
    ensures TakeVarint(Varint(n) + rest, k) == Some((n, rest))
    decreases k
  {
    var bs := Varint(n) + rest;
    if n < 128 {
      assert bs[1..] == rest;
    } else {
      assert bs[1..] == Varint(n / 128) + rest;
      TakesBack(n / 128, rest, k - 1);
    }
  }

  lemma {:induction false} ConsumesBack(n: nat, rest: seq<byte>)
    requires n < TWO_64
    ensures ConsumeVarint(Varint(n) + rest) == Some((n, rest))
  {
    Pow128Values();
    VarintLength(n, 10);
    TakesBack(n, rest, 10);
  }

  // What a varint is: groups of seven bits, the lowest first, each byte but the last marked by its high bit

  ghost function Groups(bs: seq<byte>): nat {
    if bs == [] then 0 else bs[0] % 128 + 128 * Groups(bs[1..])
  }

  ghost predicate OneVarint(bs: seq<byte>) {
    bs != [] && bs[|bs| - 1] < 128 && forall i :: 0 <= i < |bs| - 1 ==> bs[i] >= 128
  }

  /** The encoding is a varint of that value, and none shorter: its last group is not 0. */
  lemma {:induction false} VarintIsBase128(n: nat)
    ensures var bs := Varint(n);
      OneVarint(bs) && Groups(bs) == n && (|bs| > 1 ==> bs[|bs| - 1] != 0)
  {
    if n >= 128 {
      VarintIsBase128(n / 128);
      assert Varint(n)[1..] == Varint(n / 128);
      assert forall i :: 0 < i < |Varint(n)| ==> Varint(n)[i] == Varint(n / 128)[i - 1];
    }
  }

  lemma {:induction false} TakesAnyVarint(bs: seq<byte>, k: nat, j: nat)
    requires j <= k && j <= |bs| && OneVarint(bs[..j])
    ensures TakeVarint(bs, k) == Some((Groups(bs[..j]), bs[j..]))
  {
    assert bs[0] == bs[..j][0];
    assert Groups(bs[..j][1..][..0]) == 0;
    if j == 1 {
      assert bs[..j][1..] == [];
    } else {
      var tail := bs[1..];
      assert bs[..j][1..] == tail[..j - 1];
      assert forall i :: 1 <= i < j ==> bs[..j][i] == tail[..j - 1][i - 1];
      assert forall i :: 0 <= i < j - 1 ==> tail[..j - 1][i] == bs[..j][1..][i];
      TakesAnyVarint(tail, k - 1, j - 1);
    }
  }

  lemma {:induction false} TakenIsAVarint(bs: seq<byte>, k: nat)
    requires TakeVarint(bs, k).Some?
    ensures var j := |bs| - |TakeVarint(bs, k).value.1|; j <= k && OneVarint(bs[..j])
  {
    if bs[0] >= 128 {
      TakenIsAVarint(bs[1..], k - 1);
      var j := |bs| - |TakeVarint(bs, k).value.1|;
      assert forall i :: 0 < i < j ==> bs[..j][i] == bs[1..][..j - 1][i - 1];
    }
  }

  /** The reader takes exactly the varints of at most ten bytes whose value is below 2^64. */
  lemma {:induction false} ConsumesExactlyVarints(bs: seq<byte>, j: nat)
    requires j <= |bs|
    ensures ConsumeVarint(bs) == Some((Groups(bs[..j]), bs[j..])) <==> j <= 10 && OneVarint(bs[..j]) && Groups(bs[..j]) < TWO_64
    ensures ConsumeVarint(bs).Some? ==> exists i :: 0 < i <= |bs| && i <= 10 && OneVarint(bs[..i])
  {
    if ConsumeVarint(bs).Some? {
      TakenIsAVarint(bs, 10);
    }
    if j <= 10 && OneVarint(bs[..j]) {
      TakesAnyVarint(bs, 10, j);
    }
  }

  // Fields

  function EncodeField(f: Field): seq<byte> {
    match f
    case Scalar(num, value) => Varint(num * 8) + Varint(value)
    case Bytes(num, payload) => Varint(num * 8 + 2) + (Varint(|payload|) + payload)
    case Fixed(_) => []
  }

  function EncodeFields(fs: seq<Field>): seq<byte> {
    if fs == [] then [] else EncodeField(fs[0]) + EncodeFields(fs[1..])
  }

  /** The field at the front of `bs` and what follows it. */
  function TakeField(bs: seq<byte>): (r: Option<(Field, seq<byte>)>)
    ensures r.Some? ==> |r.value.1| < |bs|
  {
    match ConsumeVarint(bs)
    case None => None
    case Some((tag, rest)) =>
      var num := tag / 8;
      if num == 0 then None
      else if tag % 8 == 0 then
        match ConsumeVarint(rest)
        case None => None
        case Some((value, rest')) => Some((Scalar(num, value), rest'))
      else if tag % 8 == 2 then
        match ConsumeVarint(rest)
        case None => None
        case Some((n, rest')) => if n > |rest'| then None else Some((Bytes(num, rest'[..n]), rest'[n..]))
      else if tag % 8 == 1 && |rest| >= 8 then Some((Fixed(num), rest[8..]))
      else if tag % 8 == 5 && |rest| >= 4 then Some((Fixed(num), rest[4..]))
      else None
  }

  function DecodeFields(bs: seq<byte>): Option<seq<Field>>
    decreases |bs|
  {
    if bs == [] then Some([])
    else
      match TakeField(bs)
      case None => None
      case Some((f, rest)) =>
        match DecodeFields(rest)
        case None => None
        case Some(fs) => Some([f] + fs)
  }

  predicate Encodable(f: Field) {
    && 1 <= f.num < 0x1000_0000
    && (f.Scalar? ==> f.value < TWO_64)
    && (f.Bytes? ==> |f.payload| < TWO_64)
    && !f.Fixed?
  }

  lemma {:induction false} TakesFieldBack(f: Field, rest: seq<byte>)
    requires Encodable(f)
    ensures TakeField(EncodeField(f) + rest) == Some((f, rest))
  {
    match f
    case Scalar(num, value) =>
      assert EncodeField(f) + rest == Varint(num * 8) + (Varint(value) + rest);
      ConsumesBack(num * 8, Varint(value) + rest);
      ConsumesBack(value, rest);
    case Bytes(num, payload) =>
      assert EncodeField(f) + rest == Varint(num * 8 + 2) + (Varint(|payload|) + (payload + rest));
      ConsumesBack(num * 8 + 2, Varint(|payload|) + (payload + rest));
      ConsumesBack(|payload|, payload + rest);
      assert (payload + rest)[..|payload|] == payload && (payload + rest)[|payload|..] == rest;
  }

  lemma {:induction false} DecodesBack(fs: seq<Field>)
    requires forall f :: f in fs ==> Encodable(f)
    ensures DecodeFields(EncodeFields(fs)) == Some(fs)
  {
    if fs != [] {
      assert fs[0] in fs;
      TakesFieldBack(fs[0], EncodeFields(fs[1..]));
      DecodesBack(fs[1..]);
      assert EncodeFields(fs) != [] by { assert |EncodeField(fs[0])| >= 1; }
      assert fs == [fs[0]] + fs[1..];
    }
  }

  // Reading a message off its fields: the last scalar wins, submessages merge

  function LastScalar(fs: seq<Field>, num: nat): nat {
    if fs == [] then 0
    else
      var f := fs[|fs| - 1];
      if f.Scalar? && f.num == num then f.value else LastScalar(fs[..|fs| - 1], num)
  }

  function LastBytes(fs: seq<Field>, num: nat): seq<byte> {
    if fs == [] then []
    else
      var f := fs[|fs| - 1];
      if f.Bytes? && f.num == num then f.payload else LastBytes(fs[..|fs| - 1], num)
  }

  /** Concatenating the encodings of a submessage merges them; None when the field is absent. */
  function Submessage(fs: seq<Field>, num: nat): Option<seq<byte>> {
    if fs == [] then None
    else
      var f := fs[|fs| - 1];
      var before := Submessage(fs[..|fs| - 1], num);
      if !(f.Bytes? && f.num == num) then before
      else if before.None? then Some(f.payload)
      else Some(before.value + f.payload)
  }

  /** A scalar that is given more than once has its last value, one that is not given is 0. */
  lemma {:induction false} LastScalarWins(fs: seq<Field>, num: nat, i: nat)
    requires i < |fs| ==> fs[i].Scalar? && fs[i].num == num
    requires i <= |fs| && forall j :: 0 <= j < |fs| && (i == |fs| || i < j) ==> !(fs[j].Scalar? && fs[j].num == num)
    ensures LastScalar(fs, num) == if i < |fs| then fs[i].value else 0
  {
    if fs != [] && i != |fs| - 1 {
      LastScalarWins(fs[..|fs| - 1], num, if i == |fs| then |fs| - 1 else i);
    }
  }

  lemma {:induction false} LastBytesWin(fs: seq<Field>, num: nat, i: nat)
    requires i < |fs| ==> fs[i].Bytes? && fs[i].num == num
    requires i <= |fs| && forall j :: 0 <= j < |fs| && (i == |fs| || i < j) ==> !(fs[j].Bytes? && fs[j].num == num)
    ensures LastBytes(fs, num) == if i < |fs| then fs[i].payload else []
  {
    if fs != [] && i != |fs| - 1 {
      LastBytesWin(fs[..|fs| - 1], num, if i == |fs| then |fs| - 1 else i);
    }
  }

  /** proto3 does not send a scalar that has its default value. */
  function ScalarIfSet(num: nat, value: nat): seq<Field> {
    if value == 0 then [] else [Scalar(num, value)]
  }

  function BytesIfSet(num: nat, payload: seq<byte>): seq<Field> {
    if payload == [] then [] else [Bytes(num, payload)]
  }

  /** An enum or int32 on the wire: two's complement on 64 bits. */
  function FromInt32(v: int32): nat {
    if v < 0 then v + TWO_64 else v
  }

  function ToInt32(n: nat): int32 {
    var low := n % TWO_32;
    if low < 0x8000_0000 then low else low - TWO_32
  }

  function ToUint32(n: nat): uint32 {
    n % TWO_32
  }

  lemma Int32Back(v: int32)
    ensures FromInt32(v) < TWO_64 && ToInt32(FromInt32(v)) == v
  {
  }
}
