/**
 * The values MetalBond exchanges and stores (types.go).
 */
module Types {

  type byte = x: int | 0 <= x < 0x100
  type uint16 = x: int | 0 <= x < 0x1_0000
  type uint32 = x: int | 0 <= x < 0x1_0000_0000
  type int32 = x: int | -0x8000_0000 <= x < 0x8000_0000

  type VNI = uint32

  /** A `netip.Addr`: 4 or 16 bytes in network order, none for the zero Addr. */
  datatype Addr = Addr(bytes: seq<byte>, zone: string)

  /** A `netip.Prefix`; an invalid prefix has bits == -1. */
  datatype Prefix = Prefix(addr: Addr, bits: int)

  datatype Destination = Destination(ipVersion: byte, prefix: Prefix)

  datatype NextHop = NextHop(target: Addr, targetVNI: uint32, kind: int32, natFrom: uint16, natTo: uint16)

  const IPV4: byte := 4
  const IPV6: byte := 6

  const STANDARD: int32 := 0
  const NAT: int32 := 1

  const ADD: byte := 0
  const REMOVE: byte := 1

  /** What an UPDATE names: one next hop for one destination of one VNI. */
  datatype Path = Path(vni: VNI, dest: Destination, hop: NextHop)

  /** Identity of a `*metalBondPeer`; every connection object has its own. */
  type PeerId = nat

  /** The innermost key of a route table: a peer, or nil for the node itself. */
  datatype Source = Local | Remote(id: PeerId)

  /** One tuple of a route table. */
  datatype Entry = Entry(path: Path, source: Source)

  /** `order` lists every element of `s` exactly once: one iteration of a Go map. */
  ghost predicate Enumerates<T(!new)>(order: seq<T>, s: set<T>) {
    && (forall x :: x in order <==> x in s)
    && Distinct(order)
  }

  ghost predicate Distinct<T>(order: seq<T>) {
    forall i, j :: 0 <= i < j < |order| ==> order[i] != order[j]
  }

  lemma {:induction false} EnumeratesNothing<T(!new)>(order: seq<T>, s: set<T>)
    requires Enumerates(order, s)
    ensures s == {} ==> order == []
  {
    if order != [] {
      assert order[0] in s;
    }
  }

  ghost function ToSet<T>(s: seq<T>): set<T> {
    set x | x in s
  }

  function Min(a: int, b: int): int {
    if b < a then b else a
  }
}
