/**
 * netlink.go: the cache of next hops per route and the kernel's multipath
 * entries it installs, at most three hops each.
 */
module AddrOrder {
  import opened Types

  // netip.Addr.Compare orders by bit length, then by value, then by zone.

  function ZoneKey(zone: string): seq<int> {
    if zone == "" then [] else [zone[0] as int] + ZoneKey(zone[1..])
  }

  function CompareKey(a: Addr): seq<int> {
    [|a.bytes|] + a.bytes + ZoneKey(a.zone)
  }

  predicate LexLe(xs: seq<int>, ys: seq<int>) {
    if xs == [] then true
    else if ys == [] then false
    else xs[0] < ys[0] || (xs[0] == ys[0] && LexLe(xs[1..], ys[1..]))
  }

  predicate AddrLe(a: Addr, b: Addr) {
    LexLe(CompareKey(a), CompareKey(b))
  }

  lemma {:induction false} LexTotal(xs: seq<int>, ys: seq<int>)
    ensures LexLe(xs, ys) || LexLe(ys, xs)
  {
    if xs != [] && ys != [] && xs[0] == ys[0] {
      LexTotal(xs[1..], ys[1..]);
    }
  }

  lemma {:induction false} LexTransitive(xs: seq<int>, ys: seq<int>, zs: seq<int>)
    requires LexLe(xs, ys) && LexLe(ys, zs)
    ensures LexLe(xs, zs)
  {
    if xs != [] && xs[0] == ys[0] && ys[0] == zs[0] {
      LexTransitive(xs[1..], ys[1..], zs[1..]);
    }
  }

  lemma {:induction false} LexAntisymmetric(xs: seq<int>, ys: seq<int>)
    requires LexLe(xs, ys) && LexLe(ys, xs)
    ensures xs == ys
  {
    if xs != [] {
      LexAntisymmetric(xs[1..], ys[1..]);
      assert xs == [xs[0]] + xs[1..] && ys == [ys[0]] + ys[1..];
    }
  }

  lemma {:induction false} ZoneKeyInjective(z: string, w: string)
    requires ZoneKey(z) == ZoneKey(w)
    ensures z == w
  {
    if z != "" && w != "" {
      assert ZoneKey(z)[0] == ZoneKey(w)[0];
      assert ZoneKey(z)[1..] == ZoneKey(z[1..]) && ZoneKey(w)[1..] == ZoneKey(w[1..]);
      ZoneKeyInjective(z[1..], w[1..]);
      assert z == [z[0]] + z[1..] && w == [w[0]] + w[1..];
    }
  }

  lemma {:induction false} AddrTotal(a: Addr, b: Addr)
    ensures AddrLe(a, b) || AddrLe(b, a)
  {
    LexTotal(CompareKey(a), CompareKey(b));
  }

  lemma {:induction false} AddrTransitive(a: Addr, b: Addr, c: Addr)
    requires AddrLe(a, b) && AddrLe(b, c)
    ensures AddrLe(a, c)
  {
    LexTransitive(CompareKey(a), CompareKey(b), CompareKey(c));
  }

  /** The length, the bytes and the zone can be read off the key. */
  lemma {:induction false} KeyParts(a: Addr)
    ensures var k := CompareKey(a);
      && |k| >= 1 + |a.bytes| && k[0] == |a.bytes|
      && (forall i :: 0 <= i < |a.bytes| ==> k[1 + i] == a.bytes[i])
      && k[1 + |a.bytes|..] == ZoneKey(a.zone)
  {
    hide ZoneKey;
  }

  lemma {:induction false} AddrAntisymmetric(a: Addr, b: Addr)
    requires AddrLe(a, b) && AddrLe(b, a)
    ensures a == b
  {
    hide LexLe;
    hide ZoneKey;
    var ka, kb := CompareKey(a), CompareKey(b);
    LexAntisymmetric(ka, kb);
    KeyParts(a);
    KeyParts(b);
    hide CompareKey;
    var n := |a.bytes|;
    assert |b.bytes| == n;
    forall i | 0 <= i < n ensures a.bytes[i] == b.bytes[i] {
      assert ka[1 + i] == kb[1 + i];
    }
    assert a.bytes == b.bytes;
    assert ka[1 + n..] == kb[1 + n..];
    ZoneKeyInjective(a.zone, b.zone);
  }

  // What the order is, without the recursion: by bit length, then as numbers, then by zone.

  /** The first difference decides; a proper prefix comes first. */
  ghost predicate FirstDifference(xs: seq<int>, ys: seq<int>) {
    || xs <= ys
    || exists k :: 0 <= k < |xs| && k < |ys| && xs[..k] == ys[..k] && xs[k] < ys[k]
  }

  lemma {:induction false} LexLeIff(xs: seq<int>, ys: seq<int>)
    ensures LexLe(xs, ys) <==> FirstDifference(xs, ys)
  {
    if xs != [] && ys != [] && xs[0] == ys[0] {
      var us, vs := xs[1..], ys[1..];
      LexLeIff(us, vs);
      assert xs == [xs[0]] + us && ys == [ys[0]] + vs;
      if k :| 0 <= k < |us| && k < |vs| && us[..k] == vs[..k] && us[k] < vs[k] {
        assert xs[..k + 1] == [xs[0]] + us[..k] && ys[..k + 1] == [ys[0]] + vs[..k];
        assert xs[k + 1] < ys[k + 1];
      }
      if k :| 0 <= k < |xs| && k < |ys| && xs[..k] == ys[..k] && xs[k] < ys[k] {
        assert k > 0;
        assert us[..k - 1] == xs[..k][1..] && vs[..k - 1] == ys[..k][1..];
        assert us[k - 1] < vs[k - 1];
      }
    } else if xs != [] && ys != [] {
      assert xs[..0] == ys[..0];
    }
  }

  function Pow256(k: nat): nat {
    if k == 0 then 1 else 256 * Pow256(k - 1)
  }

  /** The bytes as one number, the first byte being the most significant. */
  function Value(bytes: seq<byte>): nat {
    if bytes == [] then 0 else bytes[0] * Pow256(|bytes| - 1) + Value(bytes[1..])
  }

  lemma {:induction false} Multiple(d: nat, p: nat)
    requires d >= 1
    ensures d * p >= p
  {
    if d > 1 {
      Multiple(d - 1, p);
      assert d * p == (d - 1) * p + p;
    }
  }

  lemma {:induction false} Difference(x: nat, y: nat, p: nat)
    requires x < y
    ensures y * p >= x * p + p
  {
    Multiple(y - x, p);
    assert y * p == x * p + (y - x) * p;
  }

  lemma {:induction false} ValueBound(bytes: seq<byte>)
    ensures Value(bytes) < Pow256(|bytes|)
  {
    if bytes != [] {
      ValueBound(bytes[1..]);
      Difference(bytes[0], 256, Pow256(|bytes| - 1));
    }
  }

  lemma {:induction false} LeadingDigit(x: nat, y: nat, p: nat, u: nat, v: nat)
    requires u < p && v < p
    ensures x * p + u <= y * p + v <==> x < y || (x == y && u <= v)
  {
    if x < y {
      Difference(x, y, p);
    } else if y < x {
      Difference(y, x, p);
    }
  }

  lemma {:induction false} LexIsValue(xs: seq<byte>, ys: seq<byte>)
    requires |xs| == |ys|
    ensures LexLe(xs, ys) <==> Value(xs) <= Value(ys)
  {
    if xs != [] {
      LexIsValue(xs[1..], ys[1..]);
      ValueBound(xs[1..]);
      ValueBound(ys[1..]);
      LeadingDigit(xs[0], ys[0], Pow256(|xs| - 1), Value(xs[1..]), Value(ys[1..]));
      var us: seq<int>, vs: seq<int> := xs, ys;
      assert us[1..] == xs[1..] && vs[1..] == ys[1..];
    }
  }

  lemma {:induction false} LexInParts(xs: seq<int>, us: seq<int>, ys: seq<int>, vs: seq<int>)
    requires |xs| == |ys|
    ensures LexLe(xs + us, ys + vs) <==> if xs == ys then LexLe(us, vs) else LexLe(xs, ys)
  {
    if xs == [] {
      assert xs + us == us && ys + vs == vs;
    } else {
      LexInParts(xs[1..], us, ys[1..], vs);
      assert (xs + us)[1..] == xs[1..] + us && (ys + vs)[1..] == ys[1..] + vs;
      assert xs == [xs[0]] + xs[1..] && ys == [ys[0]] + ys[1..];
    }
  }

  /** Shorter addresses first, then the smaller number, then the zone. */
  ghost predicate ComesFirst(a: Addr, b: Addr) {
    || |a.bytes| < |b.bytes|
    || (|a.bytes| == |b.bytes| && Value(a.bytes) < Value(b.bytes))
    || (a.bytes == b.bytes && FirstDifference(ZoneKey(a.zone), ZoneKey(b.zone)))
  }

  lemma {:induction false} ValueDetermines(xs: seq<byte>, ys: seq<byte>)
    requires |xs| == |ys| && Value(xs) == Value(ys)
    ensures xs == ys
  {
    LexIsValue(xs, ys);
    LexIsValue(ys, xs);
    LexAntisymmetric(xs, ys);
  }

  /** netip.Addr.Compare, in words. */
  lemma {:induction false} AddrLeIff(a: Addr, b: Addr)
    ensures AddrLe(a, b) <==> ComesFirst(a, b)
  {
    var xs: seq<int>, ys: seq<int> := a.bytes, b.bytes;
    LexLeIff(ZoneKey(a.zone), ZoneKey(b.zone));
    LexInParts([|xs|], xs + ZoneKey(a.zone), [|ys|], ys + ZoneKey(b.zone));
    assert CompareKey(a) == [|xs|] + (xs + ZoneKey(a.zone)) && CompareKey(b) == [|ys|] + (ys + ZoneKey(b.zone));
    if |xs| == |ys| {
      LexInParts(xs, ZoneKey(a.zone), ys, ZoneKey(b.zone));
      LexIsValue(a.bytes, b.bytes);
      if Value(a.bytes) == Value(b.bytes) {
        ValueDetermines(a.bytes, b.bytes);
      }
    } else {
      assert [|xs|][0] != [|ys|][0];
    }
  }

  predicate AtMost(a: Addr, b: Addr) {
    |a.bytes| < |b.bytes| || (|a.bytes| == |b.bytes| && Value(a.bytes) <= Value(b.bytes))
  }

  /** Without zones it is the order of numbers. */
  lemma {:induction false} AddrLeIsByValue(a: Addr, b: Addr)
    requires a.zone == "" && b.zone == ""
    ensures AddrLe(a, b) <==> AtMost(a, b)
  {
    AddrLeIff(a, b);
    if |a.bytes| == |b.bytes| && Value(a.bytes) == Value(b.bytes) {
      ValueDetermines(a.bytes, b.bytes);
    }
  }

  // Sorted lists of addresses

  ghost predicate Sorted(s: seq<Addr>) {
    forall i, j :: 0 <= i < j < |s| ==> AddrLe(s[i], s[j])
  }

  lemma {:induction false} HeadIsLeast(s: seq<Addr>, x: Addr)
    requires Sorted(s) && x in s
    ensures AddrLe(s[0], x)
  {
    var i :| 0 <= i < |s| && s[i] == x;
    AddrTotal(x, x);
  }

  lemma {:induction false} TailMultiset(s: seq<Addr>)
    requires s != []
    ensures multiset(s[1..]) == multiset(s) - multiset{s[0]}
  {
    assert s == [s[0]] + s[1..];
  }

  /** A sorted list is determined by how often it contains each address. */
  lemma {:induction false} SortedUnique(s: seq<Addr>, t: seq<Addr>)
    requires Sorted(s) && Sorted(t) && multiset(s) == multiset(t)
    ensures s == t
  {
    hide AddrLe;
    assert |s| == |multiset(s)| && |t| == |multiset(t)|;
    if s != [] {
      assert s[0] in multiset(t) && t[0] in multiset(s);
      HeadIsLeast(s, t[0]);
      HeadIsLeast(t, s[0]);
      AddrAntisymmetric(s[0], t[0]);
      TailMultiset(s);
      TailMultiset(t);
      SortedUnique(s[1..], t[1..]);
      assert s == [s[0]] + s[1..] && t == [t[0]] + t[1..];
    }
  }
}

module Netlink {
  import opened Types
  import opened AddrOrder

  type RouteKey = (VNI, Destination)
  type KernelKey = (int, Prefix)

  datatype Config = Config(tables: map<VNI, int>, ipv4Only: bool)

  /** The cache and the part of the kernel's routing tables that carries MetalBond's protocol number. */
  datatype State = State(routes: map<RouteKey, seq<NextHop>>, kernel: map<KernelKey, seq<Addr>>)

  const Fresh := State(map[], map[])

  // Lists of hops

  function Targets(hops: seq<NextHop>): (r: seq<Addr>)
    ensures |r| == |hops|
    ensures forall i :: 0 <= i < |hops| ==> r[i] == hops[i].target
  {
    if hops == [] then [] else [hops[0].target] + Targets(hops[1..])
  }

  /** What replaceRoute installs: the targets of the first three hops. */
  function FirstThree(hops: seq<NextHop>): seq<Addr> {
    Targets(hops[..Min(3, |hops|)])
  }

  ghost predicate ByAddress(hops: seq<NextHop>) {
    forall i, j :: 0 <= i < j < |hops| ==> AddrLe(hops[i].target, hops[j].target)
  }

  /** Any outcome of the unstable sort: the same hops, ordered by target address. */
  ghost predicate IsSortOf(next: seq<NextHop>, hops: seq<NextHop>) {
    multiset(next) == multiset(hops) && ByAddress(next)
  }

  function Without(hops: seq<NextHop>, hop: NextHop): seq<NextHop> {
    if hops == [] then []
    else (if hops[0] == hop then [] else [hops[0]]) + Without(hops[1..], hop)
  }

  method SortByAddress(hops: seq<NextHop>) returns (next: seq<NextHop>)
    ensures IsSortOf(next, hops)
  {
    next := [];
    for i := 0 to |hops|
      invariant multiset(next) == multiset(hops[..i])
      invariant ByAddress(next)
    {
      next := InsertByAddress(next, hops[i]);
      assert hops[..i + 1] == hops[..i] + [hops[i]];
    }
    assert hops[..|hops|] == hops;
  }

  method InsertByAddress(hops: seq<NextHop>, hop: NextHop) returns (next: seq<NextHop>)
    requires ByAddress(hops)
    ensures multiset(next) == multiset(hops) + multiset{hop}
    ensures ByAddress(next)
  {
    hide AddrLe;
    var k := 0;
    while k < |hops| && AddrLe(hops[k].target, hop.target)
      invariant 0 <= k <= |hops|
      invariant forall i :: 0 <= i < k ==> AddrLe(hops[i].target, hop.target)
    {
      k := k + 1;
    }
    next := hops[..k] + [hop] + hops[k..];
    assert hops == hops[..k] + hops[k..];
    InsertedInOrder(hops, hop, k);
  }

  lemma {:induction false} InsertedInOrder(hops: seq<NextHop>, hop: NextHop, k: nat)
    requires ByAddress(hops) && k <= |hops|
    requires forall i :: 0 <= i < k ==> AddrLe(hops[i].target, hop.target)
    requires k < |hops| ==> !AddrLe(hops[k].target, hop.target)
    ensures ByAddress(hops[..k] + [hop] + hops[k..])
  {
    hide AddrLe;
    forall j | k <= j < |hops| ensures AddrLe(hop.target, hops[j].target) {
      AddrTotal(hops[k].target, hop.target);
      if j > k {
        AddrTransitive(hop.target, hops[k].target, hops[j].target);
      }
    }
    var next := hops[..k] + [hop] + hops[k..];
    forall i, j | 0 <= i < j < |next| ensures AddrLe(next[i].target, next[j].target) {
      assert next[i] == (if i < k then hops[i] else if i == k then hop else hops[i - 1]);
      assert next[j] == (if j < k then hops[j] else if j == k then hop else hops[j - 1]);
    }
  }

  /** The loop of replaceRoute, which stops once it has three hops. */
  method NextHopInfos(hops: seq<NextHop>) returns (infos: seq<Addr>)
    ensures infos == FirstThree(hops)
  {
    infos := [];
    var i := 0;
    while i < |hops| && |infos| < 3
      invariant 0 <= i <= |hops| && i == |infos| <= 3
      invariant forall j :: 0 <= j < i ==> infos[j] == hops[j].target
    {
      infos := infos + [hops[i].target];
      i := i + 1;
    }
  }

  method DeleteHop(hops: seq<NextHop>, hop: NextHop) returns (next: seq<NextHop>)
    ensures next == Without(hops, hop)
  {
    next := [];
    var i := |hops|;
    while i > 0
      invariant 0 <= i <= |hops|
      invariant next == Without(hops[i..], hop)
    {
      i := i - 1;
      if hops[i] != hop {
        next := [hops[i]] + next;
      }
      assert hops[i..][1..] == hops[i + 1..];
    }
    assert hops[0..] == hops;
  }

  // One call

  datatype Event =
    | Add(path: Path, kernelOk: bool, next: seq<NextHop>)
    | Remove(path: Path, kernelOk: bool)

  predicate Admissible(c: Config, path: Path) {
    path.vni in c.tables && !(c.ipv4Only && path.dest.ipVersion != IPV4)
  }

  function KeyOf(path: Path): RouteKey {
    (path.vni, path.dest)
  }

  function KernelKeyOf(c: Config, key: RouteKey): KernelKey
    requires key.0 in c.tables
  {
    (c.tables[key.0], key.1.prefix)
  }

  function Current(s: State, key: RouteKey): seq<NextHop> {
    if key in s.routes then s.routes[key] else []
  }

  /** AddRoute reaches the kernel, and the kernel accepts. */
  predicate Installs(c: Config, s: State, e: Event) {
    e.Add? && Admissible(c, e.path) && e.path.hop !in Current(s, KeyOf(e.path)) && e.kernelOk
  }

  /** `next` is what the sort made of the cached hops and the new one. */
  ghost predicate Possible(c: Config, s: State, e: Event) {
    Installs(c, s, e) ==> IsSortOf(e.next, Current(s, KeyOf(e.path)) + [e.path.hop])
  }

  function Step(c: Config, s: State, e: Event): State {
    match e
    case Add(path, kernelOk, next) =>
      if !Installs(c, s, e) then s
      else
        var key := KeyOf(path);
        State(s.routes[key := next], s.kernel[KernelKeyOf(c, key) := FirstThree(next)])
    case Remove(path, kernelOk) =>
      var key := KeyOf(path);
      if !Admissible(c, path) || key !in s.routes then s
      else
        var next := Without(s.routes[key], path.hop);
        if |next| == |s.routes[key]| || !kernelOk then s
        else if next == [] then State(s.routes - {key}, s.kernel - {KernelKeyOf(c, key)})
        else State(s.routes[key := next], s.kernel[KernelKeyOf(c, key) := FirstThree(next)])
  }

  class NetlinkClient {
    const config: Config
    var routes: map<RouteKey, seq<NextHop>>
    /** The kernel as the netlink calls leave it. */
    var kernel: map<KernelKey, seq<Addr>>

    ghost function Model(): State
      reads this
    {
      State(routes, kernel)
    }

    constructor (config: Config)
      ensures Model() == Fresh && this.config == config
    {
      this.config := config;
      routes, kernel := map[], map[];
    }

    method AddRoute(path: Path, kernelOk: bool) returns (ok: bool, ghost next: seq<NextHop>)
      modifies this
      ensures Possible(config, old(Model()), Add(path, kernelOk, next))
      ensures Model() == Step(config, old(Model()), Add(path, kernelOk, next))
      ensures ok && Admissible(config, path) ==> path.hop in Current(Model(), KeyOf(path))
      ensures ok <==>
        || (config.ipv4Only && path.dest.ipVersion != IPV4)
        || (path.vni in config.tables && (kernelOk || path.hop in Current(old(Model()), KeyOf(path))))
    {
      next := [];
      if config.ipv4Only && path.dest.ipVersion != IPV4 {
        return true, [];
      }
      if path.vni !in config.tables {
        return false, [];
      }
      var key := KeyOf(path);
      var current := if key in routes then routes[key] else [];
      if path.hop in current {
        return true, [];
      }
      var sorted := SortByAddress(current + [path.hop]);
      next := sorted;
      var infos := NextHopInfos(sorted);
      if !kernelOk {
        return false, next;
      }
      kernel := kernel[KernelKeyOf(config, key) := infos];
      routes := routes[key := sorted];
      assert path.hop in multiset(current + [path.hop]) && path.hop in multiset(sorted);
      ok := true;
    }

    method RemoveRoute(path: Path, kernelOk: bool) returns (ok: bool)
      modifies this
      ensures Model() == Step(config, old(Model()), Remove(path, kernelOk))
      ensures ok && Admissible(config, path) ==> path.hop !in Current(Model(), KeyOf(path))
      ensures ok <==>
        || (config.ipv4Only && path.dest.ipVersion != IPV4)
        || (path.vni in config.tables && KeyOf(path) in old(routes)
            && (kernelOk || path.hop !in Current(old(Model()), KeyOf(path))))
    {
      if config.ipv4Only && path.dest.ipVersion != IPV4 {
        return true;
      }
      var key := KeyOf(path);
      if path.vni !in config.tables || key !in routes {
        return false;
      }
      var next := DeleteHop(routes[key], path.hop);
      WithoutIsFilter(routes[key], path.hop);
      if |next| == |routes[key]| {
        return true;
      }
      if !kernelOk {
        return false;
      }
      if |next| == 0 {
        kernel := kernel - {KernelKeyOf(config, key)};
        routes := routes - {key};
      } else {
        var infos := NextHopInfos(next);
        kernel := kernel[KernelKeyOf(config, key) := infos];
        routes := routes[key := next];
      }
      ok := true;
    }
  }

  // What one call does, spelled out

  /** The targets of the first three hops, or of all if there are fewer. */
  ghost predicate Installs3(infos: seq<Addr>, hops: seq<NextHop>) {
    && |infos| == (if |hops| < 3 then |hops| else 3)
    && forall i :: 0 <= i < |infos| ==> infos[i] == hops[i].target
  }

  lemma {:induction false} FirstThreeInstalls(hops: seq<NextHop>)
    ensures Installs3(FirstThree(hops), hops)
  {
    hide Targets;
  }

  /** Where the route is kept, and where it is installed. */
  ghost predicate Wrote(c: Config, s: State, r: State, path: Path, hops: seq<NextHop>)
    requires path.vni in c.tables
  {
    var key, place := (path.vni, path.dest), (c.tables[path.vni], path.dest.prefix);
    && r.routes == s.routes[key := hops]
    && place in r.kernel && Installs3(r.kernel[place], hops) && r.kernel == s.kernel[place := r.kernel[place]]
  }

  ghost predicate Ignores(c: Config, path: Path) {
    (c.ipv4Only && path.dest.ipVersion != 4) || path.vni !in c.tables
  }

  /**
   * AddRoute: nothing for a filtered route, an unknown VNI, a hop that is there
   * or a kernel that refuses; otherwise the hops and the new one in the order
   * of their addresses, the first three installed, nothing else touched.
   */
  lemma {:induction false} AddInWords(c: Config, s: State, path: Path, kernelOk: bool, next: seq<NextHop>)
    requires Possible(c, s, Add(path, kernelOk, next))
    ensures var r := Step(c, s, Add(path, kernelOk, next));
      var key := (path.vni, path.dest);
      var hops := if key in s.routes then s.routes[key] else [];
      if Ignores(c, path) || path.hop in hops || !kernelOk then r == s
      else
        && multiset(next) == multiset(hops) + multiset{path.hop}
        && (forall i, j :: 0 <= i < j < |next| ==> ComesFirst(next[i].target, next[j].target))
        && Wrote(c, s, r, path, next)
  {
    FirstThreeInstalls(next);
    forall i, j | 0 <= i < j < |next| && ByAddress(next) ensures ComesFirst(next[i].target, next[j].target) {
      AddrLeIff(next[i].target, next[j].target);
    }
  }

  /**
   * RemoveRoute: nothing for a filtered route, an unknown VNI, a hop that is
   * not there or a kernel that refuses; otherwise the hop goes and the rest
   * stays in order, the first three installed; with the last hop both entries go.
   */
  lemma {:induction false} RemoveInWords(c: Config, s: State, path: Path, kernelOk: bool)
    ensures var r := Step(c, s, Remove(path, kernelOk));
      var key := (path.vni, path.dest);
      var hops := if key in s.routes then s.routes[key] else [];
      if Ignores(c, path) || path.hop !in hops || !kernelOk then r == s
      else if forall h :: h in hops ==> h == path.hop then
        r == State(s.routes - {key}, s.kernel - {(c.tables[path.vni], path.dest.prefix)})
      else
        key in r.routes && Wrote(c, s, r, path, r.routes[key])
        && (forall h :: h in r.routes[key] <==> h in hops && h != path.hop)
        && (InOrder(hops) ==> InOrder(r.routes[key]))
  {
    hide Without;
    hide FirstThree;
    hide InOrder;
    hide Installs3;
    var key := (path.vni, path.dest);
    if key in s.routes {
      WithoutInWords(s.routes[key], path.hop);
      FirstThreeInstalls(Without(s.routes[key], path.hop));
    }
  }

  lemma {:induction false} WithoutInWords(hops: seq<NextHop>, hop: NextHop)
    ensures var r := Without(hops, hop);
      && (forall h :: h in r <==> h in hops && h != hop)
      && (|r| == |hops| <==> hop !in hops)
      && (r == [] <==> forall h :: h in hops ==> h == hop)
      && (InOrder(hops) ==> InOrder(r))
  {
    var r := Without(hops, hop);
    WithoutIsFilter(hops, hop);
    if InOrder(hops) {
      WithoutKeepsOrder(hops, hop);
    }
    if r != [] {
      assert r[0] in r;
    }
  }

  // Cache and kernel agree

  /** Distinct VNIs have distinct tables. */
  ghost predicate Injective(c: Config) {
    forall v, w :: v in c.tables && w in c.tables && c.tables[v] == c.tables[w] ==> v == w
  }

  /** The IP version of a destination is that of its prefix. */
  predicate VersionOfPrefix(dest: Destination) {
    dest.ipVersion == if |dest.prefix.addr.bytes| == 4 then IPV4 else IPV6
  }

  ghost predicate Agrees(c: Config, s: State) {
    && (forall key :: key in s.routes ==>
          && key.0 in c.tables && VersionOfPrefix(key.1)
          && s.routes[key] != [] && Distinct(s.routes[key]) && ByAddress(s.routes[key])
          && KernelKeyOf(c, key) in s.kernel
          && s.kernel[KernelKeyOf(c, key)] == FirstThree(s.routes[key]))
    && (forall k :: k in s.kernel ==> exists key :: key in s.routes && key.0 in c.tables && KernelKeyOf(c, key) == k)
  }

  lemma {:induction false} KernelKeysDiffer(c: Config, k1: RouteKey, k2: RouteKey)
    requires Injective(c) && k1.0 in c.tables && k2.0 in c.tables
    requires VersionOfPrefix(k1.1) && VersionOfPrefix(k2.1) && k1 != k2
    ensures KernelKeyOf(c, k1) != KernelKeyOf(c, k2)
  {
  }

  lemma {:induction false} WithoutIsFilter(hops: seq<NextHop>, hop: NextHop)
    ensures forall h :: h in Without(hops, hop) <==> h in hops && h != hop
    ensures |Without(hops, hop)| <= |hops|
    ensures |Without(hops, hop)| == |hops| <==> hop !in hops
  {
    if hops != [] {
      WithoutIsFilter(hops[1..], hop);
      assert hops == [hops[0]] + hops[1..];
    }
  }

  ghost predicate InOrder(hops: seq<NextHop>) {
    Distinct(hops) && ByAddress(hops)
  }

  ghost predicate Precedes(hop: NextHop, hops: seq<NextHop>) {
    forall h :: h in hops ==> h != hop && AddrLe(hop.target, h.target)
  }

  lemma {:induction false} InOrderCons(hop: NextHop, rest: seq<NextHop>)
    ensures InOrder([hop] + rest) <==> InOrder(rest) && Precedes(hop, rest)
  {
    var s := [hop] + rest;
    if InOrder(s) {
      forall i, j | 0 <= i < j < |rest| ensures rest[i] != rest[j] && AddrLe(rest[i].target, rest[j].target) {
        assert s[i + 1] == rest[i] && s[j + 1] == rest[j];
      }
      forall h | h in rest ensures h != hop && AddrLe(hop.target, h.target) {
        var i :| 0 <= i < |rest| && rest[i] == h;
        assert s[0] == hop && s[i + 1] == h;
      }
    }
    if InOrder(rest) && Precedes(hop, rest) {
      forall i, j | 0 <= i < j < |s| ensures s[i] != s[j] && AddrLe(s[i].target, s[j].target) {
        assert s[j] == rest[j - 1];
        if i > 0 {
          assert s[i] == rest[i - 1];
        }
      }
    }
  }

  lemma {:induction false} WithoutKeepsOrder(hops: seq<NextHop>, hop: NextHop)
    requires InOrder(hops)
    ensures InOrder(Without(hops, hop))
  {
    if hops != [] {
      assert hops == [hops[0]] + hops[1..];
      InOrderCons(hops[0], hops[1..]);
      WithoutKeepsOrder(hops[1..], hop);
      WithoutIsFilter(hops[1..], hop);
      InOrderCons(hops[0], Without(hops[1..], hop));
      assert [] + Without(hops[1..], hop) == Without(hops[1..], hop);
    }
  }

  lemma {:induction false} DistinctByMultiplicity(s: seq<NextHop>)
    requires forall h :: multiset(s)[h] <= 1
    ensures Distinct(s)
  {
    if s != [] {
      var rest := s[1..];
      assert s == [s[0]] + rest;
      assert multiset(s) == multiset{s[0]} + multiset(rest);
      assert multiset(s)[s[0]] <= 1;
      assert s[0] !in multiset(rest);
      forall h ensures multiset(rest)[h] <= 1 {
        assert multiset(rest)[h] <= multiset(s)[h];
      }
      DistinctByMultiplicity(rest);
    }
  }

  lemma {:induction false} MultiplicityOfDistinct(t: seq<NextHop>)
    requires Distinct(t)
    ensures forall h :: multiset(t)[h] <= 1
  {
    if t != [] {
      MultiplicityOfDistinct(t[1..]);
      assert t == [t[0]] + t[1..];
      assert t[0] !in t[1..];
    }
  }

  lemma {:induction false} SortKeeps(next: seq<NextHop>, current: seq<NextHop>, hop: NextHop)
    requires IsSortOf(next, current + [hop]) && Distinct(current) && hop !in current
    ensures next != [] && Distinct(next)
    ensures forall h :: h in next <==> h in current || h == hop
  {
    MultiplicityOfDistinct(current + [hop]);
    DistinctByMultiplicity(next);
    forall h ensures h in next <==> h in current || h == hop {
      assert h in next <==> h in multiset(next);
      assert h in current + [hop] <==> h in multiset(current + [hop]);
    }
    assert hop in next;
  }

  /** Writing one well-formed list to the cache and its first three targets to the kernel. */
  lemma {:induction false} WriteKeepsAgreement(c: Config, s: State, key: RouteKey, next: seq<NextHop>)
    requires Injective(c) && Agrees(c, s)
    requires key.0 in c.tables && VersionOfPrefix(key.1)
    requires next != [] && Distinct(next) && ByAddress(next)
    ensures Agrees(c, State(s.routes[key := next], s.kernel[KernelKeyOf(c, key) := FirstThree(next)]))
  {
    hide FirstThree;
    hide ByAddress;
    hide VersionOfPrefix;
    hide Injective;
    hide KernelKeyOf;
    var r := State(s.routes[key := next], s.kernel[KernelKeyOf(c, key) := FirstThree(next)]);
    forall k | k in r.routes && k != key
      ensures KernelKeyOf(c, k) in r.kernel && r.kernel[KernelKeyOf(c, k)] == FirstThree(r.routes[k])
    {
      KernelKeysDiffer(c, k, key);
    }
    forall k | k in r.kernel ensures exists key' :: key' in r.routes && key'.0 in c.tables && KernelKeyOf(c, key') == k {
      if k == KernelKeyOf(c, key) {
        assert key in r.routes;
      } else {
        var key' :| key' in s.routes && key'.0 in c.tables && KernelKeyOf(c, key') == k;
        assert key' in r.routes;
      }
    }
  }

  lemma {:induction false} EraseKeepsAgreement(c: Config, s: State, key: RouteKey)
    requires Injective(c) && Agrees(c, s) && key in s.routes
    ensures Agrees(c, State(s.routes - {key}, s.kernel - {KernelKeyOf(c, key)}))
  {
    hide FirstThree;
    hide ByAddress;
    hide VersionOfPrefix;
    hide Injective;
    hide KernelKeyOf;
    var r := State(s.routes - {key}, s.kernel - {KernelKeyOf(c, key)});
    forall k | k in r.routes
      ensures KernelKeyOf(c, k) in r.kernel && r.kernel[KernelKeyOf(c, k)] == FirstThree(r.routes[k])
    {
      KernelKeysDiffer(c, k, key);
    }
    forall k | k in r.kernel ensures exists key' :: key' in r.routes && key'.0 in c.tables && KernelKeyOf(c, key') == k {
      var key' :| key' in s.routes && key'.0 in c.tables && KernelKeyOf(c, key') == k;
      assert key' in r.routes;
    }
  }

  lemma {:induction false} NoRouteNoEntry(c: Config, s: State, key: RouteKey)
    requires Injective(c) && Agrees(c, s) && key !in s.routes && key.0 in c.tables
    ensures VersionOfPrefix(key.1) ==> KernelKeyOf(c, key) !in s.kernel
  {
    if VersionOfPrefix(key.1) {
      forall other | other in s.routes ensures KernelKeyOf(c, other) != KernelKeyOf(c, key) {
        KernelKeysDiffer(c, other, key);
      }
    }
  }

  lemma {:induction false} CurrentIsDistinct(c: Config, s: State, key: RouteKey)
    requires Agrees(c, s)
    ensures InOrder(Current(s, key))
  {
  }

  lemma {:induction false} StepAgrees(c: Config, s: State, e: Event)
    requires Injective(c) && VersionOfPrefix(e.path.dest)
    requires Agrees(c, s) && Possible(c, s, e)
    ensures Agrees(c, Step(c, s, e))
  {
    hide Agrees;
    hide Injective;
    hide VersionOfPrefix;
    hide FirstThree;
    hide Without;
    var key := KeyOf(e.path);
    match e
    case Add(path, _, next) =>
      if Installs(c, s, e) {
        CurrentIsDistinct(c, s, key);
        SortKeeps(next, Current(s, key), path.hop);
        WriteKeepsAgreement(c, s, key, next);
      }
    case Remove(path, _) =>
      if Admissible(c, path) && key in s.routes {
        var next := Without(s.routes[key], path.hop);
        CurrentIsDistinct(c, s, key);
        WithoutKeepsOrder(s.routes[key], path.hop);
        if next == [] {
          EraseKeepsAgreement(c, s, key);
        } else {
          WriteKeepsAgreement(c, s, key, next);
        }
      }
  }

  ghost function After(c: Config, es: seq<Event>): State
    decreases |es|
  {
    if es == [] then Fresh
    else
      var mid := After(c, es[..|es| - 1]);
      if Possible(c, mid, es[|es| - 1]) then Step(c, mid, es[|es| - 1]) else mid
  }

  /**
   * After any calls, refused kernel operations included, every cached list is
   * nonempty, duplicate-free and sorted, and the kernel holds exactly the first
   * three of each list and nothing else.
   */
  lemma {:induction false} KernelHoldsTheCache(c: Config, es: seq<Event>)
    requires Injective(c) && forall e :: e in es ==> VersionOfPrefix(e.path.dest)
    ensures Agrees(c, After(c, es))
  {
    if es != [] {
      KernelHoldsTheCache(c, es[..|es| - 1]);
      var mid, e := After(c, es[..|es| - 1]), es[|es| - 1];
      assert e in es;
      if Possible(c, mid, e) {
        StepAgrees(c, mid, e);
      }
    }
  }

  /** Two VNIs on one table overwrite each other's entries. */
  lemma {:induction false} SharedTableDisagrees(c: Config, s: State, v: VNI, e: Event)
    requires Agrees(c, s) && Possible(c, s, e) && Installs(c, s, e)
    requires (v, e.path.dest) in s.routes && v != e.path.vni && c.tables[v] == c.tables[e.path.vni]
    requires FirstThree(s.routes[(v, e.path.dest)]) != FirstThree(e.next)
    ensures !Agrees(c, Step(c, s, e))
  {
    var r := Step(c, s, e);
    var key: RouteKey := (v, e.path.dest);
    assert key in r.routes && r.routes[key] == s.routes[key];
    assert KernelKeyOf(c, key) == KernelKeyOf(c, KeyOf(e.path));
  }

  ghost predicate AlwaysAgrees(c: Config) {
    forall es: seq<Event> :: (forall e :: e in es ==> VersionOfPrefix(e.path.dest)) ==> Agrees(c, After(c, es))
  }

  lemma {:induction false} AfterAppend(c: Config, es: seq<Event>, e: Event)
    ensures After(c, es + [e]) == if Possible(c, After(c, es), e) then Step(c, After(c, es), e) else After(c, es)
  {
    assert (es + [e])[..|es|] == es;
  }

  /** A first route for a destination. */
  lemma {:induction false} FirstRoute(c: Config, s: State, path: Path)
    requires Admissible(c, path) && KeyOf(path) !in s.routes
    ensures var e := Add(path, true, [path.hop]);
      && Possible(c, s, e) && Installs(c, s, e)
      && Step(c, s, e).routes == s.routes[KeyOf(path) := [path.hop]]
  {
    assert Current(s, KeyOf(path)) + [path.hop] == [path.hop];
  }

  lemma {:induction false} OneTarget(hop: NextHop)
    ensures FirstThree([hop]) == [hop.target]
  {
    assert [hop][..1] == [hop];
    hide Targets;
  }

  /** With one table for two VNIs, two routes are enough to make cache and kernel disagree. */
  lemma {:induction false} TwoRoutesDisagree(c: Config, v: VNI, w: VNI)
    requires v in c.tables && w in c.tables && c.tables[v] == c.tables[w] && v != w
    ensures !AlwaysAgrees(c)
  {
    hide Step;
    hide Possible;
    hide Installs;
    hide FirstThree;
    hide Agrees;
    var dest := Destination(IPV4, Prefix(Addr([10, 0, 0, 0], ""), 8));
    var h1, h2 := NextHop(Addr([10, 0, 0, 1], ""), 0, STANDARD, 0, 0), NextHop(Addr([10, 0, 0, 2], ""), 0, STANDARD, 0, 0);
    var e1, e2 := Add(Path(v, dest, h1), true, [h1]), Add(Path(w, dest, h2), true, [h2]);
    AfterAppend(c, [], e1);
    FirstRoute(c, Fresh, e1.path);
    var s1 := After(c, [] + [e1]);
    AfterAppend(c, [] + [e1], e2);
    FirstRoute(c, s1, e2.path);
    OneTarget(h1);
    OneTarget(h2);
    assert h1.target.bytes[3] != h2.target.bytes[3];
    if Agrees(c, s1) {
      SharedTableDisagrees(c, s1, v, e2);
      assert !Agrees(c, After(c, [] + [e1] + [e2]));
    }
  }

  /** Cache and kernel agree after every sequence of calls exactly when no two VNIs share a table. */
  lemma {:induction false} AlwaysAgreesIffInjective(c: Config)
    ensures AlwaysAgrees(c) <==> Injective(c)
  {
    if Injective(c) {
      forall es: seq<Event> | forall e :: e in es ==> VersionOfPrefix(e.path.dest) ensures Agrees(c, After(c, es)) {
        KernelHoldsTheCache(c, es);
      }
    } else {
      var v, w :| v in c.tables && w in c.tables && c.tables[v] == c.tables[w] && v != w;
      TwoRoutesDisagree(c, v, w);
    }
  }

  // The kernel entry depends only on the set of hops

  ghost function HopSet(s: State, key: RouteKey): set<NextHop> {
    set h | h in Current(s, key)
  }

  function Dropping(t: seq<NextHop>, k: nat): seq<NextHop>
    requires k < |t|
  {
    t[..k] + t[k + 1..]
  }

  lemma {:induction false} DroppingMultiset(t: seq<NextHop>, k: nat)
    requires k < |t|
    ensures multiset(t) == multiset(Dropping(t, k)) + multiset{t[k]}
  {
    assert t == t[..k] + [t[k]] + t[k + 1..];
  }

  lemma {:induction false} TargetsAppend(s: seq<NextHop>, t: seq<NextHop>)
    ensures Targets(s + t) == Targets(s) + Targets(t)
  {
    hide Targets;
  }

  lemma {:induction false} DroppingTargets(t: seq<NextHop>, k: nat)
    requires k < |t|
    ensures multiset(Targets(t)) == multiset(Targets(Dropping(t, k))) + multiset{t[k].target}
  {
    var before, hop, after := t[..k], t[k..k + 1], t[k + 1..];
    assert t == before + hop + after;
    TargetsAppend(before + hop, after);
    TargetsAppend(before, hop);
    TargetsAppend(before, after);
    assert Targets(hop) == [t[k].target];
  }

  /** Two lists with the same multiset: the head of one stands somewhere in the other. */
  lemma {:induction false} HeadElsewhere(s: seq<NextHop>, t: seq<NextHop>) returns (k: nat)
    requires s != [] && multiset(s) == multiset(t)
    ensures k < |t| && t[k] == s[0]
    ensures multiset(Dropping(s, 0)) == multiset(Dropping(t, k))
  {
    assert s[0] in multiset(s);
    assert s[0] in t;
    k :| 0 <= k < |t| && t[k] == s[0];
    DroppingMultiset(t, k);
    DroppingMultiset(s, 0);
    assert multiset(Dropping(s, 0)) == multiset(s) - multiset{s[0]};
    assert multiset(Dropping(t, k)) == multiset(t) - multiset{t[k]};
  }

  lemma {:induction false} TargetsMultiset(s: seq<NextHop>, t: seq<NextHop>)
    requires multiset(s) == multiset(t)
    ensures multiset(Targets(s)) == multiset(Targets(t))
    decreases |s|
  {
    if s == [] {
      assert |multiset(t)| == 0;
    } else {
      var k := HeadElsewhere(s, t);
      DroppingTargets(t, k);
      DroppingTargets(s, 0);
      TargetsMultiset(Dropping(s, 0), Dropping(t, k));
    }
  }

  lemma {:induction false} DistinctSameSet(s: seq<NextHop>, t: seq<NextHop>)
    requires Distinct(s) && Distinct(t) && ToSet(s) == ToSet(t)
    ensures multiset(s) == multiset(t)
  {
    MultiplicityOfDistinct(s);
    MultiplicityOfDistinct(t);
    forall h ensures multiset(s)[h] == multiset(t)[h] {
      assert h in multiset(s) <==> h in s;
      assert h in multiset(t) <==> h in t;
      assert h in s <==> h in ToSet(s);
      assert h in t <==> h in ToSet(t);
    }
  }

  lemma {:induction false} FirstThreeOfTargets(s: seq<NextHop>)
    ensures FirstThree(s) == Targets(s)[..Min(3, |s|)]
  {
  }

  lemma {:induction false} SortedTargets(s: seq<NextHop>, t: seq<NextHop>)
    requires ByAddress(s) && ByAddress(t) && Distinct(s) && Distinct(t) && ToSet(s) == ToSet(t)
    ensures Targets(s) == Targets(t) && FirstThree(s) == FirstThree(t)
  {
    DistinctSameSet(s, t);
    TargetsMultiset(s, t);
    SortedUnique(Targets(s), Targets(t));
    assert |s| == |Targets(s)| == |t|;
    FirstThreeOfTargets(s);
    FirstThreeOfTargets(t);
  }

  /** The kernel entry for a set of hops: the three smallest targets, with multiplicity. */
  ghost predicate ThreeSmallest(infos: seq<Addr>, hops: set<NextHop>) {
    exists order :: Enumerates(order, hops) && ByAddress(order) && infos == FirstThree(order)
  }

  lemma {:induction false} ThreeSmallestUnique(a: seq<Addr>, b: seq<Addr>, hops: set<NextHop>)
    requires ThreeSmallest(a, hops) && ThreeSmallest(b, hops)
    ensures a == b
  {
    var s :| Enumerates(s, hops) && ByAddress(s) && a == FirstThree(s);
    var t :| Enumerates(t, hops) && ByAddress(t) && b == FirstThree(t);
    assert ToSet(s) == hops && ToSet(t) == hops;
    SortedTargets(s, t);
  }

  /** The hops in the order of their addresses, which without zones is that of the numbers. */
  ghost predicate InAddressOrder(order: seq<NextHop>) {
    && (forall i, j :: 0 <= i < j < |order| ==> ComesFirst(order[i].target, order[j].target))
    && ((forall h :: h in order ==> h.target.zone == "") ==>
          forall i, j :: 0 <= i < j < |order| ==> AtMost(order[i].target, order[j].target))
  }

  lemma {:induction false} ByAddressIsAddressOrder(order: seq<NextHop>)
    requires ByAddress(order)
    ensures InAddressOrder(order)
  {
    forall i, j | 0 <= i < j < |order|
      ensures ComesFirst(order[i].target, order[j].target)
      ensures order[i].target.zone == order[j].target.zone == "" ==> AtMost(order[i].target, order[j].target)
    {
      AddrLeIff(order[i].target, order[j].target);
      if order[i].target.zone == order[j].target.zone == "" {
        AddrLeIsByValue(order[i].target, order[j].target);
      }
    }
  }

  /** The three smallest, in words: the first three of the hops in address order. */
  lemma {:induction false} ThreeSmallestInWords(infos: seq<Addr>, hops: set<NextHop>)
    requires ThreeSmallest(infos, hops)
    ensures exists order: seq<NextHop> :: Enumerates(order, hops) && Installs3(infos, order) && InAddressOrder(order)
  {
    var order: seq<NextHop> :| Enumerates(order, hops) && ByAddress(order) && infos == FirstThree(order);
    FirstThreeInstalls(order);
    ByAddressIsAddressOrder(order);
  }

  /** Whatever order hops came and went in, the kernel entry is that of the hops cached now. */
  lemma {:induction false} KernelDependsOnHopsOnly(c: Config, es1: seq<Event>, es2: seq<Event>, key: RouteKey)
    requires Injective(c)
    requires forall e :: e in es1 || e in es2 ==> VersionOfPrefix(e.path.dest)
    requires var s1, s2 := After(c, es1), After(c, es2);
      key in s1.routes && key in s2.routes && HopSet(s1, key) == HopSet(s2, key)
    ensures key.0 in c.tables
    ensures var s1, s2, k := After(c, es1), After(c, es2), KernelKeyOf(c, key);
      && k in s1.kernel && k in s2.kernel && s1.kernel[k] == s2.kernel[k]
      && ThreeSmallest(s1.kernel[k], HopSet(s1, key))
  {
    KernelHoldsTheCache(c, es1);
    KernelHoldsTheCache(c, es2);
    var s1, s2 := After(c, es1), After(c, es2);
    var l1, l2 := s1.routes[key], s2.routes[key];
    assert ToSet(l1) == HopSet(s1, key) && ToSet(l2) == HopSet(s2, key);
    SortedTargets(l1, l2);
    assert Enumerates(l1, HopSet(s1, key));
  }
}

/** The kernel against the node's own route table. */
module KernelMirror {
  import opened Types
  import Engine
  import Mirror
  import Netlink

  /** The client hears exactly these calls, each as one event, and the kernel accepts everything. */
  ghost predicate Hears(es: seq<Netlink.Event>, calls: seq<Engine.Call>) {
    && |es| == |calls|
    && forall i :: 0 <= i < |es| ==>
         && es[i].kernelOk && es[i].path == calls[i].path
         && (es[i].Add? <==> calls[i].AddRoute?)
  }

  /** Every choice of sort results the events name was possible. */
  ghost predicate AllPossible(c: Netlink.Config, es: seq<Netlink.Event>) {
    forall k :: 0 <= k < |es| ==> Netlink.Possible(c, Netlink.After(c, es[..k]), es[k])
  }

  predicate Cached(s: Netlink.State, path: Path) {
    path.hop in Netlink.Current(s, Netlink.KeyOf(path))
  }

  lemma {:induction false} AddCaches(c: Netlink.Config, s: Netlink.State, e: Netlink.Event, path: Path)
    requires Netlink.Agrees(c, s) && Netlink.Possible(c, s, e) && e.kernelOk && e.Add?
    ensures Cached(Netlink.Step(c, s, e), path) <==>
      (e.path == path && Netlink.Admissible(c, path)) || Cached(s, path)
  {
    var key := Netlink.KeyOf(e.path);
    if Netlink.Installs(c, s, e) {
      Netlink.SortKeeps(e.next, Netlink.Current(s, key), e.path.hop);
      assert Netlink.Current(Netlink.Step(c, s, e), key) == e.next;
    }
  }

  lemma {:induction false} RemoveUncaches(c: Netlink.Config, s: Netlink.State, e: Netlink.Event, path: Path)
    requires e.kernelOk && e.Remove?
    ensures Cached(Netlink.Step(c, s, e), path) <==>
      !(e.path == path && Netlink.Admissible(c, path)) && Cached(s, path)
  {
    var key := Netlink.KeyOf(e.path);
    if Netlink.Admissible(c, e.path) && key in s.routes {
      Netlink.WithoutIsFilter(s.routes[key], e.path.hop);
      var next := Netlink.Without(s.routes[key], e.path.hop);
      var r := Netlink.Step(c, s, e);
      assert Netlink.Current(r, key) == if |next| == |s.routes[key]| then s.routes[key] else next;
    }
  }

  lemma {:induction false} NothingCached(path: Path)
    ensures !Cached(Netlink.Fresh, path)
  {
  }

  /** One more call. */
  lemma {:induction false} CacheFollowsCall(
      c: Netlink.Config, s: Netlink.State, e: Netlink.Event, calls: seq<Engine.Call>, call: Engine.Call, path: Path)
    requires Netlink.Agrees(c, s) && Netlink.Possible(c, s, e) && e.kernelOk && e.path == call.path && (e.Add? <==> call.AddRoute?)
    requires Cached(s, path) <==> Netlink.Admissible(c, path) && Mirror.Kept(calls, path)
    ensures Cached(Netlink.Step(c, s, e), path) <==> Netlink.Admissible(c, path) && Mirror.Kept(calls + [call], path)
  {
    Mirror.KeptAppend(calls, call, path);
    hide Mirror.Kept;
    hide Netlink.Step;
    hide Netlink.Agrees;
    hide Netlink.Possible;
    hide Netlink.Admissible;
    hide Cached;
    if e.Add? {
      AddCaches(c, s, e, path);
    } else {
      RemoveUncaches(c, s, e, path);
    }
  }

  lemma {:induction false} PossibleBefore(c: Netlink.Config, es: seq<Netlink.Event>)
    requires es != [] && AllPossible(c, es)
    ensures AllPossible(c, es[..|es| - 1])
    ensures Netlink.Possible(c, Netlink.After(c, es[..|es| - 1]), es[|es| - 1])
  {
    hide Netlink.Possible;
    hide Netlink.After;
    var before := es[..|es| - 1];
    forall j | 0 <= j < |before| ensures Netlink.Possible(c, Netlink.After(c, before[..j]), before[j]) {
      assert before[..j] == es[..j];
    }
  }

  lemma {:induction false} CacheFollowsCalls(c: Netlink.Config, es: seq<Netlink.Event>, calls: seq<Engine.Call>, path: Path)
    requires Netlink.Injective(c) && Hears(es, calls) && AllPossible(c, es)
    requires forall e :: e in es ==> Netlink.VersionOfPrefix(e.path.dest)
    ensures Cached(Netlink.After(c, es), path) <==> Netlink.Admissible(c, path) && Mirror.Kept(calls, path)
  {
    hide Netlink.Step;
    hide Netlink.Possible;
    hide Netlink.Agrees;
    hide Netlink.Injective;
    hide Netlink.VersionOfPrefix;
    hide Netlink.Admissible;
    hide AllPossible;
    hide Cached;
    if es == [] {
      NothingCached(path);
    } else {
      var k := |es| - 1;
      PossibleBefore(c, es);
      CacheFollowsCalls(c, es[..k], calls[..k], path);
      Netlink.KernelHoldsTheCache(c, es[..k]);
      hide Mirror.Kept;
      CacheFollowsCall(c, Netlink.After(c, es[..k]), es[k], calls[..k], calls[k], path);
      assert calls == calls[..k] + [calls[k]];
    }
  }

  /** The hops the node's table has for one destination. */
  ghost predicate HopsOf(n: Engine.Node, key: Netlink.RouteKey, hops: set<NextHop>) {
    forall h :: h in hops <==> Engine.HasSource(n.table, Path(key.0, key.1, h))
  }

  /**
   * From UPDATE to kernel. In a run without local unsubscriptions, with a kernel
   * that accepts every operation: the cache holds only hops of the node's table;
   * and if no hop ever had two sources at once, the kernel entry of every
   * installed destination is made of the three smallest target addresses among
   * the node's hops for it, and destinations without hops have no entry.
   */
  lemma {:induction false} KernelFollowsTheNode(
      run: seq<Engine.Event>, c: Netlink.Config, es: seq<Netlink.Event>, key: Netlink.RouteKey, hops: set<NextHop>)
    requires Mirror.QuietRun(run)
    requires Netlink.Injective(c) && AllPossible(c, es)
    requires Hears(es, Engine.After(Engine.InitNode, run).calls)
    requires forall e :: e in es ==> Netlink.VersionOfPrefix(e.path.dest)
    requires key.0 in c.tables && !(c.ipv4Only && key.1.ipVersion != IPV4)
    requires HopsOf(Engine.After(Engine.InitNode, run), key, hops)
    ensures var s := Netlink.After(c, es);
      && Netlink.HopSet(s, key) <= hops
      && ((forall k :: 0 <= k < |run| ==> Mirror.SingleSource(Engine.After(Engine.InitNode, run[..k]))) ==>
            && Netlink.HopSet(s, key) == hops
            && (hops == {} ==>
                  key !in s.routes && (Netlink.VersionOfPrefix(key.1) ==> Netlink.KernelKeyOf(c, key) !in s.kernel))
            && (hops != {} ==>
                  && Netlink.KernelKeyOf(c, key) in s.kernel
                  && Netlink.ThreeSmallest(s.kernel[Netlink.KernelKeyOf(c, key)], hops)))
  {
    var n := Engine.After(Engine.InitNode, run);
    var s := Netlink.After(c, es);
    Mirror.ClientMirrorsTheTable(run);
    Netlink.KernelHoldsTheCache(c, es);
    forall h ensures h in Netlink.HopSet(s, key) <==> Mirror.Kept(n.calls, Path(key.0, key.1, h)) {
      var path := Path(key.0, key.1, h);
      CacheFollowsCalls(c, es, n.calls, path);
      assert Netlink.KeyOf(path) == key;
    }
    forall h | h in Netlink.HopSet(s, key) ensures h in hops {
      assert Mirror.Kept(n.calls, Path(key.0, key.1, h));
    }
    if forall k :: 0 <= k < |run| ==> Mirror.SingleSource(Engine.After(Engine.InitNode, run[..k])) {
      assert Mirror.Mirrors(n);
      assert Netlink.HopSet(s, key) == hops;
      if key in s.routes {
        assert Enumerates(s.routes[key], hops);
        assert s.routes[key][0] in Netlink.HopSet(s, key);
      } else {
        assert Netlink.HopSet(s, key) == {};
        Netlink.NoRouteNoEntry(c, s, key);
      }
    }
  }
}
