/**
 * The four-level nested map of routetable.go and the plain set of
 * (vni, destination, next hop, source) tuples it stands for.
 */
module RouteTables {
  import opened Types

  type HopMap = map<NextHop, set<Source>>
  type DestMap = map<Destination, HopMap>
  type Routes = map<VNI, DestMap>

  /** The hop key of `p` is present, with or without sources below it. */
  predicate HasHop(r: Routes, p: Path) {
    p.vni in r && p.dest in r[p.vni] && p.hop in r[p.vni][p.dest]
  }

  predicate Has(r: Routes, e: Entry) {
    HasHop(r, e.path) && e.source in Cell(r, e.path)
  }

  function Cell(r: Routes, p: Path): set<Source>
    requires HasHop(r, p)
  {
    r[p.vni][p.dest][p.hop]
  }

  /** No VNI without destinations and no destination without hop keys. */
  ghost predicate Pruned(r: Routes) {
    && (forall v :: v in r ==> r[v] != map[])
    && (forall v, d :: v in r && d in r[v] ==> r[v][d] != map[])
  }

  /** No hop key without a source. */
  ghost predicate Sourced(r: Routes) {
    forall p: Path :: HasHop(r, p) ==> Cell(r, p) != {}
  }

  ghost predicate SourcedBut(r: Routes, path: Path) {
    forall p: Path :: HasHop(r, p) && p != path ==> Cell(r, p) != {}
  }

  ghost function PathsOf(es: set<Entry>): set<Path> {
    set e | e in es :: e.path
  }

  ghost function SourcesOf(es: set<Entry>, p: Path): set<Source> {
    set e | e in es && e.path == p :: e.source
  }

  ghost function Without(es: set<Entry>, p: Path): set<Entry> {
    set e | e in es && e.path != p
  }

  ghost function TuplesAt(p: Path, sources: set<Source>): set<Entry> {
    set s | s in sources :: Entry(p, s)
  }

  /** The tuples and the hop keys a nested map stands for. */
  ghost predicate Represents(r: Routes, entries: set<Entry>, hops: set<Path>) {
    && (forall e: Entry :: e in entries <==> Has(r, e))
    && (forall p: Path :: p in hops <==> HasHop(r, p))
  }

  /** With no empty inner map the hop keys are the paths of the tuples, and conversely. */
  lemma {:induction false} SourcedMeansHopsAreTuplePaths(r: Routes, entries: set<Entry>, hops: set<Path>)
    requires Represents(r, entries, hops)
    ensures Sourced(r) <==> hops == PathsOf(entries)
  {
    if Sourced(r) {
      forall p | p in hops ensures p in PathsOf(entries) {
        var s :| s in Cell(r, p);
        assert Entry(p, s) in entries;
      }
    } else {
      var p: Path :| HasHop(r, p) && Cell(r, p) == {};
      assert p in hops;
    }
  }

  /** `now` is `was` with `cell` written at `path`, the inner maps made where they were missing. */
  ghost predicate Written(was: Routes, now: Routes, path: Path, cell: set<Source>) {
    var destMap := if path.vni in was then was[path.vni] else map[];
    var hopMap := if path.dest in destMap then destMap[path.dest] else map[];
    now == was[path.vni := destMap[path.dest := hopMap[path.hop := cell]]]
  }

  lemma WrittenAt(was: Routes, now: Routes, path: Path, cell: set<Source>, q: Path)
    requires Written(was, now, path, cell)
    ensures HasHop(now, q) <==> HasHop(was, q) || q == path
    ensures HasHop(now, q) ==> Cell(now, q) == if q == path then cell else Cell(was, q)
  {
  }

  lemma {:induction false} WrittenRepresents(was: Routes, now: Routes, path: Path, cell: set<Source>, entries: set<Entry>, hops: set<Path>)
    requires Written(was, now, path, cell)
    requires Represents(was, entries, hops)
    ensures Represents(now, Without(entries, path) + TuplesAt(path, cell), hops + {path})
    ensures SourcedBut(was, path) ==> SourcedBut(now, path) && (Sourced(now) <==> cell != {})
  {
    forall q: Path ensures q in hops + {path} <==> HasHop(now, q) {
      WrittenAt(was, now, path, cell, q);
    }
    forall e: Entry ensures Has(now, e) <==> if e.path == path then e.source in cell else Has(was, e) {
      WrittenAt(was, now, path, cell, e.path);
    }
    WrittenAt(was, now, path, cell, path);
    if SourcedBut(was, path) {
      forall q: Path | HasHop(now, q) && q != path ensures Cell(now, q) != {} {
        WrittenAt(was, now, path, cell, q);
      }
    }
  }

  lemma {:induction false} WrittenPruned(was: Routes, now: Routes, path: Path, cell: set<Source>)
    requires Written(was, now, path, cell)
    requires Pruned(was)
    ensures Pruned(now)
  {
    var v, d := path.vni, path.dest;
    assert path.hop in now[v][d] && d in now[v];
    forall v', d' | v' in now && d' in now[v'] ensures now[v'][d'] != map[] {
      if v' == v && d' != d {
        assert now[v][d'] == was[v][d'];
      }
    }
  }

  /** `now` is `was` without the hop key of `path`, emptied maps pruned upwards. */
  ghost predicate Erased(was: Routes, now: Routes, path: Path)
    requires HasHop(was, path)
  {
    var hopMap := was[path.vni][path.dest] - {path.hop};
    var destMap := if hopMap == map[] then was[path.vni] - {path.dest} else was[path.vni][path.dest := hopMap];
    now == if destMap == map[] then was - {path.vni} else was[path.vni := destMap]
  }

  lemma {:induction false} ErasedAt(was: Routes, now: Routes, path: Path, q: Path)
    requires HasHop(was, path) && Erased(was, now, path)
    ensures HasHop(now, q) <==> HasHop(was, q) && q != path
    ensures HasHop(now, q) ==> Cell(now, q) == Cell(was, q)
  {
    var hopMap := was[path.vni][path.dest] - {path.hop};
    var destMap := if hopMap == map[] then was[path.vni] - {path.dest} else was[path.vni][path.dest := hopMap];
    if q.vni == path.vni && HasHop(was, q) && q != path {
      if q.dest == path.dest {
        assert q.hop in hopMap;
      }
      assert q.dest in destMap;
    }
  }

  lemma {:induction false} ErasedRepresents(was: Routes, now: Routes, path: Path, entries: set<Entry>, hops: set<Path>)
    requires HasHop(was, path) && Erased(was, now, path)
    requires Represents(was, entries, hops)
    ensures Represents(now, Without(entries, path), hops - {path})
    ensures Sourced(was) ==> Sourced(now)
  {
    forall q: Path
      ensures HasHop(now, q) <==> HasHop(was, q) && q != path
      ensures HasHop(now, q) ==> Cell(now, q) == Cell(was, q)
    {
      ErasedAt(was, now, path, q);
    }
  }

  lemma {:induction false} ErasedPruned(was: Routes, now: Routes, path: Path)
    requires HasHop(was, path) && Erased(was, now, path)
    requires Pruned(was)
    ensures Pruned(now)
  {
    forall v', d' | v' in now && d' in now[v'] ensures now[v'][d'] != map[] {
      if v' == path.vni && d' != path.dest {
        assert now[v'][d'] == was[v'][d'];
      }
    }
  }

  lemma {:induction false} CellIsSources(r: Routes, entries: set<Entry>, hops: set<Path>, path: Path)
    requires Represents(r, entries, hops)
    requires HasHop(r, path)
    ensures path in hops
    ensures Cell(r, path) == SourcesOf(entries, path)
    ensures forall s :: s in Cell(r, path) <==> Entry(path, s) in entries
  {
    forall s ensures s in Cell(r, path) <==> Entry(path, s) in entries {
      assert Entry(path, s) in entries <==> Has(r, Entry(path, s));
    }
  }

  lemma HopIsKey(r: Routes, entries: set<Entry>, hops: set<Path>, path: Path)
    requires Represents(r, entries, hops)
    ensures HasHop(r, path) <==> path in hops
  {
  }

  lemma NoTuples(r: Routes, entries: set<Entry>, hops: set<Path>, path: Path)
    requires Represents(r, entries, hops) && !HasHop(r, path)
    ensures entries == Without(entries, path) + TuplesAt(path, {})
  {
  }

  lemma TupleHasHop(r: Routes, entries: set<Entry>, hops: set<Path>, e: Entry)
    requires Represents(r, entries, hops)
    ensures e in entries ==> e.path in hops
  {
  }

  lemma {:induction false} AddedSource(was: Routes, now: Routes, path: Path, from: Source, entries: set<Entry>, hops: set<Path>)
    requires Pruned(was) && Represents(was, entries, hops) && HasHop(was, path)
    requires Written(was, now, path, Cell(was, path) + {from})
    ensures Pruned(now) && Represents(now, entries + {Entry(path, from)}, hops)
    ensures SourcedBut(was, path) ==> Sourced(now)
  {
    hide Represents;
    hide Pruned;
    hide Sourced;
    hide SourcedBut;
    hide Written;
    var cell := Cell(was, path) + {from};
    WrittenPruned(was, now, path, cell);
    WrittenRepresents(was, now, path, cell, entries, hops);
    CellIsSources(was, entries, hops, path);
    assert entries + {Entry(path, from)} == Without(entries, path) + TuplesAt(path, cell);
    assert hops + {path} == hops;
  }

  lemma {:induction false} RemovedSource(was: Routes, now: Routes, path: Path, from: Source, entries: set<Entry>, hops: set<Path>)
    requires Pruned(was) && Represents(was, entries, hops) && HasHop(was, path)
    requires Cell(was, path) - {from} != {}
    requires Written(was, now, path, Cell(was, path) - {from})
    ensures Pruned(now) && Represents(now, entries - {Entry(path, from)}, hops)
    ensures SourcesOf(entries - {Entry(path, from)}, path) == Cell(was, path) - {from}
    ensures Sourced(was) ==> Sourced(now)
  {
    hide Represents;
    hide Pruned;
    hide Written;
    var cell := Cell(was, path) - {from};
    WrittenPruned(was, now, path, cell);
    WrittenRepresents(was, now, path, cell, entries, hops);
    CellIsSources(was, entries, hops, path);
    assert entries - {Entry(path, from)} == Without(entries, path) + TuplesAt(path, cell);
    assert hops + {path} == hops;
    WrittenAt(was, now, path, cell, path);
    CellIsSources(now, entries - {Entry(path, from)}, hops, path);
  }

  lemma {:induction false} RemovedHop(was: Routes, now: Routes, path: Path, from: Source, entries: set<Entry>, hops: set<Path>)
    requires Pruned(was) && Represents(was, entries, hops) && HasHop(was, path)
    requires Cell(was, path) - {from} == {}
    requires Erased(was, now, path)
    ensures Pruned(now) && Represents(now, entries - {Entry(path, from)}, hops - {path})
    ensures SourcesOf(entries - {Entry(path, from)}, path) == {}
    ensures Sourced(was) ==> Sourced(now)
  {
    ErasedPruned(was, now, path);
    ErasedRepresents(was, now, path, entries, hops);
    CellIsSources(was, entries, hops, path);
    forall e | e in entries && e.path == path ensures e == Entry(path, from) {
      assert e.source in Cell(was, path) - {from} || e.source == from;
    }
    assert entries - {Entry(path, from)} == Without(entries, path);
  }

  /** Which table of which object this is; no two objects share a table. */
  datatype Owner = NodeRoutes | NodeAnnouncements | PeerRoutes(id: PeerId)

  class RouteTable {
    var routes: Routes

    ghost const owner: Owner
    ghost var entries: set<Entry>
    ghost var hops: set<Path>

    ghost predicate Valid()
      reads this
    {
      && Pruned(routes)
      && Represents(routes, entries, hops)
    }

    /** The no-empty-inner-map invariant. */
    ghost predicate NoEmptyHop()
      reads this
    {
      Sourced(routes)
    }

    constructor (ghost owner: Owner)
      ensures Valid() && NoEmptyHop() && this.owner == owner
      ensures entries == {} && hops == {}
    {
      this.owner := owner;
      routes, entries, hops := map[], {}, {};
    }

    lemma {:induction false} HopsAreTuplePaths()
      requires Valid() && NoEmptyHop()
      ensures hops == PathsOf(entries)
    {
      SourcedMeansHopsAreTuplePaths(routes, entries, hops);
    }

    method GetVNIs() returns (vnis: seq<VNI>)
      requires Valid()
      ensures Distinct(vnis)
      ensures forall v :: v in vnis <==> exists p :: p in hops && p.vni == v
    {
      vnis := [];
      var todo := routes.Keys;
      while todo != {}
        invariant todo <= routes.Keys
        invariant forall v :: v in vnis <==> v in routes && v !in todo
        invariant Distinct(vnis)
        decreases todo
      {
        var v :| v in todo;
        vnis, todo := vnis + [v], todo - {v};
      }
      forall v | v in vnis ensures exists p :: p in hops && p.vni == v {
        var d :| d in routes[v];
        var h :| h in routes[v][d];
        assert HasHop(routes, Path(v, d, h));
        assert Path(v, d, h) in hops;
      }
    }

    method GetDestinationsByVNI(vni: VNI) returns (ret: map<Destination, seq<NextHop>>)
      requires Valid()
      ensures forall d, h :: d in ret && h in ret[d] <==> Path(vni, d, h) in hops
      ensures forall d :: d in ret ==> Distinct(ret[d]) && ret[d] != []
    {
      ret := map[];
      if vni !in routes {
        return;
      }
      var todo := routes[vni].Keys;
      while todo != {}
        invariant todo <= routes[vni].Keys
        invariant ret.Keys == routes[vni].Keys - todo
        invariant forall d :: d in ret ==> Distinct(ret[d]) && (forall h :: h in ret[d] <==> h in routes[vni][d])
        decreases todo
      {
        var d :| d in todo;
        var nhs := KeysOf(routes[vni][d]);
        ret, todo := ret[d := nhs], todo - {d};
      }
      forall d, h ensures d in ret && h in ret[d] <==> Path(vni, d, h) in hops {
        assert Path(vni, d, h) in hops <==> HasHop(routes, Path(vni, d, h));
      }
      forall d | d in ret ensures ret[d] != [] {
        var h :| h in routes[vni][d];
        assert h in ret[d];
      }
    }

    method GetDestinationsByVNIWithPeer(vni: VNI) returns (ret: map<Destination, map<NextHop, seq<Source>>>)
      requires Valid()
      ensures forall d, h, s :: d in ret && h in ret[d] && s in ret[d][h] <==> Entry(Path(vni, d, h), s) in entries
      ensures forall d, h :: d in ret && h in ret[d] ==> Distinct(ret[d][h])
    {
      ret := map[];
      if vni !in routes {
        return;
      }
      var todo := routes[vni].Keys;
      while todo != {}
        invariant todo <= routes[vni].Keys
        invariant ret.Keys == routes[vni].Keys - todo
        invariant forall d :: d in ret ==> ret[d].Keys == routes[vni][d].Keys
        invariant forall d, h :: d in ret && h in ret[d] ==>
          Distinct(ret[d][h]) && (forall s :: s in ret[d][h] <==> s in routes[vni][d][h])
        decreases todo
      {
        var d :| d in todo;
        var inner := PeersOf(routes[vni][d]);
        ret, todo := ret[d := inner], todo - {d};
      }
      forall d, h, s ensures d in ret && h in ret[d] && s in ret[d][h] <==> Entry(Path(vni, d, h), s) in entries {
        assert Entry(Path(vni, d, h), s) in entries <==> Has(routes, Entry(Path(vni, d, h), s));
      }
    }

    method GetNextHopsByDestination(vni: VNI, dest: Destination) returns (nhs: seq<NextHop>)
      requires Valid()
      ensures Distinct(nhs)
      ensures forall h :: h in nhs <==> Path(vni, dest, h) in hops
    {
      nhs := [];
      if vni in routes && dest in routes[vni] {
        nhs := KeysOf(routes[vni][dest]);
      }
      forall h ensures h in nhs <==> Path(vni, dest, h) in hops {
        assert Path(vni, dest, h) in hops <==> HasHop(routes, Path(vni, dest, h));
      }
    }

    /**
     * Takes exactly one tuple out, or fails and changes nothing. `left` is the
     * number of sources the next hop still has.
     */
    method RemoveNextHop(path: Path, from: Source) returns (left: nat, ok: bool)
      requires Valid()
      modifies this
      ensures Valid()
      ensures ok <==> Entry(path, from) in old(entries)
      ensures entries == old(entries) - {Entry(path, from)}
      ensures ok ==> left == |SourcesOf(entries, path)|
      ensures hops == if ok && left == 0 then old(hops) - {path} else old(hops)
      ensures !ok ==> routes == old(routes) && left == 0
      ensures old(NoEmptyHop()) ==> NoEmptyHop()
    {
      var v, d, h := path.vni, path.dest, path.hop;
      if !HasHop(routes, path) || from !in routes[v][d][h] {
        assert !Has(routes, Entry(path, from));
        return 0, false;
      }
      ghost var was := routes;
      assert Has(was, Entry(path, from));
      var sources := routes[v][d][h] - {from};
      left, ok := |sources|, true;
      if sources != {} {
        routes := routes[v := routes[v][d := routes[v][d][h := sources]]];
        RemovedSource(was, routes, path, from, entries, hops);
      } else {
        var hopMap := routes[v][d] - {h};
        var destMap := if hopMap == map[] then routes[v] - {d} else routes[v][d := hopMap];
        routes := if destMap == map[] then routes - {v} else routes[v := destMap];
        RemovedHop(was, routes, path, from, entries, hops);
        hops := hops - {path};
      }
      entries := entries - {Entry(path, from)};
    }

    /** Puts exactly one tuple in, or fails and changes nothing. */
    method AddNextHop(path: Path, from: Source) returns (ok: bool)
      requires Valid()
      modifies this
      ensures Valid()
      ensures ok <==> Entry(path, from) !in old(entries)
      ensures entries == old(entries) + {Entry(path, from)}
      ensures hops == old(hops) + {path}
      ensures !ok ==> routes == old(routes) && hops == old(hops)
      ensures old(NoEmptyHop()) ==> NoEmptyHop()
    {
      hide Represents;
      hide Pruned;
      hide Sourced;
      hide SourcedBut;
      TupleHasHop(routes, entries, hops, Entry(path, from));
      CreateKeys(path);
      ghost var was := routes;
      var v, d, h := path.vni, path.dest, path.hop;
      CellIsSources(routes, entries, hops, path);
      if from in routes[v][d][h] {
        return false;
      }
      routes := routes[v := routes[v][d := routes[v][d][h := routes[v][d][h] + {from}]]];
      AddedSource(was, routes, path, from, entries, hops);
      entries := entries + {Entry(path, from)};
      ok := true;
    }

    /**
     * The query creates the keys it looks for, so that it keeps a table free of
     * empty hops exactly when the hop key was there before.
     */
    method NextHopExists(path: Path, from: Source) returns (found: bool)
      requires Valid()
      modifies this
      ensures Valid()
      ensures found <==> Entry(path, from) in entries
      ensures entries == old(entries)
      ensures hops == old(hops) + {path}
      ensures path in old(hops) ==> routes == old(routes)
      ensures old(NoEmptyHop()) ==> (NoEmptyHop() <==> path in old(hops))
    {
      CreateKeys(path);
      CellIsSources(routes, entries, hops, path);
      found := from in routes[path.vni][path.dest][path.hop];
    }

    /** The three "make the inner map if it is missing" steps AddNextHop and NextHopExists share. */
    method CreateKeys(path: Path)
      requires Valid()
      modifies this
      ensures Valid() && HasHop(routes, path)
      ensures entries == old(entries)
      ensures hops == old(hops) + {path}
      ensures path in old(hops) ==> routes == old(routes)
      ensures old(NoEmptyHop()) ==> (NoEmptyHop() <==> path in old(hops))
      ensures old(NoEmptyHop()) ==> SourcedBut(routes, path)
    {
      hide Represents;
      hide Pruned;
      HopIsKey(routes, entries, hops, path);
      ghost var was := routes;
      var v, d, h := path.vni, path.dest, path.hop;
      var destMap := if v in routes then routes[v] else map[];
      var hopMap := if d in destMap then destMap[d] else map[];
      if h !in hopMap {
        routes := routes[v := destMap[d := hopMap[h := {}]]];
        WrittenPruned(was, routes, path, {});
        WrittenRepresents(was, routes, path, {}, entries, hops);
        NoTuples(was, entries, hops, path);
        hops := hops + {path};
      } else {
        assert hops + {path} == hops;
      }
    }
  }

  method KeysOf(m: HopMap) returns (keys: seq<NextHop>)
    ensures Distinct(keys)
    ensures forall h :: h in keys <==> h in m
  {
    keys := [];
    var todo := m.Keys;
    while todo != {}
      invariant todo <= m.Keys
      invariant Distinct(keys)
      invariant forall h :: h in keys <==> h in m && h !in todo
      decreases todo
    {
      var h :| h in todo;
      keys, todo := keys + [h], todo - {h};
    }
  }

  method PeersOf(m: HopMap) returns (ret: map<NextHop, seq<Source>>)
    ensures ret.Keys == m.Keys
    ensures forall h :: h in ret ==> Enumerates(ret[h], m[h])
  {
    ret := map[];
    var todo := m.Keys;
    while todo != {}
      invariant todo <= m.Keys
      invariant ret.Keys == m.Keys - todo
      invariant forall h :: h in ret ==> Enumerates(ret[h], m[h])
      decreases todo
    {
      var h :| h in todo;
      var peers: seq<Source> := [];
      var left := m[h];
      while left != {}
        invariant left <= m[h]
        invariant Enumerates(peers, m[h] - left)
        decreases left
      {
        var s :| s in left;
        peers, left := peers + [s], left - {s};
      }
      ret, todo := ret[h := peers], todo - {h};
    }
  }
}
