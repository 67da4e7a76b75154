/**
 * Orders in which a Go map may be visited.
 */
module Lists {
  import opened Types

  /** Any finite set can be visited in some order. */
  lemma {:induction false} AnOrder<T(!new)>(s: set<T>) returns (order: seq<T>)
    ensures Enumerates(order, s)
    decreases s
  {
    order := [];
    if s != {} {
      var x :| x in s;
      var rest := AnOrder(s - {x});
      order := [x] + rest;
    }
  }

  lemma {:induction false} EnumeratesTogether<T(!new)>(xs: seq<T>, s: set<T>, ys: seq<T>, t: set<T>)
    requires Enumerates(xs, s) && Enumerates(ys, t) && s !! t
    ensures Enumerates(xs + ys, s + t)
  {
    forall i, j | 0 <= i < j < |xs + ys| ensures (xs + ys)[i] != (xs + ys)[j] {
      if i < |xs| <= j {
        assert xs[i] in s && ys[j - |xs|] in t;
      }
    }
  }

  lemma {:induction false} EnumeratesOneMore<T(!new)>(xs: seq<T>, s: set<T>, x: T)
    requires Enumerates(xs, s) && x !in s
    ensures Enumerates(xs + [x], s + {x})
  {
    EnumeratesTogether(xs, s, [x], {x});
  }

  /** One round of a loop over `all`. */
  lemma VisitOne<T>(all: set<T>, todo: set<T>, x: T)
    requires x in todo && todo <= all
    ensures x !in all - todo && all - todo + {x} == all - (todo - {x})
  {
  }

  lemma {:induction false} ValuesWithout<K, V>(m: map<K, V>, k: K)
    requires k in m && forall j :: j in m && j != k ==> m[j] != m[k]
    ensures (m - {k}).Values == m.Values - {m[k]}
  {
    var r := m - {k};
    forall v ensures v in r.Values <==> v in m.Values - {m[k]} {
      if v in m.Values - {m[k]} {
        var j :| j in m && m[j] == v;
        assert j in r && r[j] == v;
      }
      if v in r.Values {
        var j :| j in r && r[j] == v;
        assert j in m && m[j] == v;
      }
    }
  }

  lemma {:induction false} ValuesWith<K, V>(m: map<K, V>, k: K, v: V)
    requires k !in m
    ensures m[k := v].Values == m.Values + {v}
  {
    var r := m[k := v];
    forall x ensures x in r.Values <==> x in m.Values + {v} {
      if x in m.Values {
        var j :| j in m && m[j] == x;
        assert j in r && r[j] == x;
      }
      assert r[k] == v && k in r;
    }
  }

  // The nested loops over GetDestinationsByVNI

  type Listing = map<Destination, seq<NextHop>>

  ghost function HopPaths(vni: VNI, dest: Destination, nhs: seq<NextHop>): set<Path> {
    set h | h in nhs :: Path(vni, dest, h)
  }

  ghost function Listed(vni: VNI, listing: Listing, dests: set<Destination>): set<Path> {
    set d, h | d in dests && d in listing && h in listing[d] :: Path(vni, d, h)
  }

  /** `listing` names exactly the paths of `paths`, each once. */
  ghost predicate ListingOf(listing: Listing, vni: VNI, paths: set<Path>) {
    && (forall d :: d in listing ==> Distinct(listing[d]))
    && Listed(vni, listing, listing.Keys) == paths
  }

  lemma {:induction false} ListingIs(listing: Listing, vni: VNI, paths: set<Path>)
    requires forall d :: d in listing ==> Distinct(listing[d])
    requires forall d, h :: d in listing && h in listing[d] <==> Path(vni, d, h) in paths
    requires forall p :: p in paths ==> p.vni == vni
    ensures ListingOf(listing, vni, paths)
  {
    forall p | p in paths ensures p in Listed(vni, listing, listing.Keys) {
      assert p == Path(vni, p.dest, p.hop);
    }
  }

  /** One more hop of the destination at hand. */
  lemma {:induction false} NextHopListed(order: seq<Path>, s: set<Path>, vni: VNI, dest: Destination, nhs: seq<NextHop>, i: nat)
    requires i < |nhs| && Distinct(nhs)
    requires forall h :: Path(vni, dest, h) !in s
    requires Enumerates(order, s + HopPaths(vni, dest, nhs[..i]))
    ensures Path(vni, dest, nhs[i]) !in order
    ensures Enumerates(order + [Path(vni, dest, nhs[i])], s + HopPaths(vni, dest, nhs[..i + 1]))
  {
    assert nhs[..i + 1] == nhs[..i] + [nhs[i]];
    assert s + HopPaths(vni, dest, nhs[..i + 1]) == s + HopPaths(vni, dest, nhs[..i]) + {Path(vni, dest, nhs[i])};
    EnumeratesOneMore(order, s + HopPaths(vni, dest, nhs[..i]), Path(vni, dest, nhs[i]));
  }

  /** One more destination. */
  lemma NextDestinationListed(vni: VNI, listing: Listing, s: set<Path>, done: set<Destination>, dest: Destination)
    requires dest in listing && dest !in done
    requires forall p :: p in s ==> p.vni != vni
    ensures forall h :: Path(vni, dest, h) !in s + Listed(vni, listing, done)
    ensures s + Listed(vni, listing, done) + HopPaths(vni, dest, listing[dest]) == s + Listed(vni, listing, done + {dest})
  {
  }

  // The nested loops over GetDestinationsByVNIWithPeer

  type SourceListing = map<NextHop, seq<Source>>

  ghost function SourceEntries(path: Path, sources: seq<Source>): set<Entry> {
    set s | s in sources :: Entry(path, s)
  }

  ghost function HopEntries(vni: VNI, dest: Destination, hops: SourceListing, done: set<NextHop>): set<Entry> {
    set h, s | h in done && h in hops && s in hops[h] :: Entry(Path(vni, dest, h), s)
  }

  ghost function DestinationEntries(vni: VNI, listing: map<Destination, SourceListing>, done: set<Destination>): set<Entry> {
    set d, h, s | d in done && d in listing && h in listing[d] && s in listing[d][h] :: Entry(Path(vni, d, h), s)
  }

  lemma {:induction false} SnapshotListingIs(listing: map<Destination, SourceListing>, vni: VNI, entries: set<Entry>)
    requires forall d, h, s :: d in listing && h in listing[d] && s in listing[d][h] <==> Entry(Path(vni, d, h), s) in entries
    requires forall e :: e in entries ==> e.path.vni == vni
    ensures DestinationEntries(vni, listing, listing.Keys) == entries
  {
    forall e | e in entries ensures e in DestinationEntries(vni, listing, listing.Keys) {
      assert e == Entry(Path(vni, e.path.dest, e.path.hop), e.source);
    }
  }

  lemma {:induction false} NextSourceListed(order: seq<Entry>, s: set<Entry>, path: Path, sources: seq<Source>, i: nat)
    requires i < |sources| && Distinct(sources)
    requires forall x :: Entry(path, x) !in s
    requires Enumerates(order, s + SourceEntries(path, sources[..i]))
    ensures Enumerates(order + [Entry(path, sources[i])], s + SourceEntries(path, sources[..i + 1]))
  {
    assert sources[..i + 1] == sources[..i] + [sources[i]];
    assert s + SourceEntries(path, sources[..i + 1]) == s + SourceEntries(path, sources[..i]) + {Entry(path, sources[i])};
    EnumeratesOneMore(order, s + SourceEntries(path, sources[..i]), Entry(path, sources[i]));
  }

  lemma NextHopEntries(vni: VNI, dest: Destination, hops: SourceListing, s: set<Entry>, done: set<NextHop>, hop: NextHop)
    requires hop in hops && hop !in done
    requires forall h, x :: Entry(Path(vni, dest, h), x) !in s
    ensures forall x :: Entry(Path(vni, dest, hop), x) !in s + HopEntries(vni, dest, hops, done)
    ensures s + HopEntries(vni, dest, hops, done) + SourceEntries(Path(vni, dest, hop), hops[hop])
         == s + HopEntries(vni, dest, hops, done + {hop})
  {
  }

  lemma NextDestinationEntries(vni: VNI, listing: map<Destination, SourceListing>, done: set<Destination>, dest: Destination)
    requires dest in listing && dest !in done
    ensures forall h, x :: Entry(Path(vni, dest, h), x) !in DestinationEntries(vni, listing, done)
    ensures DestinationEntries(vni, listing, done) + HopEntries(vni, dest, listing[dest], listing[dest].Keys)
         == DestinationEntries(vni, listing, done + {dest})
  {
  }
}
