/** What a chain of clusters holds, and directories as slots of 32 bytes. */
module FatFile {
  import opened Word
  import opened FatDisk
  import opened FatChain

  function Flat(ss: seq<Sector>): (b: seq<byte>)
    ensures |b| == 512 * |ss|
  {
    if ss == [] then [] else Flat(ss[..|ss| - 1]) + ss[|ss| - 1]
  }

  lemma {:induction false} FlatJoin(a: seq<Sector>, b: seq<Sector>)
    ensures Flat(a + b) == Flat(a) + Flat(b)
    decreases |b|
  {
    if b == [] {
      assert a + b == a;
    } else {
      var n := |b| - 1;
      assert (a + b)[..|a| + n] == a + b[..n];
      FlatJoin(a, b[..n]);
    }
  }

  /** The data area has room for every cluster the table can name. */
  ghost predicate Room(g: Geo, area: seq<Sector>) { Sound(g) && |area| >= (g.Total() - 2) * g.spc }

  ghost predicate Named(g: Geo, c: int) { 2 <= c < g.Total() }

  ghost predicate InVolume(g: Geo, area: seq<Sector>, cs: seq<nat>) {
    Room(g, area) && forall i :: 0 <= i < |cs| ==> Named(g, cs[i])
  }

  lemma SectorBounds(g: Geo, area: seq<Sector>, c: int, s: int)
    requires Room(g, area) && Named(g, c) && 0 <= s < g.spc
    ensures 0 <= At(g, c) && At(g, c) + s < |area| && At(g, c) + g.spc <= |area|
  {
    AtBounds(g, c, s);
    AtBounds(g, c, 0);
    AtBounds(g, c, g.spc - 1);
  }

  /** The sectors of cluster c. */
  function Sectors(g: Geo, area: seq<Sector>, c: nat): (ss: seq<Sector>)
    requires Room(g, area) && Named(g, c)
    ensures |ss| == g.spc
  {
    assert g.spc > 0;
    SectorBounds(g, area, c, 0);
    area[At(g, c)..At(g, c) + g.spc]
  }

  /** The bytes of a chain. */
  function Content(g: Geo, area: seq<Sector>, cs: seq<nat>): seq<byte>
    requires InVolume(g, area, cs)
  {
    if cs == [] then [] else Content(g, area, cs[..|cs| - 1]) + Flat(Sectors(g, area, cs[|cs| - 1]))
  }

  lemma {:induction false} ContentSize(g: Geo, area: seq<Sector>, cs: seq<nat>)
    requires InVolume(g, area, cs)
    ensures |Content(g, area, cs)| == |cs| * g.Cluster()
    decreases |cs|
  {
    if cs != [] {
      ContentSize(g, area, cs[..|cs| - 1]);
      assert |cs| * g.Cluster() == (|cs| - 1) * g.Cluster() + g.Cluster();
    }
  }

  lemma {:induction false} ContentJoin(g: Geo, area: seq<Sector>, cs: seq<nat>, ds: seq<nat>)
    requires InVolume(g, area, cs + ds)
    ensures InVolume(g, area, cs) && InVolume(g, area, ds)
    ensures Content(g, area, cs + ds) == Content(g, area, cs) + Content(g, area, ds)
    decreases |ds|
  {
    assert forall i :: 0 <= i < |cs| ==> cs[i] == (cs + ds)[i];
    assert forall i :: 0 <= i < |ds| ==> ds[i] == (cs + ds)[|cs| + i];
    if ds == [] {
      assert cs + ds == cs;
    } else {
      var n := |ds| - 1;
      assert (cs + ds)[..|cs| + n] == cs + ds[..n];
      ContentJoin(g, area, cs, ds[..n]);
    }
  }

  /** Clusters outside cs hold the same sectors. */
  ghost predicate SameBut(g: Geo, area: seq<Sector>, area': seq<Sector>, cs: seq<nat>)
    requires Room(g, area)
  {
    |area'| == |area| && forall c: nat :: Named(g, c) && c !in cs ==> Sectors(g, area', c) == Sectors(g, area, c)
  }

  /** Framing: a chain that shares no cluster with cs reads back unchanged. */
  lemma {:induction false} ContentKept(g: Geo, area: seq<Sector>, area': seq<Sector>, cs: seq<nat>, ds: seq<nat>)
    requires InVolume(g, area, ds) && SameBut(g, area, area', cs) && forall c :: c in ds ==> c !in cs
    ensures InVolume(g, area', ds) && Content(g, area', ds) == Content(g, area, ds)
    decreases |ds|
  {
    if ds != [] {
      assert ds[|ds| - 1] in ds;
      ContentKept(g, area, area', cs, ds[..|ds| - 1]);
    }
  }

  /** One sector of one cluster is replaced. */
  lemma SectorPut(g: Geo, area: seq<Sector>, c: nat, s: nat, x: Sector, d: nat)
    requires Room(g, area) && Named(g, c) && Named(g, d) && s < g.spc
    ensures 0 <= At(g, c) + s < |area|
    ensures var area' := area[At(g, c) + s := x];
            Sectors(g, area', d) == if d == c then Sectors(g, area, c)[s := x] else Sectors(g, area, d)
  {
    hide At, Sound;
    SectorBounds(g, area, c, s);
    SectorBounds(g, area, d, s);
    var area' := area[At(g, c) + s := x];
    if d != c {
      forall t | 0 <= t < g.spc ensures Sectors(g, area', d)[t] == Sectors(g, area, d)[t] {
        if At(g, c) + s == At(g, d) + t { AtDistinct(g, c, s, d, t); }
      }
    }
  }

  lemma {:induction false} FlatPut(ss: seq<Sector>, s: nat, x: Sector)
    requires s < |ss|
    ensures Flat(ss[s := x]) == Flat(ss)[..512 * s] + x + Flat(ss)[512 * s + 512..]
    ensures Flat(ss)[512 * s..512 * s + 512] == ss[s]
  {
    var l, r := ss[..s], ss[s + 1..];
    assert ss == l + [ss[s]] + r && ss[s := x] == l + [x] + r;
    FlatJoin(l + [ss[s]], r);
    FlatJoin(l, [ss[s]]);
    FlatJoin(l + [x], r);
    FlatJoin(l, [x]);
    FlatOne(x);
    FlatOne(ss[s]);
  }

  lemma FlatOne(x: Sector)
    ensures Flat([x]) == x
  {
    assert [x][..0] == [];
  }

  /** Where sector s of the j-th cluster of a chain lies in its bytes. */
  function Offset(g: Geo, j: nat, s: nat): nat { j * g.Cluster() + 512 * s }

  lemma SectorIn(g: Geo, area: seq<Sector>, cs: seq<nat>, j: nat, s: nat)
    requires InVolume(g, area, cs) && j < |cs| && s < g.spc
    ensures Offset(g, j, s) + 512 <= |Content(g, area, cs)|
    ensures 0 <= At(g, cs[j]) + s < |area|
    ensures Content(g, area, cs)[Offset(g, j, s)..Offset(g, j, s) + 512] == area[At(g, cs[j]) + s]
  {
    hide At, Flat, Room, Content;
    var l, c, r := cs[..j], cs[j], cs[j + 1..];
    assert cs == l + ([c] + r);
    ContentParts(g, area, l, c, r);
    ContentSize(g, area, l);
    var ss := Sectors(g, area, c);
    FlatPut(ss, s, ss[s]);
    SectorBounds(g, area, c, s);
    SliceSlice(Content(g, area, l), Flat(ss), Content(g, area, r), 512 * s);
  }

  lemma SliceSlice(a: seq<byte>, b: seq<byte>, c: seq<byte>, o: nat)
    requires o + 512 <= |b|
    ensures (a + (b + c))[|a| + o..|a| + o + 512] == b[o..o + 512]
  {
  }

  lemma ContentOne(g: Geo, area: seq<Sector>, c: nat)
    requires InVolume(g, area, [c])
    ensures [c][0] == c && Named(g, c) && Content(g, area, [c]) == Flat(Sectors(g, area, c))
  {
    assert [c][..0] == [];
    assert Content(g, area, [c][..0]) == [];
  }

  /** Replacing one sector of a chain replaces its 512 bytes. */
  lemma ContentPut(g: Geo, area: seq<Sector>, cs: seq<nat>, j: nat, s: nat, x: Sector)
    requires InVolume(g, area, cs) && Distinct(cs) && j < |cs| && s < g.spc
    ensures 0 <= At(g, cs[j]) + s < |area|
    ensures var o := Offset(g, j, s); var b := Content(g, area, cs); var area' := area[At(g, cs[j]) + s := x];
            && o + 512 <= |b| && InVolume(g, area', cs) && Content(g, area', cs) == b[..o] + x + b[o + 512..]
            && SameBut(g, area, area', [cs[j]])
  {
    hide At, Flat, Content, Sectors;
    SectorIn(g, area, cs, j, s);
    var area' := area[At(g, cs[j]) + s := x];
    var l, c, r := cs[..j], cs[j], cs[j + 1..];
    forall d: nat | Named(g, d)
      ensures Sectors(g, area', d) == if d == c then Sectors(g, area, c)[s := x] else Sectors(g, area, d)
    {
      SectorPut(g, area, c, s, x, d);
    }
    assert SameBut(g, area, area', [c]);
    assert cs == l + ([c] + r);
    ContentParts(g, area, l, c, r);
    ContentParts(g, area', l, c, r);
    ContentKept(g, area, area', [c], l);
    ContentKept(g, area, area', [c], r);
    ContentSize(g, area, l);
    FlatPut(Sectors(g, area, c), s, x);
    var a, f, e := Content(g, area, l), Flat(Sectors(g, area, c)), Content(g, area, r);
    Splices(a, f, e, x, 512 * s);
  }

  lemma Splices(a: seq<byte>, f: seq<byte>, e: seq<byte>, x: Sector, o: nat)
    requires o + 512 <= |f|
    ensures var b := a + (f + e); a + ((f[..o] + x + f[o + 512..]) + e) == b[..|a| + o] + x + b[|a| + o + 512..]
  {
  }

  lemma ContentParts(g: Geo, area: seq<Sector>, l: seq<nat>, c: nat, r: seq<nat>)
    requires InVolume(g, area, l + ([c] + r))
    ensures InVolume(g, area, l) && InVolume(g, area, r) && InVolume(g, area, [c]) && Named(g, c)
    ensures Content(g, area, l + ([c] + r)) == Content(g, area, l) + (Flat(Sectors(g, area, c)) + Content(g, area, r))
  {
    ContentJoin(g, area, l, [c] + r);
    ContentJoin(g, area, [c], r);
    ContentOne(g, area, c);
  }
}
