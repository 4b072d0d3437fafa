/** Small volumes on which the writer does what it should not: one with a table longer than
    the device, one on which a failed overwrite leaves a dangling entry. */
module FatWitness {
  import opened Word
  import opened FatDisk
  import opened FatChain
  import opened FatFile
  import opened Fat32

  /** One sector a cluster, one table of one sector, the root directory at cluster 2. */
  const ONE := Geo(1, 1, 1, 0, 2)

  /** A table sector in which each cluster of cs ends a chain and the others are free. */
  function Marked(cs: set<nat>): Sector { seq(512, i => if i / 4 in cs then (if i % 4 == 3 then 15 else 255) else 0) }

  function Blank(): Sector { seq(512, _ => 0) }

  /** The table, the root directory, and 125 blank clusters. */
  function Disk(cs: set<nat>, dir: Sector): (d: seq<Sector>)
    ensures |d| == 127
  {
    var blanks: seq<Sector> := seq(125, _ => Blank());
    [Marked(cs)] + [dir] + blanks
  }

  lemma MarkedEntry(cs: set<nat>, c: nat)
    requires c < 128
    ensures Le32(Marked(cs), c % 128 * 4) == if c in cs then LAST else 0
  {
  }

  lemma DiskParts(cs: set<nat>, dir: Sector)
    ensures Disk(cs, dir)[0] == Marked(cs) && Disk(cs, dir)[1] == dir
  {
    hide Marked, Blank;
  }

  lemma OneFits(d: seq<Sector>)
    requires |d| == 127
    ensures Fits(ONE, d) && Area(ONE, d)[0] == d[1]
  {
  }

  lemma OneEntry(d: seq<Sector>, c: nat)
    requires Fits(ONE, d) && c < 128
    ensures Fat(ONE, d)[c] == Le32(d[0], c % 128 * 4) % M28
  {
    hide Le32;
  }

  lemma OneAgrees(d: seq<Sector>)
    requires Fits(ONE, d)
    ensures Agree(ONE, d)
  {
    hide Entry;
  }

  lemma DiskTable(cs: set<nat>, dir: Sector)
    ensures Fits(ONE, Disk(cs, dir)) && Agree(ONE, Disk(cs, dir))
    ensures forall c: nat :: c < 128 ==> Fat(ONE, Disk(cs, dir))[c] == if c in cs then LAST else 0
    ensures Area(ONE, Disk(cs, dir))[0] == dir
  {
    hide Le32, Marked, Disk, Entry, Fits, Fat, Agree;
    OneFits(Disk(cs, dir));
    DiskParts(cs, dir);
    OneAgrees(Disk(cs, dir));
    forall c: nat | c < 128 ensures Fat(ONE, Disk(cs, dir))[c] == if c in cs then LAST else 0 {
      MarkedEntry(cs, c);
      OneEntry(Disk(cs, dir), c);
    }
  }

  // ---------------------------------------------------------------- a table longer than the device

  /** The device has clusters 2 and 3 only; 4 is free but missing, and two sectors of data
      make the writer link it and fail. */
  method SlackWitness() returns (v: Volume)
    ensures v.Ok() && v.size == v.g.DataLba() + At(v.g, 4) && 4 < v.g.Total() && v.Tab()[3] == 4
  {
    hide Linked, Fat, Agree, SameBut, Content, Sectors, Fits, Disk;
    var data := seq(1024, _ => 0);
    DiskTable({2}, Blank());
    v := new Volume(ONE, 3, Disk({2}, Blank()));
    ghost var tab := v.Tab();
    var ok, first; ghost var cs;
    ok, first, cs := v.WriteChain(data);
    SlackChosen(v.g, v.size, tab, cs, ok);
  }

  lemma SlackChosen(g: Geo, size: nat, tab: seq<nat>, cs: seq<nat>, ok: bool)
    requires |tab| == g.Total() > 4 && g.spc == 1 && size == g.DataLba() + 2 && Taken(g, tab, cs) && Lowest(tab, cs)
    requires tab[2] != 0 && tab[3] == 0 && tab[4] == 0 && (|cs| > 1 ==> (|cs| - 1) * g.Cluster() < 1024)
    requires if ok then Sized(|cs|, 1024, g.Cluster()) && Backed(g, size, cs, 1024)
             else Starved(Linked(tab, cs), cs, 1024, g.Cluster()) || Beyond(g, size, cs, 1024)
    ensures !ok && cs == [3, 4] && Linked(tab, cs)[3] == 4
  {
    hide Linked;
    assert |cs| <= 2;
    if 3 !in cs { LinkedOff(tab, cs, 3); }
    if 4 !in cs { LinkedOff(tab, cs, 4); }
    forall j: nat | j < |cs| && BackedAt(g, size, cs, 1024, j) ensures cs[j] == 3 {}
    if !ok && Beyond(g, size, cs, 1024) {
      if |cs| == 2 { assert BackedAt(g, size, cs[..1], 1024, 0); }
    }
    LinkedOn(tab, cs, 0);
  }

  // ---------------------------------------------------------------- a dangling entry

  function Name(): (raw: seq<byte>)
    ensures |raw| == 11
  {
    seq(11, _ => 0x41)
  }

  /** A directory whose first slot is a file of one sector at cluster 5. */
  function Dir(): Sector { Filled(seq(32, _ => 0), Name(), 5, 512, true) + seq(480, _ => 0) }

  lemma DirNames()
    ensures FirstAt(Dir(), Called(Name()), 0) && First(Dir()[0..32]) == 5
  {
    hide Filled, First, Wanted;
    FilledReads(seq(32, _ => 0), Name(), 5, 512, true);
    assert Dir()[0..32] == Filled(seq(32, _ => 0), Name(), 5, 512, true);
  }

  /** The device has clusters 2 and 3 only, and a file's chain is at 5.  Overwriting it with two
      sectors frees 5, takes 3 and 4, and fails: the entry is as before, and leads nowhere. */
  method DanglingWitness() returns (v: Volume, ok: bool)
    ensures v.Ok() && !ok && v.DirOk([2]) && !Leads(v.Tab(), 5)
    ensures var d := Content(v.g, v.Data(), [2]); FirstAt(d, Called(Name()), 0) && First(d[0..32]) == 5
  {
    hide Linked, Fat, Agree, SameBut, Sectors, Fits, Disk, Content, Wanted, First, FirstAt, Dir, Leads, Overwrites,
      IsChain, Zeroed, Taken, Lowest, ThereBelow, FreeIn, Starved, Beyond, Crowded, Backed, SameNibbles, InVolume,
      There, Sized;
    var data := seq(1024, _ => 0);
    DirNames();
    DiskTable({2, 5}, Dir());
    v := new Volume(ONE, 3, Disk({2, 5}, Dir()));
    ghost var tab := v.Tab();
    Ready(v.disk);
    ghost var cs, isNew, p;
    ok, isNew, cs, p := v.WriteFile(Name(), data, [2], [5]);
    NotEnough(tab, cs, data);
    assert Seen([2]) == [2];
  }

  lemma Ready(d: seq<Sector>)
    requires d == Disk({2, 5}, Dir())
    ensures Fits(ONE, d) && Room(ONE, Area(ONE, d)) && IsChain(Fat(ONE, d), [2]) && IsChain(Fat(ONE, d), [5])
    ensures InVolume(ONE, Area(ONE, d), [2]) && There(ONE, 3, [2]) && Seen([2]) == [2] && Head([5]) == [5]
    ensures Content(ONE, Area(ONE, d), [2]) == Dir()
    ensures Overwrites(Fat(ONE, d), Dir(), Name(), [5])
    ensures !ThereBelow(ONE, 3, Zeroed(Fat(ONE, d), [5]), 5)
  {
    hide Fat, Dir, First, FirstAt, Zeroed, Disk;
    DirNames();
    DiskTable({2, 5}, Dir());
    var area := Area(ONE, d);
    assert Sectors(ONE, area, 2) == [area[0]];
    assert Flat([area[0]]) == area[0] by { assert [area[0]][..0] == []; }
    assert [2][..0] == [];
    ZeroedAt(Fat(ONE, d), [5], 4);
    assert 4 in FreeBelow(Zeroed(Fat(ONE, d), [5]), 5);
  }

  /** Two clusters are needed and the device has one to give. */
  lemma NotEnough(tab: seq<nat>, cs: seq<nat>, data: seq<byte>)
    requires |tab| == 128 && tab[2] == LAST && Taken(ONE, Zeroed(tab, Head([5])), cs) && |data| == 1024
    ensures !(Sized(|cs|, |data|, ONE.Cluster()) && Backed(ONE, 3, cs, |data|))
  {
    hide Zeroed, BackedAt;
    if Sized(|cs|, |data|, ONE.Cluster()) && Backed(ONE, 3, cs, |data|) {
      assert |cs| == 2;
      ZeroedAt(tab, Head([5]), 2);
      OnDevice(cs, 0);
      OnDevice(cs, 1);
      assert false;
    }
  }

  lemma OnDevice(cs: seq<nat>, j: nat)
    requires j < |cs| && BackedAt(ONE, 3, cs, 1024, j)
    ensures cs[j] <= 3
  {
  }
}
