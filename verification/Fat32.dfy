/** The FAT32 reader and writer: one 512-byte scratch sector, edited in place. */
module Fat32 {
  import opened Word
  import opened FatDisk
  import opened FatChain
  import opened FatFile

  const CHAIN_MAX := 0x10_0000     // clusters a walk visits at most
  const DIR_MAX := 1024

  // ---------------------------------------------------------------- directory slots

  /** What a directory search looks for: the entry of a name, or an unused slot. */
  datatype Want = Called(raw: seq<byte>) | Gap

  predicate Wanted(e: seq<byte>, w: Want)
    requires |e| == 32
  {
    match w
    case Called(raw) => e[11] != 0x0F && e[..11] == raw
    case Gap => e[0] == 0 || e[0] == 0xE5
  }

  /** No slot of the directory bytes d before offset p is wanted. */
  ghost predicate NoneBefore(d: seq<byte>, w: Want, p: int) {
    forall q {:trigger d[q..q + 32]} :: 0 <= q < p && q % 32 == 0 && q + 32 <= |d| ==> !Wanted(d[q..q + 32], w)
  }

  ghost predicate FirstAt(d: seq<byte>, w: Want, p: int) {
    0 <= p && p % 32 == 0 && p + 32 <= |d| && Wanted(d[p..p + 32], w) && NoneBefore(d, w, p)
  }

  function First(e: seq<byte>): nat
    requires |e| == 32
  {
    Four(e[26], e[27], e[20], e[21])
  }

  function SizeOf(e: seq<byte>): nat
    requires |e| == 32
  {
    Four(e[28], e[29], e[30], e[31])
  }

  function Digit(v: nat, k: nat): byte {
    (if k == 0 then v else if k == 1 then v / 256 else if k == 2 then v / 0x1_0000 else v / 0x100_0000) % 256
  }

  lemma Digits32(v: nat)
    requires v < M32
    ensures Four(Digit(v, 0), Digit(v, 1), Digit(v, 2), Digit(v, 3)) == v
  {
    var q1 := v / 256;
    var q2 := q1 / 256;
    assert v / 0x1_0000 == q2 && v / 0x100_0000 == q2 / 256;
  }

  /** The slot written for a file: a new one starts out zero but for its name and the
      archive attribute, an existing one keeps its other fields. */
  function Filled(e: seq<byte>, raw: seq<byte>, first: nat, len: nat, isNew: bool): (r: seq<byte>)
    requires |e| == 32 && |raw| == 11
    ensures |r| == 32
  {
    var b := if isNew then raw + [0x20] + seq(20, _ => 0) else e;
    b[20 := Digit(first, 2)][21 := Digit(first, 3)][26 := Digit(first, 0)][27 := Digit(first, 1)]
     [28 := Digit(len, 0)][29 := Digit(len, 1)][30 := Digit(len, 2)][31 := Digit(len, 3)]
  }

  /** Reading the slot back gives the name, the first cluster and the size. */
  lemma FilledReads(e: seq<byte>, raw: seq<byte>, first: nat, len: nat, isNew: bool)
    requires |e| == 32 && |raw| == 11 && first < M32 && len < M32 && (!isNew ==> Wanted(e, Called(raw)))
    ensures var r := Filled(e, raw, first, len, isNew); First(r) == first && SizeOf(r) == len && Wanted(r, Called(raw))
  {
    hide Four, Digit;
    Digits32(first);
    Digits32(len);
    var r := Filled(e, raw, first, len, isNew);
    assert r[..11] == raw;
  }

  /** Clusters needed for len bytes: one at least. */
  ghost predicate Sized(n: nat, len: nat, cb: nat) { n >= 1 && len <= n * cb && (n > 1 ==> (n - 1) * cb < len) }

  // ---------------------------------------------------------------- the volume

  class Volume {
    const g: Geo
    const size: nat
    const scratch: array<byte>
    var disk: seq<Sector>

    /** The device has `size` sectors, the tables among them; sectors of `disk` from there on
        stand for clusters the table names and the device lacks. */
    ghost predicate Ok() reads this, scratch {
      Fits(g, disk) && Agree(g, disk) && scratch.Length == 512 && g.DataLba() <= size
    }

    /** The root directory is a chain, and what a search visits of it is on the device. */
    ghost predicate DirOk(root: seq<nat>)
      requires Fits(g, disk)
      reads this
    {
      IsChain(Tab(), root) && root[0] == g.root && InVolume(g, Data(), Seen(root)) && There(g, size, Seen(root))
    }

    ghost function Tab(): seq<nat>
      requires Fits(g, disk)
      reads this
    {
      Fat(g, disk)
    }

    ghost function Data(): (a: seq<Sector>)
      requires Fits(g, disk)
      reads this
      ensures Room(g, a)
    {
      Area(g, disk)
    }

    constructor (g: Geo, size: nat, disk: seq<Sector>)
      requires Fits(g, disk) && Agree(g, disk) && g.DataLba() <= size
      ensures Ok() && fresh(scratch) && this.g == g && this.size == size && this.disk == disk
    {
      this.g, this.size, this.disk := g, size, disk;
      scratch := new byte[512];
    }

    method Rd(lba: nat) returns (ok: bool)
      requires lba < |disk| && scratch.Length == 512
      modifies scratch
      ensures ok <==> lba < size
      ensures ok ==> scratch[..] == disk[lba]
    {
      if lba >= size { return false; }
      ok := true;
      for i := 0 to 512
        invariant scratch[..i] == disk[lba][..i]
      {
        scratch[i] := disk[lba][i];
      }
    }

    method Wr(lba: nat) returns (ok: bool)
      requires lba < |disk| && scratch.Length == 512
      modifies this`disk
      ensures ok <==> lba < size
      ensures disk == if ok then old(disk)[lba := scratch[..]] else old(disk)
    {
      if lba >= size { return false; }
      ok, disk := true, disk[lba := scratch[..]];
    }

    /** The table entry of a cluster, reserved bits masked off. */
    method NextCluster(c: nat) returns (v: nat)
      requires Ok() && c < g.Total()
      modifies scratch
      ensures v == Tab()[c]
    {
      hide Agree, Where, Four;
      WhereBounds(g, 0, c);
      FirstCopy(g, c);
      ByteOffset(c);
      var ok := Rd(g.fatLba + c * 4 / 512);
      assert ok;
      var off := c * 4 % 512;
      v := Four(scratch[off], scratch[off + 1], scratch[off + 2], scratch[off + 3]) % M28;
    }

    /** Store an entry in one sector of one copy of the table. */
    method SetCopy(sec: nat, off: nat, v: nat)
      requires sec < |disk| && sec < size && scratch.Length == 512 && off + 4 <= 512
      modifies this`disk, scratch
      ensures disk == old(disk)[sec := Stored(old(disk[sec]), off, v)]
    {
      ghost var s := disk[sec];
      var ok := Rd(sec);
      assert ok;
      scratch[off] := v % 256;
      scratch[off + 1] := v / 256 % 256;
      scratch[off + 2] := v / 0x1_0000 % 256;
      scratch[off + 3] := v / 0x100_0000 % 16 + scratch[off + 3] / 16 * 16;
      assert scratch[..] == Stored(s, off, v);
      ok := Wr(sec);
    }

    /** Store an entry in every copy of the table, keeping each reserved nibble. */
    method SetEntry(c: nat, v: nat)
      requires Ok() && c < g.Total()
      modifies this`disk, scratch
      ensures Ok() && Tab() == old(Tab())[c := v % M28] && Data() == old(Data())
      ensures SameNibbles(g, old(disk), disk) && SameElsewhere(g, old(disk), disk)
    {
      hide Entry, Agree;
      ghost var was := disk;
      ByteOffset(c);
      var off := c * 4 % 512;
      for f := 0 to g.fats
        invariant scratch.Length == 512 && Fits(g, disk) && Partly(g, was, disk, c, v, f)
      {
        WhereBounds(g, f, c);
        PartlyStep(g, was, disk, c, v, f);
        SetCopy(g.fatLba + f * g.spf + c * 4 / 512, off, v);
      }
      PartlyAll(g, was, disk, c, v);
    }

    /** The first free cluster from `from` on, or 0. */
    method ScanFree(from: nat) returns (c: nat)
      requires Ok()
      modifies scratch
      ensures c == 0 || (2 <= c && from <= c < g.Total() && Tab()[c] == 0)
      ensures forall d :: 2 <= d && from <= d < (if c == 0 then g.Total() else c) ==> Tab()[d] != 0
    {
      hide Fat, Agree;
      c := if from < 2 then 2 else from;
      while c < g.Total()
        invariant (if from < 2 then 2 else from) <= c && Ok()
        invariant forall d :: 2 <= d && from <= d < c && d < g.Total() ==> Tab()[d] != 0
      {
        var v := NextCluster(c);
        if v == 0 { return; }
        c := c + 1;
      }
      c := 0;
    }

    /** Free a chain, entry by entry, 2^20 at most. */
    method FreeChain(first: nat, ghost was: seq<nat>)
      requires Ok() && IsChain(Tab(), was) && was[0] == first
      modifies this`disk, scratch
      ensures Ok() && Tab() == Zeroed(old(Tab()), Head(was)) && Data() == old(Data()) && SameNibbles(g, old(disk), disk)
    {
      hide Fat, Agree, Fits, Area, SameNibbles, Zeroed, IsChain;
      ghost var tab := Tab();
      var c, safety := first, CHAIN_MAX;
      ghost var i: nat := 0;
      NibblesSelf(g, disk);
      ZeroedNone(tab, was);
      ChainFacts(tab, was);
      while 2 <= c < EOC && safety > 0
        invariant Ok() && i <= |was| && i <= CHAIN_MAX && safety == CHAIN_MAX - i
        invariant if i < |was| then c == was[i] else c >= EOC
        invariant Tab() == Zeroed(tab, was[..i]) && Data() == old(Data()) && SameNibbles(g, old(disk), disk)
        decreases |was| - i
      {
        ChainStep(tab, was, i);
        ZeroedNext(tab, was, i);
        ghost var d := disk;
        var nx := NextCluster(c);
        SetEntry(c, 0);
        NibblesTrans(g, old(disk), d, disk);
        c, safety, i := nx, safety - 1, i + 1;
      }
      if i < |was| && i < CHAIN_MAX { ChainStep(tab, was, i); }
      assert was[..i] == Head(was);
    }

    /** Up to 512 bytes of data into the scratch sector, zero-padded. */
    method Fill(data: seq<byte>, from: nat) returns (done: nat)
      requires scratch.Length == 512 && from <= |data|
      modifies scratch
      ensures done == Min(|data|, from + 512) && scratch[..done - from] == data[from..done]
    {
      done := from;
      for i := 0 to 512
        invariant done == Min(|data|, from + i)
        invariant scratch[..done - from] == data[from..done]
      {
        scratch[i] := if done < |data| then data[done] else 0;
        if done < |data| { done := done + 1; }
      }
    }

    /** Write the next bytes of the data into cluster c, stopping when they run out; false
        when the device lacks a sector they need. */
    method WriteCluster(c: nat, data: seq<byte>, from: nat) returns (ok: bool, done: nat)
      requires Ok() && Named(g, c) && from <= |data|
      modifies this`disk, scratch
      ensures Ok() && Tab() == old(Tab()) && SameNibbles(g, old(disk), disk) && SameBut(g, old(Data()), Data(), [c])
      ensures ok <==> g.DataLba() + At(g, c) + Span(|data| - from, g.spc) <= size
      ensures ok ==> done == Min(|data|, from + g.Cluster())
      ensures ok ==>
              done - from <= |Flat(Sectors(g, Data(), c))|
              && Flat(Sectors(g, Data(), c))[..done - from] == data[from..done]
    {
      hide Fat, Agree, Fits, Area, SameNibbles, Room, Sectors, Flat, Named, At, Span;
      done := from;
      SpcPositive(g, disk);
      NibblesSelf(g, disk);
      for s := 0 to g.spc
        invariant Ok() && Tab() == old(Tab()) && SameNibbles(g, old(disk), disk) && SameBut(g, old(Data()), Data(), [c])
        invariant done == from + 512 * s <= |data| && (s > 0 ==> done < |data|)
                  && (s > 0 ==> g.DataLba() + At(g, c) + s <= size)
        invariant done - from <= |Flat(Sectors(g, Data(), c))|
                  && Flat(Sectors(g, Data(), c))[..done - from] == data[from..done]
      {
        ghost var was, d, ss := done, disk, Sectors(g, Data(), c);
        ghost var a := Data();
        SpanSteps(|data| - from, g.spc, s);
        done := Fill(data, done);
        ok := PutSector(c, s);
        if !ok { return; }
        FlatGrows(ss, s, scratch[..], data, from, was, done);
        NibblesTrans(g, old(disk), d, disk);
        SameButTrans(g, old(Data()), a, Data(), [c]);
        if done >= |data| { return; }
      }
      SpanSteps(|data| - from, g.spc, g.spc - 1);
      ok := true;
    }

    /** Write the scratch sector as sector s of cluster c. */
    method PutSector(c: nat, s: nat) returns (ok: bool)
      requires Ok() && Named(g, c) && s < g.spc
      modifies this`disk
      ensures Ok() && Tab() == old(Tab()) && SameNibbles(g, old(disk), disk) && SameBut(g, old(Data()), Data(), [c])
      ensures ok <==> g.DataLba() + At(g, c) + s < size
      ensures !ok ==> disk == old(disk)
      ensures 0 <= At(g, c) + s < |old(Data())| && (ok ==> Data() == old(Data())[At(g, c) + s := scratch[..]])
      ensures ok ==> Sectors(g, Data(), c) == old(Sectors(g, Data(), c))[s := scratch[..]]
    {
      hide Fat, Agree, SameNibbles, Sectors, Named, At;
      SectorBounds(g, Data(), c, s);
      ghost var a, x := Data(), scratch[..];
      AreaWrite(g, disk, At(g, c) + s, x);
      forall d: nat | Named(g, d)
        ensures Sectors(g, a[At(g, c) + s := x], d) == if d == c then Sectors(g, a, c)[s := x] else Sectors(g, a, d)
      {
        SectorPut(g, a, c, s, x, d);
      }
      Lba(g, c, s);
      NibblesSelf(g, disk);
      SameButSelf(g, a, [c]);
      ok := Wr(g.DataLba() + (c - 2) * g.spc + s);
    }

    /** The first wanted slot of the scratch sector, 512 when there is none. */
    method SearchSector(w: Want) returns (off: nat)
      requires scratch.Length == 512
      ensures off <= 512 && off % 32 == 0 && NoneBefore(scratch[..], w, off)
      ensures off < 512 ==> FirstAt(scratch[..], w, off)
    {
      off := 0;
      while off + 32 <= 512
        invariant off <= 512 && off % 32 == 0 && NoneBefore(scratch[..], w, off)
      {
        if Wanted(scratch[off..off + 32], w) {
          assert scratch[..][off..off + 32] == scratch[off..off + 32];
          return;
        }
        assert scratch[..][off..off + 32] == scratch[off..off + 32];
        off := off + 32;
      }
    }

    /** The first wanted slot of a directory: its sector and offset there, and for the proof
        the cluster, sector and byte position in the directory. */
    method Search(w: Want, ghost root: seq<nat>) returns (found: bool, sec: nat, off: nat, ghost j: nat, ghost s: nat)
      requires Ok() && DirOk(root)
      modifies scratch
      ensures found ==> Located(g, Seen(root), Content(g, Data(), Seen(root)), w, sec, off, j, s)
      ensures !found ==> NoneBefore(Content(g, Data(), Seen(root)), w, |Content(g, Data(), Seen(root))|)
    {
      hide Fat, Agree, Fits, Room, Sectors, Flat, Content, At, IsChain, FirstAt, NoneBefore, Offset;
      found, sec, off, j, s := false, 0, 0, 0, 0;
      var cur, safety := g.root, DIR_MAX;
      ghost var dir := Seen(root);
      ghost var d := Content(g, Data(), dir);
      ghost var i: nat := 0;
      NoneYet(d, w);
      OffsetEnd(g, 0);
      ChainFacts(Tab(), root);
      while 2 <= cur < EOC && safety > 0 && !found
        invariant Ok() && i <= |dir| && (found ==> i > 0) && safety == DIR_MAX - i
        invariant if i < |root| then cur == root[i] else cur >= EOC
        invariant found ==> j < |dir| && s < g.spc && off + 32 <= 512 && sec == g.DataLba() + (At(g, dir[j]) + s)
        invariant found ==> FirstAt(d, w, Offset(g, j, s) + off)
        invariant !found ==> NoneBefore(d, w, Offset(g, i, 0))
        decreases |root| - i
      {
        ChainStep(Tab(), root, i);
        found, sec, off, s := SearchCluster(cur, w, dir, i);
        j := i;
        cur := NextCluster(cur);
        safety, i := safety - 1, i + 1;
      }
      if !found {
        if i < |root| { ChainStep(Tab(), root, i); }
        ContentSize(g, Data(), dir);
        OffsetEnd(g, |dir|);
      }
    }

    method SearchCluster(cur: nat, w: Want, ghost root: seq<nat>, ghost i: nat)
        returns (found: bool, sec: nat, off: nat, ghost s: nat)
      requires Ok() && InVolume(g, Data(), root) && There(g, size, root) && i < |root| && cur == root[i]
      requires NoneBefore(Content(g, Data(), root), w, Offset(g, i, 0))
      modifies scratch
      ensures found ==> s < g.spc && off + 32 <= 512 && sec == g.DataLba() + (At(g, root[i]) + s)
      ensures found ==> FirstAt(Content(g, Data(), root), w, Offset(g, i, s) + off)
      ensures !found ==> NoneBefore(Content(g, Data(), root), w, Offset(g, i + 1, 0))
    {
      hide Fat, Agree, Room, Sectors, Flat, Content, At, FirstAt, NoneBefore, Offset;
      found, sec, off, s := false, 0, 0, 0;
      ghost var d := Content(g, Data(), root);
      var n := 0;
      while n < g.spc && !found
        invariant Ok() && n <= g.spc
        invariant found ==> s < g.spc && off + 32 <= 512 && sec == g.DataLba() + (At(g, root[i]) + s)
        invariant found ==> FirstAt(d, w, Offset(g, i, s) + off)
        invariant !found ==> NoneBefore(d, w, Offset(g, i, n))
        decreases g.spc - n, !found
      {
        s := n;
        found, sec, off := SearchAt(cur, w, n, root, i);
        n := n + 1;
      }
      OffsetSteps(g, i, g.spc);
    }

    method SearchAt(cur: nat, w: Want, n: nat, ghost root: seq<nat>, ghost i: nat)
        returns (found: bool, sec: nat, off: nat)
      requires Ok() && InVolume(g, Data(), root) && There(g, size, root) && i < |root| && cur == root[i] && n < g.spc
      requires NoneBefore(Content(g, Data(), root), w, Offset(g, i, n))
      modifies scratch
      ensures off + 32 <= 512 || !found
      ensures sec == g.DataLba() + (At(g, root[i]) + n)
      ensures found ==> FirstAt(Content(g, Data(), root), w, Offset(g, i, n) + off)
      ensures !found ==> NoneBefore(Content(g, Data(), root), w, Offset(g, i, n + 1))
    {
      hide Fat, Agree, Room, Sectors, Flat, Content, At, FirstAt, NoneBefore, Offset;
      SectorIn(g, Data(), root, i, n);
      Lba(g, cur, n);
      sec := g.DataLba() + (cur - 2) * g.spc + n;
      var ok := Rd(sec);
      assert ok;
      off := SearchSector(w);
      OffsetSteps(g, i, n);
      SearchJoin(Content(g, Data(), root), scratch[..], w, Offset(g, i, n), off);
      found := off < 512;
    }

    /** Fill in the directory slot at `off` of a sector. */
    method WriteEntry(sec: nat, off: nat, raw: seq<byte>, first: nat, len: nat, isNew: bool, ghost root: seq<nat>,
        ghost j: nat, ghost s: nat)
      requires Ok() && InVolume(g, Data(), root) && There(g, size, root) && Distinct(root) && j < |root| && s < g.spc
               && |raw| == 11
      requires off % 32 == 0 && off + 32 <= 512 && sec == g.DataLba() + (At(g, root[j]) + s)
      modifies this`disk, scratch
      ensures Ok() && Tab() == old(Tab()) && SameNibbles(g, old(disk), disk)
              && SameBut(g, old(Data()), Data(), [root[j]])
      ensures var d := old(Content(g, Data(), root)); var p := Offset(g, j, s) + off;
              p + 32 <= |d| && InVolume(g, Data(), root)
              && Content(g, Data(), root) == d[..p] + Filled(d[p..p + 32], raw, first, len, isNew) + d[p + 32..]
    {
      hide Fat, Agree, Room, Sectors, Flat, Content, At, Offset, Filled, SameNibbles, Named;
      SectorIn(g, Data(), root, j, s);
      ghost var x := disk[sec];
      var ok := Rd(sec);
      assert ok;
      EditSlot(off, raw, first, len, isNew);
      ghost var y := scratch[..];
      ContentPut(g, Data(), root, j, s, y);
      AreaWrite(g, disk, At(g, root[j]) + s, y);
      ok := Wr(sec);
      SlotPut(old(Content(g, Data(), root)), Offset(g, j, s), x, off, Filled(x[off..off + 32], raw, first, len, isNew));
    }

    method EditSlot(off: nat, raw: seq<byte>, first: nat, len: nat, isNew: bool)
      requires scratch.Length == 512 && off + 32 <= 512 && |raw| == 11
      modifies scratch
      ensures var x := old(scratch[..]);
              scratch[..] == x[..off] + Filled(x[off..off + 32], raw, first, len, isNew) + x[off + 32..]
    {
      hide Digit, Pair, Filled;
      ghost var x := scratch[..];
      if isNew { ClearSlot(off, raw); }
      ghost var b := if isNew then raw + [0x20] + seq(20, _ => 0) else x[off..off + 32];
      assert scratch[..] == x[..off] + b + x[off + 32..];
      SetBytes(off + 20, Digit(first, 2), Digit(first, 3));
      SetBytes(off + 26, Digit(first, 0), Digit(first, 1));
      SetBytes(off + 28, Digit(len, 0), Digit(len, 1));
      SetBytes(off + 30, Digit(len, 2), Digit(len, 3));
      EditedSlot(x, b, off, raw, first, len, isNew);
    }

    method SetBytes(at: nat, u: byte, v: byte)
      requires scratch.Length == 512 && at + 2 <= 512
      modifies scratch
      ensures scratch[..] == Pair(old(scratch[..]), at, u, v)
    {
      scratch[at] := u;
      scratch[at + 1] := v;
    }

    /** A fresh slot: zero but for the name and the archive attribute. */
    method ClearSlot(off: nat, raw: seq<byte>)
      requires scratch.Length == 512 && off + 32 <= 512 && |raw| == 11
      modifies scratch
      ensures var x := old(scratch[..]); scratch[..] == x[..off] + (raw + [0x20] + seq(20, _ => 0)) + x[off + 32..]
    {
      ghost var x := scratch[..];
      for i := 0 to 32
        invariant forall h :: 0 <= h < 512 ==> scratch[h] == if off <= h < off + i then 0 else x[h]
      {
        scratch[off + i] := 0;
      }
      for i := 0 to 11
        invariant forall h :: 0 <= h < 512 ==>
                  scratch[h] == if off <= h < off + i then raw[h - off] else if off <= h < off + 32 then 0 else x[h]
      {
        scratch[off + i] := raw[i];
      }
      scratch[off + 11] := 0x20;
    }

    // -------------------------------------------------------------- allocation

    /** Make c the end of the chain and let prev, if any, name it. */
    method Take(c: nat, prev: nat, ghost tab: seq<nat>, ghost cs: seq<nat>)
      requires Ok() && Tab() == Linked(tab, cs) && 2 <= c < g.Total() && prev == (if cs == [] then 0 else cs[|cs| - 1])
      requires forall i :: 0 <= i < |cs| ==> 2 <= cs[i] < |tab|
      modifies this`disk, scratch
      ensures Ok() && Tab() == Linked(tab, cs + [c]) && Data() == old(Data()) && SameNibbles(g, old(disk), disk)
    {
      hide Fat, Agree, Area, SameNibbles, SameElsewhere, Linked;
      ghost var cs' := cs + [c];
      assert cs'[..|cs|] == cs;
      LinkedSnoc(tab, cs');
      SetEntry(c, LAST);
      ghost var d := disk;
      if prev != 0 {
        SetEntry(prev, c);
        NibblesTrans(g, old(disk), d, disk);
      }
    }

    /** Take free clusters in ascending order, writing and linking as it goes, until the data
        is stored, no cluster is free, or the device lacks the one taken. */
    method WriteChain(data: seq<byte>) returns (ok: bool, first: nat, ghost cs: seq<nat>)
      requires Ok()
      modifies this`disk, scratch
      ensures Ok() && Tab() == Linked(old(Tab()), cs) && SameNibbles(g, old(disk), disk) && Taken(g, old(Tab()), cs)
      ensures SameBut(g, old(Data()), Data(), cs) && InVolume(g, Data(), cs) && Lowest(old(Tab()), cs)
      ensures |cs| > 1 ==> (|cs| - 1) * g.Cluster() < |data|
      ensures ok ==>
              cs != [] && first == cs[0] && Sized(|cs|, |data|, g.Cluster()) && |data| <= |Content(g, Data(), cs)|
      ensures ok ==> Content(g, Data(), cs)[..|data|] == data && Backed(g, size, cs, |data|)
      ensures !ok ==>
              (Starved(Tab(), cs, |data|, g.Cluster()) && Backed(g, size, cs, |data|)) || Beyond(g, size, cs, |data|)
    {
      hide Fat, Agree, Area, SameNibbles, Linked, Taken, SameBut, Content, Held, Named, Used, Fits, Sized, Backed,
        Beyond, Lowest, Starved, At;
      ghost var tab, a0 := Tab(), Data();
      var prev: nat, cursor: nat, done: nat, more := 0, 2, 0, true;
      ok, first, cs := false, 0, [];
      NibblesSelf(g, disk);
      Nothing(g, tab, a0, data);
      BackedNone(g, size, tab, |data|);
      while more
        invariant Ok() && Tab() == Linked(tab, cs) && SameNibbles(g, old(disk), disk) && Taken(g, tab, cs)
        invariant SameBut(g, a0, Data(), cs) && InVolume(g, Data(), cs) && Held(g, Data(), cs, data, done)
        invariant prev == (if cs == [] then 0 else cs[|cs| - 1]) && (cs != [] ==> first == cs[0] && prev != 0)
        invariant 2 <= cursor <= g.Total() && Used(Tab(), cs, cursor) && Backed(g, size, cs, |data|) && Lowest(tab, cs)
        invariant more <==> cs == [] || done < |data|
        decreases g.Total() - cursor
      {
        var c := ScanFree(cursor);
        UsedMeans(Tab(), cs, cursor);
        HeldCount(g, Data(), cs, data, done);
        HeldShort(g, Data(), cs, data, done);
        if c < 2 {
          StarvedIs(Tab(), cs, |data|, g.Cluster());
          return;
        }
        ghost var d, a := disk, Data();
        LowestMore(tab, cs, cursor, c);
        TakenMore(g, tab, cs, cursor, c);
        Take(c, prev, tab, cs);
        NibblesTrans(g, old(disk), d, disk);
        d := disk;
        if prev == 0 { first := c; }
        ghost var was := done;
        HeldBound(g, Data(), cs, data, done);
        var written;
        written, done := WriteCluster(c, data, done);
        NibblesTrans(g, old(disk), d, disk);
        SameButMore(g, a0, a, Data(), cs, c);
        BackedMore(g, size, cs, c, |data|);
        if !written {
          VolumeMore(g, Data(), cs, c);
          cs := cs + [c];
          return;
        }
        HeldMore(g, a, Data(), cs, c, data, was, done);
        prev, cursor, cs := c, c + 1, cs + [c];
        more := done < |data|;
      }
      HeldAll(g, Data(), cs, data, done);
      HeldCount(g, Data(), cs, data, done);
      ok := true;
    }

    // -------------------------------------------------------------- files

    /** Copy up to min(size, maxlen) bytes of a file, visiting at most 2^20 clusters and
        stopping at a sector the device lacks. */
    method ReadFile(first: nat, length: nat, maxlen: nat, ghost cs: seq<nat>) returns (out: seq<byte>)
      requires Ok() && InVolume(g, Data(), cs) && (if first < 2 then cs == [] else IsChain(Tab(), cs) && cs[0] == first)
      modifies scratch
      ensures |out| <= ReadLen(Min(length, maxlen), |cs|, g.Cluster()) && |out| <= |Content(g, Data(), cs)|
      ensures out == Content(g, Data(), cs)[..|out|]
      ensures |out| < ReadLen(Min(length, maxlen), |cs|, g.Cluster()) ==> Cut(g, size, cs, |out|)
      ensures Uncut(g, size, cs, |out|)
    {
      hide Fat, Agree, Fits, Room, Sectors, Content, At, IsChain, Area, Cut, Uncut;
      UncutStart(g, size, cs);
      var want := Min(length, maxlen);
      out := [];
      ghost var d := Content(g, Data(), cs);
      ContentSize(g, Data(), cs);
      ReadDone(want, 0, 0, g.Cluster());
      if first < 2 { return; }
      var cur, safety := first, CHAIN_MAX;
      ghost var i: nat := 0;
      ChainFacts(Tab(), cs);
      while 2 <= cur < EOC && |out| < want && safety > 0
        invariant Ok() && i <= |cs| && i <= CHAIN_MAX && safety == CHAIN_MAX - i
        invariant if i < |cs| then cur == cs[i] else cur >= EOC
        invariant |out| <= |d| && out == d[..|out|] && |out| == ReadLen(want, i, g.Cluster())
                  && Uncut(g, size, cs, |out|)
        decreases |cs| - i
      {
        ChainStep(Tab(), cs, i);
        ghost var had := |out|;
        var ok;
        ok, out := ReadCluster(cur, want, out, cs, i);
        ReadMono(want, i, |cs|, g.Cluster());
        if !ok { return; }
        cur := NextCluster(cur);
        safety, i := safety - 1, i + 1;
      }
      if i < |cs| { ChainStep(Tab(), cs, i); }
      ReadDone(want, i, |cs|, g.Cluster());
    }

    /** Append the sectors of one cluster while more is wanted. */
    method ReadCluster(cur: nat, want: nat, had: seq<byte>, ghost cs: seq<nat>, ghost i: nat)
        returns (ok: bool, out: seq<byte>)
      requires Ok() && InVolume(g, Data(), cs) && i < |cs| && cur == cs[i] && i < CHAIN_MAX
      requires |had| < want && |had| == ReadLen(want, i, g.Cluster())
      requires |had| <= |Content(g, Data(), cs)| && had == Content(g, Data(), cs)[..|had|] && Uncut(g, size, cs, |had|)
      modifies scratch
      ensures |out| <= |Content(g, Data(), cs)| && out == Content(g, Data(), cs)[..|out|] && Uncut(g, size, cs, |out|)
      ensures ok ==> |out| == ReadLen(want, i + 1, g.Cluster())
      ensures !ok ==> |out| <= ReadLen(want, i + 1, g.Cluster()) && Cut(g, size, cs, |out|)
    {
      hide Fat, Agree, Room, Sectors, Content, At, Offset, Fits, Area, InVolume, Flat, Cut, Uncut;
      ghost var d := Content(g, Data(), cs);
      ok, out := true, had;
      var s := 0;
      ReadStart(g, want, i);
      while s < g.spc && |out| < want
        invariant Ok() && s <= g.spc && |out| <= |d| && out == d[..|out|] && |out| == Min(want, Offset(g, i, s))
                  && Uncut(g, size, cs, |out|)
        decreases g.spc - s
      {
        OffsetNext(g, i, s);
        ReadWithin(g, want, i, s);
        ok, out := ReadSector(cur, want, out, s, cs, i);
        if !ok { return; }
        UncutMore(g, size, cs, i, s, |out|);
        s := s + 1;
      }
      ReadEnd(g, want, i, s, |out|);
    }

    method ReadSector(cur: nat, want: nat, had: seq<byte>, s: nat, ghost cs: seq<nat>, ghost i: nat)
        returns (ok: bool, out: seq<byte>)
      requires Ok() && InVolume(g, Data(), cs) && i < |cs| && cur == cs[i] && s < g.spc
      requires |had| < want && |had| == Offset(g, i, s) <= |Content(g, Data(), cs)|
               && had == Content(g, Data(), cs)[..|had|]
      modifies scratch
      ensures |out| <= |Content(g, Data(), cs)| && out == Content(g, Data(), cs)[..|out|]
      ensures ok ==> |out| == Min(want, |had| + 512) && g.DataLba() + At(g, cs[i]) + s < size
      ensures !ok ==> out == had && Cut(g, size, cs, |out|)
    {
      hide Fat, Agree, Room, Sectors, Content, At, Offset, Flat;
      SectorIn(g, Data(), cs, i, s);
      Lba(g, cur, s);
      out := had;
      ok := Rd(g.DataLba() + (cur - 2) * g.spc + s);
      if !ok { return; }
      var n := Min(want - |had|, 512);
      ReadMore(Content(g, Data(), cs), had, scratch[..], n);
      out := had + scratch[..n];
    }

    /** Create or overwrite a file in the root directory.  `root` is the root's chain and
        `was` the chain of the file overwritten, empty when there is none; whatever happens
        afterwards is stated for success and failure alike. */
    method WriteFile(raw: seq<byte>, data: seq<byte>, ghost root: seq<nat>, ghost was: seq<nat>)
      returns (ok: bool, isNew: bool, ghost cs: seq<nat>, ghost p: nat)
      requires Ok() && |raw| == 11 && |data| < M32 && DirOk(root)
      requires Overwrites(Tab(), Content(g, Data(), Seen(root)), raw, was) && forall c :: c in root ==> c !in was
      modifies this`disk, scratch
      ensures Ok() && DirOk(root) && SameNibbles(g, old(disk), disk)
              && Tab() == Linked(Zeroed(old(Tab()), Head(was)), cs)
      ensures Taken(g, Zeroed(old(Tab()), Head(was)), cs) && Lowest(Zeroed(old(Tab()), Head(was)), cs)
              && InVolume(g, Data(), cs)
      ensures SameBut(g, old(Data()), Data(), cs + Seen(root))
      ensures FreeIn(Tab()) == FreeIn(old(Tab())) + |Head(was)| - |cs|
      ensures |cs| > 1 ==> (|cs| - 1) * g.Cluster() < |data|
      ensures ok ==> cs != [] && Sized(|cs|, |data|, g.Cluster()) && Backed(g, size, cs, |data|)
      ensures ok ==> |data| <= |Content(g, Data(), cs)| && Content(g, Data(), cs)[..|data|] == data
      ensures ok ==>
              Updated(old(Content(g, Data(), Seen(root))), Content(g, Data(), Seen(root)), raw, cs[0], |data|, isNew, p)
      ensures ok ==>
                Entered(old(Content(g, Data(), Seen(root))), Content(g, Data(), Seen(root)), raw, cs[0], |data|,
                  isNew, p)
      ensures OthersKept(old(Content(g, Data(), Seen(root))), Content(g, Data(), Seen(root)), raw)
      ensures !ok ==> Content(g, Data(), Seen(root)) == old(Content(g, Data(), Seen(root)))
      ensures !ok ==> || Starved(Tab(), cs, |data|, g.Cluster()) || Beyond(g, size, cs, |data|)
                      || (Crowded(old(Content(g, Data(), Seen(root))), raw) && Sized(|cs|, |data|, g.Cluster()))
      ensures !ok && was != [] ==>
                (Leads(Tab(), was[0]) <==> ThereBelow(g, size, Zeroed(old(Tab()), Head(was)), was[0]))
    {
      hide Fat, Agree, Area, SameNibbles, Room, Sectors, Content, IsChain, Linked, Zeroed, SameBut, InVolume, Taken,
        Overwrites, Located, NoneBefore, FirstAt, Updated, Replaced, Sized, First, Backed, Beyond, Lowest, Starved,
        Crowded, There, Seen, Head, FreeIn, Leads, ThereBelow, Entered, OthersKept;
      ghost var tab, a := Tab(), Data();
      ghost var d0 := disk;
      WasChain(tab, Content(g, a, Seen(root)), raw, was);
      isNew, p := false, 0;
      var found, sec, off, j, s := FreeOld(raw, root, was);
      ghost var d1 := disk;
      HeadIn(tab, was, root);
      ZeroedChain(g, tab, Head(was), root);
      var first;
      ok, first, cs := WriteChain(data);
      ghost var d2, b := disk, Data();
      NibblesTrans(g, d0, d1, d2);
      SeenIn(tab, root);
      AfterChain(g, tab, Head(was), cs, root, Seen(root), a, b);
      FreeReplaced(tab, Tab(), Head(was), cs);
      if !ok {
        if was != [] { FailedLeads(g, size, tab, was, cs, |data|); }
        SameKept(Content(g, a, Seen(root)), raw);
        return;
      }
      ok, isNew, p := PutEntry(found, sec, off, raw, first, |data|, root, j, s);
      NibblesTrans(g, d0, d2, disk);
      AfterEntry(g, a, b, Data(), cs, Seen(root), data);
      if ok {
        FirstSmall(g, Zeroed(tab, Head(was)), cs);
        EnteredKept(Content(g, a, Seen(root)), Content(g, Data(), Seen(root)), raw, cs[0], |data|, isNew, p);
      } else {
        CrowdedNew(tab, Content(g, a, Seen(root)), raw, was);
        SameKept(Content(g, a, Seen(root)), raw);
      }
    }

    /** Look the name up and free the chain its entry leads to. */
    method FreeOld(raw: seq<byte>, ghost root: seq<nat>, ghost was: seq<nat>)
      returns (found: bool, sec: nat, off: nat, ghost j: nat, ghost s: nat)
      requires Ok() && DirOk(root)
      requires Overwrites(Tab(), Content(g, Data(), Seen(root)), raw, was)
      modifies this`disk, scratch
      ensures Ok() && Tab() == Zeroed(old(Tab()), Head(was)) && Data() == old(Data()) && SameNibbles(g, old(disk), disk)
      ensures found ==> Located(g, Seen(root), Content(g, Data(), Seen(root)), Called(raw), sec, off, j, s)
      ensures !found ==> NoneBefore(Content(g, Data(), Seen(root)), Called(raw), |Content(g, Data(), Seen(root))|)
    {
      hide Fat, Agree, Area, SameNibbles, Room, Sectors, Content, At, IsChain, FirstAt, NoneBefore, Offset, Zeroed,
        Overwrites, First;
      ghost var d, tab := Content(g, Data(), Seen(root)), Tab();
      NibblesSelf(g, disk);
      NothingTaken(g, tab);
      found, sec, off, j, s := Search(Called(raw), root);
      if found {
        var first := ReadFirst(sec, off, raw, Seen(root), j, s);
        FoundFirst(tab, d, raw, was, Offset(g, j, s) + off);
        if first >= 2 { FreeChain(first, was); }
      } else {
        FoundNone(tab, d, raw, was);
      }
    }

    /** The first cluster an entry names. */
    method ReadFirst(sec: nat, off: nat, ghost raw: seq<byte>, ghost root: seq<nat>, ghost j: nat, ghost s: nat)
        returns (first: nat)
      requires Ok() && InVolume(g, Data(), root) && There(g, size, root)
               && Located(g, root, Content(g, Data(), root), Called(raw), sec, off, j, s)
      modifies scratch
      ensures var d := Content(g, Data(), root); var p := Offset(g, j, s) + off;
              p + 32 <= |d| && FirstAt(d, Called(raw), p) && first == First(d[p..p + 32])
              && First(scratch[off..off + 32]) == first && off + 32 <= 512 && scratch[off..off + 32] == d[p..p + 32]
    {
      hide Fat, Agree, Room, Sectors, Content, At, NoneBefore, Offset, First, Wanted, Flat, FirstAt;
      LocatedAt(g, root, Content(g, Data(), root), Called(raw), sec, off, j, s);
      SectorIn(g, Data(), root, j, s);
      SlotBytes(Content(g, Data(), root), Offset(g, j, s), disk[sec], off);
      var ok := Rd(sec);
      assert ok;
      first := First(scratch[off..off + 32]);
    }

    /** The slot to fill in: the one already found, or the first unused one. */
    method FindPlace(known: bool, sec0: nat, off0: nat, ghost raw: seq<byte>, ghost root: seq<nat>, ghost j0: nat,
        ghost s0: nat)
      returns (ok: bool, sec: nat, off: nat, ghost j: nat, ghost s: nat)
      requires Ok() && DirOk(root)
      requires known ==> Located(g, Seen(root), Content(g, Data(), Seen(root)), Called(raw), sec0, off0, j0, s0)
      modifies scratch
      ensures ok ==>
              Located(g, Seen(root), Content(g, Data(), Seen(root)), if known then Called(raw) else Gap, sec, off, j, s)
      ensures !ok ==> !known && NoneBefore(Content(g, Data(), Seen(root)), Gap, |Content(g, Data(), Seen(root))|)
    {
      hide Fat, Agree, Area, Room, Content, IsChain, Located, NoneBefore;
      ok, sec, off, j, s := true, sec0, off0, j0, s0;
      if !known { ok, sec, off, j, s := Search(Gap, root); }
    }

    /** Fill in the slot found, or the first unused one. */
    method PutEntry(known: bool, sec0: nat, off0: nat, raw: seq<byte>, first: nat, len: nat, ghost root: seq<nat>,
        ghost j0: nat, ghost s0: nat)
      returns (ok: bool, isNew: bool, ghost p: nat)
      requires Ok() && DirOk(root) && |raw| == 11
      requires known ==> Located(g, Seen(root), Content(g, Data(), Seen(root)), Called(raw), sec0, off0, j0, s0)
      requires !known ==> NoneBefore(Content(g, Data(), Seen(root)), Called(raw), |Content(g, Data(), Seen(root))|)
      modifies this`disk, scratch
      ensures Ok() && Tab() == old(Tab()) && SameNibbles(g, old(disk), disk)
              && SameBut(g, old(Data()), Data(), Seen(root)) && DirOk(root)
      ensures ok ==>
              Updated(old(Content(g, Data(), Seen(root))), Content(g, Data(), Seen(root)), raw, first, len, isNew, p)
      ensures !ok ==>
              Content(g, Data(), Seen(root)) == old(Content(g, Data(), Seen(root)))
              && Crowded(old(Content(g, Data(), Seen(root))), raw)
    {
      hide Fat, Agree, Area, SameNibbles, Room, Sectors, Content, At, FirstAt, NoneBefore, Offset, Filled, SameBut,
        Located, Wanted, Flat, InVolume, Fits, IsChain, There, Seen, Crowded;
      NibblesSelf(g, disk);
      SameButSelf(g, Data(), Seen(root));
      isNew, p := !known, 0;
      var sec, off; ghost var j, s;
      ok, sec, off, j, s := FindPlace(known, sec0, off0, raw, root, j0, s0);
      if !ok {
        CrowdedIs(Content(g, Data(), Seen(root)), raw);
        return;
      }
      LocatedAt(g, Seen(root), Content(g, Data(), Seen(root)), if isNew then Gap else Called(raw), sec, off, j, s);
      SeenIn(Tab(), root);
      p := Offset(g, j, s) + off;
      WriteEntry(sec, off, raw, first, len, isNew, Seen(root), j, s);
      SameButWider(g, old(Data()), Data(), Seen(root), j);
    }
  }

  function Pair(s: seq<byte>, at: nat, u: byte, v: byte): (r: seq<byte>)
    requires at + 2 <= |s|
    ensures |r| == |s|
  {
    s[at := u][at + 1 := v]
  }

  lemma EditedSlot(x: seq<byte>, b: seq<byte>, off: nat, raw: seq<byte>, first: nat, len: nat, isNew: bool)
    requires |x| == 512 && off + 32 <= 512 && |raw| == 11
             && b == if isNew then raw + [0x20] + seq(20, _ => 0) else x[off..off + 32]
    ensures var y := x[..off] + b + x[off + 32..];
            var y1 := Pair(y, off + 20, Digit(first, 2), Digit(first, 3));
            var y2 := Pair(y1, off + 26, Digit(first, 0), Digit(first, 1));
            var y3 := Pair(y2, off + 28, Digit(len, 0), Digit(len, 1));
            Pair(y3, off + 30, Digit(len, 2), Digit(len, 3))
            == x[..off] + Filled(x[off..off + 32], raw, first, len, isNew) + x[off + 32..]
  {
    hide Digit;
  }

  lemma LocatedAt(g: Geo, root: seq<nat>, d: seq<byte>, w: Want, sec: nat, off: nat, j: nat, s: nat)
    requires Located(g, root, d, w, sec, off, j, s)
    ensures j < |root| && s < g.spc && off + 32 <= 512 && off % 32 == 0 && sec == g.DataLba() + (At(g, root[j]) + s)
    ensures var p := Offset(g, j, s) + off; p + 32 <= |d| && FirstAt(d, w, p)
  {
    hide Offset, Wanted, NoneBefore, At;
    OffsetSteps(g, j, s);
    SlotAligned(Offset(g, j, s), off);
  }

  lemma SlotAligned(o: int, off: int)
    requires o % 512 == 0
    ensures (o + off) % 32 == 0 <==> off % 32 == 0
  {
    assert o % 32 == 0;
  }

  lemma ReadMore(d: seq<byte>, out: seq<byte>, x: seq<byte>, n: nat)
    requires |out| + 512 <= |d| && out == d[..|out|] && d[|out|..|out| + 512] == x && n <= 512 == |x|
    ensures |out + x[..n]| <= |d| && out + x[..n] == d[..|out| + n]
  {
    assert d[..|out| + n] == d[..|out|] + d[|out|..|out| + n];
    assert x[..n] == d[|out|..|out| + n];
  }

  lemma ReadStart(g: Geo, want: nat, i: nat)
    requires i <= CHAIN_MAX
    ensures ReadLen(want, i, g.Cluster()) == Min(want, Offset(g, i, 0))
  {
  }

  lemma ReadEnd(g: Geo, want: nat, i: nat, s: nat, n: nat)
    requires s <= g.spc && n == Min(want, Offset(g, i, s)) && (s == g.spc || n >= want) && i < CHAIN_MAX
    ensures n == ReadLen(want, i + 1, g.Cluster())
  {
    OffsetSteps(g, i, s);
    assert Offset(g, i + 1, 0) == Offset(g, i, 0) + g.Cluster();
  }

  lemma ReadDone(want: nat, i: nat, n: nat, cb: nat)
    requires i <= n && i <= CHAIN_MAX && (i == n || i == CHAIN_MAX || ReadLen(want, i, cb) >= want)
    ensures ReadLen(want, i, cb) == ReadLen(want, n, cb)
  {
    assert i * cb <= Min(n, CHAIN_MAX) * cb;
  }

  /** Where in the volume the first wanted slot of the directory lies. */
  ghost predicate Located(g: Geo, root: seq<nat>, d: seq<byte>, w: Want, sec: nat, off: nat, j: nat, s: nat) {
    && j < |root| && s < g.spc && off + 32 <= 512 && sec == g.DataLba() + (At(g, root[j]) + s)
    && FirstAt(d, w, Offset(g, j, s) + off)
  }

  /** The directory bytes d became d': the entry of the name, or else the first unused slot,
      now describes the file. */
  ghost predicate Updated(d: seq<byte>, d': seq<byte>, raw: seq<byte>, first: nat, len: nat, isNew: bool, p: nat)
    requires |raw| == 11
  {
    && p + 32 <= |d| && FirstAt(d, if isNew then Gap else Called(raw), p) && (isNew ==> NoneBefore(d, Called(raw), |d|))
    && d' == d[..p] + Filled(d[p..p + 32], raw, first, len, isNew) + d[p + 32..]
  }

  lemma SameButWider(g: Geo, a: seq<Sector>, b: seq<Sector>, root: seq<nat>, j: nat)
    requires Room(g, a) && j < |root| && SameBut(g, a, b, [root[j]])
    ensures SameBut(g, a, b, root)
  {
    hide Sectors;
    assert root[j] in root;
    assert forall d: nat :: d !in root ==> d !in [root[j]];
  }

  // ---------------------------------------------------------------- what the walks visit

  /** Of a directory, the first 1024 clusters; of a chain to free, the first 2^20. */
  function Seen(root: seq<nat>): seq<nat> { root[..Min(|root|, DIR_MAX)] }
  function Head(was: seq<nat>): seq<nat> { was[..Min(|was|, CHAIN_MAX)] }

  lemma SeenIn(tab: seq<nat>, root: seq<nat>)
    requires IsChain(tab, root)
    ensures FatChain.Distinct(Seen(root)) && forall c :: c in Seen(root) ==> c in root
  {
  }

  lemma HeadIn(tab: seq<nat>, was: seq<nat>, root: seq<nat>)
    requires (was != [] ==> IsChain(tab, was)) && forall c :: c in root ==> c !in was
    ensures InUse(tab, Head(was)) && (forall c :: c in Head(was) ==> c in was) && forall c :: c in root ==>
            c !in Head(was)
  {
    if was != [] { ChainInUse(tab, was, Min(|was|, CHAIN_MAX)); }
  }

  // ---------------------------------------------------------------- what the device has

  /** Clusters wholly on the device. */
  ghost predicate There(g: Geo, size: nat, cs: seq<nat>) {
    forall i :: 0 <= i < |cs| ==> g.DataLba() + At(g, cs[i]) + g.spc <= size
  }

  /** Sectors written to a cluster when n bytes are left: one at least. */
  function Span(n: nat, spc: nat): nat { if n == 0 then Min(1, spc) else Min(spc, (n + 511) / 512) }

  lemma SpanSteps(n: nat, spc: nat, s: nat)
    requires s < spc && 512 * s <= n && (s > 0 ==> 512 * s < n)
    ensures s < Span(n, spc)
    ensures n <= 512 * (s + 1) || s + 1 == spc ==> Span(n, spc) == s + 1
  {
  }

  /** Bytes left when cluster j of a file is begun. */
  function Left(len: nat, j: nat, cb: nat): nat { if j * cb < len then len - j * cb else 0 }

  ghost predicate BackedAt(g: Geo, size: nat, cs: seq<nat>, len: nat, j: nat)
    requires j < |cs|
  {
    g.DataLba() + At(g, cs[j]) + Span(Left(len, j, g.Cluster()), g.spc) <= size
  }

  /** The device has every sector the data needs. */
  ghost predicate Backed(g: Geo, size: nat, cs: seq<nat>, len: nat) {
    forall j: nat :: j < |cs| ==> BackedAt(g, size, cs, len, j)
  }

  /** The last cluster taken is the first the device lacks. */
  ghost predicate Beyond(g: Geo, size: nat, cs: seq<nat>, len: nat) {
    && cs != [] && !BackedAt(g, size, cs, len, |cs| - 1) && Backed(g, size, cs[..|cs| - 1], len)
    && (|cs| > 1 ==> (|cs| - 1) * g.Cluster() < len)
  }

  /** Reading stops after n bytes: the next sector is not on the device. */
  ghost predicate Cut(g: Geo, size: nat, cs: seq<nat>, n: nat) {
    exists j: nat, s: nat :: j < |cs| && s < g.spc && n == Offset(g, j, s) && g.DataLba() + At(g, cs[j]) + s >= size
  }

  /** Every sector before byte n is there. */
  ghost predicate Uncut(g: Geo, size: nat, cs: seq<nat>, n: nat) { forall m: nat :: m < n ==> !Cut(g, size, cs, m) }

  lemma UncutStart(g: Geo, size: nat, cs: seq<nat>)
    ensures Uncut(g, size, cs, 0)
  {
  }

  lemma UncutMore(g: Geo, size: nat, cs: seq<nat>, i: nat, s: nat, n: nat)
    requires i < |cs| && s < g.spc && Uncut(g, size, cs, Offset(g, i, s)) && n <= Offset(g, i, s) + 512
    requires g.DataLba() + At(g, cs[i]) + s < size
    ensures Uncut(g, size, cs, n)
  {
    hide At, Offset;
    forall m: nat | m < n && m >= Offset(g, i, s) ensures !Cut(g, size, cs, m) {
      if Cut(g, size, cs, m) {
        var j: nat, t: nat :| j < |cs| && t < g.spc && m == Offset(g, j, t) && g.DataLba() + At(g, cs[j]) + t >= size;
        OffsetUnique(g, i, s, j, t);
      }
    }
  }

  /** Different sectors of a chain start 512 bytes apart at least. */
  lemma OffsetUnique(g: Geo, i: nat, s: nat, j: nat, t: nat)
    requires s < g.spc && t < g.spc && Offset(g, i, s) <= Offset(g, j, t) < Offset(g, i, s) + 512
    ensures i == j && s == t
  {
    Scaled(i, g.spc);
    Scaled(j, g.spc);
    assert i * g.spc + s == j * g.spc + t;
    if i < j { MulApart(i, j, g.spc); }
    if j < i { MulApart(j, i, g.spc); }
  }

  lemma BackedNone(g: Geo, size: nat, tab: seq<nat>, len: nat)
    ensures Backed(g, size, [], len) && Lowest(tab, [])
  {
  }

  lemma BackedMore(g: Geo, size: nat, cs: seq<nat>, c: nat, len: nat)
    requires Backed(g, size, cs, len) && (cs == [] || |cs| * g.Cluster() < len)
    ensures var ok := g.DataLba() + At(g, c) + Span(len - Min(len, |cs| * g.Cluster()), g.spc) <= size;
            if ok then Backed(g, size, cs + [c], len) else Beyond(g, size, cs + [c], len)
  {
    hide At, Span;
    var cs' := cs + [c];
    assert cs'[..|cs|] == cs;
    forall j: nat | j < |cs| ensures BackedAt(g, size, cs', len, j) { assert BackedAt(g, size, cs, len, j); }
  }

  /** A file whose sectors are all there is never cut short. */
  lemma BackedReads(g: Geo, size: nat, cs: seq<nat>, len: nat, n: nat)
    requires Backed(g, size, cs, len) && n < len && g.spc > 0
    ensures !Cut(g, size, cs, n)
  {
    hide At;
    if Cut(g, size, cs, n) {
      var j: nat, s: nat :| j < |cs| && s < g.spc && n == Offset(g, j, s) && g.DataLba() + At(g, cs[j]) + s >= size;
      assert BackedAt(g, size, cs, len, j);
      SpanSteps(Left(len, j, g.Cluster()), g.spc, s);
    }
  }

  lemma VolumeMore(g: Geo, a: seq<Sector>, cs: seq<nat>, c: nat)
    requires InVolume(g, a, cs) && Named(g, c)
    ensures InVolume(g, a, cs + [c])
  {
    hide Room;
    var cs' := cs + [c];
    assert forall i :: 0 <= i < |cs'| ==> cs'[i] == if i < |cs| then cs[i] else c;
  }

  // ---------------------------------------------------------------- which clusters are chosen

  /** Every free cluster below one that was taken was taken. */
  ghost predicate Lowest(tab: seq<nat>, cs: seq<nat>) {
    forall i, c: nat :: 0 <= i < |cs| && 2 <= c < cs[i] && c < |tab| && tab[c] == 0 ==> c in cs
  }

  lemma LowestMore(tab: seq<nat>, cs: seq<nat>, cursor: nat, c: nat)
    requires Lowest(tab, cs) && Used(Linked(tab, cs), cs, cursor) && 2 <= cursor <= c < |tab|
    requires forall d :: 2 <= d && cursor <= d < c ==> Linked(tab, cs)[d] != 0
    ensures Lowest(tab, cs + [c])
  {
    hide Linked;
    var cs' := cs + [c];
    forall i, d: nat | 0 <= i < |cs'| && 2 <= d < cs'[i] && d < |tab| && tab[d] == 0 ensures d in cs' {
      if i < |cs| {
        assert cs'[i] == cs[i] && d in cs;
      } else if d !in cs {
        LinkedOff(tab, cs, d);
        assert false;
      }
    }
  }

  /** The free clusters below a limit. */
  function FreeBelow(tab: seq<nat>, limit: nat): set<nat> { set c | 2 <= c < limit && c < |tab| && tab[c] == 0 }

  function Picked(cs: seq<nat>): set<nat> { set c | c in cs }

  lemma {:induction false} PickedSize(cs: seq<nat>)
    requires FatChain.Distinct(cs)
    ensures |Picked(cs)| == |cs|
  {
    if cs != [] {
      var n := |cs| - 1;
      NewNotThere(cs);
      PickedSize(cs[..n]);
      assert cs == cs[..n] + [cs[n]];
      assert Picked(cs) == Picked(cs[..n]) + {cs[n]};
    }
  }

  /** The writer stays below any limit, such as the volume's real end, which it never looks
      at, if and only if enough of the clusters below it are free or nothing from it on is.
      `need` is the number of clusters the data fills; the writer took that many, or all that
      were free, or failed at one beyond the limit. */
  lemma ChosenBelow(g: Geo, tab: seq<nat>, cs: seq<nat>, need: nat, limit: nat)
    requires Taken(g, tab, cs) && Lowest(tab, cs) && |cs| <= need
    requires |cs| == need || (forall c: nat :: 2 <= c < |tab| && tab[c] == 0 ==> c in cs)
             || (cs != [] && cs[|cs| - 1] >= limit)
    ensures (forall i :: 0 <= i < |cs| ==> cs[i] < limit) <==>
            |FreeBelow(tab, limit)| >= need || forall c :: limit <= c < |tab| && 2 <= c ==> tab[c] != 0
  {
    PickedSize(cs);
    if forall i :: 0 <= i < |cs| ==> cs[i] < limit {
      if |cs| == need {
        Within(Picked(cs), FreeBelow(tab, limit));
      } else {
        assert forall c :: limit <= c < |tab| && 2 <= c ==> tab[c] != 0;
      }
    } else {
      var i :| 0 <= i < |cs| && cs[i] >= limit;
      assert tab[cs[i]] == 0 && cs[i] in Picked(cs);
      forall c | c in FreeBelow(tab, limit) ensures c in Picked(cs) - {cs[i]} { assert c < cs[i]; }
      Within(FreeBelow(tab, limit), Picked(cs) - {cs[i]});
    }
  }

  /** A file's clusters lie below the limit of what is there if and only if, once the old
      chain is freed, the free ones below it suffice or the table shows none free beyond. */
  lemma StaysBelow(g: Geo, size: nat, tab: seq<nat>, cs: seq<nat>, len: nat, need: nat, limit: nat)
    requires Sound(g) && |tab| == g.Total() && Taken(g, tab, cs) && Lowest(tab, cs) && Sized(need, len, g.Cluster())
    requires |cs| > 1 ==> (|cs| - 1) * g.Cluster() < len
    requires Sized(|cs|, len, g.Cluster()) || Starved(Linked(tab, cs), cs, len, g.Cluster()) || Beyond(g, size, cs, len)
    requires 2 <= limit && g.DataLba() + At(g, limit) <= size
    ensures (forall i :: 0 <= i < |cs| ==> cs[i] < limit) <==>
            |FreeBelow(tab, limit)| >= need || forall c :: limit <= c < |tab| && 2 <= c ==> tab[c] != 0
  {
    hide Linked, BackedAt, At;
    CountBelow(|cs|, need, len, g.Cluster());
    if Starved(Linked(tab, cs), cs, len, g.Cluster()) {
      forall c: nat | 2 <= c < |tab| && tab[c] == 0 ensures c in cs { if c !in cs { LinkedOff(tab, cs, c); } }
    } else if Beyond(g, size, cs, len) {
      LastBeyond(g, size, cs, len, limit);
    }
    ChosenBelow(g, tab, cs, need, limit);
  }

  lemma CountBelow(n: nat, need: nat, len: nat, cb: nat)
    requires Sized(need, len, cb) && (n > 1 ==> (n - 1) * cb < len)
    ensures n <= need && (Sized(n, len, cb) ==> n == need)
  {
    if n > need { MulMono(need, n - 1, cb); }
    if n < need { MulMono(n, need - 1, cb); }
  }

  lemma LastBeyond(g: Geo, size: nat, cs: seq<nat>, len: nat, limit: nat)
    requires Sound(g) && Beyond(g, size, cs, len) && g.DataLba() + At(g, limit) <= size
    ensures cs[|cs| - 1] >= limit
  {
    var c := cs[|cs| - 1];
    var n := Span(Left(len, |cs| - 1, g.Cluster()), g.spc);
    assert n <= g.spc;
    if c < limit { MulApart(c - 2, limit - 2, g.spc); }
  }

  // ---------------------------------------------------------------- after a failed overwrite

  /** Some chain starts at cluster c. */
  ghost predicate Leads(tab: seq<nat>, c: nat) { exists cs :: IsChain(tab, cs) && cs[0] == c }

  /** Every free cluster below c is wholly on the device. */
  ghost predicate ThereBelow(g: Geo, size: nat, tab: seq<nat>, c: nat) {
    forall b :: b in FreeBelow(tab, c) ==> g.DataLba() + At(g, b) + g.spc <= size
  }

  /** The first cluster of a freed chain leads somewhere exactly when it was taken again, and
      then into the middle of what was written. */
  lemma LeadsIff(g: Geo, tab: seq<nat>, was: seq<nat>, cs: seq<nat>)
    requires IsChain(tab, was) && Taken(g, Zeroed(tab, Head(was)), cs) && g.Total() <= EOC
    ensures Leads(Linked(Zeroed(tab, Head(was)), cs), was[0]) <==> was[0] in cs
    ensures forall i :: 0 <= i < |cs| ==> IsChain(Linked(Zeroed(tab, Head(was)), cs), cs[i..])
  {
    hide Linked, Zeroed;
    var free := Zeroed(tab, Head(was));
    var tab' := Linked(free, cs);
    forall i | 0 <= i < |cs| ensures IsChain(tab', cs[i..]) {
      LinkedChain(free, cs);
      ChainTail(tab', cs, i);
    }
    if i :| 0 <= i < |cs| && cs[i] == was[0] {
      assert IsChain(tab', cs[i..]) && cs[i..][0] == was[0];
    } else {
      assert was[0] in Head(was);
      ZeroedAt(tab, Head(was), was[0]);
      LinkedOff(free, cs, was[0]);
      NoChainAt(tab', was[0]);
    }
  }

  lemma ChainTail(tab: seq<nat>, cs: seq<nat>, i: nat)
    requires IsChain(tab, cs) && i < |cs|
    ensures IsChain(tab, cs[i..])
  {
    var ds := cs[i..];
    assert forall k :: 0 <= k < |ds| ==> ds[k] == cs[i + k];
  }

  lemma NoChainAt(tab: seq<nat>, c: nat)
    requires c < |tab| && tab[c] == 0
    ensures !Leads(tab, c)
  {
    if cs :| IsChain(tab, cs) && cs[0] == c { ChainStep(tab, cs, 0); }
  }

  /** A free cluster is taken by a write that fails if and only if the free ones below it are
      wholly on the device. */
  lemma TakenWhen(g: Geo, size: nat, tab: seq<nat>, cs: seq<nat>, c: nat, len: nat)
    requires Sound(g) && Taken(g, tab, cs) && Lowest(tab, cs) && 2 <= c < |tab| && tab[c] == 0
    requires (Starved(Linked(tab, cs), cs, len, g.Cluster()) && Backed(g, size, cs, len)) || Beyond(g, size, cs, len)
    ensures c in cs <==> ThereBelow(g, size, tab, c)
  {
    hide Linked, Starved, Backed, Beyond, Lowest, Taken, ThereBelow;
    if Beyond(g, size, cs, len) {
      TakenBeyond(g, size, tab, cs, c, len);
    } else {
      TakenStarved(g, size, tab, cs, c, len);
    }
  }

  lemma TakenStarved(g: Geo, size: nat, tab: seq<nat>, cs: seq<nat>, c: nat, len: nat)
    requires Taken(g, tab, cs) && 2 <= c < |tab| && tab[c] == 0
    requires Starved(Linked(tab, cs), cs, len, g.Cluster()) && Backed(g, size, cs, len)
    ensures c in cs && ThereBelow(g, size, tab, c)
  {
    hide Linked, At, BackedAt;
    forall b: nat | 2 <= b < |tab| && tab[b] == 0 ensures b in cs { if b !in cs { LinkedOff(tab, cs, b); } }
    forall j: nat | j < |cs| ensures g.DataLba() + At(g, cs[j]) + g.spc <= size {
      assert BackedAt(g, size, cs, len, j);
      MulMono(j + 1, |cs|, g.Cluster());
      FullSpan(g, size, cs, len, j);
    }
  }

  /** A cluster that more data follows is filled. */
  lemma FullSpan(g: Geo, size: nat, cs: seq<nat>, len: nat, j: nat)
    requires j < |cs| && BackedAt(g, size, cs, len, j) && (j + 1) * g.Cluster() < len
    ensures g.DataLba() + At(g, cs[j]) + g.spc <= size
  {
    hide At;
    assert (j + 1) * g.Cluster() == j * g.Cluster() + g.Cluster();
  }

  lemma TakenBeyond(g: Geo, size: nat, tab: seq<nat>, cs: seq<nat>, c: nat, len: nat)
    requires Sound(g) && Taken(g, tab, cs) && Lowest(tab, cs) && 2 <= c < |tab| && tab[c] == 0
             && Beyond(g, size, cs, len)
    ensures c in cs <==> ThereBelow(g, size, tab, c)
  {
    var n := |cs| - 1;
    var last := cs[n];
    forall j: nat | j < n ensures g.DataLba() + At(g, cs[j]) + g.spc <= size {
      assert BackedAt(g, size, cs[..n], len, j) && BackedAt(g, size, cs, len, j);
      MulMono(j + 1, n, g.Cluster());
      FullSpan(g, size, cs, len, j);
    }
    assert !(g.DataLba() + At(g, last) + g.spc <= size);
    if c in cs {
      forall b | b in FreeBelow(tab, c) ensures g.DataLba() + At(g, b) + g.spc <= size {
        if b == last { MulApart(b - 2, c - 2, g.spc); }
      }
    } else {
      assert !(c < last);
      assert last in FreeBelow(tab, c);
    }
  }

  /** After a failed overwrite the untouched entry leads to a chain if and only if the free
      clusters below its first one, the old chain's included, are wholly on the device. */
  lemma FailedLeads(g: Geo, size: nat, tab: seq<nat>, was: seq<nat>, cs: seq<nat>, len: nat)
    requires Sound(g) && IsChain(tab, was) && Taken(g, Zeroed(tab, Head(was)), cs)
             && Lowest(Zeroed(tab, Head(was)), cs) && |tab| == g.Total()
    requires var tab' := Linked(Zeroed(tab, Head(was)), cs);
             (Starved(tab', cs, len, g.Cluster()) && Backed(g, size, cs, len)) || Beyond(g, size, cs, len)
    ensures Leads(Linked(Zeroed(tab, Head(was)), cs), was[0]) <==> ThereBelow(g, size, Zeroed(tab, Head(was)), was[0])
  {
    hide Linked, Zeroed, Taken, Lowest, Leads, ThereBelow, Starved, Backed, Beyond;
    LeadsIff(g, tab, was, cs);
    assert was[0] in Head(was);
    ZeroedAt(tab, Head(was), was[0]);
    TakenWhen(g, size, Zeroed(tab, Head(was)), cs, was[0], len);
  }

  lemma CrowdedNew(tab: seq<nat>, d: seq<byte>, raw: seq<byte>, was: seq<nat>)
    requires Crowded(d, raw) && Overwrites(tab, d, raw, was)
    ensures was == []
  {
    CrowdedIs(d, raw);
    FoundNone(tab, d, raw, was);
  }

  // ---------------------------------------------------------------- counting

  lemma Within(a: set<nat>, b: set<nat>)
    requires a <= b
    ensures |a| <= |b|
  {
    assert a + (b - a) == b && a * (b - a) == {};
  }

  lemma StarvedIs(tab: seq<nat>, cs: seq<nat>, len: nat, cb: nat)
    requires (cs == [] || |cs| * cb < len) && forall c :: 2 <= c < |tab| ==> tab[c] != 0
    ensures Starved(tab, cs, len, cb)
  {
  }

  lemma HeldCount(g: Geo, area: seq<Sector>, cs: seq<nat>, data: seq<byte>, done: nat)
    requires InVolume(g, area, cs) && Held(g, area, cs, data, done)
    ensures |cs| > 1 ==> (|cs| - 1) * g.Cluster() < |data|
    ensures done == Min(|data|, |cs| * g.Cluster())
  {
  }

  lemma ReadWithin(g: Geo, want: nat, i: nat, s: nat)
    requires s < g.spc && i < CHAIN_MAX
    ensures Min(want, Offset(g, i, s)) <= ReadLen(want, i + 1, g.Cluster())
  {
    ReadStart(g, want, i);
    OffsetSteps(g, i, s);
    assert Offset(g, i + 1, 0) == Offset(g, i, 0) + g.Cluster();
  }

  lemma ReadMono(want: nat, i: nat, n: nat, cb: nat)
    requires i < n && i < CHAIN_MAX
    ensures ReadLen(want, i + 1, cb) <= ReadLen(want, n, cb)
  {
    MulMono(i + 1, Min(n, CHAIN_MAX), cb);
  }

  /** Freeing the old chain leaves the root's alone. */
  lemma ZeroedChain(g: Geo, tab: seq<nat>, was: seq<nat>, root: seq<nat>)
    requires IsChain(tab, root) && forall c :: c in root ==> c !in was
    ensures IsChain(Zeroed(tab, was), root)
  {
    forall i | 0 <= i < |root| ensures Zeroed(tab, was)[root[i]] == tab[root[i]] {
      assert root[i] in root;
      ZeroedAt(tab, was, root[i]);
    }
  }

  /** Neither does writing the new one, nor does it touch the root's sectors. */
  lemma AfterChain(g: Geo, tab: seq<nat>, was: seq<nat>, cs: seq<nat>, root: seq<nat>, dir: seq<nat>, a: seq<Sector>,
      b: seq<Sector>)
    requires InUse(tab, was) && Taken(g, Zeroed(tab, was), cs) && Sound(g)
    requires IsChain(tab, root) && (forall c :: c in root ==> c !in was) && InVolume(g, a, dir) && SameBut(g, a, b, cs)
    requires forall c :: c in dir ==> c in root
    ensures Replaced(tab, Linked(Zeroed(tab, was), cs), was, cs) && IsChain(Linked(Zeroed(tab, was), cs), root)
    ensures InVolume(g, b, dir) && Content(g, b, dir) == Content(g, a, dir) && SameBut(g, a, b, cs + dir)
    ensures forall c :: c in dir ==> c !in cs
  {
    hide Linked, Zeroed, IsChain, Content, SameBut, InVolume, Replaced, Taken, InUse;
    ReplacedBy(g, tab, was, cs);
    OthersSurvive(tab, Linked(Zeroed(tab, was), cs), was, cs, root);
    ContentKept(g, a, b, cs, dir);
    RoomOf(g, a, dir);
    SameButWide(g, a, b, cs, dir);
  }

  lemma RoomOf(g: Geo, a: seq<Sector>, cs: seq<nat>)
    requires InVolume(g, a, cs)
    ensures Room(g, a)
  {
  }

  /** Writing the directory leaves the new file's sectors alone. */
  lemma AfterEntry(g: Geo, a: seq<Sector>, b: seq<Sector>, c: seq<Sector>, cs: seq<nat>, root: seq<nat>,
      data: seq<byte>)
    requires Room(g, a) && SameBut(g, a, b, cs) && SameBut(g, b, c, root) && InVolume(g, b, cs)
             && forall d :: d in root ==> d !in cs
    ensures SameBut(g, a, c, cs + root) && InVolume(g, c, cs) && Content(g, c, cs) == Content(g, b, cs)
  {
    hide Sectors;
    ContentKept(g, b, c, root, cs);
    assert forall d: nat :: d !in cs + root ==> d !in cs && d !in root;
  }

  lemma SameButSelf(g: Geo, a: seq<Sector>, cs: seq<nat>)
    requires Room(g, a)
    ensures SameBut(g, a, a, cs)
  {
  }

  lemma SameButWide(g: Geo, a: seq<Sector>, b: seq<Sector>, cs: seq<nat>, ds: seq<nat>)
    requires Room(g, a) && SameBut(g, a, b, cs)
    ensures SameBut(g, a, b, cs + ds)
  {
    hide Sectors;
    assert forall d: nat :: d !in cs + ds ==> d !in cs;
  }


  /** Two searches find the same slot. */
  lemma FirstUnique(d: seq<byte>, w: Want, p: int, q: int)
    requires FirstAt(d, w, p) && FirstAt(d, w, q)
    ensures p == q
  {
    hide Wanted;
    assert d[p..p + 32] == d[p..p + 32] && d[q..q + 32] == d[q..q + 32];
  }

  lemma WasChain(tab: seq<nat>, d: seq<byte>, raw: seq<byte>, was: seq<nat>)
    requires Overwrites(tab, d, raw, was)
    ensures was != [] ==> IsChain(tab, was)
  {
  }

  lemma FoundFirst(tab: seq<nat>, d: seq<byte>, raw: seq<byte>, was: seq<nat>, p: int)
    requires FirstAt(d, Called(raw), p) && Overwrites(tab, d, raw, was)
    ensures 0 <= p && p + 32 <= |d|
    ensures if First(d[p..p + 32]) >= 2 then IsChain(tab, was) && |was| > 0
            && First(d[p..p + 32]) == was[0] else was == []
  {
    hide First, IsChain;
    if q :| FirstAt(d, Called(raw), q) && First(d[q..q + 32]) >= 2 {
      FirstUnique(d, Called(raw), p, q);
      ChainFacts(tab, was);
      var r :| FirstAt(d, Called(raw), r) && First(d[r..r + 32]) == was[0];
      FirstUnique(d, Called(raw), p, r);
    }
  }

  lemma NoFirst(d: seq<byte>, w: Want)
    requires NoneBefore(d, w, |d|)
    ensures forall p :: !FirstAt(d, w, p)
  {
    hide Wanted;
  }

  lemma FoundNone(tab: seq<nat>, d: seq<byte>, raw: seq<byte>, was: seq<nat>)
    requires NoneBefore(d, Called(raw), |d|) && Overwrites(tab, d, raw, was)
    ensures was == []
  {
    hide Wanted;
    NoFirst(d, Called(raw));
  }

  lemma SlotBytes(d: seq<byte>, o: nat, x: seq<byte>, off: nat)
    requires o + 512 <= |d| && |x| == 512 && d[o..o + 512] == x && off + 32 <= 512
    ensures x[off..off + 32] == d[o + off..o + off + 32]
  {
    SliceOf(d, o, off);
  }

  lemma NothingTaken(g: Geo, tab: seq<nat>)
    ensures |tab| == g.Total() ==> Taken(g, tab, [])
    ensures Linked(tab, []) == tab && Zeroed(tab, []) == tab
  {
  }

  lemma ReplacedBy(g: Geo, tab: seq<nat>, was: seq<nat>, cs: seq<nat>)
    requires InUse(tab, was) && Taken(g, Zeroed(tab, was), cs) && g.Total() <= EOC
    ensures Replaced(tab, Linked(Zeroed(tab, was), cs), was, cs)
  {
    hide Linked, Zeroed, IsChain;
  }

  /** What a walk of at most 2^20 clusters can deliver. */
  function ReadLen(want: int, n: nat, cb: nat): int { Min(want, Min(n, CHAIN_MAX) * cb) }

  /** was is the chain the directory's entry for the name leads to, empty when there is no
      entry or it names no cluster. */
  ghost predicate Overwrites(tab: seq<nat>, d: seq<byte>, raw: seq<byte>, was: seq<nat>) {
    if exists p :: FirstAt(d, Called(raw), p) && First(d[p..p + 32]) >= 2 then
      && IsChain(tab, was)
      && exists p :: FirstAt(d, Called(raw), p) && First(d[p..p + 32]) == was[0]
    else was == []
  }

  /** Every cluster is in use and the data did not fit those taken. */
  ghost predicate Starved(tab: seq<nat>, cs: seq<nat>, len: nat, cb: nat) {
    (cs == [] || |cs| * cb < len) && forall c :: 2 <= c < |tab| ==> tab[c] != 0
  }

  // ---------------------------------------------------------------- directories, byte by byte

  /** A slot of the directory bytes begins at q. */
  predicate IsSlot(d: seq<byte>, q: int) { 0 <= q && q % 32 == 0 && q + 32 <= |d| }

  /** The slot at q has this name, and is not a part of a long one. */
  predicate Names(d: seq<byte>, raw: seq<byte>, q: int) {
    IsSlot(d, q) && d[q + 11] != 0x0F && d[q..q + 11] == raw
  }

  /** The slot at q was never used, or was deleted. */
  predicate Unused(d: seq<byte>, q: int) { IsSlot(d, q) && (d[q] == 0 || d[q] == 0xE5) }

  /** The name is new and no slot is unused. */
  ghost predicate Crowded(d: seq<byte>, raw: seq<byte>) {
    forall q :: IsSlot(d, q) ==> !Names(d, raw, q) && !Unused(d, q)
  }

  function Word32(d: seq<byte>, a: int, b: int, c: int, e: int): int
    requires 0 <= a < |d| && 0 <= b < |d| && 0 <= c < |d| && 0 <= e < |d|
  {
    d[a] as int + 0x100 * d[b] as int + 0x1_0000 * d[c] as int + 0x100_0000 * d[e] as int
  }

  /** The file is entered at p: in the first slot with its name or else the first unused one,
      whose cluster and size fields now describe it.  A slot that had the name keeps its other
      bytes, a new one has the archive attribute and zeros.  No other byte has changed, and p
      is where the name is found. */
  ghost predicate Entered(d: seq<byte>, d': seq<byte>, raw: seq<byte>, first: nat, len: nat, isNew: bool, p: nat)
    requires |raw| == 11
  {
    && |d'| == |d| && IsSlot(d, p) && (forall q :: 0 <= q < |d| && !(p <= q < p + 32) ==> d'[q] == d[q])
    && (isNew <==> forall q :: IsSlot(d, q) ==> !Names(d, raw, q))
    && (if isNew then Unused(d, p) && forall q :: 0 <= q < p && IsSlot(d, q) ==> !Unused(d, q)
        else Names(d, raw, p) && forall q :: 0 <= q < p && IsSlot(d, q) ==> !Names(d, raw, q))
    && Names(d', raw, p) && (forall q :: 0 <= q < p && IsSlot(d', q) ==> !Names(d', raw, q))
    && Word32(d', p + 26, p + 27, p + 20, p + 21) == first && Word32(d', p + 28, p + 29, p + 30, p + 31) == len
    && (forall q :: p + 11 <= q < p + 20 || p + 22 <= q < p + 26 ==>
          d'[q] == if !isNew then d[q] else if q == p + 11 then 0x20 else 0)
  }

  /** A lookup of the name finds the same slot, with the same bytes, or again none. */
  ghost predicate KeepsName(d: seq<byte>, d': seq<byte>, raw: seq<byte>) {
    |d'| == |d| && forall q :: IsSlot(d, q) ==> (Names(d', raw, q) <==> Names(d, raw, q))
                                                && (Names(d, raw, q) ==> d'[q..q + 32] == d[q..q + 32])
  }

  /** A name an unused slot cannot have. */
  predicate Real(raw: seq<byte>) { |raw| == 11 && raw[0] != 0 && raw[0] != 0xE5 }

  ghost predicate OthersKept(d: seq<byte>, d': seq<byte>, raw: seq<byte>) {
    forall name :: Real(name) && name != raw ==> KeepsName(d, d', name)
  }

  lemma WantedIs(d: seq<byte>, raw: seq<byte>, q: int)
    requires IsSlot(d, q)
    ensures Wanted(d[q..q + 32], Called(raw)) <==> Names(d, raw, q)
    ensures Wanted(d[q..q + 32], Gap) <==> Unused(d, q)
  {
    var e := d[q..q + 32];
    assert e[..11] == d[q..q + 11] && e[11] == d[q + 11] && e[0] == d[q];
  }

  lemma NoneIs(d: seq<byte>, raw: seq<byte>, p: int)
    ensures NoneBefore(d, Called(raw), p) <==> forall q :: 0 <= q < p && IsSlot(d, q) ==> !Names(d, raw, q)
    ensures NoneBefore(d, Gap, p) <==> forall q :: 0 <= q < p && IsSlot(d, q) ==> !Unused(d, q)
  {
    hide Wanted, Names, Unused, IsSlot, NoneBefore;
    SlotsIs(d, raw);
    NoneMeans(d, Called(raw), p);
    NoneMeans(d, Gap, p);
  }

  lemma SlotsIs(d: seq<byte>, raw: seq<byte>)
    ensures forall q :: IsSlot(d, q) ==>
            (WantedAt(d, Called(raw), q) <==> Names(d, raw, q)) && (WantedAt(d, Gap, q) <==> Unused(d, q))
  {
    hide Wanted, Names, Unused, IsSlot;
    forall q | IsSlot(d, q)
      ensures (WantedAt(d, Called(raw), q) <==> Names(d, raw, q)) && (WantedAt(d, Gap, q) <==> Unused(d, q))
    {
      WantedIs(d, raw, q);
    }
  }

  predicate WantedAt(d: seq<byte>, w: Want, q: int) { IsSlot(d, q) && Wanted(d[q..q + 32], w) }

  lemma NoneMeans(d: seq<byte>, w: Want, p: int)
    ensures NoneBefore(d, w, p) <==> forall q :: 0 <= q < p && IsSlot(d, q) ==> !WantedAt(d, w, q)
  {
    hide Wanted;
    if forall q :: 0 <= q < p && IsSlot(d, q) ==> !WantedAt(d, w, q) {
      forall q | 0 <= q < p && q % 32 == 0 && q + 32 <= |d| ensures !Wanted(d[q..q + 32], w) {
        assert IsSlot(d, q) && !WantedAt(d, w, q);
      }
    }
  }

  lemma CrowdedIs(d: seq<byte>, raw: seq<byte>)
    ensures Crowded(d, raw) <==> NoneBefore(d, Called(raw), |d|) && NoneBefore(d, Gap, |d|)
  {
    hide Names, Unused, NoneBefore;
    NoneIs(d, raw, |d|);
  }

  lemma FilledBytes(e: seq<byte>, raw: seq<byte>, first: nat, len: nat, isNew: bool)
    requires |e| == 32 && |raw| == 11 && first < M32 && len < M32
    ensures var r := Filled(e, raw, first, len, isNew);
            && Word32(r, 26, 27, 20, 21) == first && Word32(r, 28, 29, 30, 31) == len
            && (forall k :: 11 <= k < 20 || 22 <= k < 26 ==>
               r[k] == if !isNew then e[k] else if k == 11 then 0x20 else 0)
            && r[..11] == if isNew then raw else e[..11]
  {
    hide Digit;
    Digits32(first);
    Digits32(len);
  }

  lemma IsEntered(d: seq<byte>, d': seq<byte>, raw: seq<byte>, first: nat, len: nat, isNew: bool, p: nat)
    requires |raw| == 11 && first < M32 && len < M32 && Updated(d, d', raw, first, len, isNew, p)
    ensures Entered(d, d', raw, first, len, isNew, p)
  {
    hide Wanted, Filled, NoneBefore, Names, Unused;
    NoneIs(d, raw, p);
    NoneIs(d, raw, |d|);
    WantedIs(d, raw, p);
    EnteredBytes(d, d', raw, first, len, isNew, p);
    if !isNew { assert Names(d, raw, p); }
    forall q | 0 <= q < p && IsSlot(d', q) ensures !Names(d', raw, q) { SameName(d, d', raw, q); }
  }

  lemma SameName(d: seq<byte>, d': seq<byte>, raw: seq<byte>, q: int)
    requires IsSlot(d, q) && |d'| == |d| && forall k :: q <= k < q + 32 ==> d'[k] == d[k]
    ensures Names(d', raw, q) <==> Names(d, raw, q)
  {
    assert d'[q..q + 11] == d[q..q + 11];
  }

  lemma EnteredBytes(d: seq<byte>, d': seq<byte>, raw: seq<byte>, first: nat, len: nat, isNew: bool, p: nat)
    requires |raw| == 11 && first < M32 && len < M32 && IsSlot(d, p) && (!isNew ==> Names(d, raw, p))
    requires d' == d[..p] + Filled(d[p..p + 32], raw, first, len, isNew) + d[p + 32..]
    ensures |d'| == |d| && (forall q :: 0 <= q < |d| && !(p <= q < p + 32) ==> d'[q] == d[q]) && Names(d', raw, p)
    ensures Word32(d', p + 26, p + 27, p + 20, p + 21) == first && Word32(d', p + 28, p + 29, p + 30, p + 31) == len
    ensures forall q :: p + 11 <= q < p + 20 || p + 22 <= q < p + 26 ==>
              d'[q] == if !isNew then d[q] else if q == p + 11 then 0x20 else 0
  {
    hide Filled;
    var e := d[p..p + 32];
    var r := Filled(e, raw, first, len, isNew);
    FilledBytes(e, raw, first, len, isNew);
    assert forall q :: p <= q < p + 32 ==> d'[q] == r[q - p] && d[q] == e[q - p];
    assert d'[p..p + 11] == r[..11] && d[p..p + 11] == e[..11];
  }

  /** Every other file is still found by its name, where it was and as it was. */
  lemma OthersStay(d: seq<byte>, d': seq<byte>, raw: seq<byte>, first: nat, len: nat, isNew: bool, p: nat)
    requires |raw| == 11 && Entered(d, d', raw, first, len, isNew, p)
    ensures OthersKept(d, d', raw)
  {
    hide Names, Entered;
    EnteredAt(d, d', raw, first, len, isNew, p);
    forall name, q | Real(name) && name != raw && IsSlot(d, q)
      ensures (Names(d', name, q) <==> Names(d, name, q)) && (Names(d, name, q) ==> d'[q..q + 32] == d[q..q + 32])
    {
      OtherStays(d, d', raw, first, len, isNew, p, name, q);
    }
  }

  lemma EnteredAt(d: seq<byte>, d': seq<byte>, raw: seq<byte>, first: nat, len: nat, isNew: bool, p: nat)
    requires |raw| == 11 && Entered(d, d', raw, first, len, isNew, p)
    ensures |d'| == |d| && IsSlot(d, p) && Names(d', raw, p) && (Unused(d, p) || Names(d, raw, p))
    ensures forall q :: 0 <= q < |d| && !(p <= q < p + 32) ==> d'[q] == d[q]
  {
  }

  lemma OtherStays(d: seq<byte>, d': seq<byte>, raw: seq<byte>, first: nat, len: nat, isNew: bool, p: nat,
      name: seq<byte>, q: int)
    requires |raw| == 11 && Entered(d, d', raw, first, len, isNew, p) && Real(name) && name != raw && IsSlot(d, q)
    ensures (Names(d', name, q) <==> Names(d, name, q)) && (Names(d, name, q) ==> d'[q..q + 32] == d[q..q + 32])
  {
    hide Entered;
    EnteredAt(d, d', raw, first, len, isNew, p);
    if q == p {
      assert d[p..p + 11][0] == d[p];
    } else {
      SameName(d, d', name, q);
      assert d'[q..q + 32] == d[q..q + 32];
    }
  }

  lemma FirstSmall(g: Geo, tab: seq<nat>, cs: seq<nat>)
    requires Sound(g) && Taken(g, tab, cs) && cs != []
    ensures cs[0] < M32
  {
  }

  lemma EnteredKept(d: seq<byte>, d': seq<byte>, raw: seq<byte>, first: nat, len: nat, isNew: bool, p: nat)
    requires |raw| == 11 && first < M32 && len < M32 && Updated(d, d', raw, first, len, isNew, p)
    ensures Entered(d, d', raw, first, len, isNew, p) && OthersKept(d, d', raw)
  {
    hide Updated, Entered, OthersKept;
    IsEntered(d, d', raw, first, len, isNew, p);
    OthersStay(d, d', raw, first, len, isNew, p);
  }

  lemma SameKept(d: seq<byte>, raw: seq<byte>)
    ensures OthersKept(d, d, raw)
  {
  }


  /** Distinct clusters that were free. */
  ghost predicate Taken(g: Geo, tab: seq<nat>, cs: seq<nat>) {
    Distinct(cs) && forall i :: 0 <= i < |cs| ==> 2 <= cs[i] < |tab| == g.Total() && tab[cs[i]] == 0
  }

  /** Every cluster below the cursor is in use, those of cs included. */
  ghost predicate Used(tab: seq<nat>, cs: seq<nat>, cursor: nat) {
    && (forall i :: 0 <= i < |cs| ==> cs[i] < cursor)
    && forall c :: 2 <= c < cursor && c < |tab| ==> tab[c] != 0
  }

  lemma UsedMeans(tab: seq<nat>, cs: seq<nat>, cursor: nat)
    requires Used(tab, cs, cursor)
    ensures forall c :: 2 <= c < cursor && c < |tab| ==> tab[c] != 0
  {
  }

  /** The chain holds the first `done` bytes, as many as fit. */
  ghost predicate Held(g: Geo, area: seq<Sector>, cs: seq<nat>, data: seq<byte>, done: nat)
    requires InVolume(g, area, cs)
  {
    && done == Min(|data|, |cs| * g.Cluster()) && done <= |Content(g, area, cs)|
       && Content(g, area, cs)[..done] == data[..done]
    && (|cs| > 1 ==> (|cs| - 1) * g.Cluster() < |data|)
  }

  lemma Nothing(g: Geo, tab: seq<nat>, area: seq<Sector>, data: seq<byte>)
    requires Room(g, area) && |tab| == g.Total()
    ensures Linked(tab, []) == tab && Taken(g, tab, []) && SameBut(g, area, area, []) && InVolume(g, area, [])
    ensures Held(g, area, [], data, 0) && Used(tab, [], 2) && 2 <= g.Total()
  {
  }

  lemma HeldShort(g: Geo, area: seq<Sector>, cs: seq<nat>, data: seq<byte>, done: nat)
    requires InVolume(g, area, cs) && Held(g, area, cs, data, done) && (cs == [] || done < |data|)
    ensures cs == [] || |cs| * g.Cluster() < |data|
  {
  }

  lemma HeldBound(g: Geo, area: seq<Sector>, cs: seq<nat>, data: seq<byte>, done: nat)
    requires InVolume(g, area, cs) && Held(g, area, cs, data, done)
    ensures done <= |data|
  {
  }

  lemma HeldAll(g: Geo, area: seq<Sector>, cs: seq<nat>, data: seq<byte>, done: nat)
    requires InVolume(g, area, cs) && Held(g, area, cs, data, done) && cs != [] && done >= |data|
    ensures Sized(|cs|, |data|, g.Cluster()) && |data| <= |Content(g, area, cs)|
            && Content(g, area, cs)[..|data|] == data
  {
  }

  /** The cluster found was free before anything was taken. */
  lemma TakenMore(g: Geo, tab: seq<nat>, cs: seq<nat>, cursor: nat, c: nat)
    requires Taken(g, tab, cs) && |tab| == g.Total() && Used(Linked(tab, cs), cs, cursor)
             && 2 <= cursor <= c < g.Total() && Linked(tab, cs)[c] == 0
    requires forall d :: 2 <= d && cursor <= d < c ==> Linked(tab, cs)[d] != 0
    ensures Taken(g, tab, cs + [c]) && Named(g, c) && c !in cs && Used(Linked(tab, cs + [c]), cs + [c], c + 1)
    ensures forall i :: 0 <= i < |cs| ==> 2 <= cs[i] < |tab|
  {
    hide Linked, Used;
    var cs' := cs + [c];
    NotUsedYet(Linked(tab, cs), cs, cursor, c);
    LinkedOff(tab, cs, c);
    assert cs'[..|cs|] == cs;
    LinkedSnoc(tab, cs');
    UsedMore(Linked(tab, cs), Linked(tab, cs'), cs, cursor, c);
  }

  lemma NotUsedYet(r: seq<nat>, cs: seq<nat>, cursor: nat, c: nat)
    requires Used(r, cs, cursor) && cursor <= c
    ensures c !in cs
  {
  }

  lemma UsedMore(r: seq<nat>, t: seq<nat>, cs: seq<nat>, cursor: nat, c: nat)
    requires Used(r, cs, cursor) && 2 <= cursor <= c < |r| && forall i :: 0 <= i < |cs| ==> cs[i] < |r|
    requires forall d :: 2 <= d && cursor <= d < c ==> r[d] != 0
    requires t == if cs == [] then r[c := LAST] else r[c := LAST][cs[|cs| - 1] := c]
    ensures Used(t, cs + [c], c + 1)
  {
    forall d | 2 <= d < c + 1 && d < |t| ensures t[d] != 0 { assert d < cursor || d == c || r[d] != 0; }
  }

  lemma SameButMore(g: Geo, a0: seq<Sector>, a: seq<Sector>, b: seq<Sector>, cs: seq<nat>, c: nat)
    requires Room(g, a0) && SameBut(g, a0, a, cs) && SameBut(g, a, b, [c])
    ensures SameBut(g, a0, b, cs + [c])
  {
    hide Sectors;
    forall d: nat | Named(g, d) && d !in cs + [c] ensures Sectors(g, b, d) == Sectors(g, a0, d) {
      assert d !in cs && d != c && d !in [c];
    }
  }

  /** One more cluster of data. */
  lemma HeldMore(g: Geo, a: seq<Sector>, b: seq<Sector>, cs: seq<nat>, c: nat, data: seq<byte>, was: nat, done: nat)
    requires InVolume(g, a, cs) && Held(g, a, cs, data, was) && Named(g, c) && c !in cs && SameBut(g, a, b, [c])
    requires (cs == [] || was < |data|) && done == Min(|data|, was + g.Cluster())
    requires done - was <= |Flat(Sectors(g, b, c))| && Flat(Sectors(g, b, c))[..done - was] == data[was..done]
    ensures InVolume(g, b, cs + [c]) && Held(g, b, cs + [c], data, done)
  {
    hide Content, Flat, Sectors, Named, InVolume;
    RoomOf(g, a, cs);
    ContentSize(g, a, cs);
    ContentKept(g, a, b, [c], cs);
    ContentSnoc(g, b, cs, c);
    ClusterSum(|cs|, g.Cluster());
    ContentSize(g, b, cs);
    JoinBytes(Content(g, b, cs), Flat(Sectors(g, b, c)), data, was, done);
  }

  lemma ClusterSum(n: nat, cb: nat)
    ensures (n + 1) * cb == n * cb + cb && (n == 0 ==> n * cb == 0)
  {
  }

  lemma ContentSnoc(g: Geo, b: seq<Sector>, cs: seq<nat>, c: nat)
    requires InVolume(g, b, cs) && Named(g, c)
    ensures InVolume(g, b, cs + [c]) && Content(g, b, cs + [c]) == Content(g, b, cs) + Flat(Sectors(g, b, c))
  {
    hide Flat, Sectors, Room;
    var cs' := cs + [c];
    assert forall i :: 0 <= i < |cs'| ==> cs'[i] == if i < |cs| then cs[i] else c;
    assert cs'[..|cs|] == cs;
  }

  lemma JoinBytes(x: seq<byte>, y: seq<byte>, data: seq<byte>, was: nat, done: nat)
    requires was == |x| <= done <= |data| && done - was <= |y| && x[..was] == data[..was]
             && y[..done - was] == data[was..done]
    ensures (x + y)[..done] == data[..done]
  {
    assert data[..done] == data[..was] + data[was..done];
  }

  /** One slot of a sector of the directory is replaced. */
  lemma SlotPut(d: seq<byte>, o: nat, x: seq<byte>, off: nat, e: seq<byte>)
    requires o + 512 <= |d| && |x| == 512 && d[o..o + 512] == x && off + 32 <= 512 && |e| == 32
    ensures d[..o] + (x[..off] + e + x[off + 32..]) + d[o + 512..] == d[..o + off] + e + d[o + off + 32..]
    ensures x[off..off + 32] == d[o + off..o + off + 32]
  {
    SliceOf(d, o, off);
    assert d[..o] + x[..off] == d[..o + off];
    assert x[off + 32..] + d[o + 512..] == d[o + off + 32..];
  }

  lemma NoneYet(d: seq<byte>, w: Want)
    ensures NoneBefore(d, w, 0)
  {
  }

  lemma OffsetSteps(g: Geo, i: nat, n: nat)
    ensures Offset(g, i, n + 1) == Offset(g, i, n) + 512 && Offset(g, i, n) % 512 == 0
    ensures Offset(g, i, g.spc) == Offset(g, i + 1, 0)
  {
    assert Offset(g, i, n) == 512 * (i * g.spc + n) by { Scaled(i, g.spc); }
    Scaled(i, g.spc);
    Scaled(i + 1, g.spc);
  }

  lemma OffsetNext(g: Geo, i: nat, n: nat)
    ensures Offset(g, i, n + 1) == Offset(g, i, n) + 512
  {
  }

  lemma Scaled(i: nat, n: nat)
    ensures i * (n * 512) == 512 * (i * n)
  {
  }

  lemma OffsetEnd(g: Geo, n: nat)
    ensures Offset(g, n, 0) == n * g.Cluster() && (n == 0 ==> Offset(g, n, 0) == 0)
  {
  }

  lemma SliceOf(d: seq<byte>, o: nat, k: nat)
    requires o + 512 <= |d| && k + 32 <= 512
    ensures d[o..o + 512][k..k + 32] == d[o + k..o + k + 32]
  {
    var a, b := d[o..o + 512][k..k + 32], d[o + k..o + k + 32];
    assert forall i :: 0 <= i < 32 ==> a[i] == d[o..o + 512][k + i] == d[o + (k + i)] && b[i] == d[(o + k) + i];
  }

  /** Searching one more sector of the directory. */
  lemma SearchJoin(d: seq<byte>, x: seq<byte>, w: Want, o: nat, off: nat)
    requires o % 512 == 0 && o + 512 <= |d| && |x| == 512 && d[o..o + 512] == x && NoneBefore(d, w, o)
    requires off <= 512 && off % 32 == 0 && NoneBefore(x, w, off)
    ensures NoneBefore(d, w, o + off)
    ensures off < 512 && FirstAt(x, w, off) ==> FirstAt(d, w, o + off)
  {
    hide Wanted;
    SlotAligned(o, off);
    forall q | 0 <= q < o + off && q % 32 == 0 && q + 32 <= |d| ensures !Wanted(d[q..q + 32], w) {
      if q >= o {
        SlotAligned(o, q - o);
        SliceOf(d, o, q - o);
      }
    }
    if off < 512 { SliceOf(d, o, off); }
  }

  lemma Lba(g: Geo, c: nat, s: nat)
    ensures g.DataLba() + (c - 2) * g.spc + s == g.DataLba() + (At(g, c) + s)
  {
  }

  lemma SameButTrans(g: Geo, a: seq<Sector>, b: seq<Sector>, c: seq<Sector>, cs: seq<nat>)
    requires Room(g, a) && SameBut(g, a, b, cs) && SameBut(g, b, c, cs)
    ensures SameBut(g, a, c, cs)
  {
  }

  lemma FlatGrows(ss: seq<Sector>, s: nat, x: Sector, data: seq<byte>, from: nat, was: nat, done: nat)
    requires s < |ss| && was == from + 512 * s <= |data| && Flat(ss)[..was - from] == data[from..was]
    requires done == Min(|data|, was + 512) && x[..done - was] == data[was..done]
    ensures Flat(ss[s := x])[..done - from] == data[from..done]
  {
    hide Flat;
    FlatPut(ss, s, x);
    assert Flat(ss[s := x])[..done - from] == Flat(ss)[..512 * s] + x[..done - was];
    assert data[from..done] == data[from..was] + data[was..done];
  }

  function Min(a: int, b: int): int { if a < b then a else b }

  lemma NibblesSelf(g: Geo, d: seq<Sector>)
    requires Fits(g, d)
    ensures SameNibbles(g, d, d)
  {
  }

  lemma NibblesTrans(g: Geo, d: seq<Sector>, e: seq<Sector>, f: seq<Sector>)
    requires Fits(g, d) && Fits(g, e) && Fits(g, f) && SameNibbles(g, d, e) && SameNibbles(g, e, f)
    ensures SameNibbles(g, d, f)
  {
  }

  lemma SpcPositive(g: Geo, d: seq<Sector>)
    requires Fits(g, d)
    ensures g.spc > 0
  {
  }

  lemma ChainFacts(fat: seq<nat>, cs: seq<nat>)
    requires IsChain(fat, cs)
    ensures |cs| > 0
  {
  }

  lemma ZeroedNone(fat: seq<nat>, cs: seq<nat>)
    ensures Zeroed(fat, cs[..0]) == fat
  {
  }

  lemma ZeroedSnoc(fat: seq<nat>, cs: seq<nat>, i: nat)
    requires i < |cs| && cs[i] < |fat|
    ensures Zeroed(fat, cs[..i + 1]) == Zeroed(fat, cs[..i])[cs[i] := 0]
  {
    assert cs[..i + 1][..i] == cs[..i];
  }

  /** The entry of the i-th cluster is untouched until it is freed. */
  lemma ZeroedNext(fat: seq<nat>, cs: seq<nat>, i: nat)
    requires IsChain(fat, cs) && i < |cs|
    ensures cs[i] < |fat| && Zeroed(fat, cs[..i])[cs[i]] == fat[cs[i]]
    ensures Zeroed(fat, cs[..i + 1]) == Zeroed(fat, cs[..i])[cs[i] := 0]
  {
    hide Zeroed;
    ZeroedAt(fat, cs[..i], cs[i]);
    ZeroedSnoc(fat, cs, i);
  }

  lemma FirstCopy(g: Geo, c: nat)
    ensures Where(g, 0, c) == g.fatLba + c / 128
  {
  }

  lemma ByteOffset(c: nat)
    ensures c * 4 / 512 == c / 128 && c * 4 % 512 == c % 128 * 4 && c % 128 * 4 + 4 <= 512
  {
  }

  // ---------------------------------------------------------------- what a write promises

  /** Looking the name up again finds the slot written, with the new first cluster and size. */
  lemma Relookup(d: seq<byte>, d': seq<byte>, raw: seq<byte>, first: nat, len: nat, isNew: bool, p: nat)
    requires |raw| == 11 && first < M32 && len < M32 && Updated(d, d', raw, first, len, isNew, p)
    ensures FirstAt(d', Called(raw), p) && First(d'[p..p + 32]) == first && SizeOf(d'[p..p + 32]) == len
  {
    hide Wanted, First, SizeOf, Filled;
    var e := d[p..p + 32];
    FilledReads(e, raw, first, len, isNew);
    assert d'[p..p + 32] == Filled(e, raw, first, len, isNew);
    forall q | 0 <= q < p && q % 32 == 0 && q + 32 <= |d'| ensures !Wanted(d'[q..q + 32], Called(raw)) {
      assert d'[q..q + 32] == d[q..q + 32];
    }
  }

  /** What a read delivers of the first bytes of a chain is all of them if and only if the
      file needs no more clusters than a read visits. */
  lemma ReadBack(content: seq<byte>, data: seq<byte>, n: nat, cb: nat)
    requires cb > 0 && Sized(n, |data|, cb) && |content| == n * cb && content[..|data|] == data
    ensures ReadLen(|data|, n, cb) <= |content|
    ensures content[..ReadLen(|data|, n, cb)] == data <==> |data| <= CHAIN_MAX * cb
  {
    MulMono(Min(n, CHAIN_MAX), n, cb);
    if n > CHAIN_MAX { MulMono(CHAIN_MAX, n - 1, cb); } else { MulMono(n, CHAIN_MAX, cb); }
    assert content[..ReadLen(|data|, n, cb)] == data ==> |content[..ReadLen(|data|, n, cb)]| == |data|;
  }

  /** What a read promises of its result. */
  ghost predicate Reads(g: Geo, size: nat, cs: seq<nat>, want: int, d: seq<byte>, o: seq<byte>) {
    && |o| <= |d| && o == d[..|o|] && |o| <= ReadLen(want, |cs|, g.Cluster()) && Uncut(g, size, cs, |o|)
    && (|o| < ReadLen(want, |cs|, g.Cluster()) ==> Cut(g, size, cs, |o|))
  }

  /** It determines the result. */
  lemma SameRead(g: Geo, size: nat, cs: seq<nat>, want: int, d: seq<byte>, x: seq<byte>, y: seq<byte>)
    requires Reads(g, size, cs, want, d, x) && Reads(g, size, cs, want, d, y)
    ensures x == y
  {
    hide Cut, ReadLen;
    assert |x| == |y|;
  }

  /** Write a file, look it up and read it through its entry; read another file before and
      after.  A successful write reads back exactly as written if and only if the file needs
      at most 2^20 clusters, and the other file reads the same whatever happened. */
  method WriteThenRead(v: Volume, raw: seq<byte>, data: seq<byte>, otherFirst: nat, otherLen: nat, max: nat,
                       ghost root: seq<nat>, ghost was: seq<nat>, ghost other: seq<nat>)
    returns (ok: bool, out: seq<byte>, before: seq<byte>, after: seq<byte>)
    requires v.Ok() && |raw| == 11 && |data| < M32 && v.DirOk(root)
    requires Overwrites(v.Tab(), Content(v.g, v.Data(), Seen(root)), raw, was) && forall c :: c in root ==> c !in was
    requires IsChain(v.Tab(), other) && other[0] == otherFirst && forall c :: c in other ==> c !in was && c !in root
    modifies v`disk, v.scratch
    ensures v.Ok() && v.DirOk(root)
    ensures before == after
    ensures OthersKept(old(Content(v.g, v.Data(), Seen(root))), Content(v.g, v.Data(), Seen(root)), raw)
    ensures ok ==> (out == data <==> |data| <= CHAIN_MAX * v.g.Cluster())
  {
    hide Fat, Agree, Area, Fits, Room, Sectors, Content, Linked, Zeroed, SameBut, Taken, Overwrites, Located,
      NoneBefore, FirstAt, Updated, Sized, First, SizeOf, Backed, Beyond, Lowest, Starved, Crowded, There, Cut,
      Uncut, Offset, IsChain, InVolume, Seen, Head, InUse, Entered, OthersKept;
    ghost var g, tab, a := v.g, v.Tab(), v.Data();
    ghost var dir := Seen(root);
    ChainVolume(g, tab, a, other);
    before := v.ReadFile(otherFirst, otherLen, max, other);
    var isNew; ghost var cs, p;
    ghost var d := Content(g, a, dir);
    WasChain(tab, d, raw, was);
    HeadIn(tab, was, root);
    SeenIn(tab, root);
    ok, isNew, cs, p := v.WriteFile(raw, data, root, was);
    SoundOf(g, v.disk);
    OtherFiles(g, tab, v.Tab(), a, v.Data(), Head(was), cs, dir, other);
    after := v.ReadFile(otherFirst, otherLen, max, other);
    SameRead(g, v.size, other, Min(otherLen, max), Content(g, a, other), before, after);
    out := [];
    if !ok { return; }
    NewChain(g, tab, Head(was), cs);
    ghost var d' := Content(g, v.Data(), dir);
    Relookup(d, d', raw, cs[0], |data|, isNew, p);
    var found, sec, off; ghost var j, s;
    found, sec, off, j, s := v.Search(Called(raw), root);
    if !found { NoFirst(d', Called(raw)); }
    var first := v.ReadFirst(sec, off, raw, dir, j, s);
    FirstUnique(d', Called(raw), p, Offset(g, j, s) + off);
    var length := SizeOf(v.scratch[off..off + 32]);
    out := v.ReadFile(first, length, |data|, cs);
    ContentSize(g, v.Data(), cs);
    ReadBack(Content(g, v.Data(), cs), data, |cs|, g.Cluster());
    ReadLenMost(|data|, |cs|, g.Cluster());
    if |out| < |data| { BackedReads(g, v.size, cs, |data|, |out|); }
  }

  lemma ReadLenMost(want: nat, n: nat, cb: nat)
    ensures ReadLen(want, n, cb) <= want
  {
  }

  lemma SoundOf(g: Geo, d: seq<Sector>)
    requires Fits(g, d)
    ensures Sound(g) && g.Total() <= EOC && g.Cluster() > 0
  {
  }

  /** A chain's clusters are in the volume. */
  lemma ChainVolume(g: Geo, tab: seq<nat>, a: seq<Sector>, cs: seq<nat>)
    requires IsChain(tab, cs) && |tab| == g.Total() && Room(g, a)
    ensures InVolume(g, a, cs) && cs[0] >= 2
  {
    hide Room;
  }

  lemma NewChain(g: Geo, tab: seq<nat>, was: seq<nat>, cs: seq<nat>)
    requires cs != [] && Taken(g, Zeroed(tab, was), cs) && g.Total() <= EOC
    ensures IsChain(Linked(Zeroed(tab, was), cs), cs) && 2 <= cs[0] < M32
  {
    hide Linked, Zeroed;
    LinkedChain(Zeroed(tab, was), cs);
  }

  lemma MulMono(a: nat, b: nat, n: nat)
    requires a <= b
    ensures 0 <= a * n <= b * n
  {
  }

  /** Every other file, any chain sharing no cluster with the overwritten file or the root
      directory, keeps its chain and its bytes, also when the old clusters are reused. */
  lemma OtherFiles(g: Geo, tab: seq<nat>, tab': seq<nat>, a: seq<Sector>, a': seq<Sector>, was: seq<nat>,
      cs: seq<nat>, root: seq<nat>, ds: seq<nat>)
    requires Sound(g) && Taken(g, Zeroed(tab, was), cs) && InUse(tab, was) && tab' == Linked(Zeroed(tab, was), cs)
    requires Room(g, a) && SameBut(g, a, a', cs + root) && IsChain(tab, ds) && InVolume(g, a, ds)
    requires forall c :: c in ds ==> c !in was && c !in root
    ensures IsChain(tab', ds) && InVolume(g, a', ds) && Content(g, a', ds) == Content(g, a, ds)
  {
    hide Linked, Zeroed, Content, SameBut, IsChain, Taken, Replaced;
    ReplacedBy(g, tab, was, cs);
    OthersSurvive(tab, tab', was, cs, ds);
    assert forall c :: c in ds ==> c !in cs + root;
    ContentKept(g, a, a', cs + root, ds);
  }
}
