/** Address translation: the identity map of the kernel, and a window of virtual memory whose
    pages get frames on first touch.  Whatever is read and written, the window behaves as a
    flat zero-initialised array until the frames run out. */
module Paging {
  import opened Options
  import opened Word

  const PAGE: int := 4096
  const GIB: int := 0x4000_0000
  const TB1: int := 0x100_0000_0000
  const VA48: int := 0x1_0000_0000_0000
  /** The window: 4 MiB at 32 GiB, in slot 32 of the low level-1 table. */
  const BASE: int := 0x8_0000_0000
  const SLOT: int := 32
  const PAGES: int := 1024
  const FRAMES: int := 512

  const NORMAL: int := 4
  const DEVICE: int := 0
  const AF: int := 1024

  // ---------------------------------------------------------------- descriptors

  /** `pa | attr | AF | kind`: the flags lie below the address. */
  function Desc(pa: int, attr: int, kind: int): int { pa + attr + AF + kind }
  function Table(pa: int): int { pa + 3 }

  predicate IsTable(d: int) { d % 4 == 3 }
  predicate IsBlock(d: int) { d % 4 == 1 && d / AF % 2 == 1 }
  predicate IsPage(d: int) { d % 4 == 3 && d / AF % 2 == 1 }

  /** Address fields: bits 47..12 of a table or page, bits 47..30 of a level-1 block. */
  function Out(d: int): int { d % VA48 / PAGE * PAGE }
  function OutBlock(d: int): int { d % VA48 / GIB * GIB }

  lemma LowBits(k: int, f: int)
    requires 0 <= k < VA48 / PAGE && 0 <= f < PAGE
    ensures var d := PAGE * k + f; d % 4 == f % 4 && d % 2 == f % 2 && d / AF % 2 == f / AF % 2
  {
    var d := PAGE * k + f;
    Quotient(d, 4, AF * k + f / 4, f % 4);
    Quotient(d, 2, 2048 * k + f / 2, f % 2);
    Quotient(d, AF, 4 * k + f / AF, f % AF);
    Quotient(4 * k + f / AF, 2, 2 * k + f / AF / 2, f / AF % 2);
  }

  lemma Field(k: int, f: int)
    requires 0 <= k < VA48 / PAGE && 0 <= f < PAGE
    ensures Out(PAGE * k + f) == PAGE * k
  {
    var d := PAGE * k + f;
    Quotient(d, VA48, 0, d);
    Quotient(d, PAGE, k, f);
  }

  lemma PageDesc(pa: int, attr: int)
    requires 0 <= pa < VA48 && pa % PAGE == 0 && (attr == NORMAL || attr == DEVICE)
    ensures IsPage(Desc(pa, attr, 3)) && Out(Desc(pa, attr, 3)) == pa && Desc(pa, attr, 3) != 0
            && Desc(pa, attr, 3) % 2 == 1
    ensures IsTable(Table(pa)) && Out(Table(pa)) == pa && !IsBlock(Table(pa))
  {
    hide Out;
    var k := pa / PAGE;
    assert pa == PAGE * k;
    LowBits(k, attr + AF + 3);
    LowBits(k, 3);
    Field(k, attr + AF + 3);
    Field(k, 3);
  }

  lemma BlockDesc(i: int, attr: int)
    requires 0 <= i < 0x4_0000 && (attr == NORMAL || attr == DEVICE)
    ensures IsBlock(Desc(i * GIB, attr, 1)) && OutBlock(Desc(i * GIB, attr, 1)) == i * GIB
            && !IsTable(Desc(i * GIB, attr, 1))
  {
    assert i * GIB + attr + AF + 1 < VA48;
  }

  /** Where the linker put the tables and the frames: in RAM, page-aligned. */
  datatype Layout = Layout(l0: int, lo: int, hi: int, l2: int, l3: int, pool: int)

  predicate Fine(at: Layout) {
    && (forall x :: x in [at.l0, at.lo, at.hi, at.l2, at.l3, at.pool] ==>
       0 < x < 0x1_0000_0000 - FRAMES * PAGE && x % PAGE == 0)
    && at.lo != at.hi
  }

  // ---------------------------------------------------------------- the tables

  function LowEntry(i: int): int { Desc(i * GIB, if i < 4 then NORMAL else DEVICE, 1) }
  function HighEntry(i: int): int { Desc(TB1 + i * GIB, DEVICE, 1) }

  /** The contents of the translation tables. */
  datatype Tables = Tables(l0: seq<int>, lo: seq<int>, hi: seq<int>, l2: seq<int>, l3: seq<int>)

  predicate Sized(t: Tables) { |t.l0| == |t.lo| == |t.hi| == |t.l2| == 512 && |t.l3| == PAGES }

  /** The hardware's walk: 48-bit addresses, 4 KiB granule. */
  function Walk(at: Layout, t: Tables, va: int): Option<int>
    requires Sized(t) && 0 <= va < VA48
  {
    var d0 := t.l0[va / 0x80_0000_0000];
    if !IsTable(d0) then None
    else if Out(d0) == at.lo then WalkL1(at, t, t.lo[va / GIB % 512], va)
    else if Out(d0) == at.hi then WalkL1(at, t, t.hi[va / GIB % 512], va)
    else None
  }

  function WalkL1(at: Layout, t: Tables, d1: int, va: int): Option<int>
    requires Sized(t) && 0 <= va < VA48
  {
    if IsBlock(d1) then Some(OutBlock(d1) + va % GIB)
    else if IsTable(d1) && Out(d1) == at.l2 then WalkL2(at, t, t.l2[va / 0x20_0000 % 512], va)
    else None
  }

  function WalkL2(at: Layout, t: Tables, d2: int, va: int): Option<int>
    requires Sized(t) && 0 <= va < VA48
  {
    if !IsTable(d2) then None
    else if Out(d2) == at.l3 then WalkL3(t.l3[va / PAGE % 512], va)
    else if Out(d2) == at.l3 + PAGE then WalkL3(t.l3[512 + va / PAGE % 512], va)
    else None
  }

  function WalkL3(d3: int, va: int): Option<int> { if IsPage(d3) then Some(Out(d3) + va % PAGE) else None }

  /** After start-up. */
  predicate Identity(at: Layout, t: Tables) {
    && Sized(t)
    && (forall i :: 0 <= i < 512 ==> t.l0[i] == if i == 0 then Table(at.lo) else if i == 2 then Table(at.hi) else 0)
    && (forall i :: 0 <= i < 512 && i != SLOT ==> t.lo[i] == LowEntry(i))
    && (forall i :: 0 <= i < 512 ==> t.hi[i] == HighEntry(i))
  }

  /** The window spliced in. */
  predicate Spliced(at: Layout, t: Tables) {
    && Identity(at, t) && t.lo[SLOT] == Table(at.l2)
    && forall i :: 0 <= i < 512 ==> t.l2[i] == if i < 2 then Table(at.l3 + PAGE * i) else 0
  }

  predicate Mapped(va: int) { 0 <= va < 512 * GIB || TB1 <= va < TB1 + 512 * GIB }
  predicate InSlot(va: int) { SLOT * GIB <= va < (SLOT + 1) * GIB }
  predicate InWindow(va: int) { BASE <= va < BASE + PAGES * PAGE }

  /** Outside the window's slot translation is the identity, or a fault: exactly the low
      512 GiB and those from 1 TiB on are mapped. */
  lemma WalkIdentity(at: Layout, t: Tables, va: int)
    requires Fine(at) && Identity(at, t) && 0 <= va < VA48 && !InSlot(va)
    ensures Walk(at, t, va) == if Mapped(va) then Some(va) else None
  {
    hide IsTable, IsBlock, Out, OutBlock, Table;
    Split(va);
    RootFacts(at);
    var i := va / GIB % 512;
    if va < 512 * GIB {
      BlockDesc(i, if i < 4 then NORMAL else DEVICE);
    } else if Mapped(va) {
      BlockDesc(1024 + i, DEVICE);
    }
  }

  lemma RootFacts(at: Layout)
    requires Fine(at)
    ensures IsTable(Table(at.lo)) && Out(Table(at.lo)) == at.lo && IsTable(Table(at.hi)) && Out(Table(at.hi)) == at.hi
            && !IsTable(0)
  {
    assert at.lo in [at.l0, at.lo, at.hi, at.l2, at.l3, at.pool]
      && at.hi in [at.l0, at.lo, at.hi, at.l2, at.l3, at.pool];
    PageDesc(at.lo, 0);
    PageDesc(at.hi, 0);
  }

  lemma Split(va: int)
    requires 0 <= va < VA48
    ensures var i, j := va / 0x80_0000_0000, va / GIB % 512;
            && 0 <= i < 512 && va == i * 0x80_0000_0000 + j * GIB + va % GIB
            && (va < 512 * GIB <==> i == 0) && (TB1 <= va < TB1 + 512 * GIB <==> i == 2)
            && (InSlot(va) <==> i == 0 && j == SLOT)
  {
    var q := va / GIB;
    assert q / 512 == va / 0x80_0000_0000;
  }

  lemma SplicedLeaves(at: Layout, t: Tables, t': Tables)
    requires Spliced(at, t) && t' == t.(l3 := t'.l3) && |t'.l3| == PAGES
    ensures Spliced(at, t')
  {
    hide Table, LowEntry, HighEntry;
  }

  function PageOf(va: int): int { (va - BASE) / PAGE }

  /** Inside it the leaf of the page decides. */
  lemma WalkWindow(at: Layout, t: Tables, va: int)
    requires Fine(at) && Spliced(at, t) && InSlot(va)
    ensures InWindow(va) ==> 0 <= PageOf(va) < PAGES && Walk(at, t, va) == WalkL3(t.l3[PageOf(va)], va)
    ensures !InWindow(va) ==> Walk(at, t, va) == None
  {
    hide IsTable, IsBlock, Out, OutBlock, Table;
    Split(va);
    RootFacts(at);
    SlotFacts(at);
    WindowSplit(va);
  }

  lemma WindowSplit(va: int)
    requires InSlot(va)
    ensures var i, j := va / 0x20_0000 % 512, va / PAGE % 512;
            0 <= i < 512 && (InWindow(va) <==> i < 2) && (InWindow(va) ==> PageOf(va) == i * 512 + j)
  {
    var k := va - BASE;
    assert BASE == 16384 * 0x20_0000;
    assert va / 0x20_0000 == 16384 + k / 0x20_0000;
    assert va / PAGE == 16384 * 512 + k / PAGE;
    assert k / PAGE / 512 == k / 0x20_0000;
  }

  lemma SlotFacts(at: Layout)
    requires Fine(at)
    ensures !IsBlock(Table(at.l2)) && IsTable(Table(at.l2)) && Out(Table(at.l2)) == at.l2
    ensures forall i :: 0 <= i < 2 ==>
            IsTable(Table(at.l3 + PAGE * i)) && Out(Table(at.l3 + PAGE * i)) == at.l3 + PAGE * i
  {
    hide IsTable, IsBlock, Out, Table;
    assert at.l2 in [at.l0, at.lo, at.hi, at.l2, at.l3, at.pool]
      && at.l3 in [at.l0, at.lo, at.hi, at.l2, at.l3, at.pool];
    PageDesc(at.l2, 0);
    forall i | 0 <= i < 2 ensures IsTable(Table(at.l3 + PAGE * i)) && Out(Table(at.l3 + PAGE * i)) == at.l3 + PAGE * i {
      Aligned(at.l3, i);
      PageDesc(at.l3 + PAGE * i, 0);
    }
  }

  lemma Aligned(a: int, i: int)
    requires a % PAGE == 0
    ensures (a + PAGE * i) % PAGE == 0
  {
    var k := a / PAGE;
    assert a + PAGE * i == PAGE * (k + i);
  }

  // ---------------------------------------------------------------- the window as a value

  type Bytes = f: seq<byte> | |f| == 4096 witness seq(4096, _ => 0)

  function Zeros(): Bytes { seq(4096, _ => 0) }

  /** Which page each frame belongs to, in order of first touch, and the bytes of the pages. */
  datatype Win = Win(owner: seq<int>, flat: seq<Bytes>)

  function Fresh(): Win { Win([], seq(PAGES, _ => Zeros())) }

  ghost predicate Ok(w: Win) {
    && |w.owner| <= FRAMES && |w.flat| == PAGES
    && (forall f :: 0 <= f < |w.owner| ==> 0 <= w.owner[f] < PAGES)
    && (forall f, g :: 0 <= f < g < |w.owner| ==> w.owner[f] != w.owner[g])
    && (forall p :: 0 <= p < PAGES && p !in w.owner ==> w.flat[p] == Zeros())
  }

  function Touch(w: Win, p: int): Option<Win> {
    if p in w.owner then Some(w) else if |w.owner| < FRAMES then Some(w.(owner := w.owner + [p])) else None
  }

  lemma TouchIn(w: Win, p: int)
    ensures Touch(w, p).Some? ==> p in Touch(w, p).value.owner && p in w.owner + [p]
  {
    if Touch(w, p).Some? && p !in w.owner { assert (w.owner + [p])[|w.owner|] == p; }
  }

  // ---------------------------------------------------------------- the tables in memory

  class Mmu {
    const at: Layout
    const l0: array<int>
    const lo: array<int>
    const hi: array<int>
    const l2: array<int>
    const l3: array<int>
    const pool: array2<byte>
    var next: int
    var faults: nat
    var mapped: nat
    var oom: nat
    ghost var win: Win

    ghost predicate Shaped() {
      && Fine(at) && l0.Length == lo.Length == hi.Length == l2.Length == 512 && l3.Length == PAGES
      && pool.Length0 == FRAMES && pool.Length1 == PAGE
      && l0 != lo && l0 != hi && l0 != l2 && l0 != l3 && lo != hi && lo != l2 && lo != l3 && hi != l2 && hi != l3
         && l2 != l3
    }

    function Tabs(): Tables
      reads l0, lo, hi, l2, l3
    {
      Tables(l0[..], lo[..], hi[..], l2[..], l3[..])
    }

    function Frame(f: int): int { at.pool + f * PAGE }

    /** Distinct present pages have distinct frames, and as many frames are used as leaves
        are valid. */
    ghost predicate Valid()
      reads this, l0, lo, hi, l2, l3, pool
    {
      && Shaped() && Spliced(at, Tabs()) && Ok(win) && next == |win.owner| && mapped == next && faults == next
      && (forall f :: 0 <= f < next ==> l3[win.owner[f]] == Desc(Frame(f), NORMAL, 3))
      && (forall p :: 0 <= p < PAGES && p !in win.owner ==> l3[p] == 0)
      && (forall f, o :: 0 <= f < next && 0 <= o < PAGE ==> pool[f, o] == win.flat[win.owner[f]][o])
    }

    /** Static storage is zero. */
    constructor (at: Layout)
      requires Fine(at)
      ensures Shaped() && next == 0 && faults == mapped == oom == 0 && win == Fresh() && this.at == at
      ensures fresh(l0) && fresh(lo) && fresh(hi) && fresh(l2) && fresh(l3) && fresh(pool)
    {
      this.at := at;
      l0, lo, hi := new int[512], new int[512], new int[512];
      l2, l3 := new int[512], new int[PAGES];
      pool := new byte[FRAMES, PAGE];
      next, faults, mapped, oom := 0, 0, 0, 0;
      win := Fresh();
    }

    method Init()
      requires Shaped()
      modifies l0, lo, hi
      ensures Identity(at, Tabs())
    {
      for i := 0 to 512
        invariant forall k :: 0 <= k < i ==> l0[k] == 0
      {
        l0[i], lo[i], hi[i] := 0, 0, 0;
      }
      l0[0], l0[2] := Table(at.lo), Table(at.hi);
      for i := 0 to 512
        invariant forall k :: 0 <= k < 512 ==>
                  l0[k] == if k == 0 then Table(at.lo) else if k == 2 then Table(at.hi) else 0
        invariant forall k :: 0 <= k < i ==> lo[k] == LowEntry(k)
      {
        lo[i] := LowEntry(i);
      }
      for i := 0 to 512
        invariant forall k :: 0 <= k < 512 ==>
                  l0[k] == if k == 0 then Table(at.lo) else if k == 2 then Table(at.hi) else 0
        invariant forall k :: 0 <= k < 512 ==> lo[k] == LowEntry(k)
        invariant forall k :: 0 <= k < i ==> hi[k] == HighEntry(k)
      {
        hi[i] := HighEntry(i);
      }
    }

    method DemandInit()
      requires Shaped() && Identity(at, Tabs()) && next == mapped == faults == 0 && win == Fresh()
      modifies lo, l2, l3
      ensures Valid()
    {
      for i := 0 to 512
        invariant forall k :: 0 <= k < i ==> l2[k] == 0
        invariant Identity(at, Tabs())
      {
        l2[i] := 0;
      }
      for t := 0 to 2
        invariant forall k :: 0 <= k < 512 ==> l2[k] == if k < t then Table(at.l3 + PAGE * k) else 0
        invariant forall k :: 0 <= k < 512 * t ==> l3[k] == 0
        invariant Identity(at, Tabs())
      {
        for p := 0 to 512
          invariant forall k :: 0 <= k < 512 ==> l2[k] == if k < t then Table(at.l3 + PAGE * k) else 0
          invariant forall k :: 0 <= k < 512 * t + p ==> l3[k] == 0
          invariant Identity(at, Tabs())
        {
          l3[512 * t + p] := 0;
        }
        l2[t] := Table(at.l3 + PAGE * t);
      }
      lo[SLOT] := Table(at.l2);
    }

    /** A fresh frame, cleared eight bytes at a time. */
    method ZeroFill(f: int)
      requires Shaped() && 0 <= f < FRAMES
      modifies pool
      ensures forall g, o :: 0 <= g < FRAMES && 0 <= o < PAGE ==> pool[g, o] == if g == f then 0 else old(pool[g, o])
    {
      hide Fine;
      for i := 0 to PAGE / 8
        invariant forall g, o :: 0 <= g < FRAMES && 0 <= o < PAGE && (g != f || o >= 8 * i) ==>
                  pool[g, o] == old(pool[g, o])
        invariant forall o :: 0 <= o < 8 * i ==> pool[f, o] == 0
      {
        var o := 8 * i;
        pool[f, o], pool[f, o + 1], pool[f, o + 2], pool[f, o + 3] := 0, 0, 0, 0;
        pool[f, o + 4], pool[f, o + 5], pool[f, o + 6], pool[f, o + 7] := 0, 0, 0, 0;
      }
    }

    /** The fault handler: false is a fatal fault. */
    method Fault(va: int) returns (ok: bool)
      requires Valid()
      modifies this`next, this`faults, this`mapped, this`oom, this`win, l3, pool
      ensures Valid()
      ensures !InWindow(va) ==> !ok && win == old(win) && oom == old(oom) && l3[..] == old(l3[..])
      ensures InWindow(va) ==>
                match Touch(old(win), PageOf(va))
                case Some(w) => ok && win == w && oom == old(oom)
                case None => !ok && win == old(win) && oom == old(oom) + 1
    {
      hide Spliced, Desc;
      if va < BASE || va >= BASE + PAGES * PAGE { return false; }
      var off := va - BASE;
      var l2i, l3i := off / 0x20_0000, off / PAGE % 512;
      WindowSplit(va);
      var p := 512 * l2i + l3i;
      assert p == PageOf(va) by { assert off / PAGE / 512 == off / 0x20_0000; }
      if l3[p] % 2 == 1 {
        assert p in win.owner;
        return true;
      }
      LeafPresent(p);
      if next >= FRAMES {
        oom := oom + 1;
        return false;
      }
      var f := next;
      next := next + 1;
      ZeroFill(f);
      ghost var t := Tabs();
      l3[p] := Desc(Frame(f), NORMAL, 3);
      SplicedLeaves(at, t, Tabs());
      faults, mapped := faults + 1, mapped + 1;
      win := win.(owner := win.owner + [p]);
      ok := true;
    }

    /** The processor's access: walk, and on an abort the handler and another walk. */
    method Translate(va: int) returns (pa: Option<int>)
      requires Valid() && 0 <= va < VA48
      modifies this`next, this`faults, this`mapped, this`oom, this`win, l3, pool
      ensures Valid()
      ensures !InWindow(va) ==> win == old(win) && pa == if Mapped(va) && !InSlot(va) then Some(va) else None
      ensures InWindow(va) ==>
                match Touch(old(win), PageOf(va))
                case Some(w) => win == w && Reached(va, pa)
                case None => win == old(win) && pa == None
    {
      hide *;
      ValidParts();
      WalkOutside(va);
      WalkInside(va);
      pa := Walk(at, Tabs(), va);
      if pa.None? {
        var ok := Fault(va);
        if ok {
          ValidParts();
          TouchIn(old(win), PageOf(va));
          WalkInside(va);
          pa := Walk(at, Tabs(), va);
        }
      }
    }

    /** The physical address of a window byte lies in the frame of its page. */
    ghost predicate Reached(va: int, pa: Option<int>)
      reads this
    {
      pa.Some? && exists f :: 0 <= f < |win.owner| <= FRAMES && win.owner[f] == PageOf(va)
                            && pa.value == Frame(f) + va % PAGE
    }

    method Load(va: int) returns (r: Option<byte>)
      requires Valid() && InWindow(va)
      modifies this`next, this`faults, this`mapped, this`oom, this`win, l3, pool
      ensures Valid()
      ensures Does(old(win), Read(va)) == if r.Some? then Some(([r.value], win)) else None
      ensures r.None? ==> win == old(win)
    {
      hide Spliced, Desc, IsPage, Walk;
      WindowVa(va);
      var pa := Translate(va);
      if pa.None? { return None; }
      ghost var f :| 0 <= f < |win.owner| && win.owner[f] == PageOf(va) && pa.value == Frame(f) + va % PAGE;
      FrameIs(at.pool, f, va % PAGE);
      r := Some(pool[(pa.value - at.pool) / PAGE, (pa.value - at.pool) % PAGE]);
    }

    method Store(va: int, b: byte) returns (ok: bool)
      requires Valid() && InWindow(va)
      modifies this`next, this`faults, this`mapped, this`oom, this`win, l3, pool
      ensures Valid()
      ensures Does(old(win), Write(va, b)) == if ok then Some(([], win)) else None
      ensures !ok ==> win == old(win)
    {
      hide Spliced, Desc, IsPage, Walk, Ok, Fine, InWindow;
      WindowVa(va);
      OkSizes(win);
      var pa := Translate(va);
      OkSizes(win);
      if pa.None? { return false; }
      ghost var f :| 0 <= f < |win.owner| && win.owner[f] == PageOf(va) && pa.value == Frame(f) + va % PAGE;
      FrameIs(at.pool, f, va % PAGE);
      pool[(pa.value - at.pool) / PAGE, (pa.value - at.pool) % PAGE] := b;
      var p := PageOf(va);
      WriteOk(win, f, va % PAGE, b);
      win := win.(flat := win.flat[p := win.flat[p][va % PAGE := b]]);
      ok := true;
    }

    lemma ValidParts()
      requires Valid()
      ensures Shaped() && Fine(at) && Sized(Tabs()) && Spliced(at, Tabs()) && Identity(at, Tabs())
    {
    }

    lemma WalkOutside(va: int)
      requires Valid() && 0 <= va < VA48 && Sized(Tabs())
      ensures !InWindow(va) ==> Walk(at, Tabs(), va) == if Mapped(va) && !InSlot(va) then Some(va) else None
    {
      hide Walk, Out, IsTable;
      if InSlot(va) { WalkWindow(at, Tabs(), va); } else { WalkIdentity(at, Tabs(), va); }
      assert InWindow(va) ==> InSlot(va);
    }

    lemma WalkInside(va: int)
      requires Valid() && 0 <= va < VA48 && Sized(Tabs())
      ensures InWindow(va) && PageOf(va) in win.owner ==>
              Reached(va, Walk(at, Tabs(), va)) && Touch(win, PageOf(va)) == Some(win)
      ensures InWindow(va) && PageOf(va) !in win.owner ==> Walk(at, Tabs(), va) == None
    {
      hide Walk, Out, IsTable, IsPage, Desc, Identity;
      if InWindow(va) {
        WalkWindow(at, Tabs(), va);
        if PageOf(va) in win.owner {
          var f :| 0 <= f < |win.owner| && win.owner[f] == PageOf(va);
          FrameDesc(f);
        } else {
          assert !IsPage(0) by { ZeroFaults(); }
        }
      }
    }

    /** Only present pages have a nonzero leaf, and theirs is odd. */
    lemma LeafPresent(p: int)
      requires Valid() && 0 <= p < PAGES
      ensures p in win.owner <==> l3[p] % 2 == 1
    {
      if p in win.owner {
        var f :| 0 <= f < |win.owner| && win.owner[f] == p;
        FrameDesc(f);
      }
    }

    lemma FrameDesc(f: int)
      requires Shaped() && 0 <= f < FRAMES
      ensures 0 <= Frame(f) < VA48 && Frame(f) % PAGE == 0
      ensures IsPage(Desc(Frame(f), NORMAL, 3)) && Out(Desc(Frame(f), NORMAL, 3)) == Frame(f)
              && Desc(Frame(f), NORMAL, 3) % 2 == 1
    {
      assert at.pool in [at.l0, at.lo, at.hi, at.l2, at.l3, at.pool];
      assert Frame(f) % PAGE == 0;
      PageDesc(Frame(f), NORMAL);
    }
  }

  lemma OkSizes(w: Win)
    requires Ok(w)
    ensures |w.owner| <= FRAMES && |w.flat| == PAGES
  {
  }

  /** Writing to an owned page changes no other frame's page. */
  lemma WriteOk(w: Win, f: int, o: int, b: byte)
    requires Ok(w) && 0 <= f < |w.owner| && 0 <= o < PAGE
    ensures 0 <= w.owner[f] < PAGES && Ok(w.(flat := w.flat[w.owner[f] := w.flat[w.owner[f]][o := b]]))
    ensures forall g :: 0 <= g < |w.owner| ==> 0 <= w.owner[g] < PAGES && (g != f ==> w.owner[g] != w.owner[f])
  {
    hide Zeros;
    forall g | 0 <= g < |w.owner| && g != f ensures w.owner[g] != w.owner[f] {
      assert g < f || f < g;
    }
  }

  lemma ZeroFaults()
    ensures !IsPage(0)
  {
  }

  lemma WindowVa(va: int)
    requires InWindow(va)
    ensures 0 <= va < VA48 && 0 <= PageOf(va) < PAGES && 0 <= va % PAGE < PAGE
  {
  }

  lemma FrameIs(pool: int, f: int, o: int)
    requires 0 <= o < PAGE
    ensures (pool + f * PAGE + o - pool) / PAGE == f && (pool + f * PAGE + o - pool) % PAGE == o
  {
    Quotient(f * PAGE + o, PAGE, f, o);
  }

  // ---------------------------------------------------------------- whole runs

  /** One byte read or written in the window. */
  datatype Access = Read(va: int) | Write(va: int, b: byte)

  /** What an access yields and leaves, in the window with its frames; None is fatal. */
  function Does(w: Win, x: Access): (r: Option<(seq<byte>, Win)>)
    requires |w.flat| == PAGES && InWindow(x.va)
    ensures r.Some? ==> |r.value.1.flat| == PAGES
  {
    WindowVa(x.va);
    var p, o := PageOf(x.va), x.va % PAGE;
    match Touch(w, p)
    case None => None
    case Some(t) =>
      match x
      case Read(_) => Some(([t.flat[p][o]], t))
      case Write(_, b) => Some(([], t.(flat := t.flat[p := t.flat[p][o := b]])))
  }

  predicate Inside(xs: seq<Access>) { forall k :: 0 <= k < |xs| ==> InWindow(xs[k].va) }

  /** A run of accesses up to its end or the first fatal one. */
  function Runs(w: Win, xs: seq<Access>): Option<(seq<byte>, Win)>
    requires |w.flat| == PAGES && Inside(xs)
    decreases |xs|
  {
    if xs == [] then Some(([], w))
    else match Does(w, xs[0])
      case None => None
      case Some((out, w')) => After(out, Runs(w', xs[1..]))
  }

  /** The same accesses to a flat array indexed by address. */
  function Flat(m: map<int, byte>, xs: seq<Access>): seq<byte>
    decreases |xs|
  {
    if xs == [] then []
    else match xs[0]
      case Read(va) => [if va in m then m[va] else 0] + Flat(m, xs[1..])
      case Write(va, b) => Flat(m[va := b], xs[1..])
  }

  function Pages(xs: seq<Access>): set<int> { set k | 0 <= k < |xs| :: PageOf(xs[k].va) }

  /** The array written so far agrees with the pages. */
  ghost predicate Agrees(m: map<int, byte>, w: Win) {
    && |w.flat| == PAGES
    && forall va :: InWindow(va) ==>
       0 <= PageOf(va) < PAGES && w.flat[PageOf(va)][va % PAGE] == if va in m then m[va] else 0
  }

  function Owned(w: Win): set<int> { set p | p in w.owner }

  /** A run goes through exactly when at most 512 distinct pages are touched, and then every
      read gives the byte last written to its address, or zero. */
  lemma {:induction false} History(m: map<int, byte>, w: Win, xs: seq<Access>)
    requires Ok(w) && Agrees(m, w) && Inside(xs)
    ensures Runs(w, xs).Some? <==> |Owned(w) + Pages(xs)| <= FRAMES
    ensures Runs(w, xs).Some? ==> Runs(w, xs).value.0 == Flat(m, xs)
    decreases |xs|
  {
    hide *;
    AgreesLength(m, w);
    if xs == [] {
      OwnedSize(w);
      RunsEnd([], w);
      NoPages(m);
      assert Owned(w) + Pages(xs) == Owned(w);
    } else {
      InsideParts(xs);
      PagesSplit(xs);
      FlatStep(m, xs);
      RunsStep([], w, xs);
      AfterNothing(Runs(w, xs));
      var p := PageOf(xs[0].va);
      var d := DoesParts(m, w, xs[0]);
      if d.None? {
        TooMany(w, p, Pages(xs));
      } else {
        var (out, w') := d.value;
        var m' := if xs[0].Write? then m[xs[0].va := xs[0].b] else m;
        History(m', w', xs[1..]);
        assert Owned(w) + Pages(xs) == Owned(w') + Pages(xs[1..]);
        AfterParts([] + out, Runs(w', xs[1..]));
        assert [] + out == out;
      }
    }
  }

  lemma NoPages(m: map<int, byte>)
    ensures Pages([]) == {} && Flat(m, []) == []
  {
  }

  lemma InsideParts(xs: seq<Access>)
    requires Inside(xs) && xs != []
    ensures InWindow(xs[0].va) && Inside(xs[1..])
  {
  }

  lemma FlatStep(m: map<int, byte>, xs: seq<Access>)
    requires xs != []
    ensures Flat(m, xs) == match xs[0]
                           case Read(va) => [if va in m then m[va] else 0] + Flat(m, xs[1..])
                           case Write(va, b) => [] + Flat(m[va := b], xs[1..])
  {
  }

  lemma AfterParts(out: seq<byte>, r: Option<(seq<byte>, Win)>)
    ensures After(out, r).Some? <==> r.Some?
    ensures r.Some? ==> After(out, r).value.0 == out + r.value.0
  {
  }

  lemma AfterNothing(r: Option<(seq<byte>, Win)>)
    ensures After([], r) == r
  {
    match r case None => case Some((rest, _)) => assert [] + rest == rest;
  }

  lemma AgreesLength(m: map<int, byte>, w: Win)
    requires Agrees(m, w)
    ensures |w.flat| == PAGES
  {
  }

  lemma PagesSplit(xs: seq<Access>)
    requires xs != []
    ensures Pages(xs) == {PageOf(xs[0].va)} + Pages(xs[1..])
  {
    hide PageOf;
    forall p | p in Pages(xs) ensures p in {PageOf(xs[0].va)} + Pages(xs[1..]) {
      var k :| 0 <= k < |xs| && PageOf(xs[k].va) == p;
      if k > 0 { assert PageOf(xs[1..][k - 1].va) == p; }
    }
    forall p | p in Pages(xs[1..]) ensures p in Pages(xs) {
      var k :| 0 <= k < |xs[1..]| && PageOf(xs[1..][k].va) == p;
      assert PageOf(xs[k + 1].va) == p;
    }
    assert PageOf(xs[0].va) in Pages(xs);
  }

  lemma {:induction false} Distinct(s: seq<int>)
    requires forall f, g :: 0 <= f < g < |s| ==> s[f] != s[g]
    ensures |set p | p in s| == |s|
  {
    if s != [] {
      var t, x := s[..|s| - 1], s[|s| - 1];
      Distinct(t);
      assert s == t + [x];
      assert (set p | p in s) == (set p | p in t) + {x};
    }
  }

  lemma OwnedSize(w: Win)
    requires Ok(w)
    ensures |Owned(w)| == |w.owner| <= FRAMES
  {
    hide Zeros;
    Distinct(w.owner);
  }

  lemma TooMany(w: Win, p: int, q: set<int>)
    requires Ok(w) && |w.owner| == FRAMES && p !in w.owner && p in q
    ensures |Owned(w) + q| > FRAMES
  {
    hide Zeros;
    OwnedSize(w);
    Subset(Owned(w) + {p}, Owned(w) + q);
    assert p !in Owned(w);
  }

  lemma Subset(a: set<int>, b: set<int>)
    requires a <= b
    ensures |a| <= |b|
  {
    assert a + (b - a) == b && a * (b - a) == {};
  }

  /** One access: what it yields is what the flat array holds, and both stay in step. */
  lemma DoesParts(m: map<int, byte>, w: Win, x: Access) returns (d: Option<(seq<byte>, Win)>)
    requires Ok(w) && Agrees(m, w) && InWindow(x.va)
    ensures |w.flat| == PAGES && d == Does(w, x)
    ensures d.None? <==> |w.owner| == FRAMES && PageOf(x.va) !in w.owner
    ensures d.Some? ==>
              var m' := if x.Write? then m[x.va := x.b] else m;
              && Ok(d.value.1) && Agrees(m', d.value.1) && Owned(d.value.1) == Owned(w) + {PageOf(x.va)}
              && d.value.0 == if x.Write? then [] else [if x.va in m then m[x.va] else 0]
  {
    hide Zeros;
    WindowVa(x.va);
    d := Does(w, x);
    if d.Some? {
      hide InWindow, Does;
      TouchOwned(w, PageOf(x.va));
      if x.Write? { WriteAgrees(m, w, x.va, x.b); }
    }
  }

  lemma TouchOwned(w: Win, p: int)
    requires Ok(w) && 0 <= p < PAGES && Touch(w, p).Some?
    ensures var t := Touch(w, p).value; Ok(t) && p in t.owner && t.flat == w.flat && Owned(t) == Owned(w) + {p}
  {
    hide Zeros;
    assert Owned(w.(owner := w.owner + [p])) == Owned(w) + {p};
  }

  lemma WriteAgrees(m: map<int, byte>, w: Win, va: int, b: byte)
    requires Agrees(m, w) && InWindow(va) && 0 <= PageOf(va) < PAGES
    ensures var p := PageOf(va); Agrees(m[va := b], w.(flat := w.flat[p := w.flat[p][va % PAGE := b]]))
  {
    forall u | InWindow(u) && u != va ensures PageOf(u) != PageOf(va) || u % PAGE != va % PAGE {}
  }

  /** From start-up: 512 pages, and a zero-initialised array. */
  lemma FromStart(xs: seq<Access>)
    requires Inside(xs)
    ensures |Fresh().flat| == PAGES
    ensures Runs(Fresh(), xs).Some? <==> |Pages(xs)| <= FRAMES
    ensures Runs(Fresh(), xs).Some? ==> Runs(Fresh(), xs).value.0 == Flat(map[], xs)
  {
    assert Agrees(map[], Fresh()) by {
      forall va | InWindow(va) ensures 0 <= PageOf(va) < PAGES && Fresh().flat[PageOf(va)] == Zeros() { WindowVa(va); }
    }
    History(map[], Fresh(), xs);
    assert Owned(Fresh()) + Pages(xs) == Pages(xs);
  }

  /** From start-up: tables built, window opened, program run. */
  method Boot(at: Layout, xs: seq<Access>) returns (m: Mmu, out: seq<byte>, done: bool)
    requires Fine(at) && Inside(xs)
    ensures fresh(m) && m.Valid() && m.at == at
    ensures done <==> |Pages(xs)| <= FRAMES
    ensures done ==> out == Flat(map[], xs)
  {
    hide Fresh, Identity, Spliced, Inside, Flat, Pages;
    m := new Mmu(at);
    m.Init();
    m.DemandInit();
    out, done := Program(m, xs);
  }

  /** A program that touches the window: what the machine, its tables and its fault handler
      answer is what a flat array would. */
  method Program(m: Mmu, xs: seq<Access>) returns (out: seq<byte>, done: bool)
    requires m.Valid() && m.win == Fresh() && Inside(xs)
    modifies m, m.l3, m.pool
    ensures m.Valid()
    ensures done <==> |Pages(xs)| <= FRAMES
    ensures done ==> out == Flat(map[], xs)
  {
    hide Fresh, Does, InWindow, Flat, Runs;
    FromStart(xs);
    out, done := [], true;
    ghost var w0 := m.win;
    assert xs[0..] == xs;
    AfterNothing(Runs(w0, xs));
    for i := 0 to |xs|
      invariant m.Valid() && |m.win.flat| == PAGES && done
      invariant Runs(w0, xs) == After(out, Runs(m.win, xs[i..]))
    {
      RunsStep(out, m.win, xs[i..]);
      assert xs[i..][0] == xs[i] && xs[i..][1..] == xs[i + 1..];
      match xs[i]
      case Read(va) =>
        var r := m.Load(va);
        if r.None? { return out, false; }
        out := out + [r.value];
      case Write(va, b) =>
        var ok := m.Store(va, b);
        if !ok { return out, false; }
    }
    assert xs[|xs|..] == [];
    RunsEnd(out, m.win);
  }

  function After(out: seq<byte>, r: Option<(seq<byte>, Win)>): Option<(seq<byte>, Win)> {
    match r case None => None case Some((rest, end)) => Some((out + rest, end))
  }

  lemma RunsStep(out: seq<byte>, w: Win, xs: seq<Access>)
    requires |w.flat| == PAGES && Inside(xs) && xs != [] && InWindow(xs[0].va)
    ensures After(out, Runs(w, xs)) == match Does(w, xs[0]) case None => None case Some((o, w')) =>
            After(out + o, Runs(w', xs[1..]))
    ensures xs[0].Write? && Does(w, xs[0]).Some? ==> out + Does(w, xs[0]).value.0 == out
  {
    hide PageOf, InWindow;
    match Does(w, xs[0])
    case None =>
    case Some((o, w')) =>
      match Runs(w', xs[1..])
      case None =>
      case Some((rest, _)) => assert out + (o + rest) == out + o + rest;
  }

  lemma RunsEnd(out: seq<byte>, w: Win)
    requires |w.flat| == PAGES && Inside([])
    ensures Runs(w, []) == Some(([], w)) && After(out, Runs(w, [])) == Some((out, w))
  {
    assert Runs(w, []) == Some(([], w)) && out + [] == out;
  }
}
