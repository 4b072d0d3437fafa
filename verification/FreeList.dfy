/** The free list as a value: first fit, insertion with coalescing, and why the list is a
    canonical form of the set of free bytes. */
module FreeList {
  const ALIGN := 16

  datatype Blk = Blk(a: int, len: int)

  function End(b: Blk): int { b.a + b.len }

  predicate Aligned(x: int) { x % ALIGN == 0 }

  lemma AlignedSum(x: int, y: int)
    requires Aligned(x) && Aligned(y)
    ensures Aligned(x + y) && Aligned(x - y)
  {
  }

  /** Sorted, aligned, inside [lo, hi), and never touching: coalesced as far as possible. */
  ghost predicate Canon(bs: seq<Blk>, lo: int, hi: int) {
    && (forall i :: 0 <= i < |bs| ==> Proper(bs[i], lo, hi))
    && forall i, j :: 0 <= i < j < |bs| ==> End(bs[i]) < bs[j].a
  }

  ghost predicate Proper(b: Blk, lo: int, hi: int) {
    lo <= b.a && 0 < b.len && End(b) <= hi && Aligned(b.a) && Aligned(b.len)
  }

  predicate In(b: Blk, x: int) { b.a <= x < End(b) }

  /** Byte x is on the list. */
  ghost predicate Free(bs: seq<Blk>, x: int) { exists i :: 0 <= i < |bs| && In(bs[i], x) }

  function Sum(bs: seq<Blk>): int { if bs == [] then 0 else Sum(bs[..|bs| - 1]) + bs[|bs| - 1].len }

  function Largest(bs: seq<Blk>): (m: int)
  {
    if bs == [] then 0 else
      var m := Largest(bs[..|bs| - 1]);
      if bs[|bs| - 1].len > m then bs[|bs| - 1].len else m
  }

  /** Blocks i to j replaced. */
  function Splice(bs: seq<Blk>, i: nat, j: nat, mid: seq<Blk>): seq<Blk>
    requires i <= j <= |bs|
  {
    bs[..i] + mid + bs[j..]
  }

  // ---------------------------------------------------------------- first fit

  /** The first block of at least n bytes, or the length of the list. */
  function Fit(bs: seq<Blk>, n: int): (k: nat)
    ensures k <= |bs| && (k < |bs| ==> bs[k].len >= n) && forall i :: 0 <= i < k ==> bs[i].len < n
  {
    if bs == [] then 0 else if bs[0].len >= n then 0 else 1 + Fit(bs[1..], n)
  }

  function Rest(b: Blk, n: int): seq<Blk> { if b.len == n then [] else [Blk(b.a + n, b.len - n)] }

  /** The list after n bytes were taken from the front of block k. */
  function Taken(bs: seq<Blk>, k: nat, n: int): seq<Blk>
    requires k < |bs|
  {
    Splice(bs, k, k + 1, Rest(bs[k], n))
  }

  // ---------------------------------------------------------------- insertion

  /** How many blocks start below a. */
  function Slot(bs: seq<Blk>, a: int): (k: nat)
    ensures k <= |bs| && (k < |bs| ==> bs[k].a >= a) && forall i :: 0 <= i < k ==> bs[i].a < a
  {
    if bs == [] then 0 else if bs[0].a >= a then 0 else 1 + Slot(bs[1..], a)
  }

  function Left(bs: seq<Blk>, k: nat, a: int): bool
    requires k <= |bs|
  {
    k > 0 && End(bs[k - 1]) == a
  }

  function Right(bs: seq<Blk>, k: nat, e: int): bool
    requires k <= |bs|
  {
    k < |bs| && bs[k].a == e
  }

  /** The list after [a, a + n) was put between blocks k - 1 and k. */
  function Given(bs: seq<Blk>, k: nat, a: int, n: int): seq<Blk>
    requires k <= |bs|
  {
    Splice(bs, if Left(bs, k, a) then k - 1 else k, if Right(bs, k, a + n) then k + 1 else k, [Merged(bs, k, a, n)])
  }

  function Merged(bs: seq<Blk>, k: nat, a: int, n: int): Blk
    requires k <= |bs|
  {
    var start := if Left(bs, k, a) then bs[k - 1].a else a;
    Blk(start, (if Right(bs, k, a + n) then End(bs[k]) else a + n) - start)
  }

  /** No byte of [a, a + n) is free. */
  ghost predicate Clear(bs: seq<Blk>, a: int, n: int) { forall x :: a <= x < a + n ==> !Free(bs, x) }

  // ---------------------------------------------------------------- what the operations do

  lemma FreeConcat(bs: seq<Blk>, cs: seq<Blk>, x: int)
    ensures Free(bs + cs, x) <==> Free(bs, x) || Free(cs, x)
  {
    if i :| 0 <= i < |bs| && In(bs[i], x) { assert In((bs + cs)[i], x); }
    if i :| 0 <= i < |cs| && In(cs[i], x) { assert In((bs + cs)[|bs| + i], x); }
    if i :| 0 <= i < |bs + cs| && In((bs + cs)[i], x) { assert if i < |bs| then In(bs[i], x) else In(cs[i - |bs|], x); }
  }

  lemma FreeOne(b: Blk, x: int)
    ensures Free([b], x) <==> In(b, x)
  {
    assert [b][0] == b;
  }

  lemma SpliceFree(bs: seq<Blk>, i: nat, j: nat, mid: seq<Blk>, x: int)
    requires i <= j <= |bs|
    ensures Free(Splice(bs, i, j, mid), x) <==> Free(bs[..i], x) || Free(mid, x) || Free(bs[j..], x)
    ensures Free(bs, x) <==> Free(bs[..i], x) || Free(bs[i..j], x) || Free(bs[j..], x)
  {
    hide Free;
    FreeConcat(bs[..i] + mid, bs[j..], x);
    FreeConcat(bs[..i], mid, x);
    FreeConcat(bs[..i] + bs[i..j], bs[j..], x);
    FreeConcat(bs[..i], bs[i..j], x);
    assert bs == bs[..i] + bs[i..j] + bs[j..];
  }

  /** Blocks before i end below anything at or after block i, and so on. */
  lemma Apart(bs: seq<Blk>, lo: int, hi: int, i: nat, x: int)
    requires Canon(bs, lo, hi) && i <= |bs|
    ensures Free(bs[..i], x) ==> i > 0 && x < End(bs[i - 1])
    ensures Free(bs[i..], x) ==> i < |bs| && bs[i].a <= x
  {
    hide Aligned;
    if h :| 0 <= h < |bs[..i]| && In(bs[..i][h], x) { assert bs[..i][h] == bs[h]; }
    if h :| 0 <= h < |bs[i..]| && In(bs[i..][h], x) { assert bs[i..][h] == bs[i + h]; }
  }

  lemma SpliceCanon(bs: seq<Blk>, lo: int, hi: int, i: nat, j: nat, mid: seq<Blk>)
    requires Canon(bs, lo, hi) && i <= j <= |bs| && |mid| <= 1
    requires |mid| == 1 ==>
             Proper(mid[0], lo, hi) && (i > 0 ==> End(bs[i - 1]) < mid[0].a) && (j < |bs| ==> End(mid[0]) < bs[j].a)
    ensures Canon(Splice(bs, i, j, mid), lo, hi)
  {
    hide Aligned;
    var t := Splice(bs, i, j, mid);
    forall h | 0 <= h < |t| ensures Proper(t[h], lo, hi) {
      assert t[h] == if h < i then bs[h] else if h < i + |mid| then mid[h - i] else bs[h - i - |mid| + j];
    }
    forall g, h | 0 <= g < h < |t| ensures End(t[g]) < t[h].a { SpliceOrder(bs, lo, hi, i, j, mid, g, h); }
  }

  lemma SpliceOrder(bs: seq<Blk>, lo: int, hi: int, i: nat, j: nat, mid: seq<Blk>, g: nat, h: nat)
    requires Canon(bs, lo, hi) && i <= j <= |bs| && |mid| <= 1 && g < h < i + |mid| + |bs| - j
    requires |mid| == 1 ==>
             Proper(mid[0], lo, hi) && (i > 0 ==> End(bs[i - 1]) < mid[0].a) && (j < |bs| ==> End(mid[0]) < bs[j].a)
    ensures End(Splice(bs, i, j, mid)[g]) < Splice(bs, i, j, mid)[h].a
  {
    hide Aligned;
    if h < i {
    } else if h < i + |mid| {
      assert g == i - 1 || End(bs[g]) < bs[i - 1].a;
    } else {
      var h' := h - i - |mid| + j;
      if g >= i && g < i + |mid| { assert h' == j || End(bs[j]) < bs[h'].a; }
    }
  }

  /** What is taken is exactly [start, start + n): no other byte leaves the list. */
  lemma TakenFree(bs: seq<Blk>, lo: int, hi: int, k: nat, n: int, x: int)
    requires Canon(bs, lo, hi) && k < |bs| && 0 < n <= bs[k].len
    ensures Free(Taken(bs, k, n), x) <==> Free(bs, x) && !(bs[k].a <= x < bs[k].a + n)
  {
    hide Free, Canon;
    var b := bs[k];
    SpliceFree(bs, k, k + 1, Rest(b, n), x);
    Apart(bs, lo, hi, k, x);
    Apart(bs, lo, hi, k + 1, x);
    assert bs[k..k + 1] == [b];
    FreeOne(b, x);
    Beside(bs, lo, hi, k);
    if b.len != n { FreeOne(Rest(b, n)[0], x); } else { FreeNone(x); }
  }

  lemma FreeNone(x: int)
    ensures !Free([], x)
  {
  }

  lemma Beside(bs: seq<Blk>, lo: int, hi: int, k: nat)
    requires Canon(bs, lo, hi) && k < |bs|
    ensures Proper(bs[k], lo, hi) && (k > 0 ==> End(bs[k - 1]) < bs[k].a) && (k + 1 < |bs| ==> End(bs[k]) < bs[k + 1].a)
  {
  }

  lemma TakenCanon(bs: seq<Blk>, lo: int, hi: int, k: nat, n: int)
    requires Canon(bs, lo, hi) && k < |bs| && 0 < n <= bs[k].len && Aligned(n)
    ensures Canon(Taken(bs, k, n), lo, hi)
  {
    hide Aligned, Canon;
    Beside(bs, lo, hi, k);
    AlignedSum(bs[k].a, n);
    AlignedSum(bs[k].len, n);
    SpliceCanon(bs, lo, hi, k, k + 1, Rest(bs[k], n));
  }

  lemma ClearSlot(bs: seq<Blk>, lo: int, hi: int, a: int, n: int)
    requires Canon(bs, lo, hi) && n > 0
    ensures var k := Slot(bs, a);
            Clear(bs, a, n) <==> (k > 0 ==> End(bs[k - 1]) <= a) && (k < |bs| ==> a + n <= bs[k].a)
  {
    var k := Slot(bs, a);
    if k > 0 && End(bs[k - 1]) > a { assert In(bs[k - 1], a) && Free(bs, a); }
    if k < |bs| && a + n > bs[k].a { assert In(bs[k], bs[k].a) && Free(bs, bs[k].a); }
  }

  /** A region that may be given: proper and with no byte free already. */
  ghost predicate Givable(bs: seq<Blk>, lo: int, hi: int, a: int, n: int) {
    Canon(bs, lo, hi) && Proper(Blk(a, n), lo, hi) && Clear(bs, a, n)
  }

  /** Inserting adds exactly the bytes given and leaves the list canonical. */
  lemma GivenFree(bs: seq<Blk>, lo: int, hi: int, a: int, n: int, x: int)
    requires Givable(bs, lo, hi, a, n)
    ensures Free(Given(bs, Slot(bs, a), a, n), x) <==> Free(bs, x) || a <= x < a + n
  {
    hide Free, Canon, Aligned, Clear;
    var k := Slot(bs, a);
    var l, r := Left(bs, k, a), Right(bs, k, a + n);
    var i, j := if l then k - 1 else k, if r then k + 1 else k;
    SpliceFree(bs, i, j, [Merged(bs, k, a, n)], x);
    FreeOne(Merged(bs, k, a, n), x);
    SpliceFree(bs, k, j, [], x);
    if l {
      assert bs[k - 1..j] == [bs[k - 1]] + bs[k..j];
      FreeConcat([bs[k - 1]], bs[k..j], x);
      FreeOne(bs[k - 1], x);
      Beside(bs, lo, hi, k - 1);
    }
    if r {
      assert bs[k..j] == [bs[k]];
      FreeOne(bs[k], x);
      Beside(bs, lo, hi, k);
    } else {
      assert bs[k..j] == [];
      FreeNone(x);
    }
  }

  lemma GivenCanon(bs: seq<Blk>, lo: int, hi: int, a: int, n: int)
    requires Givable(bs, lo, hi, a, n)
    ensures Canon(Given(bs, Slot(bs, a), a, n), lo, hi)
  {
    hide Free, Canon, Aligned, Clear;
    var k := Slot(bs, a);
    var l, r := Left(bs, k, a), Right(bs, k, a + n);
    ClearSlot(bs, lo, hi, a, n);
    if k > 0 { Beside(bs, lo, hi, k - 1); AlignedSum(bs[k - 1].len, n); }
    if r { Beside(bs, lo, hi, k); AlignedSum(n, bs[k].len); }
    if l && r { AlignedSum(bs[k - 1].len + n, bs[k].len); }
    SpliceCanon(bs, lo, hi, if l then k - 1 else k, if r then k + 1 else k, [Merged(bs, k, a, n)]);
  }

  // ---------------------------------------------------------------- canonical form

  lemma FirstFree(bs: seq<Blk>, lo: int, hi: int)
    requires Canon(bs, lo, hi) && bs != []
    ensures Free(bs, bs[0].a)
  {
    assert In(bs[0], bs[0].a);
  }

  /** Two canonical lists with the same free bytes are the same list. */
  lemma {:induction false} Unique(bs: seq<Blk>, cs: seq<Blk>, lo: int, hi: int)
    requires Canon(bs, lo, hi) && Canon(cs, lo, hi) && forall x :: Free(bs, x) <==> Free(cs, x)
    ensures bs == cs
    decreases |bs|
  {
    hide Aligned;
    if bs != [] { FirstFree(bs, lo, hi); }
    if cs != [] { FirstFree(cs, lo, hi); }
    if bs != [] && cs != [] {
      FirstSame(bs, cs, lo, hi);
      FirstSame(cs, bs, lo, hi);
      forall x ensures Free(bs[1..], x) <==> Free(cs[1..], x) {
        FreeTail(bs, lo, hi, x);
        FreeTail(cs, lo, hi, x);
      }
      Unique(bs[1..], cs[1..], lo, hi);
      assert bs == [bs[0]] + bs[1..] && cs == [cs[0]] + cs[1..];
    }
  }

  lemma FreeTail(bs: seq<Blk>, lo: int, hi: int, x: int)
    requires Canon(bs, lo, hi) && bs != []
    ensures Free(bs[1..], x) <==> Free(bs, x) && x >= End(bs[0])
  {
    if i :| 0 <= i < |bs[1..]| && In(bs[1..][i], x) { assert In(bs[i + 1], x); }
    if i :| 0 <= i < |bs| && In(bs[i], x) && x >= End(bs[0]) { assert In(bs[1..][i - 1], x); }
  }

  lemma FreeAt(bs: seq<Blk>, i: nat, x: int)
    requires i < |bs|
    ensures In(bs[i], x) ==> Free(bs, x)
  {
  }

  /** The byte after a block is not free: it would have been coalesced. */
  lemma GapAfter(bs: seq<Blk>, lo: int, hi: int)
    requires Canon(bs, lo, hi) && bs != []
    ensures !Free(bs, End(bs[0]))
  {
  }

  lemma FirstSame(bs: seq<Blk>, cs: seq<Blk>, lo: int, hi: int)
    requires Canon(bs, lo, hi) && Canon(cs, lo, hi) && bs != [] && cs != [] && forall x :: Free(bs, x) <==> Free(cs, x)
    ensures cs[0].a <= bs[0].a && (cs[0].a == bs[0].a ==> End(bs[0]) <= End(cs[0]))
  {
    assert In(bs[0], bs[0].a) && Free(bs, bs[0].a);
    var i :| 0 <= i < |cs| && In(cs[i], bs[0].a);
    FreeAt(bs, 0, End(cs[0]));
    GapAfter(cs, lo, hi);
  }

  // ---------------------------------------------------------------- sizes

  lemma {:induction false} LargestIs(bs: seq<Blk>)
    requires forall i :: 0 <= i < |bs| ==> bs[i].len > 0
    ensures forall i :: 0 <= i < |bs| ==> bs[i].len <= Largest(bs)
    ensures bs != [] ==> exists i :: 0 <= i < |bs| && bs[i].len == Largest(bs)
    ensures bs == [] ==> Largest(bs) == 0
    decreases |bs|
  {
    if bs != [] {
      var r := bs[..|bs| - 1];
      LargestIs(r);
      if r != [] && bs[|r|].len <= Largest(r) {
        var i :| 0 <= i < |r| && r[i].len == Largest(r);
        assert bs[i].len == Largest(bs);
      } else {
        assert bs[|r|].len == Largest(bs);
      }
    }
  }

  /** First fit fails exactly when no block is large enough. */
  lemma FitFails(bs: seq<Blk>, lo: int, hi: int, n: int)
    requires Canon(bs, lo, hi) && n > 0
    ensures Fit(bs, n) == |bs| <==> n > Largest(bs)
  {
    LargestIs(bs);
  }

  lemma {:induction false} SumSplit(bs: seq<Blk>, cs: seq<Blk>)
    ensures Sum(bs + cs) == Sum(bs) + Sum(cs)
    decreases |cs|
  {
    if cs == [] {
      assert bs + cs == bs;
    } else {
      var n := |cs| - 1;
      assert (bs + cs)[..|bs| + n] == bs + cs[..n];
      SumSplit(bs, cs[..n]);
    }
  }

  lemma SpliceSum(bs: seq<Blk>, i: nat, j: nat, mid: seq<Blk>)
    requires i <= j <= |bs|
    ensures Sum(Splice(bs, i, j, mid)) == Sum(bs) - Sum(bs[i..j]) + Sum(mid)
  {
    hide Sum;
    SumSplit(bs[..i] + mid, bs[j..]);
    SumSplit(bs[..i], mid);
    SumSplit(bs[..i] + bs[i..j], bs[j..]);
    SumSplit(bs[..i], bs[i..j]);
    assert bs == bs[..i] + bs[i..j] + bs[j..];
  }

  lemma SumOne(b: Blk)
    ensures Sum([b]) == b.len && Sum([]) == 0
  {
    assert [b][..0] == [];
  }

  lemma TakenSum(bs: seq<Blk>, k: nat, n: int)
    requires k < |bs|
    ensures Sum(Taken(bs, k, n)) == Sum(bs) - n
  {
    hide Sum;
    SpliceSum(bs, k, k + 1, Rest(bs[k], n));
    assert bs[k..k + 1] == [bs[k]];
    SumOne(bs[k]);
    SumOne(Blk(bs[k].a + n, bs[k].len - n));
  }

  lemma GivenSum(bs: seq<Blk>, k: nat, a: int, n: int)
    requires k <= |bs|
    ensures Sum(Given(bs, k, a, n)) == Sum(bs) + n
  {
    hide Sum;
    var l, r := Left(bs, k, a), Right(bs, k, a + n);
    var i, j := if l then k - 1 else k, if r then k + 1 else k;
    SpliceSum(bs, i, j, [Merged(bs, k, a, n)]);
    SumOne(Merged(bs, k, a, n));
    assert bs[i..j] == (if l then [bs[k - 1]] else []) + (if r then [bs[k]] else []);
    SumSplit(if l then [bs[k - 1]] else [], if r then [bs[k]] else []);
    if l { SumOne(bs[k - 1]); }
    if r { SumOne(bs[k]); }
  }
}
