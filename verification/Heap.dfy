/** The allocator: a free list threaded through the free memory itself. */
module Heap {
  import opened Word
  import opened FreeList

  const HEAD := -1              // the address of the dummy head

  /** ROUNDMB on 64-bit numbers: sizes above 2^64 - 16 wrap to 0. */
  function Round(x: u64): (r: u64) { (x + 15) % M64 / 16 * 16 }

  lemma RoundBounds(x: u64)
    requires x <= M64 - 16
    ensures x <= Round(x) < x + 16 && Aligned(Round(x))
  {
    assert (x + 15) % M64 == x + 15;
  }

  /** The same rounding on unbounded numbers. */
  function Up(x: int): int { (x + 15) / 16 * 16 }

  lemma UpRound(x: u64)
    requires x > 0
    ensures 16 <= Up(x) <= M64 && Round(x) == if x <= M64 - 16 then Up(x) else 0
    ensures x > M64 - 16 ==> Up(x) == M64
  {
    if x <= M64 - 16 { assert (x + 15) % M64 == x + 15; }
  }

  /** The address of block k, 0 past the end. */
  function Addr(bs: seq<Blk>, k: nat): int { if k < |bs| then bs[k].a else 0 }

  /** The node fields in memory spell out the list. */
  ghost predicate Linked(nx: map<int, int>, ln: map<int, int>, head: int, bs: seq<Blk>) {
    && head == Addr(bs, 0)
    && forall k :: 0 <= k < |bs| ==>
       bs[k].a in nx && bs[k].a in ln && ln[bs[k].a] == bs[k].len && nx[bs[k].a] == Addr(bs, k + 1)
  }

  /** Unlinking or linking between blocks i and j, node by node. */
  lemma LinkedSplice(nx: map<int, int>, ln: map<int, int>, head: int, nx': map<int, int>, ln': map<int, int>,
      head': int, bs: seq<Blk>, i: nat, j: nat, mid: seq<Blk>)
    requires Linked(nx, ln, head, bs) && i <= j <= |bs| && |mid| <= 1
    requires var to := if mid == [] then Addr(bs, j) else mid[0].a;
             if i == 0 then head' == to else head' == head && bs[i - 1].a in nx' && nx'[bs[i - 1].a] == to
    requires mid != [] ==>
             mid[0].a in nx' && mid[0].a in ln' && ln'[mid[0].a] == mid[0].len && nx'[mid[0].a] == Addr(bs, j)
    requires forall h :: 0 <= h < |bs| && !(i <= h < j) ==> bs[h].a in ln' && ln'[bs[h].a] == bs[h].len
    requires forall h :: 0 <= h < |bs| && !(i <= h < j) && h != i - 1 ==>
             bs[h].a in nx' && nx'[bs[h].a] == Addr(bs, h + 1)
    ensures Linked(nx', ln', head', Splice(bs, i, j, mid))
  {
    var t := Splice(bs, i, j, mid);
    var m := i + |mid|;
    assert |t| == m + |bs| - j;
    forall k | 0 <= k < |t|
      ensures t[k].a in nx' && t[k].a in ln' && ln'[t[k].a] == t[k].len && nx'[t[k].a] == Addr(t, k + 1)
    {
      if k < i { assert t[k] == bs[k]; } else if k >= m { assert t[k] == bs[k - m + j]; }
    }
  }

  lemma Distinct(bs: seq<Blk>, lo: int, hi: int)
    requires Canon(bs, lo, hi)
    ensures forall i, j :: 0 <= i < |bs| && 0 <= j < |bs| && bs[i].a == bs[j].a ==> i == j
  {
    assert forall i :: 0 <= i < |bs| ==> Proper(bs[i], lo, hi);
  }

  /** Whether freemem takes a region: the end is computed modulo 2^64. */
  predicate Accepts(bs: seq<Blk>, lo: int, hi: int, a: u64, n: u64) {
    var k, e := Slot(bs, a), (a + n) % M64;
    a >= lo && e <= hi && (k > 0 ==> End(bs[k - 1]) <= a) && (k < |bs| ==> e <= bs[k].a)
  }

  lemma RoundCases(x: u64)
    ensures Aligned(Round(x)) && (0 < x <= M64 - 32 ==> 0 < Round(x) <= M64 - 32)
            && (0 < x <= M64 - 16 ==> 0 < Round(x))
    ensures x > M64 - 16 ==> Round(x) == 0
    ensures M64 - 32 < x <= M64 - 16 ==> Round(x) == M64 - 16
  {
  }

  /** The tail kept by a split lies strictly inside its block. */
  lemma Inside(bs: seq<Blk>, lo: int, hi: int, k: nat, n: u64)
    requires Canon(bs, lo, hi) && hi < M64 && 0 < lo && k < |bs| && 0 < n <= M64 - 32 && bs[k].len >= (n + 16) % M64
    ensures (bs[k].a + n) % M64 == bs[k].a + n && (bs[k].len - n) % M64 == bs[k].len - n && n < bs[k].len
    ensures forall h :: 0 <= h < |bs| ==> bs[h].a != bs[k].a + n
  {
    assert Proper(bs[k], lo, hi);
    forall h | 0 <= h < |bs| ensures bs[h].a != bs[k].a + n { assert Proper(bs[h], lo, hi); }
  }

  /** No splinters: a block too small to split fits exactly. */
  lemma Whole(bs: seq<Blk>, lo: int, hi: int, k: nat, n: u64)
    requires Canon(bs, lo, hi) && k < |bs| && Aligned(n) && n <= bs[k].len < (n + 16) % M64
    ensures bs[k].len == n
  {
    assert Proper(bs[k], lo, hi);
  }

  lemma FitAt(bs: seq<Blk>, n: int, k: nat)
    requires k <= |bs| && (forall i :: 0 <= i < k ==> bs[i].len < n) && (k < |bs| ==> bs[k].len >= n)
    ensures Fit(bs, n) == k
  {
  }

  function PrevOf(bs: seq<Blk>, k: nat): int
    requires k <= |bs|
  {
    if k == 0 then HEAD else bs[k - 1].a
  }

  /** prev->mnext := to, where prev may be the dummy head. */
  function Next(nx: map<int, int>, prev: int, to: int): map<int, int> { if prev == HEAD then nx else nx[prev := to] }
  function First(hd: int, prev: int, to: int): int { if prev == HEAD then to else hd }

  lemma Node(nx: map<int, int>, ln: map<int, int>, hd: int, bs: seq<Blk>, lo: int, hi: int, k: nat)
    requires Linked(nx, ln, hd, bs) && Canon(bs, lo, hi) && 0 < lo && k <= |bs|
    ensures k < |bs| ==> bs[k].a in nx && bs[k].a in ln && nx[bs[k].a] == Addr(bs, k + 1) && ln[bs[k].a] == bs[k].len
    ensures k < |bs| ==> bs[k].len >= 16
    ensures hd == Addr(bs, 0) && (Addr(bs, k) != 0 <==> k < |bs|) && PrevOf(bs, k) >= -1
            && (k > 0 ==> PrevOf(bs, k) > 0)
  {
    hide Aligned;
    if k < |bs| { Sixteen(bs[k], lo, hi); }
    if k > 0 { Sixteen(bs[k - 1], lo, hi); }
  }

  lemma Sixteen(b: Blk, lo: int, hi: int)
    requires Proper(b, lo, hi)
    ensures b.len >= 16
  {
  }

  lemma UnlinkLinks(nx: map<int, int>, ln: map<int, int>, hd: int, bs: seq<Blk>, lo: int, hi: int, k: nat)
    requires Linked(nx, ln, hd, bs) && Canon(bs, lo, hi) && 0 < lo && k < |bs|
    ensures Linked(Next(nx, PrevOf(bs, k), Addr(bs, k + 1)), ln, First(hd, PrevOf(bs, k), Addr(bs, k + 1)),
            Taken(bs, k, bs[k].len))
  {
    hide Canon, Aligned;
    Distinct(bs, lo, hi);
    Node(nx, ln, hd, bs, lo, hi, k);
    var prev, to := PrevOf(bs, k), Addr(bs, k + 1);
    LinkedSplice(nx, ln, hd, Next(nx, prev, to), ln, First(hd, prev, to), bs, k, k + 1, []);
  }

  lemma SplitLinks(nx: map<int, int>, ln: map<int, int>, hd: int, bs: seq<Blk>, lo: int, hi: int, k: nat, n: u64)
    requires Linked(nx, ln, hd, bs) && Canon(bs, lo, hi) && 0 < lo && hi < M64 && k < |bs| && 0 < n <= M64 - 32
             && bs[k].len >= (n + 16) % M64
    ensures var t := bs[k].a + n;
            Linked(Next(nx[t := Addr(bs, k + 1)], PrevOf(bs, k), t), ln[t := bs[k].len - n],
              First(hd, PrevOf(bs, k), t), Taken(bs, k, n))
  {
    hide Canon, Aligned;
    Distinct(bs, lo, hi);
    Node(nx, ln, hd, bs, lo, hi, k);
    Inside(bs, lo, hi, k, n);
    var prev, t := PrevOf(bs, k), bs[k].a + n;
    LinkedSplice(nx, ln, hd, Next(nx[t := Addr(bs, k + 1)], prev, t), ln[t := bs[k].len - n], First(hd, prev, t), bs,
      k, k + 1, Rest(bs[k], n));
  }

  /** Accepted without wrapping: where the region lies between its neighbours. */
  ghost predicate Fits(bs: seq<Blk>, lo: int, hi: int, k: nat, a: int, n: int) {
    && Canon(bs, lo, hi) && k <= |bs| && 0 < a && 0 < n && a + n <= hi < M64
    && (k > 0 ==> End(bs[k - 1]) <= a) && (k < |bs| ==> a + n <= bs[k].a)
  }

  lemma GrownLinks(nx: map<int, int>, ln: map<int, int>, hd: int, bs: seq<Blk>, lo: int, hi: int, k: nat, a: int,
      n: int)
    requires Linked(nx, ln, hd, bs) && 0 < lo && Fits(bs, lo, hi, k, a, n) && Left(bs, k, a)
    ensures var p := bs[k - 1].a; var r := Right(bs, k, a + n);
            Linked(if r then nx[p := Addr(bs, k + 1)] else nx,
              ln[p := bs[k - 1].len + n + if r then bs[k].len else 0], hd, Given(bs, k, a, n))
  {
    hide Canon, Aligned;
    Distinct(bs, lo, hi);
    Node(nx, ln, hd, bs, lo, hi, k);
    Node(nx, ln, hd, bs, lo, hi, k - 1);
    var p, r := bs[k - 1].a, Right(bs, k, a + n);
    LinkedSplice(nx, ln, hd, if r then nx[p := Addr(bs, k + 1)] else nx,
      ln[p := bs[k - 1].len + n + if r then bs[k].len else 0], hd,
                 bs, k - 1, if r then k + 1 else k, [Merged(bs, k, a, n)]);
  }

  lemma NewLinks(nx: map<int, int>, ln: map<int, int>, hd: int, bs: seq<Blk>, lo: int, hi: int, k: nat, a: int, n: int)
    requires Linked(nx, ln, hd, bs) && 0 < lo && Fits(bs, lo, hi, k, a, n) && !Left(bs, k, a)
    ensures var r := Right(bs, k, a + n); var nx1 := Next(nx[a := Addr(bs, k)], PrevOf(bs, k), a);
            Linked(if r then nx1[a := Addr(bs, k + 1)] else nx1, ln[a := n + if r then bs[k].len else 0],
              First(hd, PrevOf(bs, k), a), Given(bs, k, a, n))
  {
    hide Canon, Aligned;
    Distinct(bs, lo, hi);
    Node(nx, ln, hd, bs, lo, hi, k);
    Elsewhere(bs, lo, hi, k, a, n);
    var r := Right(bs, k, a + n);
    var nx1 := Next(nx[a := Addr(bs, k)], PrevOf(bs, k), a);
    LinkedSplice(nx, ln, hd, if r then nx1[a := Addr(bs, k + 1)] else nx1, ln[a := n + if r then bs[k].len else 0],
      First(hd, PrevOf(bs, k), a),
                 bs, k, if r then k + 1 else k, [Merged(bs, k, a, n)]);
  }

  lemma Elsewhere(bs: seq<Blk>, lo: int, hi: int, k: nat, a: int, n: int)
    requires Fits(bs, lo, hi, k, a, n)
    ensures forall h :: 0 <= h < |bs| ==> bs[h].a != a
  {
    hide Aligned;
    forall h | 0 <= h < |bs| ensures bs[h].a != a {
      assert Proper(bs[h], lo, hi);
      if k > 0 && h < k { assert Proper(bs[k - 1], lo, hi); }
    }
  }

  lemma InsertFits(bs: seq<Blk>, lo: int, hi: int, k: nat, a: u64, n: u64)
    requires Canon(bs, lo, hi) && 0 < lo && hi < M64 && k == Slot(bs, a) && Accepts(bs, lo, hi, a, n)
    requires 0 < n && a + n < M64 && Aligned(a) && Aligned(n)
    ensures Fits(bs, lo, hi, k, a, n) && Givable(bs, lo, hi, a, n) && Canon(Given(bs, k, a, n), lo, hi)
    ensures Reach(bs, k, n)
  {
    ClearSlot(bs, lo, hi, a, n);
    if k > 0 { assert Proper(bs[k - 1], lo, hi); }
    if k < |bs| { assert Proper(bs[k], lo, hi); }
    GivenCanon(bs, lo, hi, a, n);
  }

  /** All the links: the node fields and the head. */
  datatype Links = Links(nx: map<int, int>, ln: map<int, int>, hd: int)

  predicate Touches(ln: map<int, int>, prev: int, a: int) { prev != HEAD && prev in ln && prev + ln[prev] == a }

  function Joined(ln: map<int, int>, prev: int, a: int): int { if Touches(ln, prev, a) then prev else a }

  function Attached(l: Links, prev: int, curr: int, a: int, n: int): Links {
    if Touches(l.ln, prev, a) then l.(ln := l.ln[prev := (l.ln[prev] + n) % M64])
    else Links(Next(l.nx[a := curr], prev, a), l.ln[a := n], First(l.hd, prev, a))
  }

  function Absorbed(l: Links, b: int, curr: int): Links {
    if curr != 0 && b in l.ln && curr in l.ln && curr in l.nx && (b + l.ln[b]) % M64 == curr
    then l.(ln := l.ln[b := (l.ln[b] + l.ln[curr]) % M64], nx := l.nx[b := l.nx[curr]]) else l
  }

  /** Attaching and absorbing, node by node, insert the region into the list. */
  lemma InsertLinks(l: Links, bs: seq<Blk>, lo: int, hi: int, k: nat, a: int, n: int)
    requires Linked(l.nx, l.ln, l.hd, bs) && 0 < lo && Fits(bs, lo, hi, k, a, n) && Reach(bs, k, n)
    ensures var l1 := Attached(l, PrevOf(bs, k), Addr(bs, k), a, n);
            var l2 := Absorbed(l1, Joined(l.ln, PrevOf(bs, k), a), Addr(bs, k));
            l2 == Inserted(l, bs, k, a, n) && Linked(l2.nx, l2.ln, l2.hd, Given(bs, k, a, n))
  {
    if Left(bs, k, a) { InsertGrown(l, bs, lo, hi, k, a, n); } else { InsertNew(l, bs, lo, hi, k, a, n); }
  }

  /** The merged lengths do not wrap. */
  ghost predicate Reach(bs: seq<Blk>, k: nat, n: int)
    requires k <= |bs|
  {
    && (k > 0 ==> 0 <= bs[k - 1].len + n < M64) && (k < |bs| ==> 0 <= n + bs[k].len < M64)
    && (0 < k < |bs| ==> 0 <= bs[k - 1].len + n + bs[k].len < M64)
  }

  /** The node fields after an insertion at position k, whatever the region. */
  ghost function Inserted(l: Links, bs: seq<Blk>, k: nat, a: int, n: int): Links
    requires k <= |bs| && (k > 0 ==> bs[k - 1].a in l.ln) && (k < |bs| ==> bs[k].a in l.ln && bs[k].a in l.nx)
  {
    Absorbed(Attached(l, PrevOf(bs, k), Addr(bs, k), a, n), Joined(l.ln, PrevOf(bs, k), a), Addr(bs, k))
  }

  lemma InsertGrown(l: Links, bs: seq<Blk>, lo: int, hi: int, k: nat, a: int, n: int)
    requires Linked(l.nx, l.ln, l.hd, bs) && 0 < lo && Fits(bs, lo, hi, k, a, n) && Reach(bs, k, n) && Left(bs, k, a)
    ensures var l1 := Attached(l, PrevOf(bs, k), Addr(bs, k), a, n);
            var l2 := Absorbed(l1, Joined(l.ln, PrevOf(bs, k), a), Addr(bs, k));
            Linked(l2.nx, l2.ln, l2.hd, Given(bs, k, a, n))
  {
    hide Canon, Aligned, Linked, Given;
    GrownLinks(l.nx, l.ln, l.hd, bs, lo, hi, k, a, n);
    Node(l.nx, l.ln, l.hd, bs, lo, hi, k);
    Node(l.nx, l.ln, l.hd, bs, lo, hi, k - 1);
    if k < |bs| { Beside(bs, lo, hi, k); }
    var p := bs[k - 1].a;
    var l1 := Attached(l, p, Addr(bs, k), a, n);
    assert l1.ln == l.ln[p := bs[k - 1].len + n];
    if Right(bs, k, a + n) { assert Absorbed(l1, p, bs[k].a).ln == l.ln[p := bs[k - 1].len + n + bs[k].len]; }
  }

  lemma InsertNew(l: Links, bs: seq<Blk>, lo: int, hi: int, k: nat, a: int, n: int)
    requires Linked(l.nx, l.ln, l.hd, bs) && 0 < lo && Fits(bs, lo, hi, k, a, n) && Reach(bs, k, n) && !Left(bs, k, a)
    ensures var l1 := Attached(l, PrevOf(bs, k), Addr(bs, k), a, n);
            var l2 := Absorbed(l1, Joined(l.ln, PrevOf(bs, k), a), Addr(bs, k));
            Linked(l2.nx, l2.ln, l2.hd, Given(bs, k, a, n))
  {
    hide Canon, Aligned, Linked, Given;
    NewLinks(l.nx, l.ln, l.hd, bs, lo, hi, k, a, n);
    Elsewhere(bs, lo, hi, k, a, n);
    Node(l.nx, l.ln, l.hd, bs, lo, hi, k);
    if k > 0 { Node(l.nx, l.ln, l.hd, bs, lo, hi, k - 1); }
    var p := PrevOf(bs, k);
    var l1 := Attached(l, p, Addr(bs, k), a, n);
    if Right(bs, k, a + n) {
      assert l1.ln[a := n + bs[k].len] == l.ln[a := n + bs[k].len];
      assert l1.nx[bs[k].a] == Addr(bs, k + 1);
    }
  }

  lemma SlotAt(bs: seq<Blk>, a: int, k: nat)
    requires k <= |bs| && (forall i :: 0 <= i < k ==> bs[i].a < a) && (k < |bs| ==> bs[k].a >= a)
    ensures Slot(bs, a) == k
  {
  }

  class Heap {
    var mnext: map<int, int>      // the node fields, by address
    var mlength: map<int, int>
    var headNext: int
    var headLength: int
    var lo: int
    var hi: int
    var total: int
    ghost var bs: seq<Blk>

    ghost predicate Valid() reads this {
      && 0 < lo < hi < M64 && Aligned(lo) && Aligned(hi) && total == hi - lo
      && Canon(bs, lo, hi) && headLength == Sum(bs) && Linked(mnext, mlength, headNext, bs)
    }

    /** One free block covering the rounded region, which must hold at least one. */
    constructor (heapStart: u64, heapEnd: u64)
      requires 0 < heapStart && Round(heapStart) < heapEnd / 16 * 16
      requires heapStart <= M64 - 16
      ensures Valid() && lo == Round(heapStart) && hi == heapEnd / 16 * 16 && bs == [Blk(lo, hi - lo)]
    {
      RoundBounds(heapStart);
      var s, e := Round(heapStart), heapEnd / 16 * 16;
      AlignedSum(e, s);
      SumOne(Blk(s, e - s));
      lo, hi, total := s, e, e - s;
      mnext, mlength := map[s := 0], map[s := e - s];
      headNext, headLength := s, e - s;
      bs := [Blk(s, e - s)];
    }

    /** What the node fields say at position k of the walk. */
    ghost predicate Facts(k: nat) reads this {
      && (k < |bs| ==>
         bs[k].a in mnext && bs[k].a in mlength && mnext[bs[k].a] == Addr(bs, k + 1) && mlength[bs[k].a] == bs[k].len
         && bs[k].len >= 16)
      && (Addr(bs, k) != 0 <==> k < |bs|) && (0 < k <= |bs| ==> PrevOf(bs, k) > 0)
    }

    ghost predicate At(prev: int, curr: int, k: nat) reads this {
      k <= |bs| && curr == Addr(bs, k) && prev == PrevOf(bs, k)
    }

    method SetNext(prev: int, to: int)
      modifies this`headNext, this`mnext
      ensures headNext == First(old(headNext), prev, to) && mnext == Next(old(mnext), prev, to)
    {
      if prev == HEAD { headNext := to; } else { mnext := mnext[prev := to]; }
    }

    /** Take the whole block. */
    method Unlink(prev: int, curr: int, ghost k: nat)
      requires Valid() && At(prev, curr, k) && k < |bs|
      modifies this
      ensures Valid() && lo == old(lo) && hi == old(hi) && bs == Taken(old(bs), k, old(bs)[k].len)
    {
      hide Sum, Taken, Aligned, Linked, Canon, Next, First;
      Node(mnext, mlength, headNext, bs, lo, hi, k);
      Beside(bs, lo, hi, k);
      TakenCanon(bs, lo, hi, k, bs[k].len);
      TakenSum(bs, k, bs[k].len);
      UnlinkLinks(mnext, mlength, headNext, bs, lo, hi, k);
      SetNext(prev, mnext[curr]);
      headLength := headLength - mlength[curr];
      bs := Taken(bs, k, bs[k].len);
    }

    /** Keep the tail of the block as a new one, at an address computed modulo 2^64. */
    method Split(prev: int, curr: int, n: u64, ghost k: nat)
      requires Valid() && At(prev, curr, k) && k < |bs| && bs[k].len >= (n + 16) % M64 && Aligned(n)
      modifies this
      ensures lo == old(lo) && hi == old(hi)
      ensures 0 < n <= M64 - 32 ==> Valid() && bs == Taken(old(bs), k, n)
      ensures n == 0 ==> Valid() && bs == old(bs)
      ensures k == 0 ==> headNext == (curr + n) % M64
    {
      hide Sum, Taken, Aligned, Linked, Canon;
      Node(mnext, mlength, headNext, bs, lo, hi, k);
      Beside(bs, lo, hi, k);
      if k > 0 { Node(mnext, mlength, headNext, bs, lo, hi, k - 1); }
      if 0 < n <= M64 - 32 {
        Inside(bs, lo, hi, k, n);
        TakenCanon(bs, lo, hi, k, n);
        TakenSum(bs, k, n);
        SplitLinks(mnext, mlength, headNext, bs, lo, hi, k, n);
      }
      ghost var nx, ln := mnext, mlength;
      var leftover := (curr + n) % M64;
      mnext := mnext[leftover := mnext[curr]];
      mlength := mlength[leftover := (mlength[curr] - n) % M64];
      SetNext(prev, leftover);
      headLength := headLength - n;
      if n == 0 {
        assert mlength == ln && mnext == nx;
      } else if n <= M64 - 32 {
        bs := Taken(bs, k, n);
      }
    }

    /** First fit.  Within the sizes arithmetic can round and compare, the first block large
        enough gives its front, and 0 is returned exactly when there is none. */
    method Getmem(nbytes: u64) returns (r: int)
      requires Valid()
      modifies this
      ensures lo == old(lo) && hi == old(hi)
      ensures nbytes == 0 ==> Valid() && r == 0 && bs == old(bs)
      ensures 0 < nbytes <= M64 - 32 ==>
                var n := Round(nbytes); var k := Fit(old(bs), n);
                && Valid()
                && if k == |old(bs)| then r == 0 && bs == old(bs)
                   else r == old(bs)[k].a && bs == Taken(old(bs), k, n)
      ensures M64 - 32 < nbytes && old(bs) == [] ==> Valid() && r == 0 && bs == []
      ensures M64 - 16 < nbytes && old(bs) != [] ==> Valid() && r == old(bs)[0].a && bs == old(bs)
      ensures M64 - 32 < nbytes <= M64 - 16 && old(bs) != [] ==> r == old(bs)[0].a && headNext == (r - 16) % M64
    {
      hide Linked, Sum, Canon, Taken, Aligned, Round;
      if nbytes == 0 { return 0; }
      var n: u64 := Round(nbytes);
      RoundCases(nbytes);
      var prev, curr := HEAD, headNext;
      ghost var k: nat := 0;
      r := 0;
      Node(mnext, mlength, headNext, bs, lo, hi, k);
      while curr != 0
        invariant At(prev, curr, k) && r == 0
        invariant Valid() && bs == old(bs) && lo == old(lo) && hi == old(hi)
        invariant forall i :: 0 <= i < k ==> bs[i].len < n
        invariant k > 0 ==> nbytes <= M64 - 32
        invariant Facts(k)
        decreases |bs| - k
      {
        if mlength[curr] < (n + 16) % M64 {
          if mlength[curr] >= n {
            Whole(bs, lo, hi, k, n);
            FitAt(bs, n, k);
            Unlink(prev, curr, k);
            return curr;
          }
        } else {
          if nbytes <= M64 - 32 { FitAt(bs, n, k); }
          Split(prev, curr, n, k);
          return curr;
        }
        prev := curr;
        curr := mnext[curr];
        k := k + 1;
        Node(mnext, mlength, headNext, bs, lo, hi, k);
      }
      FitAt(bs, n, k);
    }

    /** Put a region back, merging it with its neighbours.  Whether it is taken is decided
        on an end computed modulo 2^64; when nothing wraps, the region is aligned and it is
        taken, it is inserted. */
    method Freemem(blk: u64, nbytes: u64) returns (r: int)
      requires Valid()
      modifies this
      ensures lo == old(lo) && hi == old(hi) && (r == 0 || r == -1)
      ensures r == 0 <==> blk != 0 && nbytes != 0 && Accepts(old(bs), lo, hi, blk, Round(nbytes))
      ensures r == -1 ==> Valid() && bs == old(bs)
      ensures r == 0 && nbytes <= M64 - 16 && blk + Round(nbytes) < M64 && Aligned(blk) ==>
                Valid() && bs == Given(old(bs), Slot(old(bs), blk), blk, Round(nbytes))
      ensures r == 0 && old(bs) == [] ==>
                headNext == blk && mlength == old(mlength)[blk := Round(nbytes)] && mnext == old(mnext)[blk := 0]
    {
      hide Linked, Sum, Canon, Given, Aligned, Round, Slot;
      if blk == 0 || nbytes == 0 { return -1; }
      var n: u64 := Round(nbytes);
      RoundCases(nbytes);
      var end := (blk + n) % M64;
      if blk < lo || end > hi { return -1; }
      var prev, curr, k := Walk(blk);
      var prevEnd := if prev == HEAD then 0 else prev + mlength[prev];
      if prevEnd > blk { return -1; }
      if curr != 0 && end > curr { return -1; }
      Insert(prev, curr, blk, n, k);
      r := 0;
    }

    /** The insertion point: prev < blk <= curr. */
    method Walk(blk: u64) returns (prev: int, curr: int, ghost k: nat)
      requires Valid() && blk > 0
      ensures At(prev, curr, k) && Facts(k) && (k > 0 ==> Facts(k - 1)) && k == Slot(bs, blk)
    {
      hide Linked, Sum, Canon, Aligned, Slot;
      prev, curr, k := HEAD, headNext, 0;
      Node(mnext, mlength, headNext, bs, lo, hi, k);
      while curr != 0 && curr < blk
        invariant At(prev, curr, k) && Facts(k) && (k > 0 ==> Facts(k - 1))
        invariant forall i :: 0 <= i < k ==> bs[i].a < blk
        decreases |bs| - k
      {
        prev := curr;
        curr := mnext[curr];
        k := k + 1;
        Node(mnext, mlength, headNext, bs, lo, hi, k);
      }
      SlotAt(bs, blk, k);
    }

    /** The insertion itself, between two nodes the region does not overlap. */
    method Insert(prev: int, curr: int, blk: u64, n: u64, ghost k: nat)
      requires Valid() && At(prev, curr, k) && Facts(k) && (k > 0 ==> Facts(k - 1)) && blk > 0
      requires k == Slot(bs, blk) && Accepts(bs, lo, hi, blk, n)
      modifies this
      ensures lo == old(lo) && hi == old(hi)
      ensures 0 < n && blk + n < M64 && Aligned(blk) && Aligned(n) ==> Valid() && bs == Given(old(bs), k, blk, n)
      ensures Links(mnext, mlength, headNext) == old(Inserted(Links(mnext, mlength, headNext), bs, k, blk, n))
      ensures headLength == old(headLength) + n
    {
      hide Linked, Sum, Canon, Given, Aligned, Slot, Givable, Fits, Accepts, Attached, Absorbed;
      ghost var ok := 0 < n && blk + n < M64 && Aligned(blk) && Aligned(n);
      ghost var was := Links(mnext, mlength, headNext);
      if ok {
        InsertFits(bs, lo, hi, k, blk, n);
        InsertLinks(was, bs, lo, hi, k, blk, n);
        GivenSum(bs, k, blk, n);
      }
      var newblk := Attach(prev, curr, blk, n);
      Absorb(newblk, curr);
      headLength := headLength + n;
      if ok { bs := Given(bs, k, blk, n); }
    }

    /** Merge with the predecessor when adjacent, else become a node after it. */
    method Attach(prev: int, curr: int, blk: u64, n: u64) returns (newblk: int)
      requires (prev != HEAD ==> prev in mlength) && (curr != 0 ==> curr in mlength && curr in mnext)
      modifies this`mnext, this`mlength, this`headNext
      ensures newblk == Joined(old(mlength), prev, blk)
      ensures Links(mnext, mlength, headNext) == Attached(old(Links(mnext, mlength, headNext)), prev, curr, blk, n)
      ensures newblk in mlength && (curr != 0 ==> curr in mlength && curr in mnext)
    {
      if prev != HEAD && prev + mlength[prev] == blk {
        mlength := mlength[prev := (mlength[prev] + n) % M64];
        newblk := prev;
      } else {
        newblk := blk;
        mnext := mnext[newblk := curr];
        mlength := mlength[newblk := n];
        SetNext(prev, newblk);
      }
    }

    /** Merge with the successor when adjacent. */
    method Absorb(newblk: int, curr: int)
      requires newblk in mlength && (curr != 0 ==> curr in mlength && curr in mnext)
      modifies this`mnext, this`mlength
      ensures Links(mnext, mlength, headNext) == Absorbed(old(Links(mnext, mlength, headNext)), newblk, curr)
    {
      if curr != 0 && (newblk + mlength[newblk]) % M64 == curr {
        mlength := mlength[newblk := (mlength[newblk] + mlength[curr]) % M64];
        mnext := mnext[newblk := mnext[curr]];
      }
    }

    method FreeBytes() returns (n: int)
      requires Valid()
      ensures n == Sum(bs)
    {
      n := headLength;
    }

    /** The largest size Getmem can still give. */
    method LargestBlock() returns (max: int)
      requires Valid()
      ensures max == Largest(bs)
    {
      hide Linked, Canon, Sum;
      max := 0;
      var curr := headNext;
      ghost var k: nat := 0;
      Node(mnext, mlength, headNext, bs, lo, hi, 0);
      while curr != 0
        invariant k <= |bs| && curr == Addr(bs, k) && Facts(k) && max == Largest(bs[..k])
        decreases |bs| - k
      {
        assert bs[..k + 1][..k] == bs[..k];
        if mlength[curr] > max { max := mlength[curr]; }
        curr := mnext[curr];
        k := k + 1;
        Node(mnext, mlength, headNext, bs, lo, hi, k);
      }
      assert bs[..k] == bs;
    }

    method BlockCount() returns (n: int)
      requires Valid()
      ensures n == |bs|
    {
      hide Linked, Canon, Sum;
      n := 0;
      var curr := headNext;
      Node(mnext, mlength, headNext, bs, lo, hi, 0);
      while curr != 0
        invariant 0 <= n <= |bs| && curr == Addr(bs, n) && Facts(n)
        decreases |bs| - n
      {
        n := n + 1;
        curr := mnext[curr];
        Node(mnext, mlength, headNext, bs, lo, hi, n);
      }
    }
  }

  // ---------------------------------------------------------------- when freemem is right

  ghost predicate Outside(bs: seq<Blk>, lo: int, hi: int, a: int, n: int) { a < lo || a + n > hi || !Clear(bs, a, n) }

  /** A region whose end does not wrap is accepted exactly when it is inside and clear. */
  lemma AcceptsIff(bs: seq<Blk>, lo: int, hi: int, a: u64, n: u64)
    requires Canon(bs, lo, hi) && 0 < lo && hi < M64 && n > 0 && a + n < M64
    ensures Accepts(bs, lo, hi, a, n) <==> !Outside(bs, lo, hi, a, n)
  {
    ClearSlot(bs, lo, hi, a, n);
  }

  /** Whether freemem decides rightly about a list: it takes the region exactly when the
      caller's bytes, rounded up, lie in the heap and clear of the free blocks. */
  ghost predicate Rightly(bs: seq<Blk>, lo: int, hi: int, a: u64, nbytes: u64) {
    Accepts(bs, lo, hi, a, Round(nbytes)) <==> !Outside(bs, lo, hi, a, Up(nbytes))
  }

  /** It does so on every list if and only if the end of the region does not wrap, or the
      bounds reject it all the same. */
  lemma RejectsRightly(lo: int, hi: int, a: u64, nbytes: u64)
    requires 0 < lo && hi < M64 && a > 0 && nbytes > 0
    ensures (forall bs :: Canon(bs, lo, hi) ==> Rightly(bs, lo, hi, a, nbytes))
            <==> a + Up(nbytes) < M64 || a < lo || a + Up(nbytes) - M64 > hi
  {
    hide Round, Up, Canon, Clear;
    UpRound(nbytes);
    if a + Up(nbytes) < M64 || a < lo || a + Up(nbytes) - M64 > hi {
      forall bs | Canon(bs, lo, hi) ensures Rightly(bs, lo, hi, a, nbytes) {
        if a + Up(nbytes) < M64 { AcceptsIff(bs, lo, hi, a, Up(nbytes)); }
      }
    } else {
      EmptyCanon(lo, hi);
      assert Accepts([], lo, hi, a, Round(nbytes));
      assert !Rightly([], lo, hi, a, nbytes);
    }
  }

  lemma EmptyCanon(lo: int, hi: int)
    ensures Canon([], lo, hi)
  {
  }

  /** Both ways for it to fail: a region that wraps is accepted as almost the whole address
      space, and a size that rounds to 0 is accepted as no bytes. */
  lemma WrapAccepted()
    ensures Accepts([], 16, 64, 32, Round(M64 - 16)) && Outside([], 16, 64, 32, M64 - 16)
    ensures Accepts([], 16, 64, 32, Round(M64 - 1)) && Outside([], 16, 64, 32, M64 - 1)
  {
  }

  lemma OneTaken()
    ensures Round(16) == 16 && Round(48) == 48 && Round(M64 - 1) == 0 && Accepts([], 16, 64, 32, 0)
    ensures Fit([Blk(16, 48)], 48) == 0 && Taken([Blk(16, 48)], 0, 48) == []
  {
  }

  /** The second way on a heap all of which has been handed out: the return of 2^64 - 1 bytes
      succeeds, and leaves a node of length 0 as the free list. */
  method EmptyNode() returns (h: Heap, r: int)
    ensures r == 0 && h.headNext == 32 && 32 in h.mlength && h.mlength[32] == 0
  {
    hide Linked, Canon, Sum, Fit, Taken, Given, Aligned, Slot, Accepts, Inserted;
    OneTaken();
    h := new Heap(16, 64);
    var a := h.Getmem(48);
    r := h.Freemem(32, M64 - 1);
  }

  /** Giving back what was just taken restores the identical list. */
  lemma TakenGiven(bs: seq<Blk>, lo: int, hi: int, k: nat, n: int)
    requires Canon(bs, lo, hi) && k < |bs| && 0 < n <= bs[k].len && Aligned(n)
    ensures var t := Taken(bs, k, n); Given(t, Slot(t, bs[k].a), bs[k].a, n) == bs
  {
    hide Aligned, Given, Taken, Slot, Free;
    var t, a := Taken(bs, k, n), bs[k].a;
    Beside(bs, lo, hi, k);
    TakenCanon(bs, lo, hi, k, n);
    forall x ensures !(Free(t, x) && a <= x < a + n) { TakenFree(bs, lo, hi, k, n, x); }
    var g := Given(t, Slot(t, a), a, n);
    GivenCanon(t, lo, hi, a, n);
    forall x ensures Free(g, x) <==> Free(bs, x) {
      GivenFree(t, lo, hi, a, n, x);
      TakenFree(bs, lo, hi, k, n, x);
      FreeAt(bs, k, x);
    }
    Unique(g, bs, lo, hi);
  }

  // ---------------------------------------------------------------- histories

  /** A request, or the return of the i-th live block. */
  datatype Op = Get(n: nat) | Put(i: nat)

  datatype State = State(bs: seq<Blk>, live: seq<Blk>)

  /** One call, as Getmem and Freemem perform it; requests outside the range rounding can
      represent, and returns of nothing, are not part of a history. */
  function Step(s: State, op: Op): State {
    match op
    case Get(n) =>
      if 0 < n <= M64 - 32 && Fit(s.bs, Round(n)) < |s.bs| then
        var k := Fit(s.bs, Round(n));
        State(Taken(s.bs, k, Round(n)), s.live + [Blk(s.bs[k].a, Round(n))])
      else s
    case Put(i) =>
      if i < |s.live| then
        State(Given(s.bs, Slot(s.bs, s.live[i].a), s.live[i].a, s.live[i].len), s.live[..i] + s.live[i + 1..])
      else s
  }

  function After(lo: int, hi: int, ops: seq<Op>): State {
    if ops == [] then State([Blk(lo, hi - lo)], []) else Step(After(lo, hi, ops[..|ops| - 1]), ops[|ops| - 1])
  }

  /** Every byte of the heap is on the free list or in a live block, never both, and no two
      live blocks share a byte. */
  ghost predicate Tiled(s: State, lo: int, hi: int) {
    && (forall i :: 0 <= i < |s.live| ==> Proper(s.live[i], lo, hi))
    && (forall x :: lo <= x < hi ==> (Free(s.bs, x) <==> !Free(s.live, x)))
    && (forall i, j, x :: 0 <= i < |s.live| && 0 <= j < |s.live| && In(s.live[i], x) && In(s.live[j], x) ==> i == j)
  }

  ghost predicate Inv(s: State, lo: int, hi: int) {
    Canon(s.bs, lo, hi) && Tiled(s, lo, hi) && Sum(s.bs) + Sum(s.live) == hi - lo
  }

  lemma FreeInside(bs: seq<Blk>, lo: int, hi: int, x: int)
    requires forall i :: 0 <= i < |bs| ==> Proper(bs[i], lo, hi)
    ensures Free(bs, x) ==> lo <= x < hi
  {
    hide Aligned;
  }

  lemma GetTiled(s: State, lo: int, hi: int, n: int, k: nat)
    requires Canon(s.bs, lo, hi) && Tiled(s, lo, hi) && k < |s.bs| && 0 < n <= s.bs[k].len && Aligned(n)
    ensures Tiled(State(Taken(s.bs, k, n), s.live + [Blk(s.bs[k].a, n)]), lo, hi)
  {
    hide Aligned, Taken;
    var b := Blk(s.bs[k].a, n);
    var t := State(Taken(s.bs, k, n), s.live + [b]);
    Beside(s.bs, lo, hi, k);
    forall x | lo <= x < hi ensures Free(t.bs, x) <==> !Free(t.live, x) {
      TakenFree(s.bs, lo, hi, k, n, x);
      FreeAt(s.bs, k, x);
      FreeConcat(s.live, [b], x);
      FreeOne(b, x);
    }
    forall i, x | 0 <= i < |s.live| && In(s.live[i], x) ensures !In(b, x) {
      FreeAt(s.live, i, x);
      FreeAt(s.bs, k, x);
    }
  }

  lemma FreeSplit(live: seq<Blk>, i: nat, x: int)
    requires i < |live|
    ensures Free(live, x) <==> Free(live[..i] + live[i + 1..], x) || In(live[i], x)
  {
    hide Free;
    assert live == live[..i] + ([live[i]] + live[i + 1..]);
    FreeConcat(live[..i], [live[i]] + live[i + 1..], x);
    FreeConcat([live[i]], live[i + 1..], x);
    FreeOne(live[i], x);
    FreeConcat(live[..i], live[i + 1..], x);
  }

  lemma PutTiled(s: State, lo: int, hi: int, i: nat)
    requires Canon(s.bs, lo, hi) && Tiled(s, lo, hi) && i < |s.live|
    ensures var b := s.live[i];
            Givable(s.bs, lo, hi, b.a, b.len)
              && Tiled(State(Given(s.bs, Slot(s.bs, b.a), b.a, b.len), s.live[..i] + s.live[i + 1..]), lo, hi)
  {
    hide Aligned, Given, Slot;
    var b := s.live[i];
    var rest := s.live[..i] + s.live[i + 1..];
    assert forall j :: 0 <= j < |rest| ==> rest[j] == s.live[if j < i then j else j + 1];
    forall x | b.a <= x < End(b) ensures !Free(s.bs, x) { FreeAt(s.live, i, x); }
    var t := Given(s.bs, Slot(s.bs, b.a), b.a, b.len);
    forall x | lo <= x < hi ensures Free(t, x) <==> !Free(rest, x) {
      GivenFree(s.bs, lo, hi, b.a, b.len, x);
      FreeSplit(s.live, i, x);
      assert forall j :: 0 <= j < |rest| ==> !(In(rest[j], x) && In(b, x));
    }
  }

  lemma StepInv(s: State, lo: int, hi: int, op: Op)
    requires Inv(s, lo, hi)
    ensures Inv(Step(s, op), lo, hi)
  {
    hide Tiled, Canon, Sum, Taken, Given, Aligned, Round, Givable, Slot;
    match op
    case Get(n) =>
      if 0 < n <= M64 - 32 && Fit(s.bs, Round(n)) < |s.bs| {
        RoundCases(n);
        var k := Fit(s.bs, Round(n));
        GetTiled(s, lo, hi, Round(n), k);
        TakenCanon(s.bs, lo, hi, k, Round(n));
        TakenSum(s.bs, k, Round(n));
        SumSplit(s.live, [Blk(s.bs[k].a, Round(n))]);
        SumOne(Blk(s.bs[k].a, Round(n)));
      }
    case Put(i) =>
      if i < |s.live| {
        var b := s.live[i];
        PutTiled(s, lo, hi, i);
        GivenCanon(s.bs, lo, hi, b.a, b.len);
        GivenSum(s.bs, Slot(s.bs, b.a), b.a, b.len);
        SpliceSum(s.live, i, i + 1, []);
        assert s.live[i..i + 1] == [b];
        assert Splice(s.live, i, i + 1, []) == s.live[..i] + s.live[i + 1..];
        SumOne(b);
      }
  }

  lemma InitInv(lo: int, hi: int)
    requires 0 < lo < hi && Aligned(lo) && Aligned(hi)
    ensures Inv(State([Blk(lo, hi - lo)], []), lo, hi)
  {
    SumOne(Blk(lo, hi - lo));
    AlignedSum(hi, lo);
    var one := [Blk(lo, hi - lo)];
    forall x ensures Free(one, x) <==> lo <= x < hi { FreeOne(Blk(lo, hi - lo), x); }
  }

  /** Heap safety over every history. */
  lemma {:induction false} HistoryInv(lo: int, hi: int, ops: seq<Op>)
    requires 0 < lo < hi && Aligned(lo) && Aligned(hi)
    ensures Inv(After(lo, hi, ops), lo, hi)
    decreases |ops|
  {
    hide Inv, Step, Aligned;
    if ops == [] {
      InitInv(lo, hi);
    } else {
      HistoryInv(lo, hi, ops[..|ops| - 1]);
      StepInv(After(lo, hi, ops[..|ops| - 1]), lo, hi, ops[|ops| - 1]);
    }
  }

  /** When everything has been returned, in whatever order and however it was split up in
      between, the list is the single initial block again. */
  lemma AllReturned(lo: int, hi: int, ops: seq<Op>)
    requires 0 < lo < hi && Aligned(lo) && Aligned(hi) && After(lo, hi, ops).live == []
    ensures After(lo, hi, ops).bs == [Blk(lo, hi - lo)]
  {
    hide After, Sum, Aligned;
    HistoryInv(lo, hi, ops);
    InitInv(lo, hi);
    var bs, one := After(lo, hi, ops).bs, [Blk(lo, hi - lo)];
    forall x ensures Free(bs, x) <==> Free(one, x) {
      FreeInside(bs, lo, hi, x);
      FreeInside(one, lo, hi, x);
      FreeNone(x);
      FreeOne(Blk(lo, hi - lo), x);
    }
    Unique(bs, one, lo, hi);
  }

  lemma RoundAligned(x: u64)
    requires Aligned(x)
    ensures x <= M64 - 16 && Round(x) == x
  {
    var k := x / 16;
    assert x == 16 * k;
    assert (x + 15) / 16 == k;
  }

  /** A live block is accepted when it comes back. */
  lemma LiveAccepted(s: State, lo: int, hi: int, i: nat)
    requires Inv(s, lo, hi) && i < |s.live| && 0 < lo && hi < M64
    ensures var b := s.live[i];
            && lo <= b.a < M64 && 0 < b.len < M64 && Aligned(b.a) && Round(b.len) == b.len <= M64 - 16
               && b.a + b.len < M64
            && Accepts(s.bs, lo, hi, b.a, b.len)
  {
    hide Aligned, Round, Given, Slot, Accepts, Canon, Sum;
    var b := s.live[i];
    PutTiled(s, lo, hi, i);
    assert Proper(b, lo, hi);
    RoundAligned(b.len);
    AcceptsIff(s.bs, lo, hi, b.a, b.len);
  }

  /** A client of the allocator from start-up on: whatever it asks for and returns, the
      allocator is where the history says, no return is refused, and what a request answers
      is a block the client alone then holds. */
  method Client(h: Heap, ops: seq<Op>) returns (live: seq<Blk>)
    requires h.Valid() && h.bs == [Blk(h.lo, h.hi - h.lo)]
    modifies h
    ensures h.Valid() && h.lo == old(h.lo) && h.hi == old(h.hi)
    ensures State(h.bs, live) == After(h.lo, h.hi, ops)
    ensures Tiled(State(h.bs, live), h.lo, h.hi) && Sum(h.bs) + Sum(live) == h.hi - h.lo
    ensures live == [] ==> h.bs == [Blk(h.lo, h.hi - h.lo)]
  {
    hide Canon, Sum, Taken, Given, Aligned, Round, Slot, Accepts, After, Inv, Tiled;
    live := [];
    StartAt(h.lo, h.hi, ops);
    for i := 0 to |ops|
      invariant h.Valid() && h.lo == old(h.lo) && h.hi == old(h.hi)
      invariant State(h.bs, live) == After(h.lo, h.hi, ops[..i])
    {
      ghost var s := State(h.bs, live);
      HistoryInv(h.lo, h.hi, ops[..i]);
      AfterSnoc(h.lo, h.hi, ops, i);
      match ops[i]
      case Get(n) =>
        if 0 < n <= M64 - 32 {
          var r := h.Getmem(n);
          if r != 0 { live := live + [Blk(r, Round(n))]; }
          FitPositive(s.bs, h.lo, h.hi, Round(n));
        }
      case Put(j) =>
        if j < |live| {
          LiveAccepted(s, h.lo, h.hi, j);
          var r := h.Freemem(live[j].a, live[j].len);
          assert r == 0;
          live := live[..j] + live[j + 1..];
        }
    }
    assert ops[..|ops|] == ops;
    HistoryInv(h.lo, h.hi, ops);
    InvParts(State(h.bs, live), h.lo, h.hi);
    if live == [] { AllReturned(h.lo, h.hi, ops); }
  }

  lemma InvParts(s: State, lo: int, hi: int)
    requires Inv(s, lo, hi)
    ensures Tiled(s, lo, hi) && Sum(s.bs) + Sum(s.live) == hi - lo
  {
  }

  lemma StartAt(lo: int, hi: int, ops: seq<Op>)
    ensures After(lo, hi, ops[..0]) == State([Blk(lo, hi - lo)], [])
  {
  }

  lemma AfterSnoc(lo: int, hi: int, ops: seq<Op>, i: nat)
    requires i < |ops|
    ensures After(lo, hi, ops[..i + 1]) == Step(After(lo, hi, ops[..i]), ops[i])
  {
    assert ops[..i + 1][..i] == ops[..i];
  }

  /** A block handed out is never at address 0. */
  lemma FitPositive(bs: seq<Blk>, lo: int, hi: int, n: int)
    requires Canon(bs, lo, hi) && 0 < lo
    ensures Fit(bs, n) < |bs| ==> bs[Fit(bs, n)].a > 0
  {
    if Fit(bs, n) < |bs| { assert Proper(bs[Fit(bs, n)], lo, hi); }
  }
}
