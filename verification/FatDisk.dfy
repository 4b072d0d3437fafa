/** A FAT32 volume as sectors: table entries in every copy of the table, and the data area. */
module FatDisk {
  import opened Word

  const M28 := 0x1000_0000

  type Sector = s: seq<byte> | |s| == 512 witness seq(512, _ => 0)

  /** Geometry: sectors per cluster, table copies, sectors per table, first table sector. */
  datatype Geo = Geo(spc: nat, fats: nat, spf: nat, fatLba: nat, root: nat) {
    function Total(): nat { spf * 128 }
    function DataLba(): nat { fatLba + fats * spf }
    function Cluster(): nat { spc * 512 }
  }

  /** What mounting checks, a root directory in the table, and cluster numbers below the
      end-of-chain marks. */
  ghost predicate Sound(g: Geo) {
    g.spc > 0 && g.fats > 0 && 2 <= g.root < g.Total() && g.Total() <= 0x0FFF_FFF8
  }

  /** The first sector of a cluster, counted within the data area. */
  function At(g: Geo, c: int): int { (c - 2) * g.spc }

  lemma AtBounds(g: Geo, c: int, s: int)
    requires Sound(g) && 2 <= c < g.Total() && 0 <= s < g.spc
    ensures 0 <= At(g, c) + s < (g.Total() - 2) * g.spc
  {
    assert At(g, c) + g.spc == (c - 1) * g.spc <= (g.Total() - 2) * g.spc;
  }

  /** Clusters do not overlap. */
  lemma AtDistinct(g: Geo, c: int, s: int, d: int, t: int)
    requires 0 <= s < g.spc && 0 <= t < g.spc && At(g, c) + s == At(g, d) + t
    ensures c == d && s == t
  {
    if c < d { MulApart(c - 2, d - 2, g.spc); }
    if d < c { MulApart(d - 2, c - 2, g.spc); }
  }

  /** The sequence covers the tables and every cluster they can name; how many of these
      sectors the device really has is the volume's business. */
  ghost predicate Fits(g: Geo, d: seq<Sector>) {
    Sound(g) && |d| >= g.DataLba() && |d| - g.DataLba() >= (g.Total() - 2) * g.spc
  }

  // ---------------------------------------------------------------- table entries

  function Four(a: int, b: int, c: int, d: int): int { a + 256 * b + 0x1_0000 * c + 0x100_0000 * d }

  function Le32(s: Sector, off: nat): nat
    requires off + 4 <= 512
  {
    Four(s[off], s[off + 1], s[off + 2], s[off + 3])
  }

  /** Store the low 28 bits, keeping the reserved top nibble. */
  function Stored(s: Sector, off: nat, v: nat): Sector
    requires off + 4 <= 512
  {
    s[off := v % 256][off + 1 := v / 256 % 256][off + 2 := v / 0x1_0000 % 256]
     [off + 3 := v / 0x100_0000 % 16 + s[off + 3] / 16 * 16]
  }

  lemma Digits28(v: nat)
    ensures v % 256 + 256 * (v / 256 % 256) + 0x1_0000 * (v / 0x1_0000 % 256) + 0x100_0000 * (v / 0x100_0000 % 16)
            == v % M28
  {
    var q1 := v / 256;
    var q2 := q1 / 256;
    var q3 := q2 / 256;
    assert v / 0x1_0000 == q2 && v / 0x100_0000 == q3;
    assert v == v % 256 + 256 * (q1 % 256) + 0x1_0000 * (q2 % 256) + 0x100_0000 * (q3 % 16) + M28 * (q3 / 16);
  }

  lemma StoredIs(s: Sector, off: nat, v: nat)
    requires off + 4 <= 512
    ensures Le32(Stored(s, off, v), off) == Le32(s, off) / M28 * M28 + v % M28
    ensures forall o :: 0 <= o <= 508 && (o + 4 <= off || off + 4 <= o) ==> Le32(Stored(s, off, v), o) == Le32(s, o)
  {
    Digits28(v);
    var b: int := s[off + 3];
    var low := Four(s[off], s[off + 1], s[off + 2], b % 16);
    TopNibble(low, b);
  }

  lemma TopNibble(low: int, b: int)
    requires 0 <= low < M28 && 0 <= b
    ensures (low - 0x100_0000 * (b % 16) + 0x100_0000 * b) / M28 * M28 == 0x100_0000 * (b / 16 * 16)
  {
    var x := low - 0x100_0000 * (b % 16) + 0x100_0000 * b;
    assert x == low + M28 * (b / 16);
    assert x / M28 == b / 16;
  }

  /** The sector of copy f that holds the entry of cluster c. */
  function Where(g: Geo, f: int, c: int): int { g.fatLba + f * g.spf + c / 128 }

  lemma WhereBounds(g: Geo, f: int, c: int)
    requires Sound(g) && 0 <= f < g.fats && 0 <= c < g.Total()
    ensures g.fatLba <= Where(g, f, c) < g.DataLba() && c / 128 < g.spf
  {
    MulApart(f, g.fats, g.spf);
    MulSign(f, g.spf);
    Below(c, g.spf);
  }

  lemma Below(c: int, n: nat)
    requires 0 <= c < n * 128
    ensures 0 <= c / 128 < n
  {
  }

  lemma MulSign(a: nat, b: nat)
    ensures a * b >= 0
  {
  }

  lemma WhereRange(g: Geo, f: int, c: int)
    requires Sound(g) && 0 <= c < g.Total()
    ensures g.fatLba + f * g.spf <= Where(g, f, c) < g.fatLba + f * g.spf + g.spf
  {
  }

  lemma SameEntry(c: int, c': int)
    requires 0 <= c && 0 <= c'
    ensures c / 128 == c' / 128 && c % 128 == c' % 128 ==> c == c'
  {
  }

  /** Copies do not overlap, and a sector holds 128 entries. */
  lemma WhereDistinct(g: Geo, f: int, c: int, f': int, c': int)
    requires Sound(g) && 0 <= c < g.Total() && 0 <= c' < g.Total() && Where(g, f, c) == Where(g, f', c')
             && c % 128 == c' % 128
    ensures f == f' && c == c'
  {
    WhereRange(g, f, c);
    WhereRange(g, f', c');
    if f < f' { MulApart(f, f', g.spf); }
    if f' < f { MulApart(f', f, g.spf); }
    SameEntry(c, c');
  }

  /** The 32-bit entry of cluster c in copy f. */
  function Entry(g: Geo, d: seq<Sector>, f: int, c: int): nat
    requires Fits(g, d) && 0 <= f < g.fats && 0 <= c < g.Total()
  {
    WhereBounds(g, f, c);
    Le32(d[Where(g, f, c)], c % 128 * 4)
  }

  /** The table: the low 28 bits of the first copy. */
  function Fat(g: Geo, d: seq<Sector>): (t: seq<nat>)
    requires Fits(g, d)
    ensures |t| == g.Total()
  {
    seq(g.Total(), c requires 0 <= c < g.Total() => Entry(g, d, 0, c) % M28)
  }

  /** The data area. */
  function Area(g: Geo, d: seq<Sector>): seq<Sector>
    requires Fits(g, d)
  {
    d[g.DataLba()..]
  }

  /** All copies are equal in their low 28 bits. */
  ghost predicate Agree(g: Geo, d: seq<Sector>)
    requires Fits(g, d)
  {
    forall f, c :: 0 <= f < g.fats && 0 <= c < g.Total() ==> Entry(g, d, f, c) % M28 == Entry(g, d, 0, c) % M28
  }

  /** No reserved top nibble has changed in any copy. */
  ghost predicate SameNibbles(g: Geo, d: seq<Sector>, d': seq<Sector>)
    requires Fits(g, d) && Fits(g, d')
  {
    forall f, c :: 0 <= f < g.fats && 0 <= c < g.Total() ==> Entry(g, d', f, c) / M28 == Entry(g, d, f, c) / M28
  }

  /** Everything outside the tables is as it was. */
  ghost predicate SameElsewhere(g: Geo, d: seq<Sector>, d': seq<Sector>) {
    |d'| == |d| && forall i :: 0 <= i < |d| && !(g.fatLba <= i < g.DataLba()) ==> d'[i] == d[i]
  }

  /** The first n copies hold v for cluster c, nibbles kept; everything else is as in d. */
  ghost predicate Partly(g: Geo, d: seq<Sector>, d': seq<Sector>, c: int, v: nat, n: int)
    requires Fits(g, d) && Fits(g, d')
  {
    && SameElsewhere(g, d, d')
    && forall f, b :: 0 <= f < g.fats && 0 <= b < g.Total() ==>
         Entry(g, d', f, b) == if f < n && b == c then Entry(g, d, f, b) / M28 * M28 + v % M28 else Entry(g, d, f, b)
  }

  lemma PartlyStep(g: Geo, d: seq<Sector>, d': seq<Sector>, c: int, v: nat, n: int)
    requires Fits(g, d) && Fits(g, d') && Partly(g, d, d', c, v, n) && 0 <= n < g.fats && 0 <= c < g.Total()
    ensures var w := Where(g, n, c);
            && 0 <= w < |d'| && c % 128 * 4 + 4 <= 512
            && Partly(g, d, d'[w := Stored(d'[w], c % 128 * 4, v)], c, v, n + 1)
  {
    hide Le32, Stored, Where, Sound, Fat;
    WhereBounds(g, n, c);
    var w := Where(g, n, c);
    var e := d'[w := Stored(d'[w], c % 128 * 4, v)];
    forall f, b | 0 <= f < g.fats && 0 <= b < g.Total()
      ensures Entry(g, e, f, b) == if f < n + 1
              && b == c then Entry(g, d, f, b) / M28 * M28 + v % M28 else Entry(g, d, f, b)
    {
      EntryPut(g, d', n, c, v, f, b);
    }
  }

  lemma OffsetFits(c: int)
    ensures 0 <= c % 128 * 4 && c % 128 * 4 + 4 <= 512
  {
  }

  lemma EntryPut(g: Geo, d: seq<Sector>, n: int, c: int, v: nat, f: int, b: int)
    requires Fits(g, d) && 0 <= n < g.fats && 0 <= c < g.Total() && 0 <= f < g.fats && 0 <= b < g.Total()
    ensures 0 <= Where(g, n, c) < |d| && c % 128 * 4 + 4 <= 512
    ensures var w := Where(g, n, c); var e := d[w := Stored(d[w], c % 128 * 4, v)];
            Fits(g, e) && Entry(g, e, f, b) == if f == n
              && b == c then Entry(g, d, n, c) / M28 * M28 + v % M28 else Entry(g, d, f, b)
  {
    hide Le32, Stored, Where, Sound;
    WhereBounds(g, n, c);
    WhereBounds(g, f, b);
    OffsetFits(c);
    OffsetFits(b);
    var w := Where(g, n, c);
    StoredIs(d[w], c % 128 * 4, v);
    if Where(g, f, b) == w && b % 128 == c % 128 { WhereDistinct(g, f, b, n, c); }
  }

  /** With all copies written, the table has one entry changed. */
  lemma PartlyAll(g: Geo, d: seq<Sector>, d': seq<Sector>, c: int, v: nat)
    requires Fits(g, d) && Fits(g, d') && Partly(g, d, d', c, v, g.fats) && 0 <= c < g.Total()
    ensures Fat(g, d') == Fat(g, d)[c := v % M28] && Area(g, d') == Area(g, d)
    ensures SameNibbles(g, d, d') && (Agree(g, d) ==> Agree(g, d'))
  {
    hide Entry;
    forall f | 0 <= f < g.fats
      ensures Entry(g, d', f, c) % M28 == v % M28 && Entry(g, d', f, c) / M28 == Entry(g, d, f, c) / M28
    {
      Halves(Entry(g, d, f, c) / M28, v % M28);
    }
  }

  lemma Halves(q: nat, r: nat)
    requires r < M28
    ensures (q * M28 + r) % M28 == r && (q * M28 + r) / M28 == q
  {
  }

  /** Writing a sector of the data area leaves the tables alone. */
  lemma AreaWrite(g: Geo, d: seq<Sector>, t: nat, s: Sector)
    requires Fits(g, d) && g.DataLba() + t < |d|
    ensures var d' := d[g.DataLba() + t := s];
            && Fat(g, d') == Fat(g, d) && Area(g, d') == Area(g, d)[t := s]
            && SameNibbles(g, d, d') && (Agree(g, d) ==> Agree(g, d'))
  {
    var d' := d[g.DataLba() + t := s];
    forall f, c | 0 <= f < g.fats && 0 <= c < g.Total() ensures Entry(g, d', f, c) == Entry(g, d, f, c) {
      WhereBounds(g, f, c);
    }
  }
}
