/** Byte-addressed little-endian memory. */
module Mem {
  import opened Word

  type Memory = map<int, byte>

  predicate Has(m: Memory, a: int, n: int) { forall i :: a <= i < a + n ==> i in m }

  function At(m: Memory, a: int): int
    requires a in m
  {
    m[a]
  }

  function Load8(m: Memory, a: int): u64
    requires Has(m, a, 8)
  {
    At(m, a) + 256 * (At(m, a + 1) + 256 * (At(m, a + 2) + 256 * (At(m, a + 3)
    + 256 * (At(m, a + 4) + 256 * (At(m, a + 5) + 256 * (At(m, a + 6) + 256 * At(m, a + 7)))))))
  }

  /** Byte k of the little-endian encoding of v. */
  function ByteOf(v: u64, k: int): byte {
    var v1 := v / 256;
    var v2 := v1 / 256;
    var v3 := v2 / 256;
    var v4 := v3 / 256;
    var v5 := v4 / 256;
    var v6 := v5 / 256;
    (if k == 0 then v else if k == 1 then v1 else if k == 2 then v2 else if k == 3 then v3
     else if k == 4 then v4 else if k == 5 then v5 else if k == 6 then v6 else v6 / 256) % 256
  }

  /** The part of a memory at the addresses r. */
  function View(m: Memory, r: set<int>): Memory { map a | a in m && a in r :: m[a] }

  function Bytes8(a: int, v: u64): Memory {
    map i: int {:trigger ByteOf(v, i - a)} | a <= i < a + 8 :: ByteOf(v, i - a)
  }

  function Store8(m: Memory, a: int, v: u64): Memory { m + Bytes8(a, v) }

  lemma Digits(v: u64)
    ensures v == ByteOf(v, 0) + 256 * (ByteOf(v, 1) + 256 * (ByteOf(v, 2) + 256 * (ByteOf(v, 3)
                 + 256 * (ByteOf(v, 4) + 256 * (ByteOf(v, 5) + 256 * (ByteOf(v, 6) + 256 * ByteOf(v, 7) as int))))))
  {
  }

  lemma LoadStore(m: Memory, a: int, v: u64)
    ensures Has(Store8(m, a, v), a, 8) && Load8(Store8(m, a, v), a) == v
  {
    Digits(v);
  }

  /** Memories that agree on eight bytes load the same word. */
  lemma LoadAgree(m: Memory, m': Memory, a: int)
    requires Has(m, a, 8) && Has(m', a, 8)
    requires forall i :: a <= i < a + 8 ==> m[i] == m'[i]
    ensures Load8(m, a) == Load8(m', a)
  {
  }
}
