/** 64-bit words.  A register holds a bit pattern in [0, 2^64); the C subset's only
    integer type is a signed 64-bit number.  The lemmas say that each data-processing
    instruction computes, on patterns, what the source operator computes on numbers. */
module Word {
  const M64: int := 0x1_0000_0000_0000_0000
  const M63: int := 0x8000_0000_0000_0000
  const M32: int := 0x1_0000_0000

  type u64 = u: int | 0 <= u < 0x1_0000_0000_0000_0000 witness 0
  type i64 = v: int | -0x8000_0000_0000_0000 <= v < 0x8000_0000_0000_0000 witness 0
  type byte = b: int | 0 <= b < 256 witness 0

  function ToU(v: int): u64 { v % M64 }
  function ToS(u: u64): i64 { if u < M63 then u else u - M64 }
  function Wrap(v: int): i64 { ToS(ToU(v)) }

  /** C division truncates toward zero; Dafny's `/` is Euclidean. */
  function TruncDiv(a: int, b: int): int
    requires b != 0
  {
    if a >= 0 then a / b else -((-a) / b)
  }

  /** C remainder: same sign as the dividend, smaller than the divisor. */
  function TruncRem(a: int, b: int): int
    requires b != 0
  {
    if a >= 0 then a % b else -((-a) % b)
  }

  /** Blocks of n at distinct places do not overlap. */
  lemma MulApart(a: int, b: int, n: nat)
    requires a < b
    ensures a * n + n <= b * n
  {
    assert (b - a - 1) * n >= 0;
  }

  // Register operations.

  function RAdd(a: u64, b: u64): u64 { (a + b) % M64 }
  function RSub(a: u64, b: u64): u64 { (a - b) % M64 }
  function RMul(a: u64, b: u64): u64 { (a * b) % M64 }
  /** SDIV yields 0 on a zero divisor and wraps on the most negative value over -1. */
  function RSdiv(a: u64, b: u64): u64 { if b == 0 then 0 else ToU(TruncDiv(ToS(a), ToS(b))) }
  function RMsub(a: u64, n: u64, m: u64): u64 { (a - n * m) % M64 }

  datatype Flags = Flags(n: bool, z: bool, v: bool)

  function SubFlags(a: u64, b: u64): Flags {
    var d := ToS(a) - ToS(b);
    Flags(RSub(a, b) >= M63, RSub(a, b) == 0, d < -M63 || d >= M63)
  }

  /** Division from the quotient and the remainder. */
  lemma Quotient(d: int, m: int, q: int, r: int)
    requires m > 0 && d == q * m + r && 0 <= r < m
    ensures d / m == q && d % m == r
  {
    var q', r' := d / m, d % m;
    assert d == q' * m + r';
    assert (q - q') * m == r' - r by { assert (q - q') * m == q * m - q' * m; }
    if q > q' { Bigger(q - q', m); }
    if q < q' { Bigger(q' - q, m); }
  }

  lemma Bigger(k: int, m: int)
    requires k >= 1 && m > 0
    ensures k * m >= m
  {
  }

  lemma ModUnique(x: int, q: int, r: int)
    requires x == q * M64 + r && 0 <= r < M64
    ensures x % M64 == r
  {
    var q' := x / M64;
    var r' := x % M64;
    assert x == q' * M64 + r';
    assert (q - q') * M64 == r' - r;
  }

  lemma ModShift(x: int, k: int)
    ensures (x + k * M64) % M64 == x % M64
  {
    ModUnique(x + k * M64, x / M64 + k, x % M64);
  }

  lemma SignRoundTrip(v: i64, u: u64)
    ensures ToS(ToU(v)) == v && ToU(ToS(u)) == u
    ensures exists k :: ToS(u) == u + k * M64
  {
    if v < 0 { ModUnique(v, -1, v + M64); }
    if u >= M63 { ModUnique(u - M64, -1, u); }
    assert ToS(u) == u + (if u < M63 then 0 else -1) * M64;
  }

  lemma WrapPattern(v: int)
    ensures ToU(Wrap(v)) == ToU(v)
  {
    SignRoundTrip(0, ToU(v));
  }

  /** The pattern of a number differs from it by a multiple of 2^64. */
  lemma PatternOf(v: int) returns (k: int)
    ensures ToU(v) == v + k * M64
  {
    k := -(v / M64);
  }

  lemma AddPatterns(a: int, b: int)
    ensures RAdd(ToU(a), ToU(b)) == ToU(a + b)
    ensures RSub(ToU(a), ToU(b)) == ToU(a - b)
  {
    var j := PatternOf(a);
    var k := PatternOf(b);
    ModShift(a + b, j + k);
    ModShift(a - b, j - k);
  }

  lemma MulPatterns(a: int, b: int)
    ensures RMul(ToU(a), ToU(b)) == ToU(a * b)
  {
    var j := PatternOf(a);
    var k := PatternOf(b);
    assert (a + j * M64) * (b + k * M64) == a * b + (a * k + j * b + j * k * M64) * M64;
    ModShift(a * b, a * k + j * b + j * k * M64);
  }

  lemma MsubPatterns(a: int, q: int, b: int)
    ensures RMsub(ToU(a), ToU(q), ToU(b)) == ToU(a - q * b)
  {
    MulPatterns(q, b);
    AddPatterns(a, q * b);
    var x := ToU(q) * ToU(b);
    var k := PatternOf(x);
    ModShift(ToU(a) - x, -k);
  }

  function Abs(x: int): nat { if x < 0 then -x else x }

  /** q and r are what truncating division yields: the remainder is smaller than the divisor
      and has the sign of the dividend. */
  predicate Truncated(a: int, b: int, q: int, r: int) {
    a == q * b + r && Abs(r) < Abs(b) && (r == 0 || (r < 0 <==> a < 0))
  }

  lemma DivRem(a: int, b: int)
    requires b != 0
    ensures Truncated(a, b, TruncDiv(a, b), TruncRem(a, b))
  {
  }

  lemma AbsMul(x: int, y: int)
    ensures Abs(x * y) == Abs(x) * Abs(y)
  {
    if x >= 0 && y >= 0 { Sign(x, y); }
    if x < 0 && y >= 0 { Sign(-x, y); }
    if x >= 0 && y < 0 { Sign(x, -y); }
    if x < 0 && y < 0 { Sign(-x, -y); }
  }

  lemma Sign(x: nat, y: nat)
    ensures x * y >= 0
  {
  }

  lemma AtLeast(x: nat, y: nat, k: nat)
    requires x >= k
    ensures x * y >= k * y
  {
    Sign(x - k, y);
  }

  /** At most one pair is. */
  lemma TruncatedUnique(a: int, b: int, q: int, r: int, q': int, r': int)
    requires Truncated(a, b, q, r) && Truncated(a, b, q', r')
    ensures q == q' && r == r'
  {
    assert (q - q') * b == r' - r;
    AbsMul(q - q', b);
    if q != q' { AtLeast(Abs(q - q'), Abs(b), 1); }
  }

  /** Of numbers in [-m, m) the quotient is in [-m, m) again, but for one pair. */
  lemma QuotientBound(a: int, b: int, q: int, r: int, m: int)
    requires m > 0 && -m <= a < m && -m <= b < m && Truncated(a, b, q, r) && !(a == -m && b == -1)
    ensures -m <= q < m && -m <= r < m
  {
    QuotientSmaller(a, b, q, r);
  }

  lemma QuotientSmaller(a: int, b: int, q: int, r: int)
    requires Truncated(a, b, q, r)
    ensures if b == 1 then q == a else if b == -1 then q == -a else 2 * Abs(q) <= Abs(a)
  {
    if b != 1 && b != -1 { QuotientHalves(a, b, q, r); }
  }

  lemma QuotientHalves(a: int, b: int, q: int, r: int)
    requires Truncated(a, b, q, r) && Abs(b) >= 2
    ensures 2 * Abs(q) <= Abs(a)
  {
    var x := q * b;
    AbsMul(q, b);
    if q != 0 { AtLeast(Abs(q), Abs(b), 1); }
    SameSign(x, r);
    AtLeast(Abs(b), Abs(q), 2);
  }

  lemma SameSign(x: int, r: int)
    requires r == 0 || (r < 0 <==> x + r < 0)
    requires Abs(r) < Abs(x) || x == 0
    ensures Abs(x) <= Abs(x + r)
  {
  }

  /** After CMP, the LT and LE conditions decide the signed order of the operands. */
  lemma SignedOrder(a: u64, b: u64)
    ensures var f := SubFlags(a, b);
            && (f.z <==> a == b)
            && (f.n != f.v <==> ToS(a) < ToS(b))
            && (f.z || f.n != f.v <==> ToS(a) <= ToS(b))
  {
    var d := a - b;
    if d < 0 { ModUnique(d, -1, d + M64); } else { ModUnique(d, 0, d); }
  }
}
