/** Immutable lists on a bump heap: a list is a tagged pointer to a length cell and its
    items, and every change copies.  However the cells are shared, programs over such lists
    compute what they would on mathematical sequences. */
module Lists {
  import opened Options
  import opened Word
  import V = AiplRun

  const CELLS: int := 32768
  const TAG: int := 0x2000_0000_0000_0000
  const PTR: int := 0x1_0000_0000_0000

  // ---------------------------------------------------------------- handles

  /** The kernel's addresses are 8-aligned and fit the 48 pointer bits. */
  predicate BaseOk(base: int) { 0 <= base && base % 8 == 0 && base + 8 * CELLS <= PTR }

  predicate IsList(w: i64) { w % 2 == 0 && V.Bit(w, TAG) }

  function Handle(base: int, i: int): (w: i64)
    requires BaseOk(base) && 0 <= i < CELLS
  {
    TAG + base + 8 * i
  }

  function IndexOf(base: int, w: i64): int { (ToU(w) % PTR - base) / 8 }

  lemma HandleFacts(base: int, i: int)
    requires BaseOk(base) && 0 <= i < CELLS
    ensures IsList(Handle(base, i)) && IndexOf(base, Handle(base, i)) == i && V.IntOf(Handle(base, i)) == 0
  {
    hide BaseOk;
    var w := Handle(base, i);
    HandleBits(base, i);
    Quotient(w, M64, 0, w);
    TagSet(w);
    TagNotBool(w);
  }

  lemma HandleBits(base: int, i: int)
    requires BaseOk(base) && 0 <= i < CELLS
    ensures var w := Handle(base, i);
            TAG <= w < TAG + PTR && w % 2 == 0 && w % PTR == base + 8 * i && (base + 8 * i - base) / 8 == i
  {
    var w := Handle(base, i);
    Quotient(base, 8, base / 8, 0);
    Quotient(w, 2, TAG / 2 + 4 * (base / 8) + 4 * i, 0);
    Quotient(w, PTR, TAG / PTR, base + 8 * i);
    Quotient(8 * i, 8, i, 0);
  }

  lemma TagSet(w: int)
    requires TAG <= w < TAG + PTR && ToU(w) == w
    ensures V.Bit(w, TAG)
  {
    Quotient(w, TAG, 1, w - TAG);
  }

  lemma TagNotBool(w: int)
    requires TAG <= w < TAG + PTR && ToU(w) == w
    ensures !V.Bit(w, V.M62)
  {
    Quotient(w, V.M62, 0, w);
  }

  // ---------------------------------------------------------------- the heap as a value

  type Blocks = map<int, seq<i64>>

  /** Used cells, the lists at their first cells, allocations that failed. */
  datatype State = State(lists: Blocks, used: int, overflows: nat)

  /** A list word is the handle of a list of this run. */
  predicate Known(base: int, m: Blocks, w: i64) {
    IsList(w) ==> var i := IndexOf(base, w); i in m && 0 <= i < CELLS && BaseOk(base) && w == Handle(base, i)
  }

  /** Items of a list were known before the list was. */
  ghost predicate Closed(base: int, m: Blocks) {
    forall i, k :: i in m && 0 <= k < |m[i]| ==>
      Known(base, m, m[i][k]) && (IsList(m[i][k]) ==> IndexOf(base, m[i][k]) < i)
  }

  ghost predicate Ok(base: int, s: State) {
    && BaseOk(base) && s.used <= CELLS && Closed(base, s.lists)
    && forall i :: i in s.lists ==> 0 <= i && i + 1 + |s.lists[i]| <= s.used
  }

  function Items(base: int, m: Blocks, w: i64): seq<i64>
    requires Known(base, m, w)
  {
    if IsList(w) then m[IndexOf(base, w)] else []
  }

  /** A list put on the heap, or what to answer if it does not fit. */
  function Put(base: int, s: State, xs: seq<i64>, full: i64): (r: (i64, State))
    requires BaseOk(base) && 0 <= s.used
  {
    if s.used + |xs| + 1 <= CELLS
    then (Handle(base, s.used), State(s.lists[s.used := xs], s.used + |xs| + 1, s.overflows))
    else (full, s.(overflows := s.overflows + 1))
  }

  function Push(base: int, s: State, w: i64, x: i64): (r: (i64, State))
    requires BaseOk(base) && 0 <= s.used && Known(base, s.lists, w)
  {
    Put(base, s, Items(base, s.lists, w) + [x], w)
  }

  function Set(base: int, s: State, w: i64, iv: i64, x: i64): (r: (i64, State))
    requires BaseOk(base) && 0 <= s.used && Known(base, s.lists, w)
  {
    var xs, i := Items(base, s.lists, w), V.IntOf(iv);
    if !IsList(w) || !(0 <= i < |xs|) then (w, s) else Put(base, s, xs[i := x], w)
  }

  function Get(base: int, s: State, w: i64, iv: i64): i64
    requires Known(base, s.lists, w)
  {
    var xs, i := Items(base, s.lists, w), V.IntOf(iv);
    if 0 <= i < |xs| then xs[i] else 1
  }

  function Length(base: int, s: State, w: i64): i64
    requires Known(base, s.lists, w)
  {
    V.MkInt(Wrap(|Items(base, s.lists, w)|))
  }

  /** The size handed to the allocator is cut to 32 bits. */
  function Cut(n: int): int { (n + 0x8000_0000) % 0x1_0000_0000 - 0x8000_0000 }

  /** The allocator grants fewer cells than a list of zeros will fill. */
  predicate Spills(s: State, nv: i64) {
    var n := if V.IntOf(nv) < 0 then 0 else V.IntOf(nv);
    0 <= Cut(n + 1) && s.used + Cut(n + 1) <= CELLS && Cut(n + 1) != n + 1
  }

  function Ones(n: nat): seq<i64> { seq(n, _ => 1) }

  function Zeros(base: int, s: State, nv: i64): (r: Option<(i64, State)>)
    requires BaseOk(base) && 0 <= s.used
  {
    var n := if V.IntOf(nv) < 0 then 0 else V.IntOf(nv);
    if Spills(s, nv) then None else Some(Put(base, s, Ones(n), 1))
  }

  /** A list of zeros is sound exactly when its length fits the allocator's 32-bit argument,
      or what is left of it after the cut is refused. */
  lemma SpillsWhen(s: State, nv: i64)
    requires 0 <= s.used <= CELLS
    ensures V.IntOf(nv) < 0x7FFF_FFFF ==> !Spills(s, nv)
    ensures Spills(s, nv) <==> V.IntOf(nv) >= 0x7FFF_FFFF && (V.IntOf(nv) + 1) % 0x1_0000_0000 <= CELLS - s.used
  {
    var n := if V.IntOf(nv) < 0 then 0 else V.IntOf(nv);
    var q, r := (n + 1) / 0x1_0000_0000, (n + 1) % 0x1_0000_0000;
    assert n + 1 == q * 0x1_0000_0000 + r;
    CutIs(n + 1, q, r);
  }

  lemma CutIs(n: int, q: int, r: int)
    requires n == q * 0x1_0000_0000 + r && 0 <= r < 0x1_0000_0000
    ensures Cut(n) == if r < 0x8000_0000 then r else r - 0x1_0000_0000
  {
    var x := n + 0x8000_0000;
    var q', r' := x / 0x1_0000_0000, x % 0x1_0000_0000;
    assert x == q' * 0x1_0000_0000 + r';
    assert r < 0x8000_0000 ==> q' == q;
    assert r >= 0x8000_0000 ==> q' == q + 1;
  }

  // ---------------------------------------------------------------- what every operation keeps

  ghost predicate Extends(m: Blocks, m': Blocks) { forall i :: i in m ==> i in m' && m'[i] == m[i] }

  lemma KnownExtends(base: int, m: Blocks, m': Blocks, w: i64)
    requires Known(base, m, w) && Extends(m, m')
    ensures Known(base, m', w)
  {
  }

  lemma PutOk(base: int, s: State, xs: seq<i64>, full: i64)
    requires Ok(base, s) && 0 <= s.used && Known(base, s.lists, full)
    requires forall k :: 0 <= k < |xs| ==> Known(base, s.lists, xs[k])
    ensures var (r, s') := Put(base, s, xs, full);
            Ok(base, s') && s.used <= s'.used && Extends(s.lists, s'.lists) && Known(base, s'.lists, r)
    ensures var (r, s') := Put(base, s, xs, full);
            r != full || s.used + |xs| + 1 <= CELLS ==> IsList(r) && Items(base, s'.lists, r) == xs
  {
    hide V.Bit;
    if s.used + |xs| + 1 <= CELLS {
      var m' := s.lists[s.used := xs];
      HandleFacts(base, s.used);
      hide Handle, IndexOf, IsList;
      forall w | Known(base, s.lists, w) ensures Known(base, m', w) && (IsList(w) ==> IndexOf(base, w) < s.used) {
        KnownExtends(base, s.lists, m', w);
      }
    }
  }

  // ---------------------------------------------------------------- immutable values

  datatype Value = Word(w: i64) | List(items: seq<Value>)

  /** The sequence of sequences a word stands for. */
  ghost function Den(base: int, m: Blocks, w: i64): Value
    requires Closed(base, m) && Known(base, m, w)
    decreases if IsList(w) then IndexOf(base, w) + 1 else 0, 0, 0
  {
    if !IsList(w) then Word(w)
    else List(DenAll(base, m, m[IndexOf(base, w)], IndexOf(base, w)))
  }

  ghost function DenAll(base: int, m: Blocks, xs: seq<i64>, bound: nat): (r: seq<Value>)
    requires Closed(base, m)
    requires forall k :: 0 <= k < |xs| ==> Known(base, m, xs[k]) && (IsList(xs[k]) ==> IndexOf(base, xs[k]) < bound)
    ensures |r| == |xs| && forall k :: 0 <= k < |xs| ==> r[k] == Den(base, m, xs[k])
    decreases bound, 1, |xs|
  {
    if xs == [] then [] else DenAll(base, m, xs[..|xs| - 1], bound) + [Den(base, m, xs[|xs| - 1])]
  }

  /** Nothing that happens later changes what a word stands for. */
  lemma {:induction false} DenExtends(base: int, m: Blocks, m': Blocks, w: i64)
    requires Closed(base, m) && Closed(base, m') && Known(base, m, w) && Extends(m, m')
    ensures Known(base, m', w) && Den(base, m', w) == Den(base, m, w)
    decreases if IsList(w) then IndexOf(base, w) + 1 else 0
  {
    if IsList(w) {
      var i := IndexOf(base, w);
      forall k | 0 <= k < |m[i]| ensures Den(base, m', m[i][k]) == Den(base, m, m[i][k]) {
        DenExtends(base, m, m', m[i][k]);
      }
    }
  }

  /** A list word stands for the list of what its items stand for. */
  lemma DenItems(base: int, m: Blocks, w: i64)
    requires Closed(base, m) && Known(base, m, w)
    ensures var xs := Items(base, m, w); var v := Den(base, m, w);
            && (v.List? <==> IsList(w)) && |Elems(v)| == |xs|
            && forall k :: 0 <= k < |xs| ==> Known(base, m, xs[k]) && Elems(v)[k] == Den(base, m, xs[k])
  {
  }

  function Elems(v: Value): seq<Value> { if v.List? then v.items else [] }

  function NumOf(v: Value): int { if v.Word? then V.IntOf(v.w) else 0 }

  lemma NumDen(base: int, m: Blocks, w: i64)
    requires Closed(base, m) && Known(base, m, w)
    ensures NumOf(Den(base, m, w)) == V.IntOf(w)
  {
    if IsList(w) { HandleFacts(base, IndexOf(base, w)); }
  }

  // ---------------------------------------------------------------- programs

  /** One operation on earlier results; its own result is appended to them. */
  datatype Op =
    | Const(w: i64)
    | New
    | PushOp(a: nat, x: nat)
    | SetOp(a: nat, i: nat, x: nat)
    | GetOp(a: nat, i: nat)
    | Len(a: nat)
    | ZerosOp(n: nat)

  predicate Scoped(op: Op, n: nat) {
    match op
    case Const(w) => !IsList(w)
    case New => true
    case PushOp(a, x) => a < n && x < n
    case SetOp(a, i, x) => a < n && i < n && x < n
    case GetOp(a, i) => a < n && i < n
    case Len(a) => a < n
    case ZerosOp(k) => k < n
  }

  predicate Program(p: seq<Op>) { forall k :: 0 <= k < |p| ==> Scoped(p[k], k) }

  datatype Machine = Machine(env: seq<i64>, s: State)

  ghost predicate Inv(base: int, c: Machine) {
    Ok(base, c.s) && 0 <= c.s.used && forall k :: 0 <= k < |c.env| ==> Known(base, c.s.lists, c.env[k])
  }

  /** One operation on the heap; None is a spilled list of zeros. */
  ghost function Do(base: int, op: Op, c: Machine): Option<(i64, State)>
    requires Inv(base, c) && Scoped(op, |c.env|)
  {
    match op
    case Const(w) => Some((w, c.s))
    case New => Some(Put(base, c.s, [], 1))
    case PushOp(a, x) => Some(Push(base, c.s, c.env[a], c.env[x]))
    case SetOp(a, i, x) => Some(Set(base, c.s, c.env[a], c.env[i], c.env[x]))
    case GetOp(a, i) => Some((Get(base, c.s, c.env[a], c.env[i]), c.s))
    case Len(a) => Some((Length(base, c.s, c.env[a]), c.s))
    case ZerosOp(n) => Zeros(base, c.s, c.env[n])
  }

  /** The same operation on immutable sequences; only the count of cells says when the heap
      is full. */
  datatype Pure = Pure(env: seq<Value>, used: int, overflows: nat)

  function PurePut(c: Pure, xs: seq<Value>, full: Value): (Value, Pure) {
    if c.used + |xs| + 1 <= CELLS then (List(xs), c.(used := c.used + |xs| + 1))
      else (full, c.(overflows := c.overflows + 1))
  }

  function PureDo(op: Op, c: Pure): Option<(Value, Pure)>
    requires Scoped(op, |c.env|)
  {
    match op
    case Const(w) => Some((Word(w), c))
    case New => Some(PurePut(c, [], Word(1)))
    case PushOp(a, x) => Some(PurePut(c, Elems(c.env[a]) + [c.env[x]], c.env[a]))
    case SetOp(a, i, x) =>
      var xs, k := Elems(c.env[a]), NumOf(c.env[i]);
      Some(if 0 <= k < |xs| then PurePut(c, xs[k := c.env[x]], c.env[a]) else (c.env[a], c))
    case GetOp(a, i) =>
      var xs, k := Elems(c.env[a]), NumOf(c.env[i]);
      Some((if 0 <= k < |xs| then xs[k] else Word(1), c))
    case Len(a) => Some((Word(V.MkInt(Wrap(|Elems(c.env[a])|))), c))
    case ZerosOp(n) =>
      var k := if NumOf(c.env[n]) < 0 then 0 else NumOf(c.env[n]);
      if 0 <= Cut(k + 1) && c.used + Cut(k + 1) <= CELLS && Cut(k + 1) != k + 1 then None
      else Some(PurePut(c, seq(k, _ => Word(1)), Word(1)))
  }

  ghost predicate Same(base: int, c: Machine, p: Pure)
    requires Inv(base, c)
  {
    && |p.env| == |c.env| && p.used == c.s.used && p.overflows == c.s.overflows
    && forall k :: 0 <= k < |c.env| ==> p.env[k] == Den(base, c.s.lists, c.env[k])
  }

  ghost function Run(base: int, p: seq<Op>, s0: State): (r: Option<Machine>)
    requires Program(p) && Ok(base, s0) && 0 <= s0.used
    ensures r.Some? ==> Inv(base, r.value) && |r.value.env| == |p| && Extends(s0.lists, r.value.s.lists)
  {
    if p == [] then Some(Machine([], s0))
    else match Run(base, p[..|p| - 1], s0)
      case None => None
      case Some(c) =>
        match Do(base, p[|p| - 1], c)
        case None => None
        case Some((r, s')) => DoOk(base, p[|p| - 1], c); Some(Machine(c.env + [r], s'))
  }

  function PureRun(p: seq<Op>, c0: Pure): (r: Option<Pure>)
    requires Program(p) && c0.env == []
    ensures r.Some? ==> |r.value.env| == |p|
  {
    if p == [] then Some(c0)
    else match PureRun(p[..|p| - 1], c0)
      case None => None
      case Some(c) =>
        match PureDo(p[|p| - 1], c)
        case None => None
        case Some((r, c')) => Some(c'.(env := c.env + [r]))
  }

  lemma DoOk(base: int, op: Op, c: Machine)
    requires Inv(base, c) && Scoped(op, |c.env|) && Do(base, op, c).Some?
    ensures var (r, s') := Do(base, op, c).value;
            Ok(base, s') && 0 <= s'.used && Known(base, s'.lists, r) && Extends(c.s.lists, s'.lists)
  {
    hide Put, V.IntOf, V.MkInt, IndexOf, Cut, V.Bit;
    var m := c.s.lists;
    match op
    case Const(_) =>
    case New => PutOk(base, c.s, [], 1);
    case PushOp(a, x) =>
      DenItems(base, m, c.env[a]);
      PutOk(base, c.s, Items(base, m, c.env[a]) + [c.env[x]], c.env[a]);
    case SetOp(a, i, x) =>
      DenItems(base, m, c.env[a]);
      var xs, k := Items(base, m, c.env[a]), V.IntOf(c.env[i]);
      if 0 <= k < |xs| { PutOk(base, c.s, xs[k := c.env[x]], c.env[a]); }
    case GetOp(a, _) => DenItems(base, m, c.env[a]);
    case Len(a) => IntPlain(Wrap(|Items(base, m, c.env[a])|));
    case ZerosOp(n) =>
      var k := V.IntOf(c.env[n]);
      PutOk(base, c.s, Ones(if k < 0 then 0 else k), 1);
  }

  lemma IntPlain(n: i64)
    ensures !IsList(V.MkInt(n)) && !IsList(1)
  {
    hide V.Bit;
    Odd(2 * n);
  }

  lemma Odd(e: int)
    requires e % 2 == 0
    ensures Wrap(Wrap(e) + 1) % 2 == 1
  {
    hide V.MkInt;
    var q, r := e / M64, e % M64;
    assert e == q * M64 + r;
    var h := e / 2 - q * M63;
    assert r == 2 * h;
    var a := Wrap(e);
    assert a == r || a == r - M64;
    var k := if a == r then h else h - M63;
    assert a == 2 * k;
    SignRoundTrip(a + 1, 0);
    Quotient(a + 1, 2, k, 1);
  }

  /** Putting a list on the heap gives the word of the sequence its items stand for. */
  lemma PutSame(base: int, s: State, xs: seq<i64>, full: i64, c: Pure, vs: seq<Value>, vfull: Value)
    requires Ok(base, s) && 0 <= s.used && Known(base, s.lists, full) && |vs| == |xs|
    requires forall k :: 0 <= k < |xs| ==> Known(base, s.lists, xs[k]) && vs[k] == Den(base, s.lists, xs[k])
    requires vfull == Den(base, s.lists, full) && c.used == s.used && c.overflows == s.overflows
    ensures var (r, s'), (v, c') := Put(base, s, xs, full), PurePut(c, vs, vfull);
            && Ok(base, s') && Known(base, s'.lists, r) && v == Den(base, s'.lists, r)
            && c'.used == s'.used && c'.overflows == s'.overflows && c'.env == c.env && Extends(s.lists, s'.lists)
  {
    hide V.Bit, IndexOf, Handle;
    PutOk(base, s, xs, full);
    var (r, s') := Put(base, s, xs, full);
    var m' := s'.lists;
    if s.used + |xs| + 1 <= CELLS {
      HandleFacts(base, s.used);
      DenItems(base, m', r);
      forall k | 0 <= k < |xs| ensures Den(base, m', xs[k]) == vs[k] { DenExtends(base, s.lists, m', xs[k]); }
      assert Elems(Den(base, m', r)) == vs;
    }
  }

  /** Every operation commutes with what words stand for. */
  lemma DoSame(base: int, op: Op, c: Machine, p: Pure)
    requires Inv(base, c) && Scoped(op, |c.env|) && Same(base, c, p)
    ensures Do(base, op, c).None? <==> PureDo(op, p).None?
    ensures Do(base, op, c).Some? ==>
              var (r, s'), (v, p') := Do(base, op, c).value, PureDo(op, p).value;
              && Ok(base, s') && Known(base, s'.lists, r) && v == Den(base, s'.lists, r)
              && p'.used == s'.used && p'.overflows == s'.overflows && p'.env == p.env && Extends(c.s.lists, s'.lists)
  {
    hide Put, PurePut, V.IntOf, V.MkInt, IndexOf, Cut, V.Bit, Den;
    var m := c.s.lists;
    match op
    case Const(w) => PlainDen(base, m, w);
    case New =>
      IntPlain(0);
      PlainDen(base, m, 1);
      PutSame(base, c.s, [], 1, p, [], Word(1));
    case PushOp(a, x) =>
      DenItems(base, m, c.env[a]);
      PutSame(base, c.s, Items(base, m, c.env[a]) + [c.env[x]], c.env[a], p, Elems(p.env[a]) + [p.env[x]], p.env[a]);
    case SetOp(a, i, x) =>
      DenItems(base, m, c.env[a]);
      NumDen(base, m, c.env[i]);
      var xs, k := Items(base, m, c.env[a]), V.IntOf(c.env[i]);
      if 0 <= k < |xs| { PutSame(base, c.s, xs[k := c.env[x]], c.env[a], p, Elems(p.env[a])[k := p.env[x]], p.env[a]); }
    case GetOp(a, i) =>
      DenItems(base, m, c.env[a]);
      NumDen(base, m, c.env[i]);
      IntPlain(0);
      PlainDen(base, m, 1);
    case Len(a) =>
      DenItems(base, m, c.env[a]);
      var n := Wrap(|Items(base, m, c.env[a])|);
      IntPlain(n);
      PlainDen(base, m, V.MkInt(n));
    case ZerosOp(n) =>
      NumDen(base, m, c.env[n]);
      var k := if V.IntOf(c.env[n]) < 0 then 0 else V.IntOf(c.env[n]);
      IntPlain(0);
      PlainDen(base, m, 1);
      PutSame(base, c.s, Ones(k), 1, p, seq(k, _ => Word(1)), Word(1));
  }

  lemma PlainDen(base: int, m: Blocks, w: i64)
    requires Closed(base, m) && !IsList(w)
    ensures Known(base, m, w) && Den(base, m, w) == Word(w)
  {
  }

  /** Whatever a program does with its lists, every word it ever computed stands for the
      value the same program computes on immutable sequences. */
  lemma {:induction false} RunSame(base: int, p: seq<Op>, s0: State)
    requires Program(p) && Ok(base, s0) && 0 <= s0.used
    ensures var r, v := Run(base, p, s0), PureRun(p, Pure([], s0.used, s0.overflows));
            (r.None? <==> v.None?) && (r.Some? ==> Same(base, r.value, v.value))
  {
    hide Do, PureDo, Ok, Den, Known, Closed;
    if p != [] {
      var q, op := p[..|p| - 1], p[|p| - 1];
      RunSame(base, q, s0);
      if Run(base, q, s0).Some? {
        var c, v := Run(base, q, s0).value, PureRun(q, Pure([], s0.used, s0.overflows)).value;
        DoSame(base, op, c, v);
        if Do(base, op, c).Some? {
          DoOk(base, op, c);
          var (r, s') := Do(base, op, c).value;
          SameMore(base, c, v, r, s', PureDo(op, v).value.0, PureDo(op, v).value.1);
        }
      }
    }
  }

  lemma SameMore(base: int, c: Machine, p: Pure, r: i64, s': State, v: Value, p': Pure)
    requires Inv(base, c) && Same(base, c, p) && Ok(base, s') && 0 <= s'.used && Known(base, s'.lists, r)
             && Extends(c.s.lists, s'.lists)
    requires v == Den(base, s'.lists, r) && p'.used == s'.used && p'.overflows == s'.overflows
    ensures Inv(base, Machine(c.env + [r], s')) && Same(base, Machine(c.env + [r], s'), p'.(env := p.env + [v]))
  {
    hide Known, Den, IsList;
    forall k | 0 <= k < |c.env| ensures Known(base, s'.lists, c.env[k]) && Den(base, s'.lists, c.env[k]) == p.env[k] {
      DenExtends(base, c.s.lists, s'.lists, c.env[k]);
    }
  }

  // ---------------------------------------------------------------- the heap in place

  /** Each list is where its handle points: its length, then its items. */
  ghost predicate Laid(c: seq<i64>, m: Blocks) {
    forall i :: i in m ==> 0 <= i && i + 1 + |m[i]| <= |c| && c[i] == |m[i]| && c[i + 1..i + 1 + |m[i]|] == m[i]
  }

  lemma LaidMore(base: int, c: seq<i64>, c': seq<i64>, s: State, xs: seq<i64>)
    requires Laid(c, s.lists) && Ok(base, s) && 0 <= s.used && s.used + 1 + |xs| <= |c'| == |c|
    requires (forall j :: 0 <= j < s.used ==> c'[j] == c[j]) && c'[s.used] == |xs|
    requires forall k :: 0 <= k < |xs| ==> c'[s.used + 1 + k] == xs[k]
    ensures Laid(c', s.lists[s.used := xs])
  {
    forall i | i in s.lists && i != s.used
      ensures c'[i] == c[i] && c'[i + 1..i + 1 + |s.lists[i]|] == c[i + 1..i + 1 + |s.lists[i]|]
    {
    }
    assert c'[s.used + 1..s.used + 1 + |xs|] == xs;
  }

  lemma LaidAt(base: int, c: seq<i64>, m: Blocks, w: i64)
    requires Laid(c, m) && Known(base, m, w) && IsList(w)
    ensures var b, xs := IndexOf(base, w), Items(base, m, w);
            0 <= b && b + 1 + |xs| <= |c| && c[b] == |xs| && forall k :: 0 <= k < |xs| ==> c[b + 1 + k] == xs[k]
  {
    var b, xs := IndexOf(base, w), Items(base, m, w);
    forall k | 0 <= k < |xs| ensures c[b + 1 + k] == xs[k] { assert c[b + 1..b + 1 + |xs|][k] == xs[k]; }
  }

  lemma ItemsBelow(base: int, s: State, w: i64)
    requires Ok(base, s) && Known(base, s.lists, w) && IsList(w)
    ensures IndexOf(base, w) + 1 + |Items(base, s.lists, w)| <= s.used <= CELLS
  {
  }

  class ListHeap {
    const base: int
    const cells: array<i64>
    var used: int
    var overflows: nat
    ghost var lists: Blocks

    ghost function View(): State
      reads this
    {
      State(lists, used, overflows)
    }

    ghost predicate Valid()
      reads this, cells
    {
      cells.Length == CELLS && 0 <= used && Ok(base, View()) && Laid(cells[..], lists)
    }

    constructor (base: int)
      requires BaseOk(base)
      ensures Valid() && fresh(cells) && View() == State(map[], 0, 0) && this.base == base
    {
      this.base := base;
      cells := new i64[CELLS];
      used, overflows, lists := 0, 0, map[];
    }

    /** Start of a run: every handle is forgotten. */
    method Reset()
      requires Valid()
      modifies this
      ensures Valid() && View() == State(map[], 0, 0)
    {
      used, overflows, lists := 0, 0, map[];
    }

    method Alloc(n: int) returns (p: int)
      requires Valid() && -0x8000_0000 <= n < 0x8000_0000
      modifies this`used, this`overflows
      ensures 0 <= n && old(used) + n <= CELLS ==> p == old(used) && used == p + n && overflows == old(overflows)
      ensures n < 0 || old(used) + n > CELLS ==> p == -1 && used == old(used) && overflows == old(overflows) + 1
    {
      if n < 0 || used + n > CELLS {
        overflows := overflows + 1;
        return -1;
      }
      p, used := used, used + n;
    }

    method ListGet(w: i64, iv: i64) returns (r: i64)
      requires Valid() && Known(base, lists, w)
      ensures r == Get(base, View(), w, iv)
    {
      hide V.IntOf, IndexOf, V.Bit, Laid, Ok, IsList, Known;
      if !IsList(w) { return 1; }
      LaidAt(base, cells[..], lists, w);
      ItemsBelow(base, View(), w);
      var b, i := IndexOf(base, w), V.IntOf(iv);
      assert cells[..][b] == cells[b];
      if 0 <= i < cells[b] {
        assert cells[..][b + 1 + i] == cells[b + 1 + i];
        r := cells[b + 1 + i];
      } else {
        r := 1;
      }
    }

    method ListLen(w: i64) returns (r: i64)
      requires Valid() && Known(base, lists, w)
      ensures r == Length(base, View(), w)
    {
      hide V.MkInt, IndexOf, V.Bit, Laid, Ok, IsList, Known;
      if IsList(w) {
        LaidAt(base, cells[..], lists, w);
        ItemsBelow(base, View(), w);
        WrapIs(cells[IndexOf(base, w)]);
      }
      r := V.MkInt(if IsList(w) then cells[IndexOf(base, w)] else 0);
    }

    method ListNew() returns (r: i64)
      requires Valid()
      modifies this, cells
      ensures Valid() && (r, View()) == Put(base, old(View()), [], 1)
    {
      hide V.Bit, IndexOf, Laid, Ok, IsList, Known;
      IntPlain(0);
      OkParts(base, View());
      PutOk(base, View(), [], 1) by { KnownPlain(base, lists, 1); }
      var b := Alloc(1);
      if b < 0 { return 1; }
      cells[b] := 0;
      LaidMore(base, old(cells[..]), cells[..], old(View()), []);
      lists := lists[b := []];
      r := Handle(base, b);
    }

    method ListPush(w: i64, x: i64) returns (r: i64)
      requires Valid() && Known(base, lists, w) && Known(base, lists, x)
      modifies this, cells
      ensures Valid() && (r, View()) == Push(base, old(View()), w, x)
    {
      hide V.Bit, IndexOf, Laid, Ok, IsList, Known;
      ghost var xs := Items(base, lists, w) + [x];
      OkParts(base, View());
      ItemsKnown(base, lists, w);
      PutOk(base, View(), xs, w);
      var src := IndexOf(base, w);
      if IsList(w) {
        LaidAt(base, cells[..], lists, w);
        ItemsBelow(base, View(), w);
        assert cells[..][src] == cells[src];
      }
      var n := if IsList(w) then cells[src] else 0;
      var b := Alloc(n + 2);
      if b < 0 { return w; }
      cells[b] := n + 1;
      for i := 0 to n
        invariant forall j :: 0 <= j < b ==> cells[j] == old(cells[j])
        invariant cells[b] == n + 1 && forall j :: 0 <= j < i ==> cells[b + 1 + j] == xs[j]
        invariant View() == State(old(lists), b + n + 2, old(overflows))
      {
        cells[b + 1 + i] := cells[src + 1 + i];
      }
      cells[b + 1 + n] := x;
      LaidMore(base, old(cells[..]), cells[..], old(View()), xs);
      lists := lists[b := xs];
      r := Handle(base, b);
    }

    method ListSet(w: i64, iv: i64, x: i64) returns (r: i64)
      requires Valid() && Known(base, lists, w) && Known(base, lists, x)
      modifies this, cells
      ensures Valid() && (r, View()) == Set(base, old(View()), w, iv, x)
    {
      hide V.Bit, IndexOf, V.IntOf, Laid, Ok, IsList, Known;
      if !IsList(w) { return w; }
      LaidAt(base, cells[..], lists, w);
      ItemsBelow(base, View(), w);
      OkParts(base, View());
      ItemsKnown(base, lists, w);
      ghost var was := Items(base, lists, w);
      var src := IndexOf(base, w);
      assert cells[..][src] == cells[src];
      var n, i := cells[src], V.IntOf(iv);
      if i < 0 || i >= n { return w; }
      ghost var xs: seq<i64> := was[i := x];
      PutOk(base, View(), xs, w);
      var b := Alloc(n + 1);
      if b < 0 { return w; }
      cells[b] := n;
      for k := 0 to n
        invariant forall j :: 0 <= j < b ==> cells[j] == old(cells[j])
        invariant cells[b] == n && forall j :: 0 <= j < k ==> cells[b + 1 + j] == was[j]
        invariant View() == State(old(lists), b + n + 1, old(overflows))
      {
        cells[b + 1 + k] := cells[src + 1 + k];
      }
      cells[b + 1 + i] := x;
      LaidMore(base, old(cells[..]), cells[..], old(View()), xs);
      lists := lists[b := xs];
      r := Handle(base, b);
    }

    method ListZeros(nv: i64) returns (r: i64)
      requires Valid() && !Spills(View(), nv)
      modifies this, cells
      ensures Valid() && Zeros(base, old(View()), nv) == Some((r, View()))
    {
      hide V.Bit, IndexOf, V.IntOf, Laid, Ok, IsList, Known, Cut;
      var n := V.IntOf(nv);
      if n < 0 { n := 0; }
      ghost var xs := Ones(n);
      IntPlain(0);
      KnownPlain(base, lists, 1);
      OkParts(base, View());
      PutOk(base, View(), xs, 1);
      CutSmall(n + 1);
      var b := Alloc(Cut(n + 1));
      if b < 0 { return 1; }
      cells[b] := n;
      for k := 0 to n
        invariant forall j :: 0 <= j < b ==> cells[j] == old(cells[j])
        invariant cells[b] == n && forall j :: 0 <= j < k ==> cells[b + 1 + j] == xs[j]
        invariant View() == State(old(lists), b + n + 1, old(overflows))
      {
        cells[b + 1 + k] := 1;
      }
      LaidMore(base, old(cells[..]), cells[..], old(View()), xs);
      lists := lists[b := xs];
      r := Handle(base, b);
    }
  }

  lemma KnownPlain(base: int, m: Blocks, w: i64)
    requires !IsList(w)
    ensures Known(base, m, w)
  {
  }

  lemma ItemsKnown(base: int, m: Blocks, w: i64)
    requires Closed(base, m) && Known(base, m, w)
    ensures forall k :: 0 <= k < |Items(base, m, w)| ==> Known(base, m, Items(base, m, w)[k])
  {
  }

  lemma OkParts(base: int, s: State)
    requires Ok(base, s)
    ensures BaseOk(base) && s.used <= CELLS && Closed(base, s.lists)
  {
  }

  lemma WrapIs(v: i64)
    ensures Wrap(v) == v
  {
    SignRoundTrip(v, 0);
  }

  lemma CutSmall(n: nat)
    ensures -0x8000_0000 <= Cut(n) < 0x8000_0000 && (n < 0x8000_0000 ==> Cut(n) == n)
  {
    CutIs(n, n / 0x1_0000_0000, n % 0x1_0000_0000);
  }
}
