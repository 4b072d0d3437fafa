/** Receiving a byte stream over TCP: only the segment expected next is taken, whatever is
    lost, duplicated or reordered.  The expected number is kept in 64 bits and never masked to
    the 32 the segments carry. */
module Tcp {
  import opened Word

  const ROOM := 65535            // BR_RXCAP - 1
  const MSS := 1460

  type u32 = v: int | 0 <= v < 0x1_0000_0000 witness 0

  datatype Seg = Seg(seqNo: u32, syn: bool, ack: bool, fin: bool, rst: bool, data: seq<byte>)

  /** The connection: 0 closed, 1 SYN sent, 2 established, 3 peer done. */
  datatype Link = Link(state: nat, rcvNxt: nat, page: seq<byte>, established: bool, finished: bool, reset: bool)

  function Clip(p: seq<byte>): seq<byte> { if |p| <= ROOM then p else p[..ROOM] }

  /** What one segment does. */
  function Next(c: Link, s: Seg): Link {
    if c.state == 0 then c
    else if s.rst then c.(reset := true, state := 0)
    else if c.state == 1 then
      if s.syn && s.ack then c.(rcvNxt := s.seqNo + 1, state := 2, established := true) else c
    else if s.data != [] && s.seqNo != c.rcvNxt then c
    else
      var d := if s.data == [] then c else c.(page := Clip(c.page + s.data), rcvNxt := s.seqNo + |s.data|);
      if s.fin && s.seqNo + |s.data| == d.rcvNxt then d.(rcvNxt := d.rcvNxt + 1, state := 3, finished := true) else d
  }

  /** The acknowledgements it makes us send: the number expected, cut to 32 bits. */
  function Answers(c: Link, s: Seg): seq<u32> {
    if c.state == 0 || s.rst then []
    else if c.state == 1 then (if s.syn && s.ack then [Next(c, s).rcvNxt % M32] else [])
    else if s.data != [] && s.seqNo != c.rcvNxt then [c.rcvNxt % M32]
    else (if s.data != [] then [(s.seqNo + |s.data|) % M32] else [])
         + (if s.fin && s.seqNo == c.rcvNxt then [(s.seqNo + |s.data| + 1) % M32] else [])
  }

  class Conn {
    var state: nat
    var rcvNxt: nat
    var established: bool
    var finished: bool
    var reset: bool
    const page: array<byte>
    var pageLen: nat
    var acks: seq<u32>           // acknowledgements sent

    ghost predicate Valid() reads this { page.Length == ROOM + 1 && pageLen <= ROOM }

    ghost function View(): Link
      requires Valid()
      reads this, page
    {
      Link(state, rcvNxt, page[..pageLen], established, finished, reset)
    }

    /** A new request: the page is empty and a SYN has been sent. */
    constructor ()
      ensures Valid() && View() == START && acks == [] && fresh(page)
    {
      state, rcvNxt, established, finished, reset := 1, 0, false, false, false;
      page, pageLen, acks := new byte[ROOM + 1](_ => 0), 0, [];
    }

    method Handle(s: Seg)
      requires Valid()
      modifies this`state, this`rcvNxt, this`established, this`finished, this`reset, this`pageLen, this`acks, page
      ensures Valid() && View() == Next(old(View()), s)
      ensures acks == old(acks) + Answers(old(View()), s)
    {
      if state == 0 { return; }
      if s.rst {
        reset, state := true, 0;
        return;
      }
      if state == 1 {
        if s.syn && s.ack {
          rcvNxt, state, established := s.seqNo + 1, 2, true;
          acks := acks + [rcvNxt % M32];
        }
        return;
      }
      if |s.data| > 0 && s.seqNo != rcvNxt {
        acks := acks + [rcvNxt % M32];
        return;
      }
      ghost var was := acks;
      if |s.data| > 0 {
        Append(s.data);
        rcvNxt := s.seqNo + |s.data|;
        acks := acks + [rcvNxt % M32];
      }
      if s.fin && s.seqNo + |s.data| == rcvNxt {
        rcvNxt := rcvNxt + 1;
        acks := acks + [rcvNxt % M32];
        state, finished := 3, true;
      }
      assert acks == was + Answers(old(View()), s);
    }

    /** Copy what the buffer has room for. */
    method Append(d: seq<byte>)
      requires Valid()
      modifies this`pageLen, page
      ensures Valid() && page[..pageLen] == Clip(old(page[..pageLen]) + d)
    {
      ghost var all := page[..pageLen] + d;
      for i := 0 to |d|
        invariant pageLen == old(pageLen) && |all| == pageLen + |d|
        invariant forall h :: 0 <= h < pageLen + i && h < ROOM ==> page[h] == all[h]
      {
        if pageLen + i < ROOM { page[pageLen + i] := d[i]; }
      }
      pageLen := pageLen + |d|;
      if pageLen > ROOM { pageLen := ROOM; }
    }
  }

  // ---------------------------------------------------------------- an honest peer

  /** The peer's first number and the bytes it has to say. */
  datatype Peer = Peer(isn: u32, stream: seq<byte>)

  function Min(a: int, b: int): int { if a < b then a else b }
  function Max(a: int, b: int): int { if a < b then b else a }

  /** A segment that carries the stream from byte i on; FIN only after the last byte. */
  ghost predicate Carries(p: Peer, s: Seg, i: nat) {
    && !s.syn && i + |s.data| <= |p.stream| && |s.data| <= MSS && s.seqNo == (p.isn + 1 + i) % M32
    && s.data == p.stream[i..i + |s.data|] && (s.fin ==> i + |s.data| == |p.stream|)
  }

  /** Everything an honest peer ever sends, now or again. */
  ghost predicate Honest(p: Peer, s: Seg) {
    s.rst || (s.syn && s.ack && !s.fin && s.data == [] && s.seqNo == p.isn) || exists i :: Carries(p, s, i)
  }

  function After(c: Link, ss: seq<Seg>): Link { if ss == [] then c else Next(After(c, ss[..|ss| - 1]), ss[|ss| - 1]) }

  const START := Link(1, 0, [], false, false, false)

  /** How much of the stream has been taken. */
  function Taken(p: Peer, c: Link): int { c.rcvNxt - p.isn - 1 - if c.finished then 1 else 0 }

  /** The page is a prefix of the stream, cut at its room; done means all of it. */
  ghost predicate InOrder(p: Peer, c: Link) {
    var k := Taken(p, c);
    if c.established then
      && 0 <= k <= |p.stream| && c.page == p.stream[..Min(k, ROOM)] && (c.finished ==> k == |p.stream|) && c.state != 1
    else c.page == [] && !c.finished && c.state <= 1
  }

  /** Numbers below 2^32 name one place in a stream shorter than that. */
  lemma Place(p: Peer, i: nat, n: int)
    requires |p.stream| < M32 - 1 && i <= |p.stream| && (p.isn + 1 + i) % M32 == n
             && p.isn + 1 <= n <= p.isn + 2 + |p.stream|
    ensures i == n - p.isn - 1
  {
    var x := p.isn + 1 + i;
    assert x == x / M32 * M32 + n;
    assert x - n == x / M32 * M32;
  }

  lemma StepInOrder(p: Peer, c: Link, s: Seg)
    requires |p.stream| < M32 - 1 && InOrder(p, c) && Honest(p, s)
    ensures InOrder(p, Next(c, s))
    ensures c.established ==> Taken(p, c) <= Taken(p, Next(c, s))
  {
    if c.state >= 2 && !s.rst && exists i :: Carries(p, s, i) {
      var i :| Carries(p, s, i);
      if s.seqNo == c.rcvNxt { Accepted(p, c, s, i); }
    }
  }

  /** The one segment that is taken continues the page exactly. */
  lemma Accepted(p: Peer, c: Link, s: Seg, i: nat)
    requires |p.stream| < M32 - 1 && InOrder(p, c) && Carries(p, s, i) && s.seqNo == c.rcvNxt && c.established
    ensures !c.finished && i == Taken(p, c)
    ensures Clip(c.page + s.data) == p.stream[..Min(i + |s.data|, ROOM)]
  {
    Place(p, i, c.rcvNxt);
  }

  /** In-order delivery: under any loss, duplication and reordering of what an honest peer
      sends, the page is a prefix of its stream, and once `finished` is set every byte has
      been accepted. */
  lemma {:induction false} Delivered(p: Peer, ss: seq<Seg>)
    requires |p.stream| < M32 - 1 && forall k :: 0 <= k < |ss| ==> Honest(p, ss[k])
    ensures InOrder(p, After(START, ss))
    ensures After(START, ss).page <= p.stream
    ensures After(START, ss).finished ==> After(START, ss).page == Clip(p.stream)
    decreases |ss|
  {
    hide Next, Honest;
    if ss != [] {
      Delivered(p, ss[..|ss| - 1]);
      StepInOrder(p, After(START, ss[..|ss| - 1]), ss[|ss| - 1]);
    }
  }

  // ---------------------------------------------------------------- what is acknowledged

  /** The number that acknowledges the first k bytes of the stream, and the FIN if f. */
  function AckNo(p: Peer, k: nat, f: bool): int { (p.isn + 1 + k + if f then 1 else 0) % M32 }

  /** a covers no byte that has not been taken, and the FIN only when it has been. */
  ghost predicate Covered(p: Peer, c: Link, a: u32) {
    exists k: nat, f: bool :: c.established && k <= Taken(p, c) && (f ==> c.finished && k == |p.stream|)
      && a == AckNo(p, k, f)
  }

  /** Segments that call for an answer: any data, the FIN in order, and the one that opens. */
  predicate Due(c: Link, s: Seg) {
    c.state != 0 && !s.rst && if c.state == 1 then s.syn && s.ack else s.data != [] || (s.fin && s.seqNo == c.rcvNxt)
  }

  /** Every data segment and in-order FIN is answered, the last answer acknowledging exactly
      what has been taken by then. */
  lemma StepAcks(p: Peer, c: Link, s: Seg)
    requires |p.stream| < M32 - 1 && InOrder(p, c) && Honest(p, s)
    ensures var t, acks := Next(c, s), Answers(c, s);
            && (acks != [] <==> Due(c, s)) && (forall a :: a in acks ==> Covered(p, t, a))
            && (acks != [] ==> InOrder(p, t) && t.established && acks[|acks| - 1] == AckNo(p, Taken(p, t), t.finished))
  {
    StepInOrder(p, c, s);
    var t, acks := Next(c, s), Answers(c, s);
    if acks != [] {
      if c.state == 1 { Opened(p, c, s); }
      assert InOrder(p, t) && t.established;
      forall a | a in acks ensures Covered(p, t, a) {
        assert a == AckNo(p, Taken(p, t), false) || a == AckNo(p, Taken(p, t), t.finished);
      }
    }
  }

  lemma Opened(p: Peer, c: Link, s: Seg)
    requires InOrder(p, c) && Honest(p, s) && Answers(c, s) != [] && c.state == 1
    ensures s.seqNo == p.isn
  {
  }

  /** All acknowledgements sent in a history. */
  function Acks(c: Link, ss: seq<Seg>): seq<u32> {
    if ss == [] then [] else Acks(c, ss[..|ss| - 1]) + Answers(After(c, ss[..|ss| - 1]), ss[|ss| - 1])
  }

  lemma StaysCovered(p: Peer, c: Link, s: Seg, a: u32)
    requires |p.stream| < M32 - 1 && InOrder(p, c) && Honest(p, s) && Covered(p, c, a)
    ensures Covered(p, Next(c, s), a)
  {
    StepInOrder(p, c, s);
    var k: nat, f: bool :| k <= Taken(p, c) && (f ==> c.finished && k == |p.stream|) && a == AckNo(p, k, f);
    assert k <= Taken(p, Next(c, s));
  }

  /** Whatever is lost, duplicated or reordered, no acknowledgement ever covers a byte that was
      not accepted, and the last one says exactly how far the stream has been. */
  lemma {:induction false} Acknowledged(p: Peer, ss: seq<Seg>)
    requires |p.stream| < M32 - 1 && forall k :: 0 <= k < |ss| ==> Honest(p, ss[k])
    ensures var c, acks := After(START, ss), Acks(START, ss);
            && (forall a :: a in acks ==> Covered(p, c, a)) && (c.established <==> acks != [])
            && (acks != [] ==> 0 <= Taken(p, c) && acks[|acks| - 1] == AckNo(p, Taken(p, c), c.finished))
    decreases |ss|
  {
    hide Next, Honest, Answers, InOrder, Covered, Due;
    if ss != [] {
      var front, s := ss[..|ss| - 1], ss[|ss| - 1];
      var c := After(START, front);
      Acknowledged(p, front);
      Delivered(p, front);
      StepInOrder(p, c, s);
      StepAcks(p, c, s);
      Quiet(p, c, s);
      forall a | a in Acks(START, front) ensures Covered(p, Next(c, s), a) { StaysCovered(p, c, s, a); }
    }
  }

  /** A segment that is not answered takes the stream no further. */
  lemma Quiet(p: Peer, c: Link, s: Seg)
    requires |p.stream| < M32 - 1 && InOrder(p, c) && Honest(p, s)
    ensures c.established ==> 0 <= Taken(p, c)
    ensures Answers(c, s) == [] ==> var t := Next(c, s);
            t.established == c.established && t.rcvNxt == c.rcvNxt && t.finished == c.finished
  {
  }

  /** A FIN without data that comes again, or before all data, is not answered, so a lost
      answer to it is never repeated. */
  lemma FinAgain(p: Peer, c: Link)
    requires |p.stream| < M32 - 1 && InOrder(p, c) && c.state >= 2 && c.rcvNxt < M32
    ensures Answers(c, Piece(p, |p.stream|, 0)) != [] <==> !c.finished && Taken(p, c) == |p.stream|
  {
    var s := Piece(p, |p.stream|, 0);
    PieceHonest(p, |p.stream|, 0);
    assert c.established;
    if s.seqNo == c.rcvNxt { Place(p, |p.stream|, c.rcvNxt); }
  }

  /** After a reset nothing is taken or answered any more. */
  lemma {:induction false} ResetEnds(c: Link, s: Seg, ss: seq<Seg>)
    requires c.state != 0 && s.rst
    ensures var t := Next(c, s); t.reset && After(t, ss) == t && Acks(t, ss) == [] && t.page == c.page
    decreases |ss|
  {
    if ss != [] { ResetEnds(c, s, ss[..|ss| - 1]); }
  }

  // ---------------------------------------------------------------- when it can finish

  /** Some honest continuation completes the transfer. */
  ghost predicate CanFinish(p: Peer, c: Link) {
    exists ss :: (forall k :: 0 <= k < |ss| ==> Honest(p, ss[k])) && After(c, ss).finished
  }

  /** The last segment can start below 2^32. */
  predicate Reachable(p: Peer, c: Link) { p.isn + 1 + Max(Taken(p, c), |p.stream| - MSS) < M32 }

  lemma StepUnreachable(p: Peer, c: Link, s: Seg)
    requires |p.stream| < M32 - 1 && InOrder(p, c) && c.established && !c.finished && !Reachable(p, c) && Honest(p, s)
    ensures InOrder(p, Next(c, s)) && Next(c, s).established && !Next(c, s).finished && !Reachable(p, Next(c, s))
  {
    StepInOrder(p, c, s);
    if c.state >= 2 && !s.rst && exists i :: Carries(p, s, i) {
      var i :| Carries(p, s, i);
      if s.seqNo == c.rcvNxt { Accepted(p, c, s, i); }
    }
  }

  lemma {:induction false} NeverFinishes(p: Peer, c: Link, ss: seq<Seg>)
    requires |p.stream| < M32 - 1 && InOrder(p, c) && c.established && !c.finished && !Reachable(p, c)
    requires forall k :: 0 <= k < |ss| ==> Honest(p, ss[k])
    ensures var d := After(c, ss); InOrder(p, d) && d.established && !d.finished && !Reachable(p, d)
    decreases |ss|
  {
    hide Next, Honest, Reachable, InOrder;
    if ss != [] {
      NeverFinishes(p, c, ss[..|ss| - 1]);
      StepUnreachable(p, After(c, ss[..|ss| - 1]), ss[|ss| - 1]);
    }
  }

  /** The segment an honest peer would send from byte k on, n bytes long. */
  function Piece(p: Peer, k: nat, n: nat): Seg
    requires k + n <= |p.stream|
  {
    Seg((p.isn + 1 + k) % M32, false, true, k + n == |p.stream|, false, p.stream[k..k + n])
  }

  lemma PieceHonest(p: Peer, k: nat, n: nat)
    requires k + n <= |p.stream| && n <= MSS
    ensures Honest(p, Piece(p, k, n))
  {
    assert Carries(p, Piece(p, k, n), k);
  }

  lemma PieceTaken(p: Peer, c: Link, n: nat)
    requires |p.stream| < M32 - 1 && InOrder(p, c) && c.state == 2 && c.established && !c.finished
             && p.isn + 1 + Taken(p, c) < M32
    requires Taken(p, c) + n <= |p.stream| && n <= MSS && (n > 0 || Taken(p, c) == |p.stream|)
    ensures var k := Taken(p, c); var d := Next(c, Piece(p, k, n));
            InOrder(p, d) && Taken(p, d) == k + n && (d.finished <==> k + n == |p.stream|) && d.established
              && (!d.finished ==> d.state == 2)
  {
    var k := Taken(p, c);
    assert (p.isn + 1 + k) % M32 == c.rcvNxt;
    PieceHonest(p, k, n);
    StepInOrder(p, c, Piece(p, k, n));
  }

  lemma {:induction false} Finishes(p: Peer, c: Link) returns (ss: seq<Seg>)
    requires |p.stream| < M32 - 1 && InOrder(p, c) && c.state == 2 && c.established && !c.finished && Reachable(p, c)
    ensures (forall k :: 0 <= k < |ss| ==> Honest(p, ss[k])) && After(c, ss).finished
    decreases |p.stream| - Taken(p, c)
  {
    hide Next, Honest, InOrder;
    TakenBounds(p, c);
    var k := Taken(p, c);
    var left := |p.stream| - k;
    var n := if left <= MSS then left else Min(MSS, left - MSS);
    var s := Piece(p, k, n);
    PieceHonest(p, k, n);
    PieceTaken(p, c, n);
    if left <= MSS {
      AfterOne(c, s);
      ss := [s];
    } else {
      var rest := Finishes(p, Next(c, s));
      AfterFirst(c, s, rest);
      ss := [s] + rest;
    }
  }

  lemma TakenBounds(p: Peer, c: Link)
    requires InOrder(p, c) && c.established
    ensures 0 <= Taken(p, c) <= |p.stream|
  {
  }

  lemma AfterOne(c: Link, s: Seg)
    ensures After(c, [s]) == Next(c, s)
  {
    assert [s][..0] == [];
  }

  lemma {:induction false} AfterFirst(c: Link, s: Seg, rest: seq<Seg>)
    ensures After(c, [s] + rest) == After(Next(c, s), rest)
    decreases |rest|
  {
    if rest == [] {
      assert [s] + rest == [s];
      AfterOne(c, s);
    } else {
      var n := |rest| - 1;
      assert ([s] + rest)[..|[s] + rest| - 1] == [s] + rest[..n];
      AfterFirst(c, s, rest[..n]);
    }
  }

  /** The number expected is never masked: an established transfer that has not been reset
      can still be completed if and only if its last segment may start below 2^32. */
  lemma FinishIff(p: Peer, c: Link)
    requires |p.stream| < M32 - 1 && InOrder(p, c) && c.state == 2 && c.established && !c.finished
    ensures CanFinish(p, c) <==> Reachable(p, c)
  {
    hide Next, Honest, InOrder, Reachable;
    if Reachable(p, c) {
      var ss := Finishes(p, c);
    } else if CanFinish(p, c) {
      var ss :| (forall k :: 0 <= k < |ss| ==> Honest(p, ss[k])) && After(c, ss).finished;
      NeverFinishes(p, c, ss);
    }
  }

  // ---------------------------------------------------------------- from the SYN on

  /** No honest history finishes a transfer whose last segment cannot start below 2^32. */
  lemma {:induction false} NeverFromStart(p: Peer, ss: seq<Seg>)
    requires |p.stream| < M32 - 1 && p.isn + 1 + Max(0, |p.stream| - MSS) >= M32
    requires forall k :: 0 <= k < |ss| ==> Honest(p, ss[k])
    ensures !After(START, ss).finished
    decreases |ss|
  {
    hide Next, Honest, InOrder;
    if ss != [] {
      var front, s := ss[..|ss| - 1], ss[|ss| - 1];
      var c := After(START, front);
      NeverFromStart(p, front);
      Delivered(p, front);
      if c.established {
        TakenBounds(p, c);
        StepUnreachable(p, c, s);
      } else {
        NotYet(p, c, s);
      }
    }
  }

  lemma NotYet(p: Peer, c: Link, s: Seg)
    requires InOrder(p, c) && !c.established
    ensures !Next(c, s).finished
  {
  }

  function SynAck(p: Peer): Seg { Seg(p.isn, true, true, false, false, []) }

  lemma Opens(p: Peer)
    requires |p.stream| < M32 - 1
    ensures Honest(p, SynAck(p)) && InOrder(p, Next(START, SynAck(p)))
    ensures var c := Next(START, SynAck(p)); c.state == 2 && c.established && !c.finished && Taken(p, c) == 0
  {
    StepInOrder(p, START, SynAck(p));
  }

  /** From the SYN on: some honest history delivers the whole stream and its FIN if and only if
      the last segment may start below 2^32. */
  lemma StartFinishIff(p: Peer)
    requires |p.stream| < M32 - 1
    ensures CanFinish(p, START) <==> p.isn + 1 + Max(0, |p.stream| - MSS) < M32
  {
    hide Next, Honest, InOrder;
    if p.isn + 1 + Max(0, |p.stream| - MSS) < M32 {
      Opens(p);
      var rest := Finishes(p, Next(START, SynAck(p)));
      AfterFirst(START, SynAck(p), rest);
      var ss := [SynAck(p)] + rest;
      assert (forall k :: 0 <= k < |ss| ==> Honest(p, ss[k])) && After(START, ss).finished;
    } else if CanFinish(p, START) {
      var ss :| (forall k :: 0 <= k < |ss| ==> Honest(p, ss[k])) && After(START, ss).finished;
      NeverFromStart(p, ss);
    }
  }

  /** The connection itself, fed any segments of an honest peer. */
  method Receive(ss: seq<Seg>, ghost p: Peer) returns (c: Conn)
    requires |p.stream| < M32 - 1 && forall k :: 0 <= k < |ss| ==> Honest(p, ss[k])
    ensures c.Valid() && c.View() == After(START, ss) && c.acks == Acks(START, ss)
    ensures c.page[..c.pageLen] <= p.stream && (c.finished ==> c.page[..c.pageLen] == Clip(p.stream))
    ensures forall a :: a in c.acks ==> Covered(p, c.View(), a)
  {
    hide Next, Honest, Answers, Covered;
    c := new Conn();
    for i := 0 to |ss|
      invariant c.Valid() && fresh(c) && fresh(c.page) && c.View() == After(START, ss[..i])
                && c.acks == Acks(START, ss[..i])
    {
      assert ss[..i + 1][..i] == ss[..i];
      c.Handle(ss[i]);
    }
    assert ss[..|ss|] == ss;
    Delivered(p, ss);
    Acknowledged(p, ss);
  }
}
