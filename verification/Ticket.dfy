/** The ticket lock and its self test: N cores, each adding 1 to a shared counter per_core
    times under the lock, interleaved one shared access at a time.  Tickets are 32-bit and
    wrap; the ticket is drawn with a load-exclusive / store-exclusive pair whose store may
    fail at any time. */
module Ticket {
  import opened Word

  /** Where a core is in its k-th round. */
  datatype Pc =
    | Draw                  // about to load next_ticket exclusively
    | Store(was: int)       // about to store was + 1 exclusively
    | Spin(me: int)         // about to compare now_serving with its ticket
    | In                    // holds the lock, about to load the counter
    | Add(seen: int)        // about to store seen + 1
    | Out                   // about to load now_serving
    | Release(seen: int)    // about to store seen + 1 into now_serving
    | Done

  datatype Core = Core(pc: Pc, round: nat, mon: bool)

  /** `drawn` and `entered` record who drew a ticket and who got in, in order; `left` counts
      releases.  They are never read by a step. */
  datatype State = State(next: int, serving: int, counter: int, cores: seq<Core>, drawn: seq<nat>, entered: seq<nat>,
      left: nat)

  function Put(s: State, c: nat, p: Pc): State
    requires c < |s.cores|
  {
    s.(cores := s.cores[c := s.cores[c].(pc := p)])
  }

  /** The start of a round, or the end of the worker. */
  function Round(per: nat, r: nat): Pc { if r < per then Draw else Done }

  function Cleared(cs: seq<Core>): seq<Core> { seq(|cs|, i requires 0 <= i < |cs| => cs[i].(mon := false)) }

  /** One shared access of core c.  A store-exclusive fails when some core has stored since
      the load, and may fail for no reason (`lost`). */
  function Step(s: State, per: nat, c: nat, lost: bool): State
    requires c < |s.cores|
  {
    match s.cores[c].pc
    case Draw => s.(cores := s.cores[c := s.cores[c].(pc := Store(s.next), mon := true)])
    case Store(was) =>
      if s.cores[c].mon && !lost then
        Put(s, c, Spin(was)).(
          next := (was + 1) % M32, drawn := s.drawn + [c],
          cores := Cleared(s.cores)[c := Core(Spin(was), s.cores[c].round, false)])
      else Put(s, c, Draw)
    case Spin(me) => if s.serving == me then Put(s, c, In).(entered := s.entered + [c]) else s
    case In => Put(s, c, Add(s.counter))
    case Add(seen) => Put(s, c, Out).(counter := seen + 1)
    case Out => Put(s, c, Release(s.serving))
    case Release(seen) =>
      s.(serving := (seen + 1) % M32, left := s.left + 1,
         cores := s.cores[c := s.cores[c].(pc := Round(per, s.cores[c].round + 1), round := s.cores[c].round + 1)])
    case Done => s
  }

  function Init(n: nat, per: nat): State { State(0, 0, 0, seq(n, _ => Core(Round(per, 0), 0, false)), [], [], 0) }

  datatype Move = Move(core: nat, lost: bool)

  ghost predicate Moves(ms: seq<Move>, n: nat) { forall k :: 0 <= k < |ms| ==> ms[k].core < n }

  /** The state after an interleaving. */
  function After(n: nat, per: nat, ms: seq<Move>): (s: State)
    requires forall k :: 0 <= k < |ms| ==> ms[k].core < n
    ensures |s.cores| == n
  {
    if ms == [] then Init(n, per) else Step(After(n, per, ms[..|ms| - 1]), per, ms[|ms| - 1].core, ms[|ms| - 1].lost)
  }

  // ---------------------------------------------------------------- invariant

  /** Holds a ticket: waiting or inside. */
  predicate Holds(p: Pc) { p.Spin? || Inside(p) }
  predicate Inside(p: Pc) { p.In? || p.Add? || p.Out? || p.Release? }

  /** The cores holding tickets, in the order they drew them. */
  ghost function Line(s: State): seq<nat>
    requires s.left <= |s.drawn|
  {
    s.drawn[s.left..]
  }

  ghost predicate Distinct(q: seq<nat>) { forall i, j :: 0 <= i < j < |q| ==> q[i] != q[j] }

  ghost predicate CoreOk(s: State, per: nat, c: nat)
    requires c < |s.cores| && s.left <= |s.drawn|
  {
    var k := s.cores[c];
    && (k.pc.Store? && k.mon ==> k.pc.was == s.next)
    && (Holds(k.pc) <==> c in Line(s))
    && (Inside(k.pc) <==> |Line(s)| > 0 && Line(s)[0] == c && |s.entered| == s.left + 1)
    && (k.pc.Add? ==> k.pc.seen == s.counter)
    && (k.pc.Release? ==> k.pc.seen == s.serving && k.round < per)
    && k.round <= per && (k.pc.Done? <==> k.round == per)
  }

  /** The ticket of the i-th core in line is now_serving + i, modulo 2^32. */
  ghost predicate Tickets(s: State)
    requires s.left <= |s.drawn|
  {
    forall i :: 0 <= i < |Line(s)| ==>
      Line(s)[i] < |s.cores| && (s.cores[Line(s)[i]].pc.Spin? ==> s.cores[Line(s)[i]].pc.me == (s.serving + i) % M32)
  }

  /** Rounds whose addition is done. */
  function Added(k: Core): nat { if k.pc.Out? || k.pc.Release? then k.round + 1 else k.round }

  function Total(cs: seq<Core>): nat { if cs == [] then 0 else Total(cs[..|cs| - 1]) + Added(cs[|cs| - 1]) }

  ghost predicate Inv(s: State, per: nat) {
    && s.left <= |s.entered| <= s.left + 1 && |s.entered| <= |s.drawn| && s.entered == s.drawn[..|s.entered|]
    && 0 <= s.serving < M32 && s.next == (s.serving + |Line(s)|) % M32
    && Distinct(Line(s)) && Tickets(s) && |s.cores| < M32
    && (forall c :: 0 <= c < |s.cores| ==> CoreOk(s, per, c))
    && s.counter == Total(s.cores)
  }

  // ---------------------------------------------------------------- arithmetic and counting

  lemma {:induction false} Pigeonhole(q: seq<nat>, n: nat)
    requires Distinct(q) && forall i :: 0 <= i < |q| ==> q[i] < n
    ensures |q| <= n
    decreases n
  {
    if |q| > 0 { assert q[0] < n; }
    if n == 0 {
    } else if i :| 0 <= i < |q| && q[i] == n - 1 {
      var r := q[..i] + q[i + 1..];
      assert forall j :: 0 <= j < |r| ==> r[j] == if j < i then q[j] else q[j + 1];
      Pigeonhole(r, n - 1);
    } else {
      Pigeonhole(q, n - 1);
    }
  }

  /** Tickets less than 2^32 apart that agree modulo 2^32 are the same. */
  lemma FirstTicket(v: nat, i: nat)
    requires v < M32 && i < M32 && (v + i) % M32 == v
    ensures i == 0
  {
  }

  lemma {:induction false} TotalPut(cs: seq<Core>, c: nat, k: Core)
    requires c < |cs|
    ensures Total(cs[c := k]) == Total(cs) - Added(cs[c]) + Added(k)
    decreases |cs|
  {
    var n := |cs| - 1;
    if c < n {
      assert cs[c := k][..n] == cs[..n][c := k];
      TotalPut(cs[..n], c, k);
    } else {
      assert cs[c := k][..n] == cs[..n];
    }
  }

  lemma {:induction false} TotalCleared(cs: seq<Core>)
    ensures Total(Cleared(cs)) == Total(cs)
    decreases |cs|
  {
    if cs != [] {
      var n := |cs| - 1;
      assert Cleared(cs)[..n] == Cleared(cs[..n]);
      TotalCleared(cs[..n]);
    }
  }

  lemma {:induction false} TotalAll(cs: seq<Core>, per: nat)
    requires forall c :: 0 <= c < |cs| ==> Added(cs[c]) == per
    ensures Total(cs) == per * |cs|
    decreases |cs|
  {
    if cs != [] { TotalAll(cs[..|cs| - 1], per); }
  }

  // ---------------------------------------------------------------- preservation

  /** Steps that only move core c within its critical section or its drawing. */
  lemma StepQuiet(s: State, per: nat, c: nat, lost: bool)
    requires Inv(s, per) && c < |s.cores|
    requires s.cores[c].pc.Draw? || s.cores[c].pc.In? || s.cores[c].pc.Add? || s.cores[c].pc.Out?
    ensures Inv(Step(s, per, c, lost), per)
  {
    hide Total;
    var t := Step(s, per, c, lost);
    assert CoreOk(s, per, c);
    TotalPut(s.cores, c, t.cores[c]);
    assert Line(t) == Line(s);
    forall d | 0 <= d < |t.cores| ensures CoreOk(t, per, d) { assert CoreOk(s, per, d); }
  }

  lemma StoreFails(s: State, per: nat, c: nat, lost: bool)
    requires Inv(s, per) && c < |s.cores| && s.cores[c].pc.Store? && !(s.cores[c].mon && !lost)
    ensures Inv(Step(s, per, c, lost), per)
  {
    hide Total;
    var t := Step(s, per, c, lost);
    assert CoreOk(s, per, c);
    TotalPut(s.cores, c, t.cores[c]);
    assert Line(t) == Line(s);
    forall d | 0 <= d < |t.cores| ensures CoreOk(t, per, d) { assert CoreOk(s, per, d); }
  }

  /** A ticket drawn is the next in line, and no other core still holds that value. */
  lemma StoreSucceeds(s: State, per: nat, c: nat)
    requires Inv(s, per) && c < |s.cores| && s.cores[c].pc.Store? && s.cores[c].mon
    ensures Inv(Step(s, per, c, false), per)
  {
    hide Total, CoreOk;
    var t := Step(s, per, c, false);
    TotalCleared(s.cores);
    TotalPut(Cleared(s.cores), c, t.cores[c]);
    assert Cleared(s.cores)[c].pc == s.cores[c].pc;
    Pigeonhole(Line(s), |s.cores|);
    JoinsLine(s, per, c);
    NewTicket(s, t, c);
    forall d | 0 <= d < |t.cores| ensures CoreOk(t, per, d) {
      assert CoreOk(s, per, d);
      CoreJoins(s, t, per, c, d);
    }
  }

  /** The new ticket is the next in line. */
  lemma NewTicket(s: State, t: State, c: nat)
    requires c < |s.cores| == |t.cores| && s.left <= |s.drawn| && Tickets(s) && Distinct(Line(s)) && c !in Line(s)
             && 0 <= s.serving < M32
    requires t.left == s.left && t.drawn == s.drawn + [c] && t.serving == s.serving
             && s.next == (s.serving + |Line(s)|) % M32
    requires t.next == (s.next + 1) % M32 && t.cores[c].pc == Spin(s.next)
    requires forall d :: 0 <= d < |s.cores| && d != c ==> t.cores[d].pc == s.cores[d].pc
    ensures Line(t) == Line(s) + [c] && Tickets(t) && Distinct(Line(t)) && t.next == (t.serving + |Line(t)|) % M32
  {
    var q, r := Line(s), Line(t);
    assert r == q + [c];
    forall i | 0 <= i < |q| ensures r[i] == q[i] && r[i] != c { assert q[i] in q; }
    ModLast(s.serving, |q|);
  }

  lemma ModLast(v: nat, i: nat)
    ensures ((v + i) % M32 + 1) % M32 == (v + (i + 1)) % M32
  {
  }

  lemma JoinsLine(s: State, per: nat, c: nat)
    requires Inv(s, per) && c < |s.cores| && s.cores[c].pc.Store? && s.cores[c].mon
    ensures c !in Line(s) && s.cores[c].pc.was == s.next && s.cores[c].round < per
  {
    assert CoreOk(s, per, c);
  }

  lemma CoreJoins(s: State, t: State, per: nat, c: nat, d: nat)
    requires c < |s.cores| && d < |s.cores| == |t.cores| && s.cores[c].round < per
    requires s.left <= |s.entered| <= |s.drawn| && t.left == s.left && t.entered == s.entered
             && t.drawn == s.drawn + [c]
    requires CoreOk(s, per, d) && t.counter == s.counter && t.serving == s.serving && t.cores[d].mon == false
    requires t.cores[c].pc.Spin? && s.cores[c].pc.Store? && t.cores[d].round == s.cores[d].round
             && (d != c ==> t.cores[d].pc == s.cores[d].pc)
    ensures CoreOk(t, per, d)
  {
    assert Line(t) == Line(s) + [c];
  }

  lemma StepSpin(s: State, per: nat, c: nat, lost: bool)
    requires Inv(s, per) && c < |s.cores| && s.cores[c].pc.Spin?
    ensures Inv(Step(s, per, c, lost), per)
    ensures s.serving == s.cores[c].pc.me ==> |s.entered| == s.left && Line(s)[0] == c
  {
    hide Total;
    var t := Step(s, per, c, lost);
    assert CoreOk(s, per, c);
    if s.serving == s.cores[c].pc.me {
      var i :| 0 <= i < |Line(s)| && Line(s)[i] == c;
      Pigeonhole(Line(s), |s.cores|);
      FirstTicket(s.serving, i);
      TotalPut(s.cores, c, t.cores[c]);
      assert Line(t) == Line(s);
      forall d | 0 <= d < |t.cores| ensures CoreOk(t, per, d) { assert CoreOk(s, per, d); }
    }
  }

  lemma StepRelease(s: State, per: nat, c: nat, lost: bool)
    requires Inv(s, per) && c < |s.cores| && s.cores[c].pc.Release?
    ensures Inv(Step(s, per, c, lost), per)
  {
    hide Total, CoreOk;
    var t := Step(s, per, c, lost);
    LeavesLine(s, per, c);
    TotalPut(s.cores, c, t.cores[c]);
    assert Line(t) == Line(s)[1..];
    NextServed(s, t, c);
    forall d | 0 <= d < |t.cores| ensures CoreOk(t, per, d) {
      assert CoreOk(s, per, d);
      CoreLeaves(s, t, per, c, d);
    }
  }

  /** With the first in line gone, the others' tickets are one closer. */
  lemma NextServed(s: State, t: State, c: nat)
    requires c < |s.cores| == |t.cores| && s.left < |s.drawn| && Tickets(s) && Distinct(Line(s)) && Line(s)[0] == c
             && 0 <= s.serving < M32
    requires t.left == s.left + 1 && t.drawn == s.drawn && t.serving == (s.serving + 1) % M32
             && t.next == s.next == (s.serving + |Line(s)|) % M32
    requires forall d :: 0 <= d < |s.cores| && d != c ==> t.cores[d] == s.cores[d]
    ensures Tickets(t) && Distinct(Line(t)) && t.next == (t.serving + |Line(t)|) % M32
  {
    var q, r := Line(s), Line(t);
    assert r == q[1..];
    forall i | 0 <= i < |r|
      ensures r[i] == q[i + 1] && r[i] != c && r[i] < |t.cores|
      && (t.serving + i) % M32 == (s.serving + (i + 1)) % M32
    {
      ModNext(s.serving, i);
    }
    ModNext(s.serving, |r|);
  }

  lemma ModNext(v: nat, i: nat)
    requires v < M32
    ensures ((v + 1) % M32 + i) % M32 == (v + (i + 1)) % M32
  {
  }

  lemma LeavesLine(s: State, per: nat, c: nat)
    requires Inv(s, per) && c < |s.cores| && s.cores[c].pc.Release?
    ensures |Line(s)| > 0 && Line(s)[0] == c && |s.entered| == s.left + 1 && s.cores[c].pc.seen == s.serving
            && s.cores[c].round < per
  {
    assert CoreOk(s, per, c);
  }

  lemma CoreLeaves(s: State, t: State, per: nat, c: nat, d: nat)
    requires c < |s.cores| && d < |s.cores| == |t.cores| && s.left < |s.entered| == s.left + 1 <= |s.drawn|
             && Distinct(Line(s)) && Line(s)[0] == c
    requires t.left == s.left + 1 && t.entered == s.entered && t.drawn == s.drawn && t.counter == s.counter
             && t.next == s.next
    requires CoreOk(s, per, d) && s.cores[c].round < per
    requires d == c ==> t.cores[d].pc == Round(per, s.cores[d].round + 1) && t.cores[d].round == s.cores[d].round + 1
    requires d != c ==> t.cores[d] == s.cores[d]
    ensures CoreOk(t, per, d)
  {
    assert Line(t) == Line(s)[1..];
    assert d in Line(t) <==> d in Line(s) && d != c;
  }

  lemma StepInv(s: State, per: nat, c: nat, lost: bool)
    requires Inv(s, per) && c < |s.cores|
    ensures Inv(Step(s, per, c, lost), per)
  {
    hide Inv, Step;
    match s.cores[c].pc
    case Draw => StepQuiet(s, per, c, lost);
    case In => StepQuiet(s, per, c, lost);
    case Add(_) => StepQuiet(s, per, c, lost);
    case Out => StepQuiet(s, per, c, lost);
    case Store(_) => if s.cores[c].mon && !lost { StoreSucceeds(s, per, c); } else { StoreFails(s, per, c, lost); }
    case Spin(_) => StepSpin(s, per, c, lost);
    case Release(_) => StepRelease(s, per, c, lost);
    case Done => StepDone(s, per, c, lost);
  }

  lemma StepDone(s: State, per: nat, c: nat, lost: bool)
    requires c < |s.cores| && s.cores[c].pc.Done?
    ensures Step(s, per, c, lost) == s
  {
  }

  lemma {:induction false} RunInv(n: nat, per: nat, ms: seq<Move>)
    requires Moves(ms, n) && n < M32
    ensures Inv(After(n, per, ms), per)
    decreases |ms|
  {
    hide Step;
    if ms == [] {
      TotalAll(Init(n, per).cores, 0);
    } else {
      RunInv(n, per, ms[..|ms| - 1]);
      StepInv(After(n, per, ms[..|ms| - 1]), per, ms[|ms| - 1].core, ms[|ms| - 1].lost);
    }
  }

  // ---------------------------------------------------------------- main results

  /** Never two cores inside at once. */
  lemma Exclusive(n: nat, per: nat, ms: seq<Move>, c: nat, d: nat)
    requires Moves(ms, n) && n < M32 && c < n && d < n
    ensures Inside(After(n, per, ms).cores[c].pc) && Inside(After(n, per, ms).cores[d].pc) ==> c == d
  {
    hide Step;
    RunInv(n, per, ms);
    assert CoreOk(After(n, per, ms), per, c) && CoreOk(After(n, per, ms), per, d);
  }

  ghost function Holders(s: State): set<nat> { set c: nat | c < |s.cores| && Holds(s.cores[c].pc) }

  ghost function Members(q: seq<nat>): set<nat> { set x | x in q }

  lemma {:induction false} LineSize(q: seq<nat>)
    requires Distinct(q)
    ensures |Members(q)| == |q|
    decreases |q|
  {
    if q == [] {
      assert Members(q) == {};
    } else {
      var r := q[..|q| - 1];
      LineSize(r);
      assert q[|q| - 1] !in r;
      assert q == r + [q[|q| - 1]];
      assert Members(q) == Members(r) + {q[|q| - 1]};
    }
  }

  /** next_ticket - now_serving, modulo 2^32, counts the cores waiting or inside, across any
      number of wraps. */
  lemma Difference(n: nat, per: nat, ms: seq<Move>)
    requires Moves(ms, n) && n < M32
    ensures var s := After(n, per, ms); (s.next - s.serving) % M32 == |Holders(s)|
  {
    hide Step;
    RunInv(n, per, ms);
    var s := After(n, per, ms);
    LineSize(Line(s));
    Pigeonhole(Line(s), n);
    forall c: nat ensures c in Line(s) <==> c in Holders(s) {
      if c < n { assert CoreOk(s, per, c); }
    }
    assert Holders(s) == Members(Line(s));
  }

  /** First in, first out: cores get in in the order they drew their tickets. */
  lemma Fifo(n: nat, per: nat, ms: seq<Move>)
    requires Moves(ms, n) && n < M32
    ensures var s := After(n, per, ms); |s.entered| <= |s.drawn| && s.entered == s.drawn[..|s.entered|]
  {
    RunInv(n, per, ms);
  }

  /** Core c is in the waiting loop and its condition does not hold. */
  predicate Spins(s: State, c: nat)
    requires c < |s.cores|
  {
    s.cores[c].pc.Spin? && s.serving != s.cores[c].pc.me
  }

  /** Deadlock freedom: while any core has rounds left, some core that has is not spinning,
      across any number of wraps. */
  lemma NoDeadlock(n: nat, per: nat, ms: seq<Move>)
    requires Moves(ms, n) && n < M32 && exists c :: 0 <= c < n && !After(n, per, ms).cores[c].pc.Done?
    ensures exists c :: 0 <= c < n && !After(n, per, ms).cores[c].pc.Done? && !Spins(After(n, per, ms), c)
  {
    hide Step, After;
    RunInv(n, per, ms);
    var s := After(n, per, ms);
    if Line(s) == [] {
      var c :| 0 <= c < n && !s.cores[c].pc.Done?;
      assert CoreOk(s, per, c) && !Spins(s, c);
    } else {
      var c := Line(s)[0];
      assert CoreOk(s, per, c) && !Spins(s, c);
    }
  }

  // ---------------------------------------------------------------- progress

  /** Some interleaving leads from s to t. */
  ghost predicate Leads(per: nat, s: State, more: seq<Move>, t: State)
    decreases |more|
  {
    if more == [] then s == t
    else
      var m := |more| - 1;
      exists r ::
        Leads(per, s, more[..m], r) && more[m].core < |r.cores| && t == Step(r, per, more[m].core, more[m].lost)
  }

  ghost predicate CanReach(per: nat, s: State, t: State) { exists more: seq<Move> :: Leads(per, s, more, t) }

  lemma CanSelf(per: nat, s: State)
    ensures CanReach(per, s, s)
  {
    assert Leads(per, s, [], s);
  }

  lemma CanStep(per: nat, s: State, t: State, c: nat)
    requires CanReach(per, s, t) && c < |t.cores|
    ensures CanReach(per, s, Step(t, per, c, false))
  {
    hide Step;
    var more :| Leads(per, s, more, t);
    var all := more + [Move(c, false)];
    assert all[..|more|] == more;
    assert Leads(per, s, all, Step(t, per, c, false));
  }

  lemma {:induction false} LeadsAfter(n: nat, per: nat, ms: seq<Move>, more: seq<Move>, t: State)
    requires Moves(ms, n) && Leads(per, After(n, per, ms), more, t)
    ensures Moves(ms + more, n) && After(n, per, ms + more) == t
    decreases |more|
  {
    hide Step;
    if more == [] {
      assert ms + more == ms;
    } else {
      var m := |more| - 1;
      var r :| Leads(per, After(n, per, ms), more[..m], r) && more[m].core < |r.cores|
               && t == Step(r, per, more[m].core, more[m].lost);
      LeadsAfter(n, per, ms, more[..m], r);
      assert (ms + more)[..|ms + more| - 1] == ms + more[..m];
    }
  }

  /** How far core c is from the end of its round. */
  function ToGo(k: Core): nat {
    match k.pc
    case Store(_) => if k.mon then 7 else 9
    case Draw => 8
    case Spin(_) => 6
    case In => 5
    case Add(_) => 4
    case Out => 3
    case Release(_) => 2
    case Done => 0
  }

  /** No core is before c in the line. */
  ghost predicate Next(s: State, c: nat) { s.left <= |s.drawn| && (Line(s) == [] || Line(s)[0] == c) }

  /** A step of the core whose turn it is ends its round or brings it closer. */
  lemma Closer(s: State, per: nat, c: nat)
    requires Inv(s, per) && c < |s.cores| && !s.cores[c].pc.Done? && Next(s, c)
    ensures var t := Step(s, per, c, false);
            && |t.cores| == |s.cores| && Inv(t, per)
            && (forall d :: 0 <= d < |s.cores| && d != c ==> t.cores[d].round == s.cores[d].round)
            && if s.cores[c].pc.Release? then t.cores[c].round == s.cores[c].round + 1
               else t.cores[c].round == s.cores[c].round && ToGo(t.cores[c]) < ToGo(s.cores[c]) && Next(t, c)
                    && !t.cores[c].pc.Done?
  {
    StepInv(s, per, c, false);
    hide Inv;
    Turn(s, per, c);
  }

  lemma Turn(s: State, per: nat, c: nat)
    requires Inv(s, per) && c < |s.cores| && Next(s, c)
    ensures s.cores[c].pc.Spin? ==> s.cores[c].pc.me == s.serving
    ensures s.left <= |s.entered| <= |s.drawn|
    ensures s.cores[c].pc.Store? ==> Line(s) == []
  {
    assert CoreOk(s, per, c);
    if s.cores[c].pc.Spin? { assert Line(s)[0] == c; }
  }

  lemma {:induction false} EndsRound(per: nat, s0: State, s: State, c: nat) returns (t: State)
    requires Inv(s, per) && c < |s.cores| && !s.cores[c].pc.Done? && Next(s, c) && CanReach(per, s0, s)
    ensures Inv(t, per) && |t.cores| == |s.cores| && CanReach(per, s0, t) && t.cores[c].round == s.cores[c].round + 1
    ensures forall d :: 0 <= d < |s.cores| && d != c ==> t.cores[d].round == s.cores[d].round
    decreases ToGo(s.cores[c])
  {
    hide Step, Inv, Next, CanReach, ToGo;
    Closer(s, per, c);
    CanStep(per, s0, s, c);
    t := Step(s, per, c, false);
    if !s.cores[c].pc.Release? { t := EndsRound(per, s0, t, c); }
  }

  /** Rounds still to do. */
  function Undone(cs: seq<Core>, per: nat): nat {
    if cs == [] then 0
    else Undone(cs[..|cs| - 1], per) + if cs[|cs| - 1].round < per then per - cs[|cs| - 1].round else 0
  }

  lemma {:induction false} OneLess(cs: seq<Core>, cs': seq<Core>, per: nat, c: nat)
    requires |cs| == |cs'| && c < |cs| && cs[c].round < per && cs'[c].round == cs[c].round + 1
    requires forall d :: 0 <= d < |cs| && d != c ==> cs'[d].round == cs[d].round
    ensures Undone(cs', per) < Undone(cs, per)
    decreases |cs|
  {
    var n := |cs| - 1;
    if c < n { OneLess(cs[..n], cs'[..n], per, c); } else { SameUndone(cs[..n], cs'[..n], per); }
  }

  lemma {:induction false} SameUndone(cs: seq<Core>, cs': seq<Core>, per: nat)
    requires |cs| == |cs'| && forall d :: 0 <= d < |cs| ==> cs'[d].round == cs[d].round
    ensures Undone(cs', per) == Undone(cs, per)
    decreases |cs|
  {
    if cs != [] { SameUndone(cs[..|cs| - 1], cs'[..|cs| - 1], per); }
  }

  /** Whose turn it is while some core has rounds left. */
  lemma TurnOf(s: State, per: nat) returns (c: nat)
    requires Inv(s, per) && exists d :: 0 <= d < |s.cores| && !s.cores[d].pc.Done?
    ensures c < |s.cores| && !s.cores[c].pc.Done? && s.cores[c].round < per && Next(s, c)
  {
    if Line(s) == [] {
      c :| c < |s.cores| && !s.cores[c].pc.Done?;
    } else {
      c := Line(s)[0];
    }
    assert CoreOk(s, per, c);
  }

  lemma {:induction false} AllFinish(per: nat, s0: State, s: State) returns (t: State)
    requires Inv(s, per) && CanReach(per, s0, s)
    ensures |t.cores| == |s.cores| && CanReach(per, s0, t) && forall c :: 0 <= c < |t.cores| ==> t.cores[c].pc.Done?
    decreases Undone(s.cores, per)
  {
    hide Step, Inv, Next, CanReach;
    t := s;
    if d :| 0 <= d < |s.cores| && !s.cores[d].pc.Done? {
      var c := TurnOf(s, per);
      var r := EndsRound(per, s0, s, c);
      OneLess(s.cores, r.cores, per, c);
      t := AllFinish(per, s0, r);
    }
  }

  /** Progress: from every state reached all workers can still finish, and the counter is then
      per_core times the cores. */
  lemma EveryoneFinishes(n: nat, per: nat, ms: seq<Move>)
    requires Moves(ms, n) && n < M32
    ensures exists more :: Moves(ms + more, n) && After(n, per, ms + more).counter == per * n
              && forall c :: 0 <= c < n ==> After(n, per, ms + more).cores[c].pc.Done?
  {
    hide Step, After, Inv;
    RunInv(n, per, ms);
    var s := After(n, per, ms);
    CanSelf(per, s);
    var t := AllFinish(per, s, s);
    var more :| Leads(per, s, more, t);
    LeadsAfter(n, per, ms, more, t);
    SelfTest(n, per, ms + more);
  }

  /** The self test: when every core is done, the counter is per_core times the cores. */
  lemma SelfTest(n: nat, per: nat, ms: seq<Move>)
    requires Moves(ms, n) && n < M32 && forall c :: 0 <= c < n ==> After(n, per, ms).cores[c].pc.Done?
    ensures After(n, per, ms).counter == per * n
  {
    hide Step;
    RunInv(n, per, ms);
    var s := After(n, per, ms);
    forall c | 0 <= c < n ensures Added(s.cores[c]) == per { assert CoreOk(s, per, c); }
    TotalAll(s.cores, per);
  }
}
