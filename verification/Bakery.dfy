/** Lamport's bakery lock: N cores interleaved one shared access at a time.  The maximum
    scan reads a number a second time after comparing it, and the waiting loop reads it up
    to three times; in between every other core may move. */
module Bakery {
  import opened Word

  /** Where a core is, with its loop index and running maximum. */
  datatype Pc =
    | Idle
    | Scan(i: nat, max: nat)      // about to read number[i], or to write its own at i == N
    | Reread(i: nat, max: nat)    // number[i] was above max; about to read it again
    | Named                       // has its number, still choosing
    | Wait(i: nat)                // about to read choosing[i], or to enter at i == N
    | Check(i: nat)               // about to test number[i] against 0
    | Cmp(i: nat)                 // about to compare number[i] with its own
    | Tie(i: nat)                 // about to compare it for equality
    | Crit

  datatype State = State(choosing: seq<bool>, number: seq<nat>, pc: seq<Pc>)

  ghost predicate Shape(s: State) { |s.choosing| == |s.number| == |s.pc| }

  function Put(s: State, c: nat, p: Pc): State
    requires c < |s.pc|
  {
    s.(pc := s.pc[c := p])
  }

  /** One shared access of core c.  A spinning core comes back to its test. */
  function Step(s: State, c: nat): State
    requires Shape(s) && c < |s.pc|
  {
    var n := |s.pc|;
    match s.pc[c]
    case Idle => Put(s, c, Scan(0, 0)).(choosing := s.choosing[c := true])
    case Scan(i, max) =>
      if i < n then Put(s, c, if s.number[i] > max then Reread(i, max) else Scan(i + 1, max))
      else Put(s, c, Named).(number := s.number[c := (max + 1) % M32])
    case Reread(i, _) => if i < n then Put(s, c, Scan(i + 1, s.number[i])) else s
    case Named => Put(s, c, Wait(0)).(choosing := s.choosing[c := false])
    case Wait(i) =>
      if i >= n then Put(s, c, Crit)
      else if i == c then Put(s, c, Wait(i + 1))
      else if s.choosing[i] then s
      else Put(s, c, Check(i))
    case Check(i) => if i < n then Put(s, c, if s.number[i] != 0 then Cmp(i) else Wait(i + 1)) else s
    case Cmp(i) => if i < n then Put(s, c, if s.number[i] < s.number[c] then Check(i) else Tie(i)) else s
    case Tie(i) =>
      if i < n then Put(s, c, if s.number[i] == s.number[c] && i < c then Check(i) else Wait(i + 1)) else s
    case Crit => Put(s, c, Idle).(number := s.number[c := 0])
  }

  function Init(n: nat): State { State(seq(n, _ => false), seq(n, _ => 0), seq(n, _ => Idle)) }

  /** The state after an interleaving. */
  function After(n: nat, sched: seq<nat>): (s: State)
    requires forall k :: 0 <= k < |sched| ==> sched[k] < n
    ensures Shape(s) && |s.pc| == n
  {
    if sched == [] then Init(n) else Step(After(n, sched[..|sched| - 1]), sched[|sched| - 1])
  }

  // ---------------------------------------------------------------- invariant

  ghost predicate Choosing(p: Pc) { p.Scan? || p.Reread? || p.Named? }
  ghost predicate Numbered(p: Pc) { !p.Idle? && !p.Scan? && !p.Reread? }

  /** The core has seen choosing[p] clear since it took its number. */
  ghost predicate Past(pc: Pc, p: nat) {
    pc.Crit? || (pc.Wait? && pc.i > p) || ((pc.Check? || pc.Cmp? || pc.Tie?) && pc.i >= p)
  }

  /** The core has finished waiting for p. */
  ghost predicate Passed(pc: Pc, p: nat) {
    pc.Crit? || ((pc.Wait? || pc.Check? || pc.Cmp? || pc.Tie?) && pc.i > p)
  }

  ghost predicate Before(s: State, q: nat, p: nat)
    requires Shape(s) && q < |s.pc| && p < |s.pc|
  {
    s.number[q] < s.number[p] || (s.number[q] == s.number[p] && q < p)
  }

  ghost predicate Alone(s: State, p: nat)
    requires Shape(s) && p < |s.pc|
  {
    && (s.choosing[p] <==> Choosing(s.pc[p])) && (s.number[p] > 0 <==> Numbered(s.pc[p]))
    && (s.pc[p].Scan? || s.pc[p].Wait? ==> s.pc[p].i <= |s.pc|)
    && (s.pc[p].Reread? || s.pc[p].Check? || s.pc[p].Cmp? || s.pc[p].Tie? ==> s.pc[p].i < |s.pc| && s.pc[p].i != p)
  }

  /** While q is past p, whatever number p is choosing will come out above q's, even if the
      value p compared is gone by the time p reads it again. */
  ghost predicate Above(s: State, q: nat, p: nat)
    requires Shape(s) && q < |s.pc| && p < |s.pc| && Alone(s, p)
  {
    match s.pc[p]
    case Scan(i, max) => q < i ==> max >= s.number[q]
    case Reread(i, _) => q < i ==> s.number[i] > s.number[q]
    case Named => s.number[p] > s.number[q]
    case _ => true
  }

  ghost predicate Pair(s: State, q: nat, p: nat)
    requires Shape(s) && q < |s.pc| && p < |s.pc| && Alone(s, p)
  {
    && (Past(s.pc[q], p) ==> Above(s, q, p))
    && (s.pc[q] == Tie(p) ==> s.number[p] == 0 || s.number[p] >= s.number[q])
    && (Passed(s.pc[q], p) ==> s.number[p] == 0 || Before(s, q, p))
  }

  ghost predicate Inv(s: State) {
    && Shape(s) && (forall p :: 0 <= p < |s.pc| ==> Alone(s, p))
    && forall q, p :: 0 <= q < |s.pc| && 0 <= p < |s.pc| && q != p ==> Pair(s, q, p)
  }

  /** The next step of c does not wrap a number to 0. */
  predicate NoWrap(s: State, c: nat)
    requires c < |s.pc|
  {
    s.pc[c].Scan? && s.pc[c].i >= |s.pc| ==> s.pc[c].max + 1 < M32
  }

  lemma StepAlone(s: State, c: nat, p: nat)
    requires Inv(s) && c < |s.pc| && p < |s.pc| && NoWrap(s, c)
    ensures Alone(Step(s, c), p)
  {
    assert Alone(s, p) && Alone(s, c);
  }

  /** A number that p compared with success stays until p has read it again, or q is gone:
      its owner i cannot leave while q waits before it. */
  lemma StepPairOther(s: State, c: nat, q: nat, p: nat)
    requires Inv(s) && c < |s.pc| && q < |s.pc| && p < |s.pc| && q != p && c != p && c != q && NoWrap(s, c)
    requires Alone(Step(s, c), p)
    ensures Pair(Step(s, c), q, p)
  {
    assert Pair(s, q, p) && Alone(s, p) && Alone(s, c) && Alone(s, q);
    if s.pc[p].Reread? && s.pc[p].i == c { assert Pair(s, c, q); }
  }

  lemma StepPairWaiter(s: State, q: nat, p: nat)
    requires Inv(s) && q < |s.pc| && p < |s.pc| && q != p && NoWrap(s, q) && Alone(Step(s, q), p)
    ensures Pair(Step(s, q), q, p)
  {
    assert Pair(s, q, p) && Alone(s, p) && Alone(s, q) && Pair(s, p, q);
  }

  lemma StepPairChooser(s: State, q: nat, p: nat)
    requires Inv(s) && q < |s.pc| && p < |s.pc| && q != p && NoWrap(s, p) && Alone(Step(s, p), p)
    ensures Pair(Step(s, p), q, p)
  {
    assert Pair(s, q, p) && Alone(s, p) && Alone(s, q) && Pair(s, p, q);
  }

  lemma StepInv(s: State, c: nat)
    requires Inv(s) && c < |s.pc| && NoWrap(s, c)
    ensures Inv(Step(s, c))
  {
    hide Alone, Pair;
    var t := Step(s, c);
    forall p | 0 <= p < |t.pc| ensures Alone(t, p) { StepAlone(s, c, p); }
    forall q, p | 0 <= q < |t.pc| && 0 <= p < |t.pc| && q != p ensures Pair(t, q, p) {
      if c == q {
        StepPairWaiter(s, q, p);
      } else if c == p {
        StepPairChooser(s, q, p);
      } else {
        StepPairOther(s, c, q, p);
      }
    }
  }

  // ---------------------------------------------------------------- main results

  /** No prefix of the interleaving wraps a 32-bit number. */
  ghost predicate NeverWraps(n: nat, sched: seq<nat>)
    requires forall k :: 0 <= k < |sched| ==> sched[k] < n
  {
    forall k :: 0 <= k < |sched| ==> NoWrap(After(n, sched[..k]), sched[k])
  }

  lemma {:induction false} RunInv(n: nat, sched: seq<nat>)
    requires (forall k :: 0 <= k < |sched| ==> sched[k] < n) && NeverWraps(n, sched)
    ensures Inv(After(n, sched))
    decreases |sched|
  {
    if sched != [] {
      var m := |sched| - 1;
      var front := sched[..m];
      forall k | 0 <= k < m ensures NoWrap(After(n, front[..k]), front[k]) { assert front[..k] == sched[..k]; }
      RunInv(n, front);
      StepInv(After(n, front), sched[m]);
    }
  }

  /** Mutual exclusion: whatever the interleaving, two cores are never both between
      spin_lock and spin_unlock, as long as no number wraps. */
  lemma MutualExclusion(n: nat, sched: seq<nat>, p: nat, q: nat)
    requires (forall k :: 0 <= k < |sched| ==> sched[k] < n) && NeverWraps(n, sched) && p < n && q < n
    ensures After(n, sched).pc[p].Crit? && After(n, sched).pc[q].Crit? ==> p == q
  {
    RunInv(n, sched);
    Exclusive(After(n, sched), p, q);
  }

  lemma Exclusive(s: State, p: nat, q: nat)
    requires Inv(s) && p < |s.pc| && q < |s.pc|
    ensures s.pc[p].Crit? && s.pc[q].Crit? ==> p == q
  {
    assert Alone(s, p) && Alone(s, q);
    assert p != q ==> Pair(s, p, q) && Pair(s, q, p);
  }

  // ---------------------------------------------------------------- how long it is safe

  /** How often a core has drawn a number: the calls of spin_lock that got that far. */
  ghost function Draws(n: nat, sched: seq<nat>): nat
    requires forall k :: 0 <= k < |sched| ==> sched[k] < n
  {
    if sched == [] then 0
    else
      var m := |sched| - 1;
      Draws(n, sched[..m]) + if Draw(After(n, sched[..m]).pc[sched[m]], n) then 1 else 0
  }

  predicate Draw(p: Pc, n: nat) { p.Scan? && p.i >= n }

  ghost predicate Within(s: State, d: nat) {
    && (forall i :: 0 <= i < |s.number| ==> s.number[i] <= d)
    && forall i :: 0 <= i < |s.pc| ==> (s.pc[i].Scan? || s.pc[i].Reread? ==> s.pc[i].max <= d)
  }

  lemma StepWithin(s: State, c: nat, d: nat)
    requires Shape(s) && c < |s.pc| && Within(s, d)
    ensures Within(Step(s, c), d + if Draw(s.pc[c], |s.pc|) then 1 else 0)
  {
    match s.pc[c]
    case Scan(i, max) => if i >= |s.pc| { assert (max + 1) % M32 <= max + 1; }
    case _ =>
  }

  lemma {:induction false} NumbersWithin(n: nat, sched: seq<nat>)
    requires forall k :: 0 <= k < |sched| ==> sched[k] < n
    ensures Within(After(n, sched), Draws(n, sched)) && Draws(n, sched) <= |sched|
    decreases |sched|
  {
    hide Step, Within;
    if sched == [] {
      InitWithin(n);
    } else {
      var m := |sched| - 1;
      NumbersWithin(n, sched[..m]);
      StepWithin(After(n, sched[..m]), sched[m], Draws(n, sched[..m]));
    }
  }

  lemma InitWithin(n: nat)
    ensures Within(Init(n), 0)
  {
  }

  lemma {:induction false} DrawsGrow(n: nat, sched: seq<nat>, k: nat)
    requires (forall j :: 0 <= j < |sched| ==> sched[j] < n) && k <= |sched|
    ensures Draws(n, sched[..k]) <= Draws(n, sched)
    decreases |sched|
  {
    if k < |sched| {
      var front := sched[..|sched| - 1];
      DrawsGrow(n, front, k);
      assert front[..k] == sched[..k];
    } else {
      assert sched[..k] == sched;
    }
  }

  /** No number wraps while fewer than 2^32 have been drawn: mutual exclusion holds for the
      first 2^32 - 1 calls of spin_lock, whatever the interleaving. */
  lemma FewNeverWrap(n: nat, sched: seq<nat>)
    requires (forall k :: 0 <= k < |sched| ==> sched[k] < n) && Draws(n, sched) < M32
    ensures NeverWraps(n, sched)
  {
    hide Step, After;
    forall k | 0 <= k < |sched| ensures NoWrap(After(n, sched[..k]), sched[k]) {
      NumbersWithin(n, sched[..k]);
      DrawsGrow(n, sched, k + 1);
      assert sched[..k + 1][..k] == sched[..k];
    }
  }

  // ---------------------------------------------------------------- progress

  /** The condition of the loop core c waits in holds right now. */
  ghost predicate Spins(s: State, c: nat)
    requires Shape(s) && c < |s.pc|
  {
    match s.pc[c]
    case Wait(i) => i < |s.pc| && i != c && s.choosing[i]
    case Check(i) => i < |s.pc| && s.number[i] != 0 && Before(s, i, c)
    case Cmp(i) => i < |s.pc| && s.number[i] != 0 && Before(s, i, c)
    case Tie(i) => i < |s.pc| && s.number[i] != 0 && Before(s, i, c)
    case _ => false
  }

  /** What holds whether or not numbers wrap. */
  ghost predicate Orderly(s: State) {
    Shape(s) && forall p :: 0 <= p < |s.pc| ==> Tidy(s, p)
  }

  ghost predicate Tidy(s: State, p: nat)
    requires Shape(s) && p < |s.pc|
  {
    && (s.choosing[p] <==> Choosing(s.pc[p])) && (s.number[p] > 0 ==> Numbered(s.pc[p]))
    && (s.pc[p].Scan? || s.pc[p].Wait? ==> s.pc[p].i <= |s.pc|)
    && (s.pc[p].Reread? || s.pc[p].Check? || s.pc[p].Cmp? || s.pc[p].Tie? ==> s.pc[p].i < |s.pc| && s.pc[p].i != p)
  }

  lemma StepTidy(s: State, c: nat, p: nat)
    requires Orderly(s) && c < |s.pc| && p < |s.pc|
    ensures Tidy(Step(s, c), p)
  {
    assert Tidy(s, p) && Tidy(s, c);
  }

  lemma StepOrderly(s: State, c: nat)
    requires Orderly(s) && c < |s.pc|
    ensures Orderly(Step(s, c)) && Shape(Step(s, c)) && |Step(s, c).pc| == |s.pc|
  {
    hide Tidy;
    forall p | 0 <= p < |s.pc| ensures Tidy(Step(s, c), p) { StepTidy(s, c, p); }
  }

  lemma {:induction false} RunOrderly(n: nat, sched: seq<nat>)
    requires Sched(n, sched)
    ensures Orderly(After(n, sched))
    decreases |sched|
  {
    hide Step;
    if sched != [] {
      RunOrderly(n, sched[..|sched| - 1]);
      StepOrderly(After(n, sched[..|sched| - 1]), sched[|sched| - 1]);
    }
  }

  /** How far core c is from the critical section while the others stand still. */
  function ToGo(s: State, c: nat): int
    requires Shape(s) && c < |s.pc|
  {
    var n := |s.pc|;
    match s.pc[c]
    case Idle => 10 * n + 20
    case Scan(i, _) => 8 * n + 2 * (n - i) + 10
    case Reread(i, _) => 8 * n + 2 * (n - i) + 9
    case Named => 8 * n + 8
    case Wait(i) => 8 * (n - i) + 7
    case Check(i) => 8 * (n - i) + if i < n && s.number[i] != 0 then 6 else 3
    case Cmp(i) => 8 * (n - i) + 5
    case Tie(i) => 8 * (n - i) + 4
    case Crit => 0
  }

  /** A core that is not waiting comes closer with each of its steps. */
  lemma Closer(s: State, c: nat)
    requires Orderly(s) && c < |s.pc| && !s.pc[c].Crit? && !Spins(s, c)
    ensures 0 <= ToGo(Step(s, c), c) < ToGo(s, c) && !Step(s, c).pc[c].Idle?
    ensures forall d :: 0 <= d < |s.pc| && d != c ==>
              Step(s, c).pc[d] == s.pc[d] && Step(s, c).number[d] == s.number[d]
                && Step(s, c).choosing[d] == s.choosing[d]
    ensures Waits(s.pc[c]) ==>
            Step(s, c).number == s.number && Step(s, c).choosing == s.choosing
            && (Waits(Step(s, c).pc[c]) || Step(s, c).pc[c].Crit?)
  {
    assert Tidy(s, c);
  }

  ghost predicate Waits(p: Pc) { Waiting(p) && !p.Crit? }

  /** Some interleaving leads from s to t. */
  ghost predicate CanReach(n: nat, s: State, t: State) {
    exists more: seq<nat> :: Leads(n, s, more, t)
  }

  ghost predicate Leads(n: nat, s: State, more: seq<nat>, t: State)
    decreases |more|
  {
    if more == [] then s == t
    else
      var m := |more| - 1;
      more[m] < n && exists r :: Leads(n, s, more[..m], r) && Shape(r) && |r.pc| == n && t == Step(r, more[m])
  }

  lemma CanSelf(n: nat, s: State)
    ensures CanReach(n, s, s)
  {
    assert Leads(n, s, [], s);
  }

  lemma CanStep(n: nat, s: State, t: State, c: nat)
    requires CanReach(n, s, t) && c < n && Shape(t) && |t.pc| == n
    ensures CanReach(n, s, Step(t, c))
  {
    hide Step;
    var more :| Leads(n, s, more, t);
    assert (more + [c])[..|more|] == more;
    assert Leads(n, s, more + [c], Step(t, c));
  }

  lemma {:induction false} LeadsAfter(n: nat, sched: seq<nat>, more: seq<nat>, t: State)
    requires Sched(n, sched) && Leads(n, After(n, sched), more, t)
    ensures Sched(n, sched + more) && After(n, sched + more) == t
    decreases |more|
  {
    hide Step;
    if more == [] {
      assert sched + more == sched;
    } else {
      var m := |more| - 1;
      var r :| Leads(n, After(n, sched), more[..m], r) && Shape(r) && |r.pc| == n && t == Step(r, more[m]);
      LeadsAfter(n, sched, more[..m], r);
      AfterSnoc(n, sched + more[..m], more[m]);
      assert sched + more == sched + more[..m] + [more[m]];
    }
  }

  /** Core p leaves its doorway, the others standing still. */
  lemma {:induction false} LeavesDoor(s0: State, s: State, p: nat) returns (t: State)
    requires Orderly(s) && p < |s.pc| && Choosing(s.pc[p]) && CanReach(|s.pc|, s0, s)
    ensures Orderly(t) && |t.pc| == |s.pc| && !Choosing(t.pc[p]) && !t.pc[p].Idle? && CanReach(|s.pc|, s0, t)
    ensures forall d :: 0 <= d < |s.pc| && d != p ==> t.pc[d] == s.pc[d]
    decreases ToGo(s, p)
  {
    hide Step, CanReach, Orderly, ToGo, Tidy;
    OrderlyShape(s);
    t := Step(s, p);
    NotSpinning(s, p);
    Closer(s, p);
    StepOrderly(s, p);
    CanStep(|s.pc|, s0, s, p);
    if Choosing(t.pc[p]) { t := LeavesDoor(s0, t, p); }
  }

  lemma NotSpinning(s: State, p: nat)
    requires Orderly(s) && p < |s.pc| && Choosing(s.pc[p])
    ensures !Spins(s, p)
  {
  }

  /** All doorways are left. */
  lemma LeaveDoors(s0: State, s: State) returns (t: State)
    requires Orderly(s) && CanReach(|s.pc|, s0, s)
    ensures Orderly(t) && |t.pc| == |s.pc| && CanReach(|s.pc|, s0, t)
    ensures forall d :: 0 <= d < |s.pc| ==> !Choosing(t.pc[d]) && (t.pc[d].Idle? <==> s.pc[d].Idle?)
  {
    hide Step, CanReach, Tidy;
    t := s;
    for p := 0 to |s.pc|
      invariant Orderly(t) && |t.pc| == |s.pc| && CanReach(|s.pc|, s0, t)
      invariant forall d :: 0 <= d < p ==> !Choosing(t.pc[d])
      invariant forall d :: 0 <= d < |s.pc| ==> (t.pc[d].Idle? <==> s.pc[d].Idle?)
    {
      if Choosing(t.pc[p]) { t := LeavesDoor(s0, t, p); }
    }
  }

  /** No core is choosing, and m's number, or index, is below that of all others inside. */
  ghost predicate First(s: State, m: nat) {
    && Shape(s) && m < |s.pc| && !s.pc[m].Idle? && (forall c :: 0 <= c < |s.pc| ==> !Choosing(s.pc[c]))
    && forall c :: 0 <= c < |s.pc| && c != m && !s.pc[c].Idle? ==> Before(s, m, c)
  }

  /** The core of least number, ties to the lower index, among the first n that are inside. */
  lemma {:induction false} Least(s: State, n: nat) returns (m: nat)
    requires Shape(s) && n <= |s.pc| && exists c :: 0 <= c < n && !s.pc[c].Idle?
    ensures m < n && !s.pc[m].Idle? && forall c :: 0 <= c < n && c != m && !s.pc[c].Idle? ==> Before(s, m, c)
    decreases n
  {
    m := n - 1;
    if exists c :: 0 <= c < n - 1 && !s.pc[c].Idle? {
      var l := Least(s, n - 1);
      if s.pc[m].Idle? || Before(s, l, m) { m := l; }
    }
  }

  lemma FirstMoves(s: State, m: nat)
    requires Orderly(s) && First(s, m) && !s.pc[m].Crit?
    ensures !Spins(s, m) && Waits(s.pc[m])
  {
    assert Tidy(s, m);
    match s.pc[m]
    case Wait(i) => if i < |s.pc| { assert Tidy(s, i); }
    case Check(i) => assert Tidy(s, i);
    case Cmp(i) => assert Tidy(s, i);
    case Tie(i) => assert Tidy(s, i);
    case _ =>
  }

  /** The first one gets in, the others standing still. */
  lemma {:induction false} FirstEnters(s0: State, s: State, m: nat) returns (t: State)
    requires Orderly(s) && First(s, m) && CanReach(|s.pc|, s0, s)
    ensures Orderly(t) && |t.pc| == |s.pc| && t.pc[m].Crit? && CanReach(|s.pc|, s0, t)
    ensures forall d :: 0 <= d < |s.pc| && d != m ==> t.pc[d] == s.pc[d]
    decreases ToGo(s, m)
  {
    hide Step, CanReach, Orderly, ToGo, Tidy, Spins, First;
    t := s;
    FirstShape(s, m);
    if !s.pc[m].Crit? {
      FirstMoves(s, m);
      Closer(s, m);
      StepOrderly(s, m);
      CanStep(|s.pc|, s0, s, m);
      FirstStays(s, m, Step(s, m));
      t := FirstEnters(s0, Step(s, m), m);
    }
  }

  lemma FirstShape(s: State, m: nat)
    requires First(s, m)
    ensures Shape(s) && m < |s.pc|
  {
  }

  lemma FirstStays(s: State, m: nat, t: State)
    requires First(s, m) && Shape(t) && |t.pc| == |s.pc| && t.number == s.number
    requires (forall d :: 0 <= d < |s.pc| && d != m ==> t.pc[d] == s.pc[d]) && (Waits(t.pc[m]) || t.pc[m].Crit?)
    ensures First(t, m)
  {
  }

  ghost function Inside(s: State): set<nat> { set c: nat | c < |s.pc| && !s.pc[c].Idle? }

  /** Core p gets in, those before it leaving one after the other. */
  lemma {:induction false} GetsIn(s0: State, s: State, p: nat) returns (t: State)
    requires Orderly(s) && p < |s.pc| && !s.pc[p].Idle? && CanReach(|s.pc|, s0, s)
    ensures Shape(t) && |t.pc| == |s.pc| && t.pc[p].Crit? && CanReach(|s.pc|, s0, t)
    decreases Inside(s)
  {
    hide CanReach, Orderly, Tidy, Step;
    var s1 := LeaveDoors(s0, s);
    OrderlyShape(s1);
    var m := Least(s1, |s1.pc|);
    var s2 := FirstEnters(s0, s1, m);
    OrderlyShape(s2);
    if m == p {
      t := s2;
    } else {
      StepOrderly(s2, m);
      CanStep(|s.pc|, s0, s2, m);
      Leaves(s2, m);
      assert m in Inside(s) && m !in Inside(Step(s2, m));
      assert Inside(Step(s2, m)) <= Inside(s);
      t := GetsIn(s0, Step(s2, m), p);
    }
  }

  lemma OrderlyShape(s: State)
    requires Orderly(s)
    ensures Shape(s)
  {
  }

  /** Unlocking makes a core idle, without a number. */
  lemma Leaves(s: State, c: nat)
    requires Shape(s) && c < |s.pc| && s.pc[c].Crit?
    ensures var t := Step(s, c); |t.pc| == |s.pc| && t.pc[c].Idle? && t.number[c] == 0
    ensures forall d :: 0 <= d < |s.pc| && d != c ==> Step(s, c).pc[d] == s.pc[d]
  {
  }

  /** Progress: from every state reached, wrapped numbers or not, every core can still get
      into the critical section, and its next step leaves it. */
  lemma EveryoneEnters(n: nat, sched: seq<nat>, p: nat)
    requires Sched(n, sched) && p < n
    ensures exists more :: Sched(n, sched + more) && After(n, sched + more).pc[p].Crit?
              && After(n, sched + more + [p]).pc[p].Idle? && After(n, sched + more + [p]).number[p] == 0
  {
    hide Step, After, Orderly;
    var s0 := After(n, sched);
    RunOrderly(n, sched);
    CanSelf(n, s0);
    var s := s0;
    if s.pc[p].Idle? {
      StepOrderly(s, p);
      CanStep(n, s0, s, p);
      s := Step(s, p);
      Begins(s0, p);
    }
    var t := GetsIn(s0, s, p);
    var more :| Leads(n, s0, more, t);
    LeadsAfter(n, sched, more, t);
    AfterSnoc(n, sched + more, p);
    Leaves(t, p);
  }

  lemma Begins(s: State, p: nat)
    requires Shape(s) && p < |s.pc| && s.pc[p].Idle?
    ensures !Step(s, p).pc[p].Idle? && |Step(s, p).pc| == |s.pc|
  {
  }

  /** Deadlock freedom: while any core is inside the protocol, some core inside it is not
      waiting for anything: its next step leaves the critical section, or comes closer to it. */
  lemma NoDeadlock(s: State)
    requires Inv(s) && exists p :: 0 <= p < |s.pc| && !s.pc[p].Idle?
    ensures exists c ::
              && 0 <= c < |s.pc| && !s.pc[c].Idle? && !Spins(s, c) && Shape(Step(s, c)) && |Step(s, c).pc| == |s.pc|
              && if s.pc[c].Crit? then Step(s, c).pc[c].Idle? else ToGo(Step(s, c), c) < ToGo(s, c)
  {
    hide Step, ToGo;
    InvOrderly(s);
    var c: nat;
    if d :| 0 <= d < |s.pc| && Choosing(s.pc[d]) {
      c := d;
    } else {
      c := Least(s, |s.pc|);
      if !s.pc[c].Crit? { FirstMoves(s, c); }
    }
    if s.pc[c].Crit? { Leaves(s, c); } else { Closer(s, c); }
    StepOrderly(s, c);
    assert 0 <= c < |s.pc| && !s.pc[c].Idle? && !Spins(s, c);
  }

  lemma InvOrderly(s: State)
    requires Inv(s)
    ensures Orderly(s)
  {
    forall p | 0 <= p < |s.pc| ensures Tidy(s, p) { assert Alone(s, p); }
  }

  // ---------------------------------------------------------------- order

  ghost predicate Waiting(p: Pc) { p.Wait? || p.Check? || p.Cmp? || p.Tie? || p.Crit? }

  /** q took its number before p began to choose, and p is still behind it. */
  ghost predicate Behind(s: State, q: nat, p: nat)
    requires Shape(s) && q < |s.pc| && p < |s.pc| && Alone(s, p)
  {
    && Waiting(s.pc[q]) && Above(s, q, p)
    && (Waiting(s.pc[p]) ==> s.number[p] > s.number[q] && !Passed(s.pc[p], q) && s.pc[p] != Tie(q))
  }

  lemma StepBehind(s: State, c: nat, q: nat, p: nat)
    requires Inv(s) && c < |s.pc| && q < |s.pc| && p < |s.pc| && q != p && NoWrap(s, c)
    requires Behind(s, q, p) && !(c == q && s.pc[q].Crit?)
    ensures Inv(Step(s, c)) && Behind(Step(s, c), q, p) && !Step(s, c).pc[p].Crit?
  {
    StepInv(s, c);
    assert Alone(s, p) && Alone(s, q) && Alone(s, c);
    hide Inv, Pair;
    if s.pc[p].Reread? && s.pc[p].i == c && c != q && c != p { PairOf(s, c, q); }
  }

  lemma PairOf(s: State, q: nat, p: nat)
    requires Inv(s) && q < |s.pc| && p < |s.pc| && q != p
    ensures Alone(s, p) && Alone(s, q) && (Passed(s.pc[q], p) ==> s.number[p] == 0 || Before(s, q, p))
  {
    assert Pair(s, q, p);
  }

  lemma BehindFirst(s: State, q: nat, p: nat)
    requires Inv(s) && q < |s.pc| && p < |s.pc| && Waiting(s.pc[q]) && s.pc[p].Idle?
    ensures Alone(s, p) && Behind(s, q, p)
  {
  }

  /** A continuation without wrapping in which q does not leave the critical section. */
  ghost predicate Stays(s: State, more: seq<nat>, q: nat)
    requires Shape(s) && q < |s.pc|
    decreases |more|
  {
    more != [] ==>
      && more[0] < |s.pc| && NoWrap(s, more[0]) && !(more[0] == q && s.pc[q].Crit?)
      && Shape(Step(s, more[0])) && |Step(s, more[0]).pc| == |s.pc| && Stays(Step(s, more[0]), more[1..], q)
  }

  ghost function Then(s: State, more: seq<nat>, q: nat): State
    requires Shape(s) && q < |s.pc| && Stays(s, more, q)
    decreases |more|
  {
    if more == [] then s else Then(Step(s, more[0]), more[1..], q)
  }

  lemma {:induction false} StaysBehind(s: State, more: seq<nat>, q: nat, p: nat)
    requires Inv(s) && q < |s.pc| && p < |s.pc| && q != p && Stays(s, more, q) && Behind(s, q, p)
    ensures p < |Then(s, more, q).pc| && !Then(s, more, q).pc[p].Crit?
    decreases |more|
  {
    hide Step, NoWrap, Alone, Pair;
    if more != [] {
      StepBehind(s, more[0], q, p);
      StaysBehind(Step(s, more[0]), more[1..], q, p);
    }
  }

  /** First come, first served: a core that has left its doorway before another begins to
      choose is never overtaken by it. */
  lemma NotOvertaken(n: nat, sched: seq<nat>, more: seq<nat>, q: nat, p: nat)
    requires (forall k :: 0 <= k < |sched| ==> sched[k] < n) && NeverWraps(n, sched) && q < n && p < n
    requires Waiting(After(n, sched).pc[q]) && After(n, sched).pc[p].Idle? && Stays(After(n, sched), more, q)
    ensures p < |Then(After(n, sched), more, q).pc| && !Then(After(n, sched), more, q).pc[p].Crit?
  {
    hide Step, Init;
    RunInv(n, sched);
    BehindFirst(After(n, sched), q, p);
    StaysBehind(After(n, sched), more, q, p);
  }

  // ---------------------------------------------------------------- wrap-around

  /** Two cores, core a inside with number k. */
  function Alternate(k: nat, a: nat): State
    requires a < 2
  {
    State([false, false], if a == 0 then [k, 0] else [0, k], if a == 0 then [Crit, Idle] else [Idle, Crit])
  }

  ghost predicate Sched(n: nat, sched: seq<nat>) { forall k :: 0 <= k < |sched| ==> sched[k] < n }

  /** Some interleaving that draws d numbers leads to s. */
  ghost predicate Reached(n: nat, s: State, d: nat) {
    exists sched :: Sched(n, sched) && After(n, sched) == s && Draws(n, sched) == d
  }

  lemma ReachedStep(n: nat, s: State, c: nat, d: nat)
    requires Reached(n, s, d) && c < n && Shape(s) && |s.pc| == n
    ensures Reached(n, Step(s, c), d + if Draw(s.pc[c], n) then 1 else 0)
  {
    hide Step, After, Draw;
    var sched :| Sched(n, sched) && After(n, sched) == s && Draws(n, sched) == d;
    AfterSnoc(n, sched, c);
    assert Sched(n, sched + [c]);
  }

  lemma AfterSnoc(n: nat, sched: seq<nat>, c: nat)
    requires Sched(n, sched) && c < n
    ensures Sched(n, sched + [c]) && After(n, sched + [c]) == Step(After(n, sched), c)
    ensures Draws(n, sched + [c]) == Draws(n, sched) + if Draw(After(n, sched).pc[c], n) then 1 else 0
  {
    hide Step, Draw;
    var more := sched + [c];
    assert more[..|more| - 1] == sched;
  }

  /** Core b = 1 - a arrives while core a is inside: the states it goes through until it
      waits for a's number.  It has drawn k + 1, wrapped. */
  function Arriving(k: nat, a: nat, i: nat): State
    requires a < 2
  {
    var s := Alternate(k, a);
    var b := 1 - a;
    var t := s.(choosing := s.choosing[b := true]);
    var u := s.(number := s.number[b := (k + 1) % M32]);
    match i
    case 0 => s
    case 1 => Put(t, b, Scan(0, 0))
    case 2 => Put(t, b, if a == 0 then Reread(0, 0) else Scan(1, 0))
    case 3 => Put(t, b, if a == 0 then Scan(1, k) else Reread(1, 0))
    case 4 => Put(t, b, Scan(2, k))
    case 5 => Put(u.(choosing := t.choosing), b, Named)
    case 6 => Put(u, b, Wait(0))
    case 7 => Put(u, b, if a == 0 then Check(0) else Wait(1))
    case _ => Put(u, b, Check(1))
  }

  function Drawn(k: nat, i: nat): nat { if i < 5 then k else k + 1 }

  lemma ArriveStep(k: nat, a: nat, i: nat)
    requires a < 2 && 0 < k < M32 && i < 7 + a
    ensures Drawn(k, i + 1) == Drawn(k, i) + if Draw(Arriving(k, a, i).pc[1 - a], 2) then 1 else 0
    ensures Step(Arriving(k, a, i), 1 - a) == Arriving(k, a, i + 1)
  {
  }

  lemma Arrive(k: nat, a: nat)
    requires a < 2 && 0 < k < M32 && Reached(2, Alternate(k, a), k)
    ensures Reached(2, Arriving(k, a, 7 + a), k + 1)
  {
    hide Step, Reached;
    for i := 0 to 7 + a
      invariant Reached(2, Arriving(k, a, i), Drawn(k, i))
    {
      ReachedStep(2, Arriving(k, a, i), 1 - a, Drawn(k, i));
      ArriveStep(k, a, i);
    }
  }

  lemma PutBack(w: State, c: nat, p: Pc, q: Pc)
    requires Shape(w) && c < |w.pc| && w.pc[c] == q
    ensures Put(w, c, q) == w && Put(Put(w, c, p), c, q) == w
  {
    assert w.pc[c := q] == w.pc && w.pc[c := p][c := q] == w.pc;
  }

  /** Core b goes on from its test of a's number, which it finds 0 or passes as a tie lost. */
  lemma Enter(s: State, a: nat, d: nat)
    requires a < 2 && Shape(s) && |s.pc| == 2 && Reached(2, s, d) && s.pc[1 - a] == Check(a)
             && s.choosing == [false, false]
    requires s.number[a] == 0 || s.number[a] > s.number[1 - a]
    ensures Reached(2, Put(s, 1 - a, Crit), d)
  {
    hide Reached, Step;
    var b := 1 - a;
    if s.number[a] != 0 {
      Onward(s, b, Check(a), Cmp(a), d);
      Onward(s, b, Cmp(a), Tie(a), d);
      Onward(s, b, Tie(a), Wait(a + 1), d);
    } else {
      Onward(s, b, Check(a), Wait(a + 1), d);
    }
    if a == 0 { Onward(s, b, Wait(1), Wait(2), d); }
    Onward(s, b, Wait(2), Crit, d);
  }

  /** The moves of a core on its way in, once the other is out of the way. */
  ghost predicate Moves(s: State, b: nat, p: Pc, q: Pc)
    requires Shape(s) && b < |s.pc| == 2
  {
    match p
    case Check(a) => a < 2 && q == if s.number[a] != 0 then Cmp(a) else Wait(a + 1)
    case Cmp(a) => a < 2 && s.number[a] >= s.number[b] && q == Tie(a)
    case Tie(a) => a < 2 && s.number[a] > s.number[b] && q == Wait(a + 1)
    case Wait(i) => q == (if i == 2 then Crit else Wait(i + 1)) && (i == 2 || i == b)
    case _ => false
  }

  lemma Onward(s: State, b: nat, p: Pc, q: Pc, d: nat)
    requires b < 2 && Shape(s) && |s.pc| == 2 && Moves(s, b, p, q)
             && (Reached(2, Put(s, b, p), d) || (s.pc[b] == p && Reached(2, s, d)))
    ensures Reached(2, Put(s, b, q), d)
  {
    hide Reached;
    if s.pc[b] == p { PutBack(s, b, p, p); }
    ReachedStep(2, Put(s, b, p), b, d);
    assert Put(s, b, p).pc[b := q] == Put(s, b, q).pc;
    assert Step(Put(s, b, p), b) == Put(s, b, q);
  }

  /** The lock changes hands, and the number inside grows by one. */
  lemma Relay(k: nat, a: nat)
    requires a < 2 && 0 < k && k + 1 < M32 && Reached(2, Alternate(k, a), k)
    ensures Reached(2, Alternate(k + 1, 1 - a), k + 1)
  {
    hide Reached;
    Arrive(k, a);
    var s := Arriving(k, a, 7 + a);
    ReachedStep(2, s, a, k + 1);
    var t := Step(s, a);
    Enter(t, a, k + 1);
    assert Put(t, 1 - a, Crit) == Alternate(k + 1, 1 - a);
  }

  lemma ReachedInit()
    ensures Reached(2, Init(2), 0)
  {
    hide Step;
    assert After(2, []) == Init(2) && Sched(2, []) && Draws(2, []) == 0;
  }

  lemma Opening()
    ensures Reached(2, Alternate(1, 0), 1)
  {
    hide Step, Reached, Solo;
    ReachedInit();
    OpeningSteps();
    for i := 0 to 9
      invariant Reached(2, Solo(i), if i < 4 then 0 else 1)
    {
      ReachedStep(2, Solo(i), 0, if i < 4 then 0 else 1);
    }
  }

  /** Core 0 takes the free lock alone. */
  function Solo(i: nat): State {
    var s := Init(2);
    var t := s.(choosing := [true, false]);
    var u := s.(number := [1, 0]);
    match i
    case 0 => s
    case 1 => Put(t, 0, Scan(0, 0))
    case 2 => Put(t, 0, Scan(1, 0))
    case 3 => Put(t, 0, Scan(2, 0))
    case 4 => Put(u.(choosing := [true, false]), 0, Named)
    case 5 => Put(u, 0, Wait(0))
    case 6 => Put(u, 0, Wait(1))
    case 7 => Put(u, 0, Check(1))
    case 8 => Put(u, 0, Wait(2))
    case _ => Put(u, 0, Crit)
  }

  lemma OpeningSteps()
    ensures forall i :: 0 <= i < 9 ==> Step(Solo(i), 0) == Solo(i + 1)
    ensures Solo(0) == Init(2) && Solo(9) == Alternate(1, 0)
    ensures forall i :: Shape(Solo(i)) && |Solo(i).pc| == 2 && (i < 9 ==> (Draw(Solo(i).pc[0], 2) <==> i == 3))
  {
  }

  lemma {:induction false} Climb(k: nat)
    requires 0 < k < M32
    ensures exists a :: 0 <= a < 2 && Reached(2, Alternate(k, a), k)
  {
    hide Reached;
    if k == 1 {
      Opening();
    } else {
      Climb(k - 1);
      var a: nat :| a < 2 && Reached(2, Alternate(k - 1, a), k - 1);
      Relay(k - 1, a);
    }
  }

  lemma TwoInside()
    ensures exists s :: Reached(2, s, M32) && Shape(s) && |s.pc| == 2 && s.pc[0].Crit? && s.pc[1].Crit?
  {
    hide Reached;
    Climb(M32 - 1);
    var a: nat :| a < 2 && Reached(2, Alternate(M32 - 1, a), M32 - 1);
    Arrive(M32 - 1, a);
    var s := Arriving(M32 - 1, a, 7 + a);
    Enter(s, a, M32);
    var t := Put(s, 1 - a, Crit);
    assert t.pc[0].Crit? && t.pc[1].Crit?;
  }

  // ---------------------------------------------------------------- more cores looking on

  /** A state of two cores among n - 2 idle ones; the end of a scan is n instead of 2. */
  function Wide(s: State, n: nat): State
    requires Shape(s) && |s.pc| == 2 && n >= 2
  {
    State(seq(n, i => if 0 <= i < 2 then s.choosing[i] else false), seq(n, i => if 0 <= i < 2 then s.number[i] else 0),
          seq(n, i => if 0 <= i < 2 then WidePc(s.pc[i], n) else Idle))
  }

  function WidePc(p: Pc, n: nat): Pc {
    if p.Scan? && p.i >= 2 then Scan(n, p.max) else if p.Wait? && p.i >= 2 then Wait(n) else p
  }

  /** Indices of two cores stay in range. */
  ghost predicate InRange(s: State) {
    && Shape(s) && |s.pc| == 2
    && forall c :: 0 <= c < 2 ==> (s.pc[c].Reread? || s.pc[c].Check? || s.pc[c].Cmp? || s.pc[c].Tie? ==> s.pc[c].i < 2)
  }

  lemma StepInRange(s: State, c: nat)
    requires InRange(s) && c < 2
    ensures InRange(Step(s, c))
  {
  }

  /** Scanning on over idle cores. */
  lemma {:induction false} SweepScan(n: nat, s: State, c: nat, i: nat, max: nat, d: nat)
    requires Shape(s) && |s.pc| == n && c < 2 <= i <= n && Reached(n, Put(s, c, Scan(i, max)), d)
    requires forall j :: 2 <= j < n ==> s.number[j] == 0
    ensures Reached(n, Put(s, c, Scan(n, max)), d)
    decreases n - i
  {
    hide Reached;
    if i < n {
      ReachedStep(n, Put(s, c, Scan(i, max)), c, d);
      assert Step(Put(s, c, Scan(i, max)), c) == Put(s, c, Scan(i + 1, max));
      SweepScan(n, s, c, i + 1, max, d);
    }
  }

  lemma {:induction false} SweepWait(n: nat, s: State, c: nat, i: nat, d: nat)
    requires Shape(s) && |s.pc| == n && c < 2 <= i <= n && Reached(n, Put(s, c, Wait(i)), d)
    requires forall j :: 2 <= j < n ==> s.number[j] == 0 && !s.choosing[j]
    ensures Reached(n, Put(s, c, Wait(n)), d)
    decreases n - i
  {
    hide Reached;
    if i < n {
      ReachedStep(n, Put(s, c, Wait(i)), c, d);
      assert Step(Put(s, c, Wait(i)), c) == Put(s, c, Check(i));
      ReachedStep(n, Put(s, c, Check(i)), c, d);
      assert Step(Put(s, c, Check(i)), c) == Put(s, c, Wait(i + 1));
      SweepWait(n, s, c, i + 1, d);
    }
  }

  lemma WideAt(s: State, n: nat)
    requires Shape(s) && |s.pc| == 2 && n >= 2
    ensures var w := Wide(s, n);
            && Shape(w) && |w.pc| == n
               && (forall c :: 0 <= c < 2 ==>
               w.choosing[c] == s.choosing[c] && w.number[c] == s.number[c] && w.pc[c] == WidePc(s.pc[c], n))
            && forall c :: 2 <= c < n ==> !w.choosing[c] && w.number[c] == 0 && w.pc[c] == Idle
  {
  }

  /** The three parts of a core widen on their own. */
  lemma WidePut(s: State, n: nat, c: nat, p: Pc, b: bool, v: nat)
    requires Shape(s) && |s.pc| == 2 && n >= 2 && c < 2
    ensures var w, t := Wide(s, n), State(s.choosing[c := b], s.number[c := v], s.pc[c := p]);
            |w.choosing| == |w.number| == |w.pc| == n
              && Wide(t, n) == State(w.choosing[c := b], w.number[c := v], w.pc[c := WidePc(p, n)])
  {
  }

  /** What a step of core c does to that core. */
  lemma StepParts(s: State, c: nat) returns (p: Pc, b: bool, v: nat)
    requires Shape(s) && c < |s.pc|
    ensures Step(s, c) == State(s.choosing[c := b], s.number[c := v], s.pc[c := p])
    ensures p == Step(s, c).pc[c] && b == Step(s, c).choosing[c] && v == Step(s, c).number[c]
  {
    var t := Step(s, c);
    p, b, v := t.pc[c], t.choosing[c], t.number[c];
  }

  /** Where a sweep over the idle cores begins. */
  predicate Sweeps(p: Pc, q: Pc) { p != q && (p.Scan? || p.Wait?) && p.i == 2 }

  lemma WideOne(n: nat, s: State, c: nat)
    requires n >= 2 && c < 2 && InRange(s)
    ensures var w, t := Wide(s, n), Step(s, c);
            && Shape(w) && |w.pc| == n && (Draw(w.pc[c], n) <==> Draw(s.pc[c], 2))
               && Step(w, c).choosing[c] == t.choosing[c] && Step(w, c).number[c] == t.number[c]
            && Step(w, c).pc[c] == if Sweeps(t.pc[c], s.pc[c]) then t.pc[c] else WidePc(t.pc[c], n)
  {
    hide Wide;
    WideAt(s, n);
  }

  /** A step of the two is a step of the n, up to sweeping over the idle ones. */
  lemma WideStep(n: nat, s: State, c: nat, t: State, d: nat)
    requires n >= 2 && c < 2 && InRange(s) && Reached(n, Wide(s, n), d) && t == Step(s, c) && InRange(t)
    ensures Reached(n, Wide(t, n), d + if Draw(s.pc[c], 2) then 1 else 0)
  {
    hide Reached, Step, Wide, Draw;
    var w, w' := Wide(s, n), Wide(t, n);
    WideAt(s, n);
    WideAt(t, n);
    WideOne(n, s, c);
    ReachedStep(n, w, c, d);
    var e := d + if Draw(s.pc[c], 2) then 1 else 0;
    var p, b, v := StepParts(s, c);
    var p', b', v' := StepParts(w, c);
    WidePut(s, n, c, p, b, v);
    assert Step(w, c) == Put(w', c, p');
    PutBack(w', c, p', WidePc(p, n));
    if Sweeps(p, s.pc[c]) {
      if p.Scan? { SweepScan(n, w', c, 2, p.max, e); } else { SweepWait(n, w', c, 2, e); }
    }
  }

  lemma {:induction false} Widened(n: nat, sched: seq<nat>)
    requires n >= 2 && Sched(2, sched)
    ensures InRange(After(2, sched)) && Reached(n, Wide(After(2, sched), n), Draws(2, sched))
    decreases |sched|
  {
    hide Step, Reached, Wide, InRange;
    if sched == [] {
      WideInit(n);
    } else {
      var m := |sched| - 1;
      Widened(n, sched[..m]);
      StepInRange(After(2, sched[..m]), sched[m]);
      WideStep(n, After(2, sched[..m]), sched[m], After(2, sched), Draws(2, sched[..m]));
    }
  }

  lemma WideInit(n: nat)
    requires n >= 2
    ensures InRange(Init(2)) && Reached(n, Wide(Init(2), n), 0)
  {
    assert Draws(n, []) == 0 && Sched(n, []) && After(n, []) == Init(n) == Wide(Init(2), n);
  }

  lemma WideReached(n: nat, s: State, d: nat)
    requires n >= 2 && Reached(2, s, d)
    ensures Shape(s) && |s.pc| == 2 && Reached(n, Wide(s, n), d)
  {
    hide After, Wide;
    var sched :| Sched(2, sched) && After(2, sched) == s && Draws(2, sched) == d;
    Widened(n, sched);
  }

  /** With any number of cores from two on, two of them passing the lock to and fro reach, with
      the 2^32nd number drawn, a state in which it wraps to 0, which every other core takes for
      "not competing", and both are inside. */
  lemma WrapBreaksExclusion(n: nat)
    requires n >= 2
    ensures exists s :: Reached(n, s, M32) && Shape(s) && |s.pc| == n && s.pc[0].Crit? && s.pc[1].Crit?
  {
    hide After, Wide, Reached;
    TwoInside();
    var s :| Reached(2, s, M32) && Shape(s) && |s.pc| == 2 && s.pc[0].Crit? && s.pc[1].Crit?;
    WideReached(n, s, M32);
    WideAt(s, n);
    assert Wide(s, n).pc[0].Crit? && Wide(s, n).pc[1].Crit?;
  }

  ghost predicate OneInside(s: State) { forall p, q :: 0 <= p < q < |s.pc| ==> !(s.pc[p].Crit? && s.pc[q].Crit?) }

  /** The bound is exact: two or more cores that draw at most k numbers are excluded from each
      other in every interleaving if and only if k is below 2^32. */
  lemma SafeDraws(n: nat, k: nat)
    requires n >= 2
    ensures (forall sched | Sched(n, sched) && Draws(n, sched) <= k :: OneInside(After(n, sched))) <==> k < M32
  {
    hide After, Draws, NeverWraps;
    if k < M32 {
      forall sched | Sched(n, sched) && Draws(n, sched) <= k ensures OneInside(After(n, sched)) {
        FewNeverWrap(n, sched);
        RunInv(n, sched);
        forall p, q | 0 <= p < q < n ensures !(After(n, sched).pc[p].Crit? && After(n, sched).pc[q].Crit?) {
          Exclusive(After(n, sched), p, q);
        }
      }
    } else {
      WrapBreaksExclusion(n);
      var s :| Reached(n, s, M32) && Shape(s) && |s.pc| == n && s.pc[0].Crit? && s.pc[1].Crit?;
      var sched :| Sched(n, sched) && After(n, sched) == s && Draws(n, sched) == M32;
      assert !OneInside(After(n, sched));
    }
  }
}
