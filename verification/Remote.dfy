/** Remote calls over a network that loses, duplicates and reorders: requests are resent, and
    a ring of the last four answers keeps a repeated request from running its method again. */
module Remote {
  import opened Options

  const ANS_MAX := 4

  const WRAP := 1000000

  /** A sender and the number it put on the wire. */
  datatype Key = Key(ip: int, id: int)

  /** `serial` is for the proofs only: the request is the sender's serial-th. */
  datatype Answer = Answer(key: Key, serial: nat, val: int)

  /** The answers still remembered: the last four stored. */
  function Recent(log: seq<Answer>): seq<Answer> { if |log| <= ANS_MAX then log else log[|log| - ANS_MAX..] }

  predicate Known(log: seq<Answer>, k: Key) { exists i :: 0 <= i < |log| && log[i].key == k }

  // ---------------------------------------------------------------- the ring

  class Answers {
    const ring: array<Option<Answer>>
    var next: nat
    ghost var log: seq<Answer>      // everything ever stored

    ghost predicate Valid() reads this, ring {
      && ring.Length == ANS_MAX && next == |log| % ANS_MAX
      && forall i :: 0 <= i < ANS_MAX ==> ring[i] == Latest(log, i)
    }

    constructor ()
      ensures Valid() && log == [] && fresh(ring)
    {
      ring := new Option<Answer>[ANS_MAX](_ => None);
      next, log := 0, [];
    }

    /** The remembered answer to a request, if it is among the last four. */
    method Lookup(k: Key) returns (r: Option<int>)
      requires Valid()
      ensures r.Some? <==> Known(Recent(log), k)
      ensures r.Some? ==> exists a :: a in Recent(log) && a.key == k && a.val == r.value
    {
      for i := 0 to ANS_MAX
        invariant forall h :: 0 <= h < i ==> !(ring[h].Some? && ring[h].value.key == k)
      {
        if ring[i].Some? && ring[i].value.key == k {
          var at := LatestRecent(log, i);
          assert Recent(log)[at] in Recent(log);
          return Some(ring[i].value.val);
        }
      }
      forall h | 0 <= h < |Recent(log)| ensures Recent(log)[h].key != k { RecentLatest(log, h); }
      return None;
    }

    method Store(a: Answer)
      requires Valid()
      modifies this`next, this`log, ring
      ensures Valid() && log == old(log) + [a]
    {
      LatestAppend(log, a);
      ring[next] := Some(a);
      next := (next + 1) % ANS_MAX;
      log := log + [a];
    }
  }

  /** The last stored answer whose number is i modulo 4. */
  ghost function Latest(log: seq<Answer>, i: nat): Option<Answer> {
    if log == [] then None
    else if (|log| - 1) % ANS_MAX == i then Some(log[|log| - 1])
    else Latest(log[..|log| - 1], i)
  }

  lemma LatestAppend(log: seq<Answer>, a: Answer)
    ensures forall i: nat :: Latest(log + [a], i) == if |log| % ANS_MAX == i then Some(a) else Latest(log, i)
  {
    assert (log + [a])[..|log|] == log;
  }

  /** Which entry of the log slot i holds. */
  lemma {:induction false} LatestAt(log: seq<Answer>, i: nat) returns (p: int)
    requires i < ANS_MAX
    ensures p < 0 ==> Latest(log, i) == None && |log| <= i
    ensures p >= 0 ==> p < |log| && |log| - ANS_MAX <= p && p % ANS_MAX == i && Latest(log, i) == Some(log[p])
    decreases |log|
  {
    if log == [] {
      p := -1;
    } else if (|log| - 1) % ANS_MAX == i {
      p := |log| - 1;
    } else {
      p := LatestAt(log[..|log| - 1], i);
    }
  }

  lemma LatestRecent(log: seq<Answer>, i: nat) returns (h: nat)
    requires i < ANS_MAX && Latest(log, i).Some?
    ensures h < |Recent(log)| && Recent(log)[h] == Latest(log, i).value
  {
    var p := LatestAt(log, i);
    h := if |log| <= ANS_MAX then p else p - (|log| - ANS_MAX);
  }

  lemma RecentLatest(log: seq<Answer>, h: nat)
    requires h < |Recent(log)|
    ensures exists i :: 0 <= i < ANS_MAX && Latest(log, i) == Some(Recent(log)[h])
  {
    var p := if |log| <= ANS_MAX then h else |log| - ANS_MAX + h;
    var i := p % ANS_MAX;
    var q := LatestAt(log, i);
    assert q >= 0 && (q - p) % ANS_MAX == 0;
  }

  // ---------------------------------------------------------------- the protocol

  /** Q: a request; a quiet one (a broadcast) is not answered.  R: the answer, with the serial
      of the request whose run produced it. */
  datatype Msg = Q(key: Key, serial: nat, body: int, quiet: bool) | R(key: Key, serial: nat, val: int)

  /** What a method returns may depend on all the runs before it. */
  type Method = (seq<Msg>, Msg) -> int

  const OK := 0        // what is stored for a broadcast

  /** The next number on the wire and the numbers of the requests issued so far. */
  datatype Counter = Counter(next: int, ids: seq<int>)

  /** What a caller accepted: for its request `want`, the value of the run of request `from`. */
  datatype Got = Got(key: Key, want: nat, from: nat, val: int)

  /** sent: every message ever sent, any of which may still arrive, any number of times.
      ran and log: the server's runs and what it stored for them.  waiting: the request each
      client waits for.  got: what clients accepted. */
  datatype State = State(sent: seq<Msg>, ran: seq<Msg>, log: seq<Answer>, clients: map<int, Counter>,
      waiting: map<int, Msg>, got: seq<Got>)

  datatype Act =
    | Call(ip: int, body: int)     // give up any call in progress, number and send a request, wait
    | Send(ip: int, body: int)     // a request nobody waits for; its number is not wrapped
    | Broadcast(ip: int, body: int)
    | Probe(ip: int)               // only takes a number
    | Resend(ip: int)
    | Arrive(k: nat)               // the k-th message ever sent reaches its destination
    | Lose                         // nothing arrives

  function Init(): State { State([], [], [], map[], map[], []) }

  function Of(s: State, ip: int): Counter { if ip in s.clients then s.clients[ip] else Counter(1, []) }

  /** Take a number; after a million they start again, except that Send does not look. */
  function Bump(c: Counter, wraps: bool): Counter {
    Counter(if wraps && c.next + 1 > WRAP then 1 else c.next + 1, c.ids + [c.next])
  }

  function Value(log: seq<Answer>, k: Key): (a: Answer)
    requires Known(log, k)
    ensures a.key == k && a in log
  {
    if log[0].key == k then log[0] else
      assert exists i :: 0 <= i < |log[1..]| && log[1..][i].key == k by {
        var i :| 0 <= i < |log| && log[i].key == k;
        assert log[1..][i - 1].key == k;
      }
      Value(log[1..], k)
  }

  /** The server's handler: answer from the ring, or run, store and answer. */
  function Serve(s: State, q: Msg, m: Method): State
    requires q.Q?
  {
    if Known(Recent(s.log), q.key) then
      var a := Value(Recent(s.log), q.key);
      if q.quiet then s else s.(sent := s.sent + [R(q.key, a.serial, a.val)])
    else
      var v := if q.quiet then OK else m(s.ran, q);
      s.(ran := s.ran + [q], log := s.log + [Answer(q.key, q.serial, v)],
         sent := if q.quiet then s.sent else s.sent + [R(q.key, q.serial, v)])
  }

  /** The client's handler: a reply counts when its number is the one waited for. */
  function Accept(s: State, r: Msg): State
    requires r.R?
  {
    var ip := r.key.ip;
    if ip in s.waiting && s.waiting[ip].key.id == r.key.id
    then s.(waiting := s.waiting - {ip}, got := s.got + [Got(r.key, s.waiting[ip].serial, r.serial, r.val)]) else s
  }

  function Issue(s: State, ip: int, body: int, quiet: bool, wraps: bool): (r: (State, Msg)) {
    var c := Of(s, ip);
    var q := Q(Key(ip, c.next), |c.ids|, body, quiet);
    (s.(sent := s.sent + [q], clients := s.clients[ip := Bump(c, wraps)]), q)
  }

  function Step(s: State, a: Act, m: Method): State {
    match a
    case Call(ip, body) => var (t, q) := Issue(s, ip, body, false, true); t.(waiting := s.waiting[ip := q])
    case Send(ip, body) => Issue(s, ip, body, false, false).0
    case Broadcast(ip, body) => Issue(s, ip, body, true, true).0
    case Probe(ip) => s.(clients := s.clients[ip := Bump(Of(s, ip), true)])
    case Resend(ip) => if ip in s.waiting then s.(sent := s.sent + [s.waiting[ip]]) else s
    case Arrive(k) =>
      if k >= |s.sent| then s
      else if s.sent[k].Q? then Serve(s, s.sent[k], m) else Accept(s, s.sent[k])
    case Lose => s
  }

  function After(acts: seq<Act>, m: Method): State {
    if acts == [] then Init() else Step(After(acts[..|acts| - 1], m), acts[|acts| - 1], m)
  }

  // ---------------------------------------------------------------- the server's handler

  /** No two remembered answers have the same number and sender. */
  ghost predicate Distinguished(log: seq<Answer>) {
    forall i, j :: 0 <= i < j < |Recent(log)| ==> Recent(log)[i].key != Recent(log)[j].key
  }

  lemma StoreDistinguished(log: seq<Answer>, a: Answer)
    requires Distinguished(log) && !Known(Recent(log), a.key)
    ensures Distinguished(log + [a])
  {
    var r, r' := Recent(log), Recent(log + [a]);
    forall i, j | 0 <= i < j < |r'| ensures r'[i].key != r'[j].key {
      var d := |r| + 1 - |r'|;
      assert r'[i] == r[i + d];
      if j + 1 < |r'| { assert r'[j] == r[j + d]; }
    }
  }

  lemma TheAnswer(log: seq<Answer>, k: Key, a: Answer)
    requires Distinguished(log) && Known(Recent(log), k) && a in Recent(log) && a.key == k
    ensures Value(Recent(log), k) == a
  {
    hide Recent;
  }

  /** Answer from the ring, or dispatch, store and answer; `val` is what dispatching yields. */
  method Handle(ring: Answers, q: Msg, val: int, ghost s: State, ghost m: Method)
    returns (reply: Option<int>, ghost from: nat)
    requires ring.Valid() && q.Q? && ring.log == s.log && Distinguished(s.log) && val == m(s.ran, q)
    modifies ring, ring.ring
    ensures ring.Valid() && Distinguished(ring.log) && ring.log == Serve(s, q, m).log
    ensures Serve(s, q, m).sent == if reply.None? then s.sent else s.sent + [R(q.key, from, reply.value)]
  {
    hide Latest, Recent, Known, Value, Distinguished;
    from := q.serial;
    var prev := ring.Lookup(q.key);
    if prev.Some? {
      ghost var a :| a in Recent(s.log) && a.key == q.key && a.val == prev.value;
      TheAnswer(s.log, q.key, a);
      from := a.serial;
      reply := if q.quiet then None else prev;
      return;
    }
    var v := if q.quiet then OK else val;
    StoreDistinguished(s.log, Answer(q.key, q.serial, v));
    ring.Store(Answer(q.key, q.serial, v));
    reply := if q.quiet then None else Some(v);
  }

  // ---------------------------------------------------------------- numbers come round

  /** Two rounds of numbers begin a million requests apart. */
  predicate Apart(a: int, b: int) { a == b || a + WRAP <= b || b + WRAP <= a }

  /** Where the round of a request began, or the one in progress. */
  function Start(c: Counter, o: nat): int
    requires o <= |c.ids|
  {
    o - if o < |c.ids| then c.ids[o] else c.next
  }

  ghost predicate Rounds(c: Counter) {
    && c.next >= 1
    && (forall o: nat :: o < |c.ids| ==> Start(c, o) == Start(c, |c.ids|) || Start(c, o) + WRAP <= Start(c, |c.ids|))
    && (forall o: nat, p: nat :: o < |c.ids| && p < |c.ids| ==> Apart(Start(c, o), Start(c, p)))
  }

  lemma BumpRounds(c: Counter, wraps: bool)
    requires Rounds(c)
    ensures Rounds(Bump(c, wraps))
  {
    var d := Bump(c, wraps);
    assert forall o: nat :: o <= |c.ids| ==> Start(d, o) == Start(c, o);
  }

  /** Two requests of one sender with the same number are a million apart. */
  lemma SameNumber(c: Counter, o: nat, p: nat)
    requires Rounds(c) && o < p < |c.ids| && c.ids[o] == c.ids[p]
    ensures p - o >= WRAP
  {
    assert Apart(Start(c, o), Start(c, p));
  }

  // ---------------------------------------------------------------- what every step keeps

  predicate Numbered(s: State, k: Key, serial: nat) { serial < |Of(s, k.ip).ids| && Of(s, k.ip).ids[serial] == k.id }

  ghost predicate SameRequest(q: Msg, r: Msg) { q.Q? && r.Q? && q.key.ip == r.key.ip && q.serial == r.serial }

  /** One message per request; every answer, in flight or accepted, was stored by a run. */
  ghost predicate Inv(s: State) {
    && |s.log| == |s.ran| && (forall ip :: Rounds(Of(s, ip)))
    && (forall i :: 0 <= i < |s.ran| ==>
       s.ran[i].Q? && s.log[i].key == s.ran[i].key && s.log[i].serial == s.ran[i].serial && s.ran[i] in s.sent)
    && (forall x :: x in s.sent ==> Numbered(s, x.key, x.serial))
    && (forall q, r :: q in s.sent && r in s.sent && SameRequest(q, r) ==> q == r)
    && (forall ip :: ip in s.waiting ==> s.waiting[ip].Q? && s.waiting[ip].key.ip == ip && s.waiting[ip] in s.sent)
    && (forall x :: x in s.sent && x.R? ==> Answer(x.key, x.serial, x.val) in s.log)
    && (forall g :: g in s.got ==> Answer(g.key, g.from, g.val) in s.log)
  }

  lemma LogNumbered(s: State, a: Answer)
    requires Inv(s) && a in s.log
    ensures Numbered(s, a.key, a.serial)
  {
    var i :| 0 <= i < |s.log| && s.log[i] == a;
    assert s.ran[i] in s.sent;
  }

  lemma ServeInv(s: State, q: Msg, m: Method)
    requires Inv(s) && q in s.sent && q.Q?
    ensures Inv(Serve(s, q, m))
  {
    hide Known, Recent, Rounds;
    var t := Serve(s, q, m);
    assert forall ip :: Of(t, ip) == Of(s, ip);
    if Known(Recent(s.log), q.key) {
      var a := Value(Recent(s.log), q.key);
      RecentIn(s.log, a);
      LogNumbered(s, a);
    }
  }

  lemma RecentIn(log: seq<Answer>, a: Answer)
    requires a in Recent(log)
    ensures a in log
  {
  }

  lemma IssueNumbered(s: State, ip: int, body: int, quiet: bool, wraps: bool, x: Msg)
    requires x in Issue(s, ip, body, quiet, wraps).0.sent && (x in s.sent ==> Numbered(s, x.key, x.serial))
    ensures Numbered(Issue(s, ip, body, quiet, wraps).0, x.key, x.serial)
  {
  }

  lemma IssueInv(s: State, ip: int, body: int, quiet: bool, wraps: bool)
    requires Inv(s)
    ensures var (t, q) := Issue(s, ip, body, quiet, wraps); Inv(t) && q in t.sent && q.Q? && q.key.ip == ip
  {
    hide Rounds;
    var (t, q) := Issue(s, ip, body, quiet, wraps);
    BumpRounds(Of(s, ip), wraps);
    assert forall h :: Of(t, h) == if h == ip then Bump(Of(s, ip), wraps) else Of(s, h);
    assert forall x :: x in s.sent ==> Numbered(s, x.key, x.serial);
    forall x | x in t.sent ensures Numbered(t, x.key, x.serial) { IssueNumbered(s, ip, body, quiet, wraps, x); }
  }

  lemma StepInv(s: State, a: Act, m: Method)
    requires Inv(s)
    ensures Inv(Step(s, a, m))
  {
    hide Inv;
    match a
    case Call(ip, body) =>
      IssueInv(s, ip, body, false, true);
      var (t, q) := Issue(s, ip, body, false, true);
      WaitInv(t, ip, q);
    case Send(ip, body) => IssueInv(s, ip, body, false, false);
    case Broadcast(ip, body) => IssueInv(s, ip, body, true, true);
    case Probe(ip) => ProbeInv(s, ip);
    case Resend(ip) => if ip in s.waiting { ResendInv(s, ip); }
    case Arrive(k) =>
      if k < |s.sent| { if s.sent[k].Q? { ServeInv(s, s.sent[k], m); } else { AcceptInv(s, s.sent[k]); } }
    case Lose =>
  }

  lemma WaitInv(s: State, ip: int, q: Msg)
    requires Inv(s) && q in s.sent && q.Q? && q.key.ip == ip
    ensures Inv(s.(waiting := s.waiting[ip := q]))
  {
    hide Rounds;
    var t := s.(waiting := s.waiting[ip := q]);
    assert forall h :: Of(t, h) == Of(s, h);
    forall x | x in t.sent ensures Numbered(t, x.key, x.serial) { assert Numbered(s, x.key, x.serial); }
  }

  lemma ProbeInv(s: State, ip: int)
    requires Inv(s)
    ensures Inv(s.(clients := s.clients[ip := Bump(Of(s, ip), true)]))
  {
    hide Rounds;
    var t := s.(clients := s.clients[ip := Bump(Of(s, ip), true)]);
    BumpRounds(Of(s, ip), true);
    assert forall h :: Of(t, h) == if h == ip then Bump(Of(s, ip), true) else Of(s, h);
    forall x | x in t.sent ensures Numbered(t, x.key, x.serial) { assert Numbered(s, x.key, x.serial); }
  }

  lemma ResendInv(s: State, ip: int)
    requires Inv(s) && ip in s.waiting
    ensures Inv(s.(sent := s.sent + [s.waiting[ip]]))
  {
    hide Rounds;
    assert forall h :: Of(s.(sent := s.sent + [s.waiting[ip]]), h) == Of(s, h);
  }

  lemma AcceptInv(s: State, r: Msg)
    requires Inv(s) && r in s.sent && r.R?
    ensures Inv(Accept(s, r))
  {
    hide Rounds;
    assert forall h :: Of(Accept(s, r), h) == Of(s, h);
  }

  lemma {:induction false} RunInv(acts: seq<Act>, m: Method)
    ensures Inv(After(acts, m))
    decreases |acts|
  {
    if acts != [] {
      RunInv(acts[..|acts| - 1], m);
      StepInv(After(acts[..|acts| - 1], m), acts[|acts| - 1], m);
    }
  }

  // ---------------------------------------------------------------- at most once

  predicate Ran(s: State, q: Msg) {
    exists i :: 0 <= i < |s.ran| && s.ran[i].key.ip == q.key.ip && s.ran[i].serial == q.serial
  }

  /** A request that has run before arrives while its number is remembered. */
  predicate Timely(s: State, a: Act) {
    a.Arrive? && a.k < |s.sent| && s.sent[a.k].Q? && Ran(s, s.sent[a.k]) ==> Known(Recent(s.log), s.sent[a.k].key)
  }

  ghost predicate AtMostOnce(s: State) {
    forall i, j :: 0 <= i < j < |s.ran| ==> s.ran[i].key.ip != s.ran[j].key.ip || s.ran[i].serial != s.ran[j].serial
  }

  ghost predicate AllTimely(acts: seq<Act>, m: Method) {
    forall k :: 0 <= k < |acts| ==> Timely(After(acts[..k], m), acts[k])
  }

  /** A step runs a request a second time exactly when it is not timely. */
  lemma RunsAgain(s: State, a: Act, m: Method)
    requires Inv(s) && AtMostOnce(s)
    ensures AtMostOnce(Step(s, a, m)) <==> Timely(s, a)
  {
    hide Inv;
    var t := Step(s, a, m);
    if a.Arrive? && a.k < |s.sent| && s.sent[a.k].Q? && !Known(Recent(s.log), s.sent[a.k].key) {
      var q := s.sent[a.k];
      assert t.ran == s.ran + [q];
      if Ran(s, q) {
        var i :| 0 <= i < |s.ran| && s.ran[i].key.ip == q.key.ip && s.ran[i].serial == q.serial;
        assert t.ran[i] == s.ran[i] && t.ran[|s.ran|] == q;
      }
    }
  }

  lemma {:induction false} OncePrefix(acts: seq<Act>, m: Method, k: nat)
    requires k <= |acts| && AtMostOnce(After(acts, m))
    ensures AtMostOnce(After(acts[..k], m))
    decreases |acts| - k
  {
    if k < |acts| {
      OncePrefix(acts, m, k + 1);
      assert acts[..k + 1][..k] == acts[..k];
      var s, t := After(acts[..k], m), After(acts[..k + 1], m);
      assert t == Step(s, acts[k], m);
      RanGrows(s, acts[k], m);
      assert forall i :: 0 <= i < |s.ran| ==> t.ran[i] == s.ran[i];
    } else {
      assert acts[..k] == acts;
    }
  }

  lemma RanGrows(s: State, a: Act, m: Method)
    ensures |s.ran| <= |Step(s, a, m).ran| && s.ran == Step(s, a, m).ran[..|s.ran|]
  {
  }

  /** At most once: in every history of calls, resends, losses, duplicates and reorderings,
      each request runs at most once if and only if no repeated one arrives after four newer
      answers were stored. */
  lemma {:induction false} RunsOnce(acts: seq<Act>, m: Method)
    ensures AtMostOnce(After(acts, m)) <==> AllTimely(acts, m)
    decreases |acts|
  {
    hide Step, Inv, AtMostOnce, Timely, AllTimely;
    TimelySnoc(acts, m);
    if acts == [] {
      NothingRan();
    } else {
      var n := |acts| - 1;
      var front := acts[..n];
      RunsOnce(front, m);
      RunInv(front, m);
      if AtMostOnce(After(acts, m)) { OncePrefix(acts, m, n); }
      if AtMostOnce(After(front, m)) { RunsAgain(After(front, m), acts[n], m); }
    }
  }

  lemma NothingRan()
    ensures AtMostOnce(Init())
  {
  }

  lemma TimelySnoc(acts: seq<Act>, m: Method)
    ensures acts == [] ==> AllTimely(acts, m)
    ensures acts != [] ==> var n := |acts| - 1;
              (AllTimely(acts, m) <==> AllTimely(acts[..n], m) && Timely(After(acts[..n], m), acts[n]))
  {
    hide Timely, After, Step;
    if acts != [] {
      var n := |acts| - 1;
      assert forall k :: 0 <= k < n ==> acts[..n][..k] == acts[..k] && acts[..n][k] == acts[k];
    }
  }

  // ---------------------------------------------------------------- the right answer

  /** Fewer than a million requests of its sender are newer. */
  predicate Young(s: State, x: Msg) { |Of(s, x.key.ip).ids| <= x.serial + WRAP }

  /** Neither the request a caller waits for nor the run whose answer reaches it is a million
      requests of that caller old. */
  predicate Prompt(s: State, a: Act) {
    a.Arrive? && a.k < |s.sent| && s.sent[a.k].R? && s.sent[a.k].key.ip in s.waiting ==>
      Young(s, s.sent[a.k]) && Young(s, s.waiting[s.sent[a.k].key.ip])
  }

  ghost predicate AllPrompt(acts: seq<Act>, m: Method) {
    forall k :: 0 <= k < |acts| ==> Prompt(After(acts[..k], m), acts[k])
  }

  /** Every value accepted comes from the run of the request waited for. */
  ghost predicate Own(s: State) { forall g :: g in s.got ==> g.from == g.want }

  lemma Unambiguous(s: State, x: Msg, y: Msg)
    requires Rounds(Of(s, x.key.ip)) && x.key == y.key && Young(s, x) && Young(s, y)
    requires Numbered(s, x.key, x.serial) && Numbered(s, y.key, y.serial)
    ensures x.serial == y.serial
  {
    if x.serial < y.serial { SameNumber(Of(s, x.key.ip), x.serial, y.serial); }
    if y.serial < x.serial { SameNumber(Of(s, x.key.ip), y.serial, x.serial); }
  }

  lemma OwnStep(s: State, a: Act, m: Method)
    requires Inv(s) && Own(s) && Prompt(s, a)
    ensures Own(Step(s, a, m))
  {
    hide Known, Recent, Rounds, Young;
    if a.Arrive? && a.k < |s.sent| && s.sent[a.k].R? {
      var r := s.sent[a.k];
      var ip := r.key.ip;
      if ip in s.waiting && s.waiting[ip].key.id == r.key.id {
        var q := s.waiting[ip];
        assert q in s.sent && r in s.sent && q.key == r.key;
        Unambiguous(s, q, r);
      }
    }
  }

  lemma PromptSnoc(acts: seq<Act>, m: Method)
    requires acts != [] && AllPrompt(acts, m)
    ensures var n := |acts| - 1; AllPrompt(acts[..n], m) && Prompt(After(acts[..n], m), acts[n])
  {
    hide Prompt, After, Step;
    var n := |acts| - 1;
    assert forall k :: 0 <= k < n ==> acts[..n][..k] == acts[..k] && acts[..n][k] == acts[k];
  }

  lemma {:induction false} OwnRun(acts: seq<Act>, m: Method)
    requires AllPrompt(acts, m)
    ensures Own(After(acts, m))
    decreases |acts|
  {
    hide Step, Inv, Own, Prompt, AllPrompt;
    if acts == [] {
      NothingGot();
    } else {
      PromptSnoc(acts, m);
      OwnRun(acts[..|acts| - 1], m);
      RunInv(acts[..|acts| - 1], m);
      OwnStep(After(acts[..|acts| - 1], m), acts[|acts| - 1], m);
    }
  }

  lemma NothingGot()
    ensures Own(Init())
  {
  }

  // ---------------------------------------------------------------- what methods returned

  /** What the i-th run yields, given the runs before it; a broadcast's value is dropped. */
  function Result(ran: seq<Msg>, m: Method, i: nat): int
    requires i < |ran| && ran[i].Q?
  {
    if ran[i].quiet then OK else m(ran[..i], ran[i])
  }

  /** What was stored for each run is what its method returned; only callers' own requests,
      which are never broadcasts, are waited for. */
  ghost predicate Faithful(s: State, m: Method) {
    && (forall i :: 0 <= i < |s.ran| ==> i < |s.log| && s.ran[i].Q? && s.log[i].val == Result(s.ran, m, i))
    && (forall ip :: ip in s.waiting ==> s.waiting[ip].Q? && !s.waiting[ip].quiet)
    && (forall g :: g in s.got ==> exists q :: q in s.sent && q.Q? && q.key == g.key && q.serial == g.want && !q.quiet)
  }

  lemma FaithfulStep(s: State, a: Act, m: Method)
    requires Inv(s) && Faithful(s, m)
    ensures Faithful(Step(s, a, m), m)
  {
    hide Inv, Faithful;
    match a
    case Arrive(k) =>
      if k < |s.sent| { if s.sent[k].Q? { FaithfulServe(s, s.sent[k], m); } else { FaithfulAccept(s, s.sent[k], m); } }
    case _ => FaithfulSame(s, Step(s, a, m), a, m);
  }

  /** Sending leaves runs and answers alone. */
  lemma FaithfulSame(s: State, t: State, a: Act, m: Method)
    requires Faithful(s, m) && !a.Arrive? && t == Step(s, a, m)
    ensures Faithful(t, m)
  {
    hide Bump, Result;
    assert forall x :: x in s.sent ==> x in t.sent;
  }

  lemma FaithfulServe(s: State, q: Msg, m: Method)
    requires Inv(s) && Faithful(s, m) && q.Q?
    ensures Faithful(Serve(s, q, m), m)
  {
    hide Known, Recent, Value, Rounds, Numbered;
    var t := Serve(s, q, m);
    assert |s.log| == |s.ran|;
    forall i | 0 <= i < |t.ran| ensures t.log[i].val == Result(t.ran, m, i) {
      if i < |s.ran| { assert t.ran[..i] == s.ran[..i]; } else { assert t.ran[..i] == s.ran; }
    }
  }

  lemma FaithfulAccept(s: State, r: Msg, m: Method)
    requires Inv(s) && Faithful(s, m) && r.R?
    ensures Faithful(Accept(s, r), m)
  {
    hide Rounds, Numbered, Result;
  }

  lemma {:induction false} FaithfulRun(acts: seq<Act>, m: Method)
    ensures Faithful(After(acts, m), m)
    decreases |acts|
  {
    hide Step, Inv;
    if acts != [] {
      RunInv(acts[..|acts| - 1], m);
      FaithfulRun(acts[..|acts| - 1], m);
      FaithfulStep(After(acts[..|acts| - 1], m), acts[|acts| - 1], m);
    }
  }

  /** Whatever value a caller accepts is what the method returned in some run under its number
      (for a broadcast's, `ok`); under the conditions, it is what the one run of its own request
      returned, given the runs before that. */
  lemma AcceptedIsRun(acts: seq<Act>, m: Method, g: Got)
    requires g in After(acts, m).got
    ensures var s := After(acts, m); exists j :: RunOf(s, j, g.key, g.from) && g.val == Result(s.ran, m, j)
    ensures var s := After(acts, m);
            AllPrompt(acts, m) ==> exists j :: RunOf(s, j, g.key, g.want) && g.val == m(s.ran[..j], s.ran[j])
    ensures var s := After(acts, m);
            AllPrompt(acts, m) && AllTimely(acts, m) ==>
            forall j :: RunOf(s, j, g.key, g.want) ==> g.val == m(s.ran[..j], s.ran[j])
  {
    hide *;
    RunInv(acts, m);
    FaithfulRun(acts, m);
    var s := After(acts, m);
    var j0 := StoredRun(s, m, g);
    if AllPrompt(acts, m) {
      OwnRun(acts, m);
      OwnGot(s, g);
      OwnValue(s, m, g, j0);
    }
    RunsOnce(acts, m);
    if AllTimely(acts, m) {
      forall i, j | RunOf(s, i, g.key, g.want) && RunOf(s, j, g.key, g.want) ensures i == j {
        OneRun(s, i, j, g.key, g.want);
      }
    }
  }

  /** The value of the run of a request that was called for. */
  lemma OwnValue(s: State, m: Method, g: Got, j: int)
    requires Inv(s) && Faithful(s, m) && g in s.got && RunOf(s, j, g.key, g.want) && s.log[j].val == g.val
    ensures g.val == m(s.ran[..j], s.ran[j])
  {
    hide Rounds, Numbered;
    var q :| q in s.sent && q.Q? && q.key == g.key && q.serial == g.want && !q.quiet;
    assert SameRequest(q, s.ran[j]);
  }

  lemma StoredRun(s: State, m: Method, g: Got) returns (j: nat)
    requires Inv(s) && Faithful(s, m) && g in s.got
    ensures RunOf(s, j, g.key, g.from) && s.log[j].val == g.val && s.ran[j].Q? && g.val == Result(s.ran, m, j)
  {
    j :| j < |s.log| && s.log[j] == Answer(g.key, g.from, g.val);
    assert s.ran[j] in s.sent;
  }

  lemma OwnGot(s: State, g: Got)
    requires Own(s) && g in s.got
    ensures g.from == g.want
  {
  }

  lemma OneRun(s: State, i: int, j: int, k: Key, serial: nat)
    requires AtMostOnce(s) && RunOf(s, i, k, serial) && RunOf(s, j, k, serial)
    ensures i == j
  {
  }

  predicate RunOf(s: State, j: int, k: Key, serial: nat) {
    0 <= j < |s.ran| == |s.log| && s.ran[j].Q? && s.ran[j].key == k && s.ran[j].serial == serial
  }

  // ---------------------------------------------------------------- calls can complete

  /** From every history in which a caller waits, delivering its request and then the answer
      completes the call; unless the number is remembered, with what the method returns. */
  lemma Completes(acts: seq<Act>, m: Method, ip: int)
    requires ip in After(acts, m).waiting
    ensures var s := After(acts, m); var q := s.waiting[ip];
            exists k: nat, v: Answer :: var t := After(acts + [Arrive(k), Arrive(|s.sent|)], m);
              k < |s.sent| && s.sent[k] == q && ip !in t.waiting
              && t.got == s.got + [Got(q.key, q.serial, v.serial, v.val)]
              && (if Known(Recent(s.log), q.key) then t.log == s.log && v in Recent(s.log) && v.key == q.key
                  else v.serial == q.serial && v.val == m(s.ran, q) && t.log == s.log + [v])
  {
    hide After, Recent, Known, Value;
    RunInv(acts, m);
    FaithfulRun(acts, m);
    var s := After(acts, m);
    var q := s.waiting[ip];
    var k: nat :| k < |s.sent| && s.sent[k] == q;
    TwoMore(acts, Arrive(k), Arrive(|s.sent|), m);
    var v := if Known(Recent(s.log), q.key) then Value(Recent(s.log), q.key) else Answer(q.key, q.serial, m(s.ran, q));
    var s1 := Step(s, Arrive(k), m);
    assert s1.sent[|s.sent|] == R(q.key, v.serial, v.val);
    var t := Step(s1, Arrive(|s.sent|), m);
    assert t.got == s.got + [Got(q.key, q.serial, v.serial, v.val)];
  }

  lemma TwoMore(acts: seq<Act>, a: Act, b: Act, m: Method)
    ensures After(acts + [a, b], m) == Step(Step(After(acts, m), a, m), b, m)
  {
    hide Step, After;
    Snoc(acts, a, m);
    Snoc(acts + [a], b, m);
    assert acts + [a, b] == acts + [a] + [b];
  }

  // ---------------------------------------------------------------- how many requests are safe

  ghost predicate AtMost(s: State, n: nat) { forall ip :: |Of(s, ip).ids| <= n }

  lemma {:induction false} FewPrompt(acts: seq<Act>, m: Method)
    requires AtMost(After(acts, m), WRAP)
    ensures AllPrompt(acts, m)
    decreases |acts|
  {
    hide Step;
    if acts != [] {
      var n := |acts| - 1;
      var front := acts[..n];
      IdsGrow(After(front, m), acts[n], m);
      FewPrompt(front, m);
      forall k | 0 <= k < |acts| ensures Prompt(After(acts[..k], m), acts[k]) {
        if k < n { assert acts[..k] == front[..k] && Prompt(After(front[..k], m), front[k]); }
      }
    }
  }

  lemma IdsGrow(s: State, a: Act, m: Method)
    ensures forall ip :: |Of(s, ip).ids| <= |Of(Step(s, a, m), ip).ids|
  {
    hide Recent, Known;
  }

  /** The history in which a million and one requests are too many: the first is answered,
      the ones up to the wrap get lost, and the next carries the first one's number. */
  function Calls(n: nat): seq<Act> { seq(n, _ => Call(1, 7)) }

  function Wrapped(): seq<Act> {
    [Call(1, 7), Arrive(0)] + Calls(WRAP - 1) + [Call(1, 8), Arrive(WRAP + 1), Arrive(WRAP + 2)]
  }

  function Ids(n: nat): seq<int> { seq(n, i => i + 1) }

  lemma {:induction false} Lost(n: nat, m: Method)
    requires n <= WRAP - 1
    ensures var s := After([Call(1, 7), Arrive(0)] + Calls(n), m);
            && Of(s, 1) == Counter(if n + 1 == WRAP then 1 else n + 2, Ids(n + 1))
            && s.clients.Keys == {1} && |s.sent| == n + 2 && s.got == []
            && |s.log| == 1 && s.log[0].key == Key(1, 1) && s.log[0].serial == 0
  {
    hide After;
    var start := [Call(1, 7), Arrive(0)];
    if n == 0 {
      assert start + Calls(0) == [] + [Call(1, 7)] + [Arrive(0)];
      Snoc([], Call(1, 7), m);
      Snoc([] + [Call(1, 7)], Arrive(0), m);
      assert After([], m) == Init() by { NoActs(m); }
    } else {
      Lost(n - 1, m);
      var front := start + Calls(n - 1);
      assert start + Calls(n) == front + [Call(1, 7)];
      Snoc(front, Call(1, 7), m);
      assert Ids(n + 1) == Ids(n) + [n + 1];
    }
  }

  lemma NoActs(m: Method)
    ensures After([], m) == Init()
  {
  }

  lemma WrapMixes(m: Method)
    ensures var s := After(Wrapped(), m); AtMost(s, WRAP + 1) && !Own(s)
  {
    Lost(WRAP - 1, m);
    var s0 := After([Call(1, 7), Arrive(0)] + Calls(WRAP - 1), m);
    var s1 := Step(s0, Call(1, 8), m);
    var s2 := Step(s1, Arrive(WRAP + 1), m);
    var s3 := Step(s2, Arrive(WRAP + 2), m);
    ThreeMore([Call(1, 7), Arrive(0)] + Calls(WRAP - 1), Call(1, 8), Arrive(WRAP + 1), Arrive(WRAP + 2), m);
    assert s1.sent[WRAP + 1] == Q(Key(1, 1), WRAP, 8, false);
    assert Recent(s1.log)[0].key == Key(1, 1);
    assert s2.sent[WRAP + 2].serial == 0;
    assert s3.got[0].from == 0 && s3.got[0].want == WRAP;
    assert s3.got[0] in s3.got;
  }

  lemma ThreeMore(acts: seq<Act>, a: Act, b: Act, c: Act, m: Method)
    ensures After(acts + [a, b, c], m) == Step(Step(Step(After(acts, m), a, m), b, m), c, m)
  {
    hide Step, After;
    Snoc(acts, a, m);
    Snoc(acts + [a], b, m);
    Snoc(acts + [a] + [b], c, m);
    assert acts + [a, b, c] == acts + [a] + [b] + [c];
  }

  lemma Snoc(acts: seq<Act>, a: Act, m: Method)
    ensures After(acts + [a], m) == Step(After(acts, m), a, m)
  {
    assert (acts + [a])[..|acts|] == acts;
  }

  /** Callers get their own requests' answers in every history of at most n requests a sender
      if and only if n is at most a million. */
  lemma SafeCount(n: nat, m: Method)
    ensures (forall acts :: AtMost(After(acts, m), n) ==> Own(After(acts, m))) <==> n <= WRAP
  {
    hide After, Own, Wrapped;
    if n <= WRAP {
      forall acts | AtMost(After(acts, m), n) ensures Own(After(acts, m)) {
        FewPrompt(acts, m);
        OwnRun(acts, m);
      }
    } else {
      WrapMixes(m);
    }
  }
}
