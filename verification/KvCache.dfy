/** Transformer inference with a key/value cache.  Floating-point work is uninterpreted:
    what is proved is that reading keys and values back from the cache computes what
    recomputing the whole prefix would. */
module KvCache {
  import opened Word

  const BOS := 1
  const EOS := 2

  /** Everything numeric, as functions.  `mix` takes a position's hidden state, and the keys
      and values of positions 0 to that one, through one layer. */
  datatype Net<!F> = Net(
    layers: nat, seqLen: nat, kvDim: nat,
    embed: nat -> seq<F>,
    key: (nat, seq<F>, nat) -> seq<F>,
    val: (nat, seq<F>, nat) -> seq<F>,
    mix: (nat, seq<F>, nat, seq<seq<F>>, seq<seq<F>>) -> seq<F>,
    logits: seq<F> -> seq<F>,
    best: seq<F> -> nat)

  ghost predicate Wf<F(!new)>(n: Net<F>) {
    n.seqLen > 0 && forall l: nat, x: seq<F>, p: nat :: |n.key(l, x, p)| == n.kvDim && |n.val(l, x, p)| == n.kvDim
  }

  // ---------------------------------------------------------------- without a cache

  /** The hidden state entering layer l at position t, computed from the tokens alone. */
  ghost function Hidden<F>(n: Net<F>, toks: seq<nat>, l: nat, t: nat): seq<F>
    requires t < |toks|
    decreases l, 1
  {
    if l == 0 then n.embed(toks[t])
    else n.mix(l - 1, Hidden(n, toks, l - 1, t), t, Keys(n, toks, l - 1, t), Vals(n, toks, l - 1, t))
  }

  /** The keys of positions 0 to t in layer l. */
  ghost function Keys<F>(n: Net<F>, toks: seq<nat>, l: nat, t: nat): seq<seq<F>>
    requires t < |toks|
    decreases l, 2
  {
    seq(t + 1, u requires 0 <= u < t + 1 => n.key(l, Hidden(n, toks, l, u), u))
  }

  ghost function Vals<F>(n: Net<F>, toks: seq<nat>, l: nat, t: nat): seq<seq<F>>
    requires t < |toks|
    decreases l, 2
  {
    seq(t + 1, u requires 0 <= u < t + 1 => n.val(l, Hidden(n, toks, l, u), u))
  }

  ghost function Logits<F>(n: Net<F>, toks: seq<nat>): seq<F>
    requires toks != []
  {
    n.logits(Hidden(n, toks, n.layers, |toks| - 1))
  }

  /** Causality: later tokens do not change earlier positions. */
  lemma {:induction false} Causal<F>(n: Net<F>, toks: seq<nat>, more: seq<nat>, l: nat, t: nat)
    requires t < |toks|
    ensures Hidden(n, toks + more, l, t) == Hidden(n, toks, l, t)
    decreases l
  {
    if l > 0 {
      Causal(n, toks, more, l - 1, t);
      var ks, vs := Keys(n, toks + more, l - 1, t), Vals(n, toks + more, l - 1, t);
      forall u | 0 <= u < t + 1 ensures ks[u] == Keys(n, toks, l - 1, t)[u] && vs[u] == Vals(n, toks, l - 1, t)[u] {
        Causal(n, toks, more, l - 1, u);
      }
      assert ks == Keys(n, toks, l - 1, t) && vs == Vals(n, toks, l - 1, t);
    }
  }

  /** Greedy continuation of a history by at most k tokens, each recomputed from scratch;
      the session stops at a full context. */
  ghost function Greedy<F>(n: Net<F>, h: seq<nat>, k: nat): (seq<nat>, seq<nat>)
    requires h != []
    decreases k
  {
    if k == 0 || |h| >= n.seqLen then (h, [])
    else
      var next := n.best(Logits(n, h));
      if next == BOS || next == EOS then (h, [])
      else
        var (h', out) := Greedy(n, h + [next], k - 1);
        (h', [next] + out)
  }

  function Min(a: int, b: int): int { if a < b then a else b }

  /** One turn of a chat, from scratch: the new history and the tokens answered.  Nothing is
      answered when nothing was fed. */
  ghost function Turn<F>(n: Net<F>, h: seq<nat>, msg: seq<nat>, k: nat): (seq<nat>, seq<nat>)
    requires |h| <= n.seqLen
  {
    var h0 := if h == [] then [BOS] else h;
    var fed := if |h0| >= n.seqLen then 0 else Min(|msg|, n.seqLen - |h0|);
    var h1 := h0 + msg[..fed];
    if h1 == h || h1 == [] then (h, []) else Greedy(n, h1, k)
  }

  /** What is answered once the history h has been fed, outside a session. */
  ghost function Continued<F>(n: Net<F>, h: seq<nat>, k: nat): seq<nat>
    requires h != []
    decreases k
  {
    if k == 0 || |h| > n.seqLen then []
    else
      var next := n.best(Logits(n, h));
      if next == BOS || next == EOS then [] else [next] + Continued(n, h + [next], k - 1)
  }

  // ---------------------------------------------------------------- the cache

  /** Where layer l, position t lies in a cache. */
  function At<F>(n: Net<F>, l: nat, t: nat): nat { (l * n.seqLen + t) * n.kvDim }

  lemma AtFits<F>(n: Net<F>, l: nat, t: nat)
    requires l < n.layers && t < n.seqLen
    ensures At(n, l, t) + n.kvDim <= n.layers * n.seqLen * n.kvDim
  {
    MulApart(l, n.layers, n.seqLen);
    MulApart(l * n.seqLen + t, n.layers * n.seqLen, n.kvDim);
  }

  lemma AtApart<F>(n: Net<F>, l: nat, t: nat, l': nat, t': nat)
    requires t < n.seqLen && t' < n.seqLen && (l, t) != (l', t')
    ensures At(n, l, t) + n.kvDim <= At(n, l', t') || At(n, l', t') + n.kvDim <= At(n, l, t)
  {
    if l < l' { MulApart(l, l', n.seqLen); }
    if l' < l { MulApart(l', l, n.seqLen); }
    var a, b := l * n.seqLen + t, l' * n.seqLen + t';
    if a < b { MulApart(a, b, n.kvDim); } else { MulApart(b, a, n.kvDim); }
  }

  /** The slice of a cache for layer l, position t. */
  ghost function Slot<F>(n: Net<F>, c: seq<F>, l: nat, t: nat): seq<F>
    requires l < n.layers && t < n.seqLen && |c| == n.layers * n.seqLen * n.kvDim
  {
    AtFits(n, l, t);
    c[At(n, l, t)..At(n, l, t) + n.kvDim]
  }

  ghost predicate Sized<F>(n: Net<F>, c: seq<F>) { |c| == n.layers * n.seqLen * n.kvDim }

  /** The caches hold keys and values of the tokens at the first m positions of each layer,
      and of one more position in the first `upTo` layers. */
  ghost predicate Cached<F>(n: Net<F>, kc: seq<F>, vc: seq<F>, toks: seq<nat>, m: nat, upTo: nat)
    requires Sized(n, kc) && Sized(n, vc)
  {
    && m <= |toks| <= n.seqLen && (upTo > 0 ==> m < |toks|)
    && forall l, t :: 0 <= l < n.layers && 0 <= t < |toks| && (t < m || (t == m && l < upTo)) ==>
         Slot(n, kc, l, t) == n.key(l, Hidden(n, toks, l, t), t)
           && Slot(n, vc, l, t) == n.val(l, Hidden(n, toks, l, t), t)
  }

  /** Writing one slot leaves the others. */
  lemma SlotPut<F>(n: Net<F>, c: seq<F>, c': seq<F>, l: nat, t: nat, x: seq<F>, l': nat, t': nat)
    requires Sized(n, c) && |c'| == |c| && l < n.layers && t < n.seqLen && l' < n.layers && t' < n.seqLen
             && |x| == n.kvDim
    requires At(n, l, t) + n.kvDim <= |c| && c' == c[..At(n, l, t)] + x + c[At(n, l, t) + n.kvDim..]
    ensures Slot(n, c', l', t') == if (l', t') == (l, t) then x else Slot(n, c, l', t')
  {
    hide At;
    AtFits(n, l', t');
    var a, b := At(n, l, t), At(n, l', t');
    if (l', t') != (l, t) {
      AtApart(n, l, t, l', t');
      Elsewhere(c, c', a, n.kvDim, x, b);
    } else {
      assert c'[a..a + n.kvDim] == x;
    }
  }

  lemma Elsewhere<F>(c: seq<F>, c': seq<F>, a: nat, d: nat, x: seq<F>, b: nat)
    requires a + d <= |c| && |x| == d && c' == c[..a] + x + c[a + d..] && b + d <= |c| && (b + d <= a || a + d <= b)
    ensures |c'| == |c| && c'[b..b + d] == c[b..b + d]
  {
  }

  lemma CachedMore<F>(n: Net<F>, toks: seq<nat>, token: nat, kc: seq<F>, vc: seq<F>)
    requires Sized(n, kc) && Sized(n, vc) && Cached(n, kc, vc, toks, |toks|, 0) && |toks| < n.seqLen
    ensures Cached(n, kc, vc, toks + [token], |toks|, 0)
  {
    hide Slot, Hidden;
    forall l, t | 0 <= l < n.layers && 0 <= t < |toks|
      ensures Hidden(n, toks + [token], l, t) == Hidden(n, toks, l, t)
    {
      Causal(n, toks, [token], l, t);
    }
  }

  /** One layer's key and value were stored at the new position. */
  lemma CachedLayer<F>(n: Net<F>, toks: seq<nat>, m: nat, l: nat, kc: seq<F>, vc: seq<F>, kc': seq<F>, vc': seq<F>)
    requires Sized(n, kc) && Sized(n, vc) && |kc'| == |kc| && |vc'| == |vc| && Cached(n, kc, vc, toks, m, l)
             && m < |toks| && l < n.layers
    requires |n.key(l, Hidden(n, toks, l, m), m)| == n.kvDim && |n.val(l, Hidden(n, toks, l, m), m)| == n.kvDim
    requires At(n, l, m) + n.kvDim <= |kc|
    requires var a := At(n, l, m);
             kc' == kc[..a] + n.key(l, Hidden(n, toks, l, m), m) + kc[a + n.kvDim..]
               && vc' == vc[..a] + n.val(l, Hidden(n, toks, l, m), m) + vc[a + n.kvDim..]
    ensures Cached(n, kc', vc', toks, m, l + 1)
  {
    hide Slot, Hidden, At;
    var k, v := n.key(l, Hidden(n, toks, l, m), m), n.val(l, Hidden(n, toks, l, m), m);
    forall l', t | 0 <= l' < n.layers && 0 <= t < |toks| && (t < m || (t == m && l' < l + 1))
      ensures Slot(n, kc', l', t) == n.key(l', Hidden(n, toks, l', t), t)
              && Slot(n, vc', l', t) == n.val(l', Hidden(n, toks, l', t), t)
    {
      SlotPut(n, kc, kc', l, m, k, l', t);
      SlotPut(n, vc, vc', l, m, v, l', t);
    }
  }

  lemma CachedAll<F>(n: Net<F>, toks: seq<nat>, kc: seq<F>, vc: seq<F>)
    requires Sized(n, kc) && Sized(n, vc) && toks != [] && Cached(n, kc, vc, toks, |toks| - 1, n.layers)
    ensures Cached(n, kc, vc, toks, |toks|, 0)
  {
    hide Slot, Hidden;
  }

  /** With a layer's slots in place, reading them back gives the keys and values of the
      whole prefix. */
  lemma ReadBack<F>(n: Net<F>, toks: seq<nat>, m: nat, l: nat, kc: seq<F>, vc: seq<F>, ks: seq<seq<F>>, vs: seq<seq<F>>)
    requires Sized(n, kc) && Sized(n, vc) && Cached(n, kc, vc, toks, m, l + 1) && l < n.layers && |ks| == |vs| == m + 1
    requires forall t :: 0 <= t < m + 1 ==> ks[t] == Slot(n, kc, l, t) && vs[t] == Slot(n, vc, l, t)
    ensures m < |toks| && ks == Keys(n, toks, l, m) && vs == Vals(n, toks, l, m)
  {
    hide Slot, Hidden;
  }

  // ---------------------------------------------------------------- the running model

  class Llm<F(!new)> {
    const net: Net<F>
    const keys: array<F>
    const vals: array<F>
    var sessPos: nat

    ghost predicate Ready() reads this, keys, vals {
      Wf(net) && keys != vals && Sized(net, keys[..]) && Sized(net, vals[..])
    }

    constructor (net: Net<F>, zero: F)
      requires Wf(net)
      ensures Ready() && fresh(keys) && fresh(vals) && this.net == net
    {
      this.net := net;
      keys := new F[net.layers * net.seqLen * net.kvDim](_ => zero);
      vals := new F[net.layers * net.seqLen * net.kvDim](_ => zero);
      sessPos := 0;
    }

    /** The session's part of the cache is that of the history h. */
    ghost predicate Session(h: seq<nat>) reads this, keys, vals {
      Ready() && sessPos == |h| && Cached(net, keys[..], vals[..], h, |h|, 0)
    }

    /** Copy a vector into a cache at `a`. */
    method Store(c: array<F>, a: nat, x: seq<F>)
      requires a + |x| <= c.Length
      modifies c
      ensures c[..] == old(c[..a]) + x + old(c[a + |x|..])
    {
      for i := 0 to |x|
        invariant forall h :: 0 <= h < c.Length ==> c[h] == if a <= h < a + i then x[h - a] else old(c[h])
      {
        c[a + i] := x[i];
      }
    }

    /** Read positions 0 to pos of layer l. */
    method Gather(l: nat, pos: nat) returns (ks: seq<seq<F>>, vs: seq<seq<F>>)
      requires Ready() && l < net.layers && pos < net.seqLen
      ensures |ks| == |vs| == pos + 1
      ensures forall t :: 0 <= t < pos + 1 ==> ks[t] == Slot(net, keys[..], l, t) && vs[t] == Slot(net, vals[..], l, t)
    {
      hide Slot, At, Wf;
      ks, vs := [], [];
      for t := 0 to pos + 1
        invariant |ks| == |vs| == t
        invariant forall u :: 0 <= u < t ==> ks[u] == Slot(net, keys[..], l, u) && vs[u] == Slot(net, vals[..], l, u)
      {
        AtFits(net, l, t);
        var a := At(net, l, t);
        SlotIs(net, keys[..], l, t);
        SlotIs(net, vals[..], l, t);
        ks, vs := ks + [keys[a..a + net.kvDim]], vs + [vals[a..a + net.kvDim]];
      }
    }

    /** One token at the next position: the logits are those of the whole prefix recomputed. */
    method Forward(token: nat, pos: nat, ghost toks: seq<nat>) returns (lg: seq<F>)
      requires Ready() && pos == |toks| < net.seqLen && Cached(net, keys[..], vals[..], toks, |toks|, 0)
      modifies keys, vals
      ensures Ready() && Cached(net, keys[..], vals[..], toks + [token], pos + 1, 0)
              && lg == Logits(net, toks + [token])
      ensures Beyond(net, old(keys[..]), keys[..], pos + 1) && Beyond(net, old(vals[..]), vals[..], pos + 1)
    {
      hide Cached, Hidden, At, Slot, Keys, Vals, Beyond;
      BeyondSelf(net, keys[..], pos + 1);
      BeyondSelf(net, vals[..], pos + 1);
      ghost var all := toks + [token];
      CachedMore(net, toks, token, keys[..], vals[..]);
      var x := net.embed(token);
      HiddenFirst(net, all, pos);
      for l := 0 to net.layers
        invariant Ready() && x == Hidden(net, all, l, pos) && Cached(net, keys[..], vals[..], all, pos, l)
        invariant Beyond(net, old(keys[..]), keys[..], pos + 1) && Beyond(net, old(vals[..]), vals[..], pos + 1)
      {
        ghost var kc, vc := keys[..], vals[..];
        x := Layer(l, x, pos, all);
        BeyondTrans(net, old(keys[..]), kc, keys[..], pos + 1);
        BeyondTrans(net, old(vals[..]), vc, vals[..], pos + 1);
      }
      CachedAll(net, all, keys[..], vals[..]);
      lg := net.logits(x);
    }

    method Layer(l: nat, x: seq<F>, pos: nat, ghost all: seq<nat>) returns (y: seq<F>)
      requires Ready() && pos < |all| <= net.seqLen && l < net.layers && x == Hidden(net, all, l, pos)
      requires Cached(net, keys[..], vals[..], all, pos, l)
      modifies keys, vals
      ensures Ready() && y == Hidden(net, all, l + 1, pos) && Cached(net, keys[..], vals[..], all, pos, l + 1)
      ensures Beyond(net, old(keys[..]), keys[..], pos + 1) && Beyond(net, old(vals[..]), vals[..], pos + 1)
    {
      hide Cached, Hidden, At, Slot, Keys, Vals, Beyond;
      AtFits(net, l, pos);
      ghost var kc, vc := keys[..], vals[..];
      var a := At(net, l, pos);
      Store(keys, a, net.key(l, x, pos));
      Store(vals, a, net.val(l, x, pos));
      CachedLayer(net, all, pos, l, kc, vc, keys[..], vals[..]);
      BeyondPut(net, kc, keys[..], l, pos, net.key(l, x, pos));
      BeyondPut(net, vc, vals[..], l, pos, net.val(l, x, pos));
      var ks, vs := Gather(l, pos);
      ReadBack(net, all, pos, l, keys[..], vals[..], ks, vs);
      HiddenNext(net, all, l, pos);
      y := net.mix(l, x, pos, ks, vs);
    }

    method Reset()
      requires Ready()
      modifies this`sessPos
      ensures Session([])
    {
      sessPos := 0;
    }

    /** One turn of the session with history h: the answer and the new history are those of a
        run from scratch on the whole conversation. */
    method Chat(msg: seq<nat>, maxNew: nat, ghost h: seq<nat>) returns (out: seq<nat>, ghost h': seq<nat>)
      requires Session(h)
      modifies this`sessPos, keys, vals
      ensures Session(h') && (h', out) == Turn(net, h, msg, maxNew)
    {
      hide Cached, Hidden, Logits, Sized, Beyond, Turn, Greedy;
      CachedFits(net, keys[..], vals[..], h);
      TurnIs(net, h, msg, maxNew);
      var lg, fed := [], false;
      ghost var h0 := if h == [] then [BOS] else h;
      h' := h;
      if sessPos == 0 {
        assert [] + [BOS] == [BOS];
        lg := Forward(BOS, sessPos, h');
        sessPos, h', fed := sessPos + 1, h' + [BOS], true;
      }
      ghost var n := if |h0| >= net.seqLen then 0 else Min(|msg|, net.seqLen - |h0|);
      var i := 0;
      while i < |msg| && sessPos < net.seqLen
        invariant 0 <= i <= n && Session(h') && h' == h0 + msg[..i] && (fed <==> h' != h)
                  && (fed ==> lg == Logits(net, h'))
      {
        OneMore(h0, msg, i);
        lg := Forward(msg[i], sessPos, h');
        sessPos, h', fed := sessPos + 1, h' + [msg[i]], true;
        i := i + 1;
      }
      if !fed {
        out := [];
        return;
      }
      out, h' := Generate(lg, maxNew, h');
    }

    /** Greedy generation, feeding each token back. */
    method Generate(lg0: seq<F>, maxNew: nat, ghost h: seq<nat>) returns (out: seq<nat>, ghost h': seq<nat>)
      requires Session(h) && h != [] && lg0 == Logits(net, h)
      modifies this`sessPos, keys, vals
      ensures Session(h') && (h', out) == Greedy(net, h, maxNew)
    {
      hide Cached, Hidden, Logits, Sized, Greedy, Wf, Beyond;
      var lg, gen := lg0, 0;
      out, h' := [], h;
      while gen < maxNew && sessPos < net.seqLen
        invariant 0 <= gen <= maxNew && Session(h') && h' != [] && lg == Logits(net, h')
        invariant Greedy(net, h, maxNew).0 == Greedy(net, h', maxNew - gen).0
        invariant Greedy(net, h, maxNew).1 == out + Greedy(net, h', maxNew - gen).1
      {
        GreedyStep(net, h', maxNew - gen);
        var next := net.best(lg);
        if next == BOS || next == EOS { break; }
        out, gen := out + [next], gen + 1;
        lg := Forward(next, sessPos, h');
        sessPos, h' := sessPos + 1, h' + [next];
      }
      GreedyEnd(net, h', maxNew - gen);
      assert out + [] == out;
      ghost var g := Greedy(net, h, maxNew);
      assert g == (g.0, g.1);
    }

    /** A run outside any session: it starts over at position 0 whatever the cache holds, and
        overwrites one position for each token fed.  A session h survives it exactly when the
        keys and values of the tokens fed are those of the history they overwrite. */
    method Once(prompt: seq<nat>, maxNew: nat, ghost h: seq<nat>) returns (out: seq<nat>, ghost fed: seq<nat>)
      requires Ready() && prompt != []
      modifies keys, vals
      ensures Ready() && out == Continued(net, prompt, maxNew)
      ensures |fed| <= |prompt + out| && fed == (prompt + out)[..|fed|] && |fed| <= net.seqLen
      ensures if maxNew == 0 then fed == [] else Min(|prompt|, net.seqLen) <= |fed|
      ensures maxNew > 0 && |out| == maxNew ==> |fed| == |prompt| + |out| - 1
      ensures Cached(net, keys[..], vals[..], fed, |fed|, 0)
      ensures Beyond(net, old(keys[..]), keys[..], |fed|) && Beyond(net, old(vals[..]), vals[..], |fed|)
      ensures old(Session(h)) ==> (Session(h) <==> Agree(net, fed, h))
    {
      hide Cached, Hidden, Logits, Sized, Beyond, Agree;
      out, fed := OnceRun(prompt, maxNew);
      if old(Session(h)) { SurvivesIff(net, old(keys[..]), old(vals[..]), keys[..], vals[..], fed, h); }
    }

    method OnceRun(prompt: seq<nat>, maxNew: nat) returns (out: seq<nat>, ghost fed: seq<nat>)
      requires Ready() && prompt != []
      modifies keys, vals
      ensures Ready() && out == Continued(net, prompt, maxNew)
      ensures |fed| <= |prompt + out| && fed == (prompt + out)[..|fed|] && |fed| <= net.seqLen
      ensures if maxNew == 0 then fed == [] else Min(|prompt|, net.seqLen) <= |fed|
      ensures maxNew > 0 && |out| == maxNew ==> |fed| == |prompt| + |out| - 1
      ensures Cached(net, keys[..], vals[..], fed, |fed|, 0)
      ensures Beyond(net, old(keys[..]), keys[..], |fed|) && Beyond(net, old(vals[..]), vals[..], |fed|)
    {
      hide Cached, Hidden, Logits, Sized, Beyond, Continued, Wf, Feeding;
      var token, pos, gen := prompt[0], 0, 0;
      out, fed := [], [];
      NothingCached(net, keys[..], vals[..]);
      BeyondSelf(net, keys[..], 0);
      BeyondSelf(net, vals[..], 0);
      FeedFirst(net, prompt, maxNew);
      while pos < net.seqLen && gen < maxNew
        invariant Ready() && pos == |fed| <= net.seqLen && Cached(net, keys[..], vals[..], fed, pos, 0)
        invariant Beyond(net, old(keys[..]), keys[..], pos) && Beyond(net, old(vals[..]), vals[..], pos)
        invariant Feeding(prompt, out, fed, token) && gen == |out| <= maxNew && (maxNew == 0 ==> fed == [])
        invariant Continued(net, prompt, maxNew) == out + Continued(net, prompt + out, maxNew - gen)
      {
        ghost var kc, vc := keys[..], vals[..];
        var lg := Forward(token, pos, fed);
        BeyondNext(net, old(keys[..]), kc, keys[..], pos);
        BeyondNext(net, old(vals[..]), vc, vals[..], pos);
        FeedBound(prompt, out, fed, token);
        if pos + 1 < |prompt| {
          FeedPrompt(prompt, out, fed, token);
          fed, token := fed + [token], prompt[pos + 1];
        } else {
          FeedAll(prompt, out, fed, token);
          fed := fed + [token];
          var next := net.best(lg);
          ContinuedStep(net, prompt, out, maxNew, next);
          if next == BOS || next == EOS { return; }
          FeedNext(prompt, out, next);
          out, gen, token := out + [next], gen + 1, next;
        }
        pos := pos + 1;
      }
      FeedBound(prompt, out, fed, token);
      ContinuedEnd(net, prompt, out, maxNew, fed, token);
    }
  }

  lemma CachedFits<F>(n: Net<F>, kc: seq<F>, vc: seq<F>, toks: seq<nat>)
    requires Sized(n, kc) && Sized(n, vc) && Cached(n, kc, vc, toks, |toks|, 0)
    ensures |toks| <= n.seqLen
  {
  }

  lemma TurnIs<F>(n: Net<F>, h: seq<nat>, msg: seq<nat>, k: nat)
    requires |h| <= n.seqLen
    ensures var h0 := if h == [] then [BOS] else h;
            var fed := if |h0| >= n.seqLen then 0 else Min(|msg|, n.seqLen - |h0|);
            var h1 := h0 + msg[..fed];
            Turn(n, h, msg, k) == if h1 == h || h1 == [] then (h, []) else Greedy(n, h1, k)
  {
    hide Greedy;
  }

  lemma OneMore(h: seq<nat>, msg: seq<nat>, i: nat)
    requires i < |msg|
    ensures h + msg[..i + 1] == h + msg[..i] + [msg[i]] && h + msg[..0] == h
  {
  }

  // ---------------------------------------------------------------- feeding a prompt

  /** What has been fed of the prompt and the answer, and the token to feed next. */
  ghost predicate Feeding(prompt: seq<nat>, out: seq<nat>, fed: seq<nat>, token: nat) {
    && |fed| < |prompt| + |out| && fed == (prompt + out)[..|fed|] && token == (prompt + out)[|fed|]
    && (out != [] ==> |fed| == |prompt| + |out| - 1)
  }

  lemma FeedFirst<F>(n: Net<F>, prompt: seq<nat>, k: nat)
    requires prompt != []
    ensures Feeding(prompt, [], [], prompt[0]) && Continued(n, prompt, k) == [] + Continued(n, prompt + [], k)
  {
    assert prompt + [] == prompt;
  }

  lemma FeedBound(prompt: seq<nat>, out: seq<nat>, fed: seq<nat>, token: nat)
    requires Feeding(prompt, out, fed, token)
    ensures |fed| < |prompt| + |out| && fed == (prompt + out)[..|fed|]
    ensures out != [] ==> |fed| == |prompt| + |out| - 1
  {
  }

  lemma FeedPrompt(prompt: seq<nat>, out: seq<nat>, fed: seq<nat>, token: nat)
    requires Feeding(prompt, out, fed, token) && |fed| + 1 < |prompt|
    ensures Feeding(prompt, out, fed + [token], prompt[|fed| + 1])
  {
  }

  lemma FeedAll(prompt: seq<nat>, out: seq<nat>, fed: seq<nat>, token: nat)
    requires Feeding(prompt, out, fed, token) && |fed| + 1 >= |prompt|
    ensures fed + [token] == prompt + out && (prompt + out)[..|prompt + out|] == prompt + out
  {
  }

  lemma FeedNext(prompt: seq<nat>, out: seq<nat>, next: nat)
    ensures Feeding(prompt, out + [next], prompt + out, next)
  {
    assert prompt + (out + [next]) == prompt + out + [next];
  }

  lemma ContinuedStep<F>(n: Net<F>, prompt: seq<nat>, out: seq<nat>, k: nat, next: nat)
    requires prompt != [] && |out| < k && |prompt + out| <= n.seqLen && next == n.best(Logits(n, prompt + out))
    requires Continued(n, prompt, k) == out + Continued(n, prompt + out, k - |out|)
    ensures next == BOS || next == EOS ==> Continued(n, prompt, k) == out
    ensures next != BOS && next != EOS ==>
            Continued(n, prompt, k) == (out + [next]) + Continued(n, prompt + (out + [next]), k - |out| - 1)
  {
    hide Logits;
    assert out + [] == out;
    assert prompt + (out + [next]) == prompt + out + [next];
    assert forall r: seq<nat> :: out + ([next] + r) == (out + [next]) + r;
  }

  lemma ContinuedEnd<F>(n: Net<F>, prompt: seq<nat>, out: seq<nat>, k: nat, fed: seq<nat>, token: nat)
    requires prompt != [] && Feeding(prompt, out, fed, token) && |out| <= k && (|fed| >= n.seqLen || |out| == k)
    requires Continued(n, prompt, k) == out + Continued(n, prompt + out, k - |out|)
    ensures Continued(n, prompt, k) == out
  {
    assert out + [] == out;
  }

  // ---------------------------------------------------------------- a run in between

  /** Slots at positions from m on are the same. */
  ghost predicate Beyond<F>(n: Net<F>, c: seq<F>, c': seq<F>, m: nat) {
    && Sized(n, c) && Sized(n, c')
    && forall l, t :: 0 <= l < n.layers && m <= t < n.seqLen ==> Slot(n, c', l, t) == Slot(n, c, l, t)
  }

  lemma BeyondSelf<F>(n: Net<F>, c: seq<F>, m: nat)
    requires Sized(n, c)
    ensures Beyond(n, c, c, m)
  {
  }

  lemma BeyondTrans<F>(n: Net<F>, a: seq<F>, b: seq<F>, c: seq<F>, m: nat)
    requires Beyond(n, a, b, m) && Beyond(n, b, c, m)
    ensures Beyond(n, a, c, m)
  {
    hide Slot;
  }

  lemma BeyondNext<F>(n: Net<F>, a: seq<F>, b: seq<F>, c: seq<F>, m: nat)
    requires Beyond(n, a, b, m) && Beyond(n, b, c, m + 1)
    ensures Beyond(n, a, c, m + 1)
  {
    hide Slot;
  }

  lemma BeyondPut<F>(n: Net<F>, c: seq<F>, c': seq<F>, l: nat, t: nat, x: seq<F>)
    requires Sized(n, c) && |c'| == |c| && l < n.layers && t < n.seqLen && |x| == n.kvDim
    requires At(n, l, t) + n.kvDim <= |c| && c' == c[..At(n, l, t)] + x + c[At(n, l, t) + n.kvDim..]
    ensures Beyond(n, c, c', t + 1)
  {
    hide Slot, At;
    forall l', t' | 0 <= l' < n.layers && t + 1 <= t' < n.seqLen ensures Slot(n, c', l', t') == Slot(n, c, l', t') {
      SlotPut(n, c, c', l, t, x, l', t');
    }
  }

  /** Two token sequences have the same keys and values where both have a position. */
  ghost predicate Agree<F>(n: Net<F>, a: seq<nat>, b: seq<nat>) {
    forall l, t :: 0 <= l < n.layers && 0 <= t < |a| && t < |b| ==>
      n.key(l, Hidden(n, a, l, t), t) == n.key(l, Hidden(n, b, l, t), t)
        && n.val(l, Hidden(n, a, l, t), t) == n.val(l, Hidden(n, b, l, t), t)
  }

  lemma SurvivesIff<F>(n: Net<F>, kc: seq<F>, vc: seq<F>, kc': seq<F>, vc': seq<F>, fed: seq<nat>, h: seq<nat>)
    requires Beyond(n, kc, kc', |fed|) && Beyond(n, vc, vc', |fed|) && |fed| <= n.seqLen
    requires Cached(n, kc, vc, h, |h|, 0) && Cached(n, kc', vc', fed, |fed|, 0)
    ensures Cached(n, kc', vc', h, |h|, 0) <==> Agree(n, fed, h)
  {
    hide Slot, Hidden;
    forall l, t | 0 <= l < n.layers && 0 <= t < |h| && t < |fed|
      ensures Slot(n, kc', l, t) == n.key(l, Hidden(n, fed, l, t), t)
              && Slot(n, vc', l, t) == n.val(l, Hidden(n, fed, l, t), t) {}
    forall l, t | 0 <= l < n.layers && |fed| <= t < |h|
      ensures Slot(n, kc', l, t) == n.key(l, Hidden(n, h, l, t), t)
              && Slot(n, vc', l, t) == n.val(l, Hidden(n, h, l, t), t) {}
  }

  ghost predicate SameTokens(a: seq<nat>, b: seq<nat>) { forall t :: 0 <= t < |a| && t < |b| ==> a[t] == b[t] }

  /** First-layer keys tell tokens apart, as they do in any trained model. */
  ghost predicate Telling<F(!new)>(n: Net<F>) {
    n.layers > 0
      && forall a: nat, b: nat,
      p: nat {:trigger n.key(0, n.embed(a), p), n.embed(b)} :: n.key(0, n.embed(a), p) == n.key(0, n.embed(b), p) ==>
      a == b
  }

  /** The same tokens always leave the session alone; different ones never do, when keys tell
      tokens apart. */
  lemma AgreeTokens<F(!new)>(n: Net<F>, a: seq<nat>, b: seq<nat>)
    ensures SameTokens(a, b) ==> Agree(n, a, b)
    ensures Telling(n) && Agree(n, a, b) ==> SameTokens(a, b)
  {
    hide Hidden;
    if SameTokens(a, b) {
      forall l, t | 0 <= l < n.layers && 0 <= t < |a| && t < |b| ensures Hidden(n, a, l, t) == Hidden(n, b, l, t) {
        var c := a[..t + 1];
        assert c == b[..t + 1] && c + a[t + 1..] == a && c + b[t + 1..] == b;
        Causal(n, c, a[t + 1..], l, t);
        Causal(n, c, b[t + 1..], l, t);
      }
    }
    if Telling(n) && Agree(n, a, b) {
      forall t | 0 <= t < |a| && t < |b| ensures a[t] == b[t] {
        HiddenFirst(n, a, t);
        HiddenFirst(n, b, t);
      }
    }
  }

  /** A model of one layer that answers with the token whose key is cached at position 0. */
  function Echo(): Net<nat> {
    Net(1, 8, 1, tok => [tok], (l, x, p) => if |x| == 1 then x else [0], (l, x, p) => if |x| == 1 then x else [0],
        (l, x, t, ks, vs) => if |ks| > 0 then ks[0] else [0], x => x, x => if |x| > 0 then x[0] else 0)
  }

  lemma EchoLogits(toks: seq<nat>)
    requires toks != []
    ensures Echo().best(Logits(Echo(), toks)) == toks[0]
  {
    var n := Echo();
    HiddenNext(n, toks, 0, |toks| - 1);
    HiddenFirst(n, toks, 0);
    assert Keys(n, toks, 0, |toks| - 1)[0] == [toks[0]];
  }

  lemma EchoWf()
    ensures Wf(Echo()) && Echo().layers == 1 && Echo().seqLen == 8 && Echo().kvDim == 1 && Telling(Echo())
  {
  }

  lemma EchoTurn(h: seq<nat>, x: nat)
    requires |h| <= 6
    ensures |h| <= Echo().seqLen
    ensures var h1 := (if h == [] then [BOS] else h) + [x];
            Turn(Echo(), h, [x], 1) == if h1[0] == BOS || h1[0] == EOS then (h1, []) else (h1 + [h1[0]], [h1[0]])
  {
    hide Logits, Hidden;
    EchoWf();
    var h1 := (if h == [] then [BOS] else h) + [x];
    var h0 := if h == [] then [BOS] else h;
    assert [x][..1] == [x] && h0 + [x][..1] == h1 && |h1| == |h0| + 1;
    var fed := if |h0| >= Echo().seqLen then 0 else Min(|[x]|, Echo().seqLen - |h0|);
    assert fed == 1 && h1 != h;
    EchoLogits(h1);
    assert Turn(Echo(), h, [x], 1) == Greedy(Echo(), h1, 1);
    GreedyStep(Echo(), h1, 1);
    GreedyEnd(Echo(), h1 + [h1[0]], 0);
    assert [h1[0]] + [] == [h1[0]];
    assert Greedy(Echo(), h1, 1) == (Greedy(Echo(), h1, 1).0, Greedy(Echo(), h1, 1).1);
  }

  lemma EchoOnce(x: nat)
    requires x != BOS && x != EOS
    ensures Continued(Echo(), [x], 1) == [x]
  {
    hide Logits, Hidden;
    EchoWf();
    EchoLogits([x]);
    assert Continued(Echo(), [x, x], 0) == [];
    assert [x] + [x] == [x, x];
  }

  /** With one layer a cache overwritten in part is that of a mixed history. */
  lemma EchoMixed(kc: seq<nat>, vc: seq<nat>, x: nat, y: nat)
    requires Sized(Echo(), kc) && Sized(Echo(), vc)
    requires Cached(Echo(), kc, vc, [x], 1, 0)
    requires Slot(Echo(), kc, 0, 1) == [y] && Slot(Echo(), vc, 0, 1) == [y]
    ensures Cached(Echo(), kc, vc, [x, y], 2, 0)
  {
    hide Slot;
    HiddenFirst(Echo(), [x], 0);
    HiddenFirst(Echo(), [x, y], 0);
    HiddenFirst(Echo(), [x, y], 1);
  }

  lemma EchoSecond(kc: seq<nat>, vc: seq<nat>, h: seq<nat>)
    requires Sized(Echo(), kc) && Sized(Echo(), vc) && |h| == 2 && Cached(Echo(), kc, vc, h, 2, 0)
    ensures Slot(Echo(), kc, 0, 1) == [h[1]] && Slot(Echo(), vc, 0, 1) == [h[1]]
  {
    hide Slot;
    HiddenFirst(Echo(), h, 1);
  }

  /** Between two turns of a conversation a one-shot run feeds another first token: the second
      turn answers 9 where the conversation alone would be answered with nothing. */
  method ForeignCache() returns (out: seq<nat>, ghost h: seq<nat>)
    ensures |h| <= Echo().seqLen && out == [9] && Turn(Echo(), h, [7], 1).1 == []
  {
    hide Cached, Turn, Continued, Slot, Agree, Wf, Telling, Logits, Hidden, Beyond;
    EchoWf();
    var m := new Llm(Echo(), 0);
    m.Reset();
    var first, once; ghost var fed, mixed;
    EchoTurn([], 5);
    first, h := m.Chat([5], 1, []);
    assert h == [BOS, 5];
    EchoOnce(9);
    ghost var kc, vc := m.keys[..], m.vals[..];
    EchoSecond(kc, vc, h);
    once, fed := m.Once([9], 1, h);
    assert fed == [9] by { assert ([9] + [9])[..1] == [9]; }
    BeyondAt(Echo(), kc, m.keys[..], 1, 0, 1);
    BeyondAt(Echo(), vc, m.vals[..], 1, 0, 1);
    EchoMixed(m.keys[..], m.vals[..], 9, 5);
    EchoTurn([9, 5], 7);
    EchoTurn(h, 7);
    out, mixed := m.Chat([7], 1, [9, 5]);
  }

  lemma BeyondAt<F>(n: Net<F>, c: seq<F>, c': seq<F>, m: nat, l: nat, t: nat)
    requires Beyond(n, c, c', m) && l < n.layers && m <= t < n.seqLen
    ensures Sized(n, c) && Sized(n, c') && Slot(n, c', l, t) == Slot(n, c, l, t)
  {
  }

  lemma NothingCached<F>(n: Net<F>, kc: seq<F>, vc: seq<F>)
    requires Sized(n, kc) && Sized(n, vc)
    ensures Cached(n, kc, vc, [], 0, 0)
  {
  }

  lemma SlotIs<F>(n: Net<F>, c: seq<F>, l: nat, t: nat)
    requires l < n.layers && t < n.seqLen && Sized(n, c)
    ensures At(n, l, t) + n.kvDim <= |c| && Slot(n, c, l, t) == c[At(n, l, t)..At(n, l, t) + n.kvDim]
  {
    AtFits(n, l, t);
  }

  lemma GreedyEnd<F>(n: Net<F>, h: seq<nat>, k: nat)
    requires h != []
    ensures k == 0 || |h| >= n.seqLen ==> Greedy(n, h, k) == (h, [])
  {
  }

  lemma GreedyStep<F>(n: Net<F>, h: seq<nat>, k: nat)
    requires h != [] && k > 0 && |h| < n.seqLen
    ensures var next := n.best(Logits(n, h));
            if next == BOS || next == EOS then Greedy(n, h, k) == (h, [])
            else Greedy(n, h, k).0 == Greedy(n, h + [next], k - 1).0
                 && Greedy(n, h, k).1 == [next] + Greedy(n, h + [next], k - 1).1
  {
    hide Logits;
  }

  lemma HiddenFirst<F>(n: Net<F>, toks: seq<nat>, t: nat)
    requires t < |toks|
    ensures Hidden(n, toks, 0, t) == n.embed(toks[t])
  {
  }

  lemma HiddenNext<F>(n: Net<F>, toks: seq<nat>, l: nat, t: nat)
    requires t < |toks|
    ensures Hidden(n, toks, l + 1, t) == n.mix(l, Hidden(n, toks, l, t), t, Keys(n, toks, l, t), Vals(n, toks, l, t))
  {
  }
}
