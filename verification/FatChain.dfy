/** Cluster chains as facts about the table: following, freeing, linking, counting. */
module FatChain {
  const EOC := 0x0FFF_FFF8       // this and above end a chain
  const LAST := 0x0FFF_FFFF      // what the writer stores

  ghost predicate Distinct(cs: seq<nat>) { forall i, j :: 0 <= i < j < |cs| ==> cs[i] != cs[j] }

  /** cs is a chain: distinct clusters, each naming the next, the last an end mark. */
  ghost predicate IsChain(fat: seq<nat>, cs: seq<nat>) {
    && |cs| > 0 && Distinct(cs) && (forall i :: 0 <= i < |cs| ==> 2 <= cs[i] < |fat| && cs[i] < EOC)
    && (forall i :: 0 <= i < |cs| - 1 ==> fat[cs[i]] == cs[i + 1])
    && fat[cs[|cs| - 1]] >= EOC
  }

  /** The value found in the table at the i-th cluster of a chain. */
  lemma ChainStep(fat: seq<nat>, cs: seq<nat>, i: nat)
    requires IsChain(fat, cs) && i < |cs|
    ensures 2 <= cs[i] < |fat| && cs[i] < EOC && if i + 1 < |cs| then fat[cs[i]] == cs[i + 1] else fat[cs[i]] >= EOC
  {
  }

  /** A chain is determined by its first cluster. */
  lemma {:induction false} ChainUnique(fat: seq<nat>, cs: seq<nat>, ds: seq<nat>, i: nat)
    requires IsChain(fat, cs) && IsChain(fat, ds) && cs[0] == ds[0] && i < |cs|
    ensures i < |ds| && cs[i] == ds[i]
    decreases i
  {
    if i > 0 {
      ChainUnique(fat, cs, ds, i - 1);
      ChainStep(fat, cs, i - 1);
      ChainStep(fat, cs, i);
      ChainStep(fat, ds, i - 1);
    }
  }

  // ---------------------------------------------------------------- freeing

  function Zeroed(fat: seq<nat>, cs: seq<nat>): (t: seq<nat>)
    ensures |t| == |fat|
  {
    if cs == [] then fat else
      var n := |cs| - 1;
      var r := Zeroed(fat, cs[..n]);
      if cs[n] < |r| then r[cs[n] := 0] else r
  }

  lemma {:induction false} ZeroedAt(fat: seq<nat>, cs: seq<nat>, c: nat)
    requires c < |fat|
    ensures Zeroed(fat, cs)[c] == if c in cs then 0 else fat[c]
    decreases |cs|
  {
    if cs != [] {
      var n := |cs| - 1;
      ZeroedAt(fat, cs[..n], c);
      assert c in cs <==> c in cs[..n] || c == cs[n];
    }
  }

  // ---------------------------------------------------------------- linking

  /** The table after the clusters cs were taken one by one: each is made an end mark and
      then named by the one before. */
  function Linked(fat: seq<nat>, cs: seq<nat>): (t: seq<nat>)
    ensures |t| == |fat|
  {
    if cs == [] then fat else
      var n := |cs| - 1;
      var r := Linked(fat, cs[..n]);
      if cs[n] >= |r| then r
      else if n == 0 || cs[n - 1] >= |r| then r[cs[n] := LAST]
      else r[cs[n] := LAST][cs[n - 1] := cs[n]]
  }

  lemma {:induction false} LinkedOff(fat: seq<nat>, cs: seq<nat>, c: nat)
    requires c < |fat| && c !in cs
    ensures Linked(fat, cs)[c] == fat[c]
    decreases |cs|
  {
    if cs != [] {
      var n := |cs| - 1;
      assert cs[n] in cs && (n > 0 ==> cs[n - 1] in cs);
      LinkedOff(fat, cs[..n], c);
    }
  }

  lemma {:induction false} LinkedOn(fat: seq<nat>, cs: seq<nat>, i: nat)
    requires Distinct(cs) && i < |cs| && forall j :: 0 <= j < |cs| ==> cs[j] < |fat|
    ensures Linked(fat, cs)[cs[i]] == if i + 1 < |cs| then cs[i + 1] else LAST
    decreases |cs|
  {
    var n := |cs| - 1;
    if i < n { LinkedOn(fat, cs[..n], i); }
  }

  lemma LinkedChain(fat: seq<nat>, cs: seq<nat>)
    requires |cs| > 0 && Distinct(cs) && forall i :: 0 <= i < |cs| ==> 2 <= cs[i] < |fat| && cs[i] < EOC
    ensures IsChain(Linked(fat, cs), cs)
  {
    forall i | 0 <= i < |cs| ensures Linked(fat, cs)[cs[i]] == if i + 1 < |cs| then cs[i + 1] else LAST {
      LinkedOn(fat, cs, i);
    }
  }

  // ---------------------------------------------------------------- a replaced chain

  /** Distinct clusters with something in their entries. */
  ghost predicate InUse(fat: seq<nat>, cs: seq<nat>) {
    Distinct(cs) && forall i :: 0 <= i < |cs| ==> cs[i] < |fat| && fat[cs[i]] != 0
  }

  lemma ChainInUse(fat: seq<nat>, cs: seq<nat>, n: nat)
    requires IsChain(fat, cs) && n <= |cs|
    ensures InUse(fat, cs[..n])
  {
    forall i | 0 <= i < n ensures cs[i] < |fat| && fat[cs[i]] != 0 { ChainStep(fat, cs, i); }
  }

  /** The clusters `was` (a chain, the part of it that was visited, or nothing) were freed,
      then cs taken from what was free. */
  ghost predicate Replaced(fat: seq<nat>, fat': seq<nat>, was: seq<nat>, cs: seq<nat>) {
    && InUse(fat, was) && fat' == Linked(Zeroed(fat, was), cs)
    && Distinct(cs)
    && (forall i :: 0 <= i < |cs| ==> 2 <= cs[i] < |fat| && cs[i] < EOC && Zeroed(fat, was)[cs[i]] == 0)
  }

  lemma ReplacedAt(fat: seq<nat>, fat': seq<nat>, was: seq<nat>, cs: seq<nat>, c: nat)
    requires Replaced(fat, fat', was, cs) && c < |fat|
    ensures c !in cs ==> fat'[c] == if c in was then 0 else fat[c]
    ensures c in cs ==> (fat[c] == 0 || c in was) && fat'[c] != 0
  {
    ZeroedAt(fat, was, c);
    if c !in cs {
      LinkedOff(Zeroed(fat, was), cs, c);
    } else {
      var i :| 0 <= i < |cs| && cs[i] == c;
      LinkedOn(Zeroed(fat, was), cs, i);
      assert i + 1 < |cs| ==> cs[i + 1] >= 2;
    }
  }

  /** Any other chain survives, disjoint from the new one, even when the new one reuses the
      freed clusters. */
  lemma OthersSurvive(fat: seq<nat>, fat': seq<nat>, was: seq<nat>, cs: seq<nat>, ds: seq<nat>)
    requires Replaced(fat, fat', was, cs) && IsChain(fat, ds) && forall c :: c in ds ==> c !in was
    ensures IsChain(fat', ds) && forall c :: c in ds ==> c !in cs
  {
    forall i | 0 <= i < |ds| ensures ds[i] !in cs && fat'[ds[i]] == fat[ds[i]] {
      assert ds[i] in ds;
      ChainStep(fat, ds, i);
      ReplacedAt(fat, fat', was, cs, ds[i]);
    }
  }

  /** The chains of a volume: pairwise disjoint. */
  ghost predicate AllChains(fat: seq<nat>, fs: seq<seq<nat>>) {
    && (forall f :: 0 <= f < |fs| ==> IsChain(fat, fs[f]))
    && forall f, h, c :: 0 <= f < |fs| && 0 <= h < |fs| && c in fs[f] && c in fs[h] ==> f == h
  }

  /** Replacing one file's chain keeps every chain of the volume acyclic, ended and disjoint
      from the rest, even when only part of the old chain was freed. */
  lemma GraphKept(fat: seq<nat>, fat': seq<nat>, fs: seq<seq<nat>>, k: nat, was: seq<nat>, cs: seq<nat>)
    requires AllChains(fat, fs) && k < |fs| && Replaced(fat, fat', was, cs) && cs != [] && forall c :: c in was ==>
             c in fs[k]
    ensures AllChains(fat', fs[k := cs])
  {
    LinkedChain(Zeroed(fat, was), cs);
    forall f | 0 <= f < |fs| && f != k ensures IsChain(fat', fs[f]) && forall c :: c in fs[f] ==> c !in cs {
      OthersSurvive(fat, fat', was, cs, fs[f]);
    }
  }

  /** Adding a file does too. */
  lemma GraphGrown(fat: seq<nat>, fat': seq<nat>, fs: seq<seq<nat>>, cs: seq<nat>)
    requires AllChains(fat, fs) && Replaced(fat, fat', [], cs) && cs != []
    ensures AllChains(fat', fs + [cs])
  {
    LinkedChain(Zeroed(fat, []), cs);
    forall f | 0 <= f < |fs| ensures IsChain(fat', fs[f]) && forall c :: c in fs[f] ==> c !in cs {
      OthersSurvive(fat, fat', [], cs, fs[f]);
    }
  }

  // ---------------------------------------------------------------- counting free clusters

  function FreeIn(fat: seq<nat>): nat {
    if fat == [] then 0 else FreeIn(fat[..|fat| - 1]) + (if fat[|fat| - 1] == 0 then 1 else 0)
  }

  /** FreeIn is the number of free entries. */
  lemma {:induction false} FreeInCounts(fat: seq<nat>)
    ensures FreeIn(fat) == |set c: nat | c < |fat| && fat[c] == 0|
    decreases |fat|
  {
    var all := set c: nat | c < |fat| && fat[c] == 0;
    if fat != [] {
      var n := |fat| - 1;
      var front := fat[..n];
      FreeInCounts(front);
      var before := set c: nat | c < |front| && front[c] == 0;
      assert all == before + if fat[n] == 0 then {n} else {};
    } else {
      assert all == {};
    }
  }

  lemma {:induction false} FreePut(fat: seq<nat>, c: nat, v: nat)
    requires c < |fat|
    ensures FreeIn(fat[c := v]) == FreeIn(fat) - (if fat[c] == 0 then 1 else 0) + (if v == 0 then 1 else 0)
    decreases |fat|
  {
    var n := |fat| - 1;
    if c < n {
      assert fat[c := v][..n] == fat[..n][c := v];
      FreePut(fat[..n], c, v);
    } else {
      assert fat[c := v][..n] == fat[..n];
    }
  }

  lemma {:induction false} FreeZeroed(fat: seq<nat>, cs: seq<nat>)
    requires Distinct(cs) && forall i :: 0 <= i < |cs| ==> cs[i] < |fat| && fat[cs[i]] != 0
    ensures FreeIn(Zeroed(fat, cs)) == FreeIn(fat) + |cs|
    decreases |cs|
  {
    if cs != [] {
      var n := |cs| - 1;
      FreeZeroed(fat, cs[..n]);
      ZeroedAt(fat, cs[..n], cs[n]);
      FreePut(Zeroed(fat, cs[..n]), cs[n], 0);
    }
  }

  lemma {:induction false} FreeLinked(fat: seq<nat>, cs: seq<nat>)
    requires Distinct(cs) && forall i :: 0 <= i < |cs| ==> 2 <= cs[i] < |fat| && fat[cs[i]] == 0
    ensures FreeIn(Linked(fat, cs)) == FreeIn(fat) - |cs|
    decreases |cs|
  {
    if cs != [] {
      var n := |cs| - 1;
      FreeLinked(fat, cs[..n]);
      FreeLinkedOne(fat, cs);
    }
  }

  lemma FreeLinkedOne(fat: seq<nat>, cs: seq<nat>)
    requires |cs| > 0 && Distinct(cs) && forall i :: 0 <= i < |cs| ==> 2 <= cs[i] < |fat| && fat[cs[i]] == 0
    ensures FreeIn(Linked(fat, cs)) == FreeIn(Linked(fat, cs[..|cs| - 1])) - 1
  {
    hide FreeIn, Linked, Distinct;
    var n := |cs| - 1;
    LinkedSnoc(fat, cs);
    NewFree(fat, cs);
    if n == 0 { FreePut(fat, cs[0], LAST); } else { FreeTwo(Linked(fat, cs[..n]), cs[n], cs[n - 1]); }
  }

  /** The cluster about to be linked is still free, and the one before it is not. */
  lemma NewFree(fat: seq<nat>, cs: seq<nat>)
    requires |cs| > 0 && Distinct(cs) && forall i :: 0 <= i < |cs| ==> 2 <= cs[i] < |fat| && fat[cs[i]] == 0
    ensures var n := |cs| - 1; var r := Linked(fat, cs[..n]);
            r[cs[n]] == 0 && (n > 0 ==> cs[n - 1] != cs[n] && r[cs[n - 1]] != 0)
  {
    hide Linked, Distinct;
    var n := |cs| - 1;
    NewNotThere(cs);
    LinkedOff(fat, cs[..n], cs[n]);
    if n > 0 { LinkedOn(fat, cs[..n], n - 1); }
  }

  lemma FreeTwo(r: seq<nat>, c: nat, p: nat)
    requires 2 <= c < |r| && p < |r| && p != c && r[c] == 0 && r[p] != 0
    ensures FreeIn(r[c := LAST][p := c]) == FreeIn(r) - 1
  {
    hide FreeIn;
    FreePut(r, c, LAST);
    FreePut(r[c := LAST], p, c);
  }

  lemma NewNotThere(cs: seq<nat>)
    requires |cs| > 0 && Distinct(cs)
    ensures Distinct(cs[..|cs| - 1]) && cs[|cs| - 1] !in cs[..|cs| - 1]
  {
  }

  lemma LinkedSnoc(fat: seq<nat>, cs: seq<nat>)
    requires |cs| > 0 && forall i :: 0 <= i < |cs| ==> cs[i] < |fat|
    ensures var n := |cs| - 1;
            Linked(fat, cs) == if n == 0 then fat[cs[0] := LAST]
              else Linked(fat, cs[..n])[cs[n] := LAST][cs[n - 1] := cs[n]]
    ensures |cs| == 1 ==> Linked(fat, cs[..0]) == fat
  {
  }

  /** Conservation: the free clusters change by what was freed minus what was taken. */
  lemma FreeReplaced(fat: seq<nat>, fat': seq<nat>, was: seq<nat>, cs: seq<nat>)
    requires Replaced(fat, fat', was, cs)
    ensures FreeIn(fat') == FreeIn(fat) + |was| - |cs|
  {
    FreeZeroed(fat, was);
    FreeLinked(Zeroed(fat, was), cs);
  }
}
