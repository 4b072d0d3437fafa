module Options {
  datatype Option<+T> = None | Some(value: T)
}

/** Finite runs of a deterministic partial step function. */
module Run {
  import opened Options

  ghost predicate Steps<S>(next: S -> Option<S>, a: S, b: S, n: nat)
    decreases n
  {
    if n == 0 then a == b else next(a).Some? && Steps(next, next(a).value, b, n - 1)
  }

  ghost predicate Reaches<S>(next: S -> Option<S>, a: S, b: S) {
    exists n: nat :: Steps(next, a, b, n)
  }

  lemma ReachSelf<S>(next: S -> Option<S>, a: S)
    ensures Reaches(next, a, a)
  {
    assert Steps(next, a, a, 0);
  }

  lemma ReachStep<S>(next: S -> Option<S>, a: S, b: S)
    requires next(a) == Some(b)
    ensures Reaches(next, a, b)
  {
    assert Steps(next, b, b, 0);
    assert Steps(next, a, b, 1);
  }

  lemma {:induction false} StepsAppend<S>(next: S -> Option<S>, a: S, b: S, c: S, i: nat, j: nat)
    requires Steps(next, a, b, i) && Steps(next, b, c, j)
    ensures Steps(next, a, c, i + j)
    decreases i
  {
    if i > 0 { StepsAppend(next, next(a).value, b, c, i - 1, j); }
  }

  lemma ReachTrans<S>(next: S -> Option<S>, a: S, b: S, c: S)
    requires Reaches(next, a, b) && Reaches(next, b, c)
    ensures Reaches(next, a, c)
  {
    var i: nat :| Steps(next, a, b, i);
    var j: nat :| Steps(next, b, c, j);
    StepsAppend(next, a, b, c, i, j);
  }
}
