/** Runs of a transition system and the induction principle used by every protocol model. */
module Runs {

  ghost predicate Linked<S(!new)>(next: (S, S) -> bool, r: seq<S>, i: nat)
  {
    0 < i < |r| && next(r[i - 1], r[i])
  }

  /** `r` starts in an initial state and every two neighbouring states are one step apart. */
  ghost predicate IsRun<S(!new)>(init: S -> bool, next: (S, S) -> bool, r: seq<S>)
  {
    && |r| > 0
    && init(r[0])
    && forall i {:trigger Linked(next, r, i)} :: 0 < i < |r| ==> Linked(next, r, i)
  }

  lemma StepAt<S(!new)>(init: S -> bool, next: (S, S) -> bool, r: seq<S>, i: nat)
    requires IsRun(init, next, r) && 0 < i < |r|
    ensures next(r[i - 1], r[i])
  {
    assert Linked(next, r, i);
  }

  lemma Extended<S(!new)>(init: S -> bool, next: (S, S) -> bool, r: seq<S>, s: S)
    requires IsRun(init, next, r) && next(r[|r| - 1], s)
    ensures IsRun(init, next, r + [s])
  {
    forall i | 0 < i < |r| + 1 ensures Linked(next, r + [s], i) {
      if i < |r| { assert Linked(next, r, i); }
    }
  }

  /** A step in front of a run from its target. */
  lemma Prepended<S(!new)>(from: S -> bool, init: S -> bool, next: (S, S) -> bool, s: S, r: seq<S>)
    requires IsRun(from, next, r) && next(s, r[0]) && init(s)
    ensures IsRun(init, next, [s] + r)
  {
    var p := [s] + r;
    forall i | 0 < i < |p| ensures Linked(next, p, i) {
      if i > 1 { assert Linked(next, r, i - 1); }
    }
  }

  /** What holds at k and survives every step holds from k on. */
  lemma {:induction false} RunKeepsFrom<S(!new)>(init: S -> bool, next: (S, S) -> bool, inv: S -> bool,
                                                 r: seq<S>, k: nat)
    requires IsRun(init, next, r) && k < |r| && inv(r[k])
    requires forall s, s' :: inv(s) && next(s, s') ==> inv(s')
    ensures forall i :: k <= i < |r| ==> inv(r[i])
  {
    var n := k + 1;
    while n < |r|
      invariant k < n <= |r|
      invariant forall i :: k <= i < n ==> inv(r[i])
    {
      assert Linked(next, r, n);
      n := n + 1;
    }
  }

  /** A predicate that holds initially and survives every step holds all along every run. */
  lemma RunKeeps<S(!new)>(init: S -> bool, next: (S, S) -> bool, inv: S -> bool, r: seq<S>)
    requires IsRun(init, next, r)
    requires forall s :: init(s) ==> inv(s)
    requires forall s, s' :: inv(s) && next(s, s') ==> inv(s')
    ensures forall i :: 0 <= i < |r| ==> inv(r[i])
  {
    RunKeepsFrom(init, next, inv, r, 0);
  }

  /** A step that starts a condition at i, and none that ends it from there to k. */
  ghost predicate Since<S(!new)>(starts: (S, S) -> bool, ends: (S, S) -> bool, r: seq<S>, i: nat, k: nat)
  {
    i < k < |r| && starts(r[i], r[i + 1]) && forall j :: i < j < k ==> !ends(r[j], r[j + 1])
  }

  /** How each step treats the condition `bad`. */
  ghost predicate Governs<S(!new)>(starts: (S, S) -> bool, ends: (S, S) -> bool, bad: S -> bool, s: S, s': S)
  {
    bad(s') <==> starts(s, s') || (bad(s) && !ends(s, s'))
  }

  lemma SinceLonger<S(!new)>(starts: (S, S) -> bool, ends: (S, S) -> bool, r: seq<S>, i: nat, m: nat)
    requires Since(starts, ends, r, i, m) && m + 1 < |r| && !ends(r[m], r[m + 1])
    ensures Since(starts, ends, r, i, m + 1)
  {
  }

  lemma SinceShorter<S(!new)>(starts: (S, S) -> bool, ends: (S, S) -> bool, r: seq<S>, i: nat, m: nat)
    requires Since(starts, ends, r, i, m + 1) && i < m
    ensures Since(starts, ends, r, i, m) && !ends(r[m], r[m + 1])
  {
  }

  /** A condition that exactly some steps start and exactly some steps end holds at k if and only if it was
      started and not ended since. */
  lemma {:induction false} HoldsIffSince<S(!new)>(init: S -> bool, next: (S, S) -> bool, inv: S -> bool, bad: S -> bool,
                                                  starts: (S, S) -> bool, ends: (S, S) -> bool, r: seq<S>, k: nat)
    requires IsRun(init, next, r) && k < |r|
    requires forall s :: init(s) ==> inv(s) && !bad(s)
    requires forall s, s' :: inv(s) && next(s, s') ==> inv(s') && Governs(starts, ends, bad, s, s')
    ensures bad(r[k]) <==> exists i :: Since(starts, ends, r, i, k)
  {
    RunKeeps(init, next, inv, r);
    if k > 0 {
      var m := k - 1;
      StepAt(init, next, r, k);
      assert Governs(starts, ends, bad, r[m], r[k]);
      HoldsIffSince(init, next, inv, bad, starts, ends, r, m);
      if bad(r[k]) {
        if starts(r[m], r[k]) {
          assert Since(starts, ends, r, m, k);
        } else {
          var i: nat :| Since(starts, ends, r, i, m);
          SinceLonger(starts, ends, r, i, m);
        }
      } else if i: nat :| Since(starts, ends, r, i, k) {
        if i < m { SinceShorter(starts, ends, r, i, m); }
      }
    }
  }
}
