/** Facts about sequences, sets and remainders shared by the models, and the sizes the pool is built with. */
module Collections {

  /** `LOOMWORKS_BULK_DEQUEUE`: how many tasks a worker claims from the ring at once. */
  const BATCH: nat := 8

  /** `LOOMWORKS_DEQUE_CAPACITY`: the slots of one worker's deque. */
  const DEQUE_CAPACITY: nat := 256

  ghost predicate Distinct<T>(xs: seq<T>)
  {
    forall i, j :: 0 <= i < j < |xs| ==> xs[i] != xs[j]
  }

  /** The lengths of several sequences together. */
  function Sizes<T>(ds: seq<seq<T>>): nat
  {
    if ds == [] then 0 else Sizes(ds[..|ds| - 1]) + |ds[|ds| - 1]|
  }

  lemma {:induction false} SizesUpdate<T>(ds: seq<seq<T>>, w: nat, d: seq<T>)
    requires w < |ds|
    ensures Sizes(ds[w := d]) == Sizes(ds) - |ds[w]| + |d|
  {
    var n := |ds| - 1;
    if w < n {
      assert ds[w := d][..n] == ds[..n][w := d];
      SizesUpdate(ds[..n], w, d);
    } else {
      assert ds[w := d][..n] == ds[..n];
    }
  }

  lemma SubsetSize<T>(a: set<T>, b: set<T>)
    requires a <= b
    ensures |a| <= |b|
    ensures |a| == |b| ==> a == b
  {
    assert b == a + (b - a);
  }

  lemma UnionSize<T>(a: set<T>, b: set<T>)
    ensures |a + b| <= |a| + |b|
  {
    assert a + b == a + (b - a);
  }

  // ---------------------------------------------------------------- counting and finding

  function NumberOf<T>(xs: seq<T>, f: T -> bool): nat
  {
    if xs == [] then 0 else NumberOf(xs[..|xs| - 1], f) + if f(xs[|xs| - 1]) then 1 else 0
  }

  lemma {:induction false} NumberUpdate<T>(xs: seq<T>, f: T -> bool, i: nat, x: T)
    requires i < |xs|
    ensures NumberOf(xs[i := x], f) == NumberOf(xs, f) - (if f(xs[i]) then 1 else 0) + (if f(x) then 1 else 0)
    ensures f(xs[i]) ==> NumberOf(xs, f) > 0
  {
    var n := |xs| - 1;
    if i < n {
      assert xs[i := x][..n] == xs[..n][i := x];
      NumberUpdate(xs[..n], f, i, x);
    } else {
      assert xs[i := x][..n] == xs[..n];
    }
  }

  lemma NumberAppend<T>(xs: seq<T>, f: T -> bool, x: T)
    ensures NumberOf(xs + [x], f) == NumberOf(xs, f) + if f(x) then 1 else 0
  {
    assert (xs + [x])[..|xs|] == xs;
  }

  lemma {:induction false} NumberAtMost<T>(xs: seq<T>, f: T -> bool)
    ensures NumberOf(xs, f) <= |xs|
  {
    if xs != [] { NumberAtMost(xs[..|xs| - 1], f); }
  }

  lemma {:induction false} NumberNone<T>(xs: seq<T>, f: T -> bool)
    requires forall i :: 0 <= i < |xs| ==> !f(xs[i])
    ensures NumberOf(xs, f) == 0
  {
    if xs != [] { NumberNone(xs[..|xs| - 1], f); }
  }

  /** The first n elements all count. */
  lemma {:induction false} NumberPrefix<T>(xs: seq<T>, f: T -> bool, n: nat)
    requires n <= |xs| && forall i :: 0 <= i < n ==> f(xs[i])
    ensures NumberOf(xs, f) >= n
  {
    if xs != [] {
      var m := |xs| - 1;
      NumberPrefix(xs[..m], f, if n <= m then n else m);
    }
  }

  /** The positions that count. */
  ghost function Those<T>(xs: seq<T>, f: T -> bool): set<int>
  {
    set i | 0 <= i < |xs| && f(xs[i])
  }

  lemma {:induction false} NumberSet<T>(xs: seq<T>, f: T -> bool)
    ensures NumberOf(xs, f) == |Those(xs, f)|
  {
    if xs != [] {
      var n := |xs| - 1;
      NumberSet(xs[..n], f);
      if f(xs[n]) { assert Those(xs, f) == Those(xs[..n], f) + {n}; } else { assert Those(xs, f) == Those(xs[..n], f); }
    }
  }

  ghost predicate Some<T>(xs: seq<T>, f: T -> bool)
  {
    exists i :: 0 <= i < |xs| && f(xs[i])
  }

  /** Some element other than the one at i. */
  ghost predicate SomeOther<T>(xs: seq<T>, i: nat, f: T -> bool)
  {
    exists j :: 0 <= j < |xs| && j != i && f(xs[j])
  }

  lemma SomeUpdate<T>(xs: seq<T>, i: nat, x: T, f: T -> bool)
    requires i < |xs|
    ensures Some(xs, f) <==> f(xs[i]) || SomeOther(xs, i, f)
    ensures Some(xs[i := x], f) <==> f(x) || SomeOther(xs, i, f)
    ensures SomeOther(xs[i := x], i, f) <==> SomeOther(xs, i, f)
  {
    var ys := xs[i := x];
    forall j | 0 <= j < |xs| && j != i ensures ys[j] == xs[j] {}
    assert ys[i] == x;
  }

  /** A different element is replaced by one that counts. */
  lemma SomeOtherUpdate<T>(xs: seq<T>, i: nat, j: nat, x: T, f: T -> bool)
    requires i < |xs| && j < |xs| && i != j
    ensures SomeOther(xs[j := x], i, f) <==> f(x) || exists k :: 0 <= k < |xs| && k != i && k != j && f(xs[k])
    ensures SomeOther(xs, i, f) <==> f(xs[j]) || exists k :: 0 <= k < |xs| && k != i && k != j && f(xs[k])
  {
    var ys := xs[j := x];
    forall k | 0 <= k < |xs| && k != j ensures ys[k] == xs[k] {}
    assert ys[j] == x;
  }

  lemma NumberPositive<T>(xs: seq<T>, f: T -> bool)
    requires NumberOf(xs, f) > 0
    ensures Some(xs, f)
  {
    if !Some(xs, f) { NumberNone(xs, f); }
  }

  // ---------------------------------------------------------------- remainders

  lemma NoMultipleBetween(n: nat, d: int)
    ensures n * d >= n || n * d <= -(n as int) || d == 0
  {
    if d > 0 {
      assert n * d == n + n * (d - 1);
    }
  }

  lemma RemainderUnique(n: nat, x: nat, k: nat, c: nat)
    requires n > 0 && x == n * k + c && c < n
    ensures x % n == c
  {
    NoMultipleBetween(n, x / n - k);
    assert n * (x / n - k) == c - x % n;
  }
}
