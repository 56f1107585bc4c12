/** The sizes chosen when a pool is created: ring slots and cancel-index slots, and the masks that go
    with them. */
module Sizing {
  import opened Collections

  predicate IsPow2(n: bv64)
  {
    n != 0 && n & (n - 1) == 0
  }

  /** `r` is a power of two above v and its half is not. */
  predicate LeastAbove(v: bv64, r: bv64)
  {
    IsPow2(r) && v < r && r >> 1 <= v
  }

  /** `r` is a power of two not below v and its half, if any, is below. */
  predicate LeastNotBelow(v: bv64, r: bv64)
  {
    IsPow2(r) && v <= r && (r == 1 || r >> 1 < v)
  }

  /** Between a power of two and its half there is no other. */
  lemma HalfBelow(r: bv64, p: bv64)
    requires IsPow2(r) && IsPow2(p) && r >> 1 < p
    ensures r <= p
  {
  }

  /** The two predicates mean what they say: no power of two does with less. */
  lemma LeastIsLeast(v: bv64, r: bv64, p: bv64)
    requires IsPow2(p)
    ensures LeastAbove(v, r) && v < p ==> r <= p
    ensures LeastNotBelow(v, r) && v <= p ==> r <= p
  {
    if IsPow2(r) && r >> 1 < p { HalfBelow(r, p); }
    if r == 1 { assert 1 <= p; }
  }

  /** `next_pow2_u64` rounds up strictly, so every bounded pool gets a ring of at least two cells. */
  method NextPow2(v: bv32) returns (r: bv64)
    ensures LeastAbove(v as bv64, r)
    ensures v != 0 ==> r >= 2
  {
    var n := v as bv64;
    n := n | (n >> 1);
    n := n | (n >> 2);
    n := n | (n >> 4);
    n := n | (n >> 8);
    n := n | (n >> 16);
    n := n | (n >> 32);
    r := n + 1;
  }

  /** The comment on `next_pow2_u64` ("not below") describes its result exactly when the argument is not
      itself a power of two. */
  lemma CommentHoldsIff(v: bv64, r: bv64)
    requires LeastAbove(v, r)
    ensures LeastNotBelow(v, r) <==> !IsPow2(v)
  {
    if IsPow2(v) { CommentFails(v, r); } else { CommentHolds(v, r); }
  }

  lemma CommentFails(v: bv64, r: bv64)
    requires LeastAbove(v, r) && IsPow2(v)
    ensures !LeastNotBelow(v, r)
  {
    LeastIsLeast(v, r, v);
  }

  lemma CommentHolds(v: bv64, r: bv64)
    requires LeastAbove(v, r) && !IsPow2(v)
    ensures LeastNotBelow(v, r)
  {
  }

  /** Masking walks the cells in order and wraps: the recurrence that fixes `pos & mask`. */
  lemma MaskWraps(pos: bv64, size: bv64)
    requires IsPow2(size)
    ensures 0 & (size - 1) == 0 && pos & (size - 1) < size
    ensures (pos + 1) & (size - 1) == if (pos & (size - 1)) + 1 == size then 0 else (pos & (size - 1)) + 1
  {
  }

  predicate PowerOfTwo(n: nat)
  {
    n == 1 || (n > 0 && n % 2 == 0 && PowerOfTwo(n / 2))
  }

  /** The doubling loop that sizes the cancel index: the least power of two covering the ring and every
      worker's deque. */
  method CancelCapacity(ringSize: nat, workers: nat) returns (cap: nat)
    ensures PowerOfTwo(cap) && cap >= ringSize + workers * DEQUE_CAPACITY
    ensures cap == 1 || cap / 2 < ringSize + workers * DEQUE_CAPACITY
  {
    var need := ringSize + workers * DEQUE_CAPACITY;
    cap := 1;
    while cap < need
      invariant PowerOfTwo(cap) && (cap == 1 || cap / 2 < need)
    {
      cap := cap * 2;
    }
  }
}
