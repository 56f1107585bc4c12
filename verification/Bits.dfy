/** 64-bit words as the occupancy bitmap uses them: bit by bit, and the machine operations behind it. */
module Bits {

  /** The bits of a `uint64_t`, lowest first. */
  type Word = w: seq<bool> | |w| == 64 witness seq(64, _ => false)

  const ZERO: Word := seq(64, _ => false)

  predicate IsZero(w: Word)
  {
    forall k :: 0 <= k < 64 ==> !w[k]
  }

  /** `__builtin_ctzll`: the number of the lowest set bit. */
  function Ctz(w: Word): (r: nat)
    requires !IsZero(w)
    ensures r < 64 && w[r] && forall j :: 0 <= j < r ==> !w[j]
  {
    FirstSet(w, 0)
  }

  function FirstSet(w: Word, k: nat): (r: nat)
    requires k <= 64 && exists j :: k <= j < 64 && w[j]
    ensures k <= r < 64 && w[r] && forall j :: k <= j < r ==> !w[j]
    decreases 64 - k
  {
    if w[k] then k else FirstSet(w, k + 1)
  }

  function Shifted(a: bv6): bv64
  {
    (1 as bv64) << (a as bv64)
  }

  /** Or-ing in `1 << a` sets bit a and no other. */
  lemma OrSetsOneBit(w: bv64, a: bv6, b: bv6)
    ensures ((w | Shifted(a)) & Shifted(b) != 0) == (a == b || w & Shifted(b) != 0)
  {
  }

  /** And-ing with `~(1 << a)` clears bit a and no other. */
  lemma AndNotClearsOneBit(w: bv64, a: bv6, b: bv6)
    ensures ((w & !Shifted(a)) & Shifted(b) != 0) == (a != b && w & Shifted(b) != 0)
  {
  }
}
