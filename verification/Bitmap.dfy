/** portmacro.h: the ready priorities as a bitmap and selection by counting leading zeros. */
module Bitmaps {
  import opened Stores
  import opened DelayLists
  import opened Kernels
  import opened KernelRuns

  /** The bits of a 32-bit word, least significant first. */
  type Word = w: seq<bool> | |w| == 32 witness seq(32, _ => false)

  /** portRECORD_READY_PRIORITY: or-ing in 1UL << p. */
  function Record(w: Word, p: nat): (r: Word)
    requires p < 32
  {
    w[p := true]
  }

  /** portRESET_READY_PRIORITY: masking out 1UL << p. */
  function Reset(w: Word, p: nat): (r: Word)
    requires p < 32
  {
    w[p := false]
  }

  /** The zero bits from bit p downwards, up to the first set bit. */
  function ZerosFrom(w: Word, p: nat): (n: nat)
    requires p < 32
    ensures n <= p + 1
    ensures forall q :: p - n < q <= p ==> !w[q]
    ensures n <= p ==> w[p - n]
  {
    if w[p] then 0 else if p == 0 then 1 else 1 + ZerosFrom(w, p - 1)
  }

  /** ucPortCountLeadingZeros: the clz instruction. */
  function CountLeadingZeros(w: Word): nat { ZerosFrom(w, 31) }

  /** The word holds exactly the priorities in the set. */
  ghost predicate Denotes(w: Word, ps: set<nat>) {
    && (forall p :: p in ps ==> p < 32)
    && (forall p: nat {:trigger w[p]} :: p < 32 ==> (w[p] <==> p in ps))
  }

  /** Recording and resetting a priority follow the abstract set of ready priorities. */
  lemma BitmapFollowsSet(w: Word, ps: set<nat>, p: nat)
    requires Denotes(w, ps) && p < 32
    ensures Denotes(Record(w, p), ps + {p}) && Denotes(Reset(w, p), ps - {p})
  {
  }

  /** In every reachable state, bit p of the bitmap is set exactly when ready list p is populated, and
      the leading-zero selection yields the level the downward search finds. */
  lemma BitmapSelectsTheSameLevel(k: Kernel, w: Word)
    requires Inv(k) && Denotes(w, k.s.bits)
    ensures forall p: nat {:trigger w[p]} :: p < 32 ==> (w[p] <==> Items(k.s, Ready(p)) != [])
    ensures SomeReady(k.s) && CountLeadingZeros(w) < 32
    ensures 31 - CountLeadingZeros(w) == TopLevel(k.s, k.s.top)
  {
    hide Integrity, Placed, DelayInv, CacheInv;
    IdleIsReady(k);
    var top := TopLevel(k.s, k.s.top);
    assert Items(k.s, Ready(top)) != [];
    assert w[top];
    var h: nat := 31 - CountLeadingZeros(w);
    assert w[h] && Items(k.s, Ready(h)) != [];
  }
}
