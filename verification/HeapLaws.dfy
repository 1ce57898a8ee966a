/** heap_4.c: what a caller of the allocator can rely on. */
module HeapLaws {
  import opened HeapTiles
  import opened Heaps

  predicate Fits(t: Tile, want: nat) { t.free && t.size >= want }

  /** A request is served exactly when some free block reaches its padded size.  It gets the lowest such
      block, cut down to the padded size unless hardly anything would be left over; the payload is aligned
      and inside the block, and no more than two headers' worth is spent beside it.  A request that is not
      served changes nothing. */
  lemma AllocationOutcome(ts: seq<Tile>, lo: nat, hi: nat, total: nat, wanted: nat)
    requires Inv(ts, lo, hi) && hi - lo == total - STRUCT && 0 < wanted < SIZE_LIMIT && Padded(wanted) > 0
    ensures var want := Padded(wanted);
            var k := FirstFit(ts, want);
            && (want < total && k < |ts| <==> exists t :: t in ts && Fits(t, want))
            && (k < |ts| ==>
                  var r := Apply(ts, total, Allocate(wanted));
                  && k < |r| && !r[k].free && r[k].addr == ts[k].addr
                  && (r[k].addr + STRUCT) % ALIGN == 0
                  && (forall t :: t in ts && Fits(t, want) ==> ts[k].addr <= t.addr)
                  && (wanted + STRUCT < SIZE_LIMIT ==> r[k].addr + STRUCT + wanted <= End(r[k]))
                  && Divided(ts, r, k, want) && want <= r[k].size <= want + 2 * STRUCT
                  && FreeBytes(r) == FreeBytes(ts) - r[k].size)
            && (k == |ts| ==> Apply(ts, total, Allocate(wanted)) == ts)
  {
    hide Tiling, Coalesced, Carve, FreeBytes, Padded, Fits;
    PaddedFits(wanted);
    var want := Padded(wanted);
    var k := FirstFit(ts, want);
    if k < |ts| {
      TilingSplit(ts, lo, hi, k);
      CarveKeeps(ts, lo, hi, k, want);
      LowestFit(ts, lo, hi, want);
    } else {
      NoFit(ts, want);
    }
  }

  /** The first request to a heap of 16384 bytes: 100 bytes take a block of 120 and leave 16240 free. */
  lemma FirstRequest()
    ensures Apply(Fresh(8, 16368), 16376, Allocate(100)) == [Tile(8, 120, false), Tile(128, 16240, true)]
    ensures FreeBytes([Tile(8, 120, false), Tile(128, 16240, true)]) == 16240
  {
    var ts, r := Fresh(8, 16368), [Tile(8, 120, false), Tile(128, 16240, true)];
    assert Padded(100) == 120 && FirstFit(ts, 120) == 0;
    assert Carve(ts, 0, 120) == r;
    assert r[..1] == [Tile(8, 120, false)];
    FreeListSingle(r[0]);
  }

  lemma LowestFit(ts: seq<Tile>, lo: nat, hi: nat, want: nat)
    requires Tiling(ts, lo, hi) && FirstFit(ts, want) < |ts|
    ensures var k := FirstFit(ts, want);
            Fits(ts[k], want) && forall t :: t in ts && Fits(t, want) ==> ts[k].addr <= t.addr
  {
    hide Tiling;
    var k := FirstFit(ts, want);
    forall t | t in ts && Fits(t, want)
      ensures ts[k].addr <= t.addr
    {
      var i :| 0 <= i < |ts| && ts[i] == t;
      assert i >= k;
      if i > k { Increasing(ts, lo, hi, k, i); }
    }
  }

  lemma NoFit(ts: seq<Tile>, want: nat)
    requires FirstFit(ts, want) == |ts|
    ensures !exists t :: t in ts && Fits(t, want)
  {
  }

  /** Allocating and then freeing the block restores the exact previous heap. */
  lemma AllocateFreeRoundTrip(ts: seq<Tile>, lo: nat, hi: nat, total: nat, wanted: nat)
    requires Inv(ts, lo, hi) && wanted < SIZE_LIMIT
    requires 0 < Padded(wanted) < total && FirstFit(ts, Padded(wanted)) < |ts|
    ensures var k, m := FirstFit(ts, Padded(wanted)), Apply(ts, total, Allocate(wanted));
            Legal(m, Free(ts[k].addr)) && Apply(m, total, Free(ts[k].addr)) == ts
  {
    hide Tiling, Coalesced, Carve, Release;
    PaddedFits(wanted);
    var want := Padded(wanted);
    var k := FirstFit(ts, want);
    CarveKeeps(ts, lo, hi, k, want);
    OnlyLive(Carve(ts, k, want), lo, hi, k);
    AllocateThenFree(ts, lo, hi, k, want);
  }

  lemma OnlyLive(ts: seq<Tile>, lo: nat, hi: nat, k: nat)
    requires Tiling(ts, lo, hi) && k < |ts| && !ts[k].free
    ensures LiveIndex(ts, ts[k].addr) == k
  {
    hide Tiling;
    var j := LiveIndex(ts, ts[k].addr);
    assert IsLive(ts, k, ts[k].addr);
    if j < |ts| && j != k { Apart(ts, lo, hi, j, k); }
  }

  // ----- Freeing everything

  ghost function LiveAddresses(ts: seq<Tile>): set<nat> { set t | t in ts && !t.free :: t.addr }

  /** Freeing a block takes its address, and no other, out of those in use. */
  lemma ReleaseFreesOne(ts: seq<Tile>, lo: nat, hi: nat, k: nat)
    requires Tiling(ts, lo, hi) && k < |ts| && !ts[k].free
    ensures LiveAddresses(Release(ts, k)) == LiveAddresses(ts) - {ts[k].addr}
  {
    hide Tiling;
    var r := Release(ts, k);
    forall t | t in r && !t.free
      ensures t.addr in LiveAddresses(ts) - {ts[k].addr}
    {
      var i := StillLive(ts, k, t);
      Apart(ts, lo, hi, i, k);
    }
    forall t | t in ts && !t.free && t.addr != ts[k].addr
      ensures t.addr in LiveAddresses(r)
    {
      var i :| 0 <= i < |ts| && ts[i] == t;
      SurvivesRelease(ts, k, i);
    }
  }

  lemma SurvivesRelease(ts: seq<Tile>, k: nat, i: nat)
    requires k < |ts| && i < |ts| && i != k && !ts[i].free
    ensures ts[i] in Release(ts, k)
  {
    var r := Release(ts, k);
    if i < k { assert r[i] == ts[i]; } else { assert r[i + |r| - |ts|] == ts[i]; }
  }

  function Frees(addresses: seq<nat>): (ops: seq<Op>)
    ensures |ops| == |addresses|
  {
    if addresses == [] then [] else [Free(addresses[0])] + Frees(addresses[1..])
  }

  ghost function Rest(addresses: seq<nat>): set<nat> { set x | x in addresses }

  ghost predicate Distinct(addresses: seq<nat>) {
    forall i, j :: 0 <= i < j < |addresses| ==> addresses[i] != addresses[j]
  }

  /** From any heap, freeing every live block once, in any order, leaves the single block the heap began
      as. */
  lemma {:induction false} FreeingEverything(ts: seq<Tile>, lo: nat, hi: nat, total: nat, addresses: seq<nat>)
    requires Inv(ts, lo, hi) && lo < hi && Distinct(addresses) && LiveAddresses(ts) == Rest(addresses)
    ensures LegalAll(ts, total, Frees(addresses)) && ApplyAll(ts, total, Frees(addresses)) == Fresh(lo, hi)
    decreases |addresses|
  {
    hide Tiling, Coalesced, Release;
    if addresses == [] {
      forall i | 0 <= i < |ts|
        ensures ts[i].free
      {
        LiveOrFree(ts, i);
      }
      FullRecovery(ts, lo, hi);
    } else {
      var x, rest := addresses[0], addresses[1..];
      assert Frees(addresses)[1..] == Frees(rest);
      FreeTakes(ts, lo, hi, total, x);
      RestOf(addresses);
      FreeingEverything(Apply(ts, total, Free(x)), lo, hi, total, rest);
    }
  }

  lemma RestOf(addresses: seq<nat>)
    requires addresses != [] && Distinct(addresses)
    ensures Distinct(addresses[1..]) && addresses[0] in Rest(addresses)
    ensures Rest(addresses[1..]) == Rest(addresses) - {addresses[0]}
  {
    assert addresses == [addresses[0]] + addresses[1..];
  }

  lemma LiveOrFree(ts: seq<Tile>, i: nat)
    requires i < |ts|
    ensures ts[i].free || ts[i].addr in LiveAddresses(ts)
  {
  }

  lemma NotLive(ts: seq<Tile>, x: nat)
    requires LiveIndex(ts, x) == |ts|
    ensures x !in LiveAddresses(ts)
  {
    forall t | t in ts && !t.free
      ensures t.addr != x
    {
      var i :| 0 <= i < |ts| && ts[i] == t;
      assert !IsLive(ts, i, x);
    }
  }

  lemma FreeTakes(ts: seq<Tile>, lo: nat, hi: nat, total: nat, x: nat)
    requires Inv(ts, lo, hi) && x in LiveAddresses(ts)
    ensures Legal(ts, Free(x)) && Inv(Apply(ts, total, Free(x)), lo, hi)
    ensures LiveAddresses(Apply(ts, total, Free(x))) == LiveAddresses(ts) - {x}
  {
    hide Tiling, Coalesced, Release;
    var k := LiveIndex(ts, x);
    if k == |ts| { NotLive(ts, x); }
    ReleaseKeeps(ts, lo, hi, k);
    ReleaseFreesOne(ts, lo, hi, k);
  }

  /** After any history of allocations and frees of live blocks, freeing whatever is left recovers the
      whole heap. */
  lemma RecoveryAfterAnyHistory(lo: nat, hi: nat, total: nat, ops: seq<Op>, addresses: seq<nat>)
    requires lo < hi && lo % ALIGN == 0 && hi % ALIGN == 0
    requires LegalAll(Fresh(lo, hi), total, ops) && Distinct(addresses)
    requires LiveAddresses(ApplyAll(Fresh(lo, hi), total, ops)) == Rest(addresses)
    ensures var ts := ApplyAll(Fresh(lo, hi), total, ops);
            LegalAll(ts, total, Frees(addresses)) && ApplyAll(ts, total, Frees(addresses)) == Fresh(lo, hi)
  {
    FreshInv(lo, hi);
    HistoryKeepsInv(Fresh(lo, hi), lo, hi, total, ops);
    FreeingEverything(ApplyAll(Fresh(lo, hi), total, ops), lo, hi, total, addresses);
  }
}
