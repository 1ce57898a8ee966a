/** heap_4.c: the heap as a sequence of adjoining blocks, each live or free. */
module HeapTiles {

  /** heapSTRUCT_SIZE, portBYTE_ALIGNMENT, heapMINIMUM_BLOCK_SIZE and the range of size_t. */
  const STRUCT: nat := 16
  const ALIGN: nat := 8
  const MINIMUM: nat := 32
  const SIZE_LIMIT: nat := 0x1_0000_0000

  datatype Tile = Tile(addr: nat, size: nat, free: bool)

  function End(t: Tile): nat { t.addr + t.size }

  predicate Aligned(t: Tile) { t.size > 0 && t.size % ALIGN == 0 && t.addr % ALIGN == 0 }

  /** The blocks exactly tile [lo, hi) in address order, every address and size being aligned. */
  ghost predicate Tiling(ts: seq<Tile>, lo: nat, hi: nat) {
    if ts == [] then lo == hi
    else ts[0].addr == lo && Aligned(ts[0]) && Tiling(ts[1..], End(ts[0]), hi)
  }

  ghost predicate StartsFree(ts: seq<Tile>) { ts != [] && ts[0].free }

  ghost predicate EndsFree(ts: seq<Tile>) { ts != [] && ts[|ts| - 1].free }

  /** No two free blocks are adjacent. */
  ghost predicate Coalesced(ts: seq<Tile>) {
    forall i, j :: 0 <= i < |ts| && j == i + 1 && j < |ts| ==> !(ts[i].free && ts[j].free)
  }

  ghost predicate Inv(ts: seq<Tile>, lo: nat, hi: nat) { Tiling(ts, lo, hi) && Coalesced(ts) }

  lemma {:induction false} TilingConcat(a: seq<Tile>, b: seq<Tile>, lo: nat, mid: nat, hi: nat)
    requires Tiling(a, lo, mid) && Tiling(b, mid, hi)
    ensures Tiling(a + b, lo, hi)
  {
    if a == [] {
      assert a + b == b;
    } else {
      TilingConcat(a[1..], b, End(a[0]), mid, hi);
      assert (a + b)[1..] == a[1..] + b;
    }
  }

  lemma TilingOne(t: Tile)
    requires Aligned(t)
    ensures Tiling([t], t.addr, End(t))
  {
  }

  /** Cutting a tiling at block k. */
  lemma {:induction false} TilingSplit(ts: seq<Tile>, lo: nat, hi: nat, k: nat)
    requires Tiling(ts, lo, hi) && k < |ts|
    ensures Tiling(ts[..k], lo, ts[k].addr) && Aligned(ts[k]) && Tiling(ts[k + 1..], End(ts[k]), hi)
    ensures lo <= ts[k].addr && End(ts[k]) <= hi
  {
    TilingOrdered(ts[1..], End(ts[0]), hi);
    if k > 0 {
      TilingSplit(ts[1..], End(ts[0]), hi, k - 1);
      assert ts[..k] == [ts[0]] + ts[1..][..k - 1];
      assert ts[..k][1..] == ts[1..][..k - 1];
      assert ts[k + 1..] == ts[1..][k..];
    }
  }

  lemma {:induction false} TilingOrdered(ts: seq<Tile>, lo: nat, hi: nat)
    requires Tiling(ts, lo, hi)
    ensures lo <= hi && (ts != [] ==> lo < hi)
  {
    if ts != [] { TilingOrdered(ts[1..], End(ts[0]), hi); }
  }

  lemma CoalescedConcat(a: seq<Tile>, b: seq<Tile>)
    requires Coalesced(a) && Coalesced(b) && !(EndsFree(a) && StartsFree(b))
    ensures Coalesced(a + b)
  {
  }

  lemma CoalescedSplit(ts: seq<Tile>, k: nat)
    requires Coalesced(ts) && k <= |ts|
    ensures Coalesced(ts[..k]) && Coalesced(ts[k..]) && !(EndsFree(ts[..k]) && StartsFree(ts[k..]))
  {
  }

  /** Replacing block k of a heap by other blocks over the same range. */
  lemma Replace(ts: seq<Tile>, lo: nat, hi: nat, i: nat, j: nat, mid: seq<Tile>, from: nat, to: nat)
    requires i <= j <= |ts| && Coalesced(ts) && Coalesced(mid) && mid != []
    requires Tiling(ts[..i], lo, from) && Tiling(mid, from, to) && Tiling(ts[j..], to, hi)
    requires !(EndsFree(ts[..i]) && StartsFree(mid)) && !(EndsFree(mid) && StartsFree(ts[j..]))
    ensures Inv(ts[..i] + mid + ts[j..], lo, hi)
  {
    hide Tiling, Coalesced;
    CoalescedSplit(ts, i);
    CoalescedSplit(ts, j);
    TilingConcat(ts[..i], mid, lo, from, to);
    TilingConcat(ts[..i] + mid, ts[j..], lo, to, hi);
    CoalescedConcat(ts[..i], mid);
    assert EndsFree(ts[..i] + mid) == EndsFree(mid);
    CoalescedConcat(ts[..i] + mid, ts[j..]);
  }

  /** The free list of heap_4: the free blocks in address order. */
  function FreeList(ts: seq<Tile>): (f: seq<Tile>) {
    if ts == [] then []
    else FreeList(ts[..|ts| - 1]) + (if ts[|ts| - 1].free then [ts[|ts| - 1]] else [])
  }

  function FreeBytes(ts: seq<Tile>): nat {
    if ts == [] then 0
    else FreeBytes(ts[..|ts| - 1]) + (if ts[|ts| - 1].free then ts[|ts| - 1].size else 0)
  }

  lemma {:induction false} FreeListConcat(a: seq<Tile>, b: seq<Tile>)
    ensures FreeList(a + b) == FreeList(a) + FreeList(b)
    ensures FreeBytes(a + b) == FreeBytes(a) + FreeBytes(b)
    decreases |b|
  {
    if b == [] {
      assert a + b == a;
    } else {
      var c := b[..|b| - 1];
      assert (a + b)[..|a + b| - 1] == a + c;
      FreeListConcat(a, c);
    }
  }

  lemma FreeListSingle(t: Tile)
    ensures FreeList([t]) == (if t.free then [t] else []) && FreeBytes([t]) == (if t.free then t.size else 0)
  {
    assert [t][..0] == [];
  }

  // ----- Request sizes

  /** The block size for a request, in size_t arithmetic. */
  function Padded(wanted: nat): (n: nat)
    requires wanted < SIZE_LIMIT
  {
    if wanted == 0 then 0
    else
      var n := (wanted + STRUCT) % SIZE_LIMIT;
      if n % ALIGN != 0 then (n + (ALIGN - n % ALIGN)) % SIZE_LIMIT else n
  }

  /** The padded size is aligned, and it covers header and payload exactly when adding them does not
      wrap around.  Short of that it is the least aligned size that does. */
  lemma PaddedFits(wanted: nat)
    requires 0 < wanted < SIZE_LIMIT
    ensures Padded(wanted) % ALIGN == 0
    ensures Padded(wanted) > 0 ==> (Padded(wanted) >= wanted + STRUCT <==> wanted + STRUCT < SIZE_LIMIT)
    ensures wanted + STRUCT + ALIGN <= SIZE_LIMIT ==> wanted + STRUCT <= Padded(wanted) < wanted + STRUCT + ALIGN
  {
    if wanted + STRUCT < SIZE_LIMIT {
      assert (wanted + STRUCT) % SIZE_LIMIT == wanted + STRUCT;
    } else {
      assert (wanted + STRUCT) % SIZE_LIMIT == wanted + STRUCT - SIZE_LIMIT;
    }
  }

  /** A request close to the top of size_t is served with a block far too small for it. */
  lemma WrappedRequest()
    ensures Padded(SIZE_LIMIT - 8) == 8
  {
  }

  // ----- Allocation

  /** The index of the lowest-addressed free block of at least the given size. */
  function FirstFit(ts: seq<Tile>, want: nat): (k: nat)
    ensures k <= |ts|
    ensures k < |ts| ==> ts[k].free && ts[k].size >= want
    ensures forall i :: 0 <= i < k ==> !(ts[i].free && ts[i].size >= want)
  {
    if ts == [] then 0
    else if ts[0].free && ts[0].size >= want then 0
    else 1 + FirstFit(ts[1..], want)
  }

  /** The block becomes live; a remainder larger than the minimum stays behind as a free block. */
  function Carve(ts: seq<Tile>, k: nat, want: nat): (r: seq<Tile>)
    requires k < |ts| && want <= ts[k].size
  {
    var b := ts[k];
    if b.size - want > MINIMUM
    then ts[..k] + [Tile(b.addr, want, false), Tile(b.addr + want, b.size - want, true)] + ts[k + 1..]
    else ts[k := b.(free := false)]
  }

  /** Freeing block k, merged with a free block on either side. */
  function Release(ts: seq<Tile>, k: nat): (r: seq<Tile>)
    requires k < |ts|
  {
    var left := k > 0 && ts[k - 1].free;
    var right := k + 1 < |ts| && ts[k + 1].free;
    var addr := if left then ts[k - 1].addr else ts[k].addr;
    var size := ts[k].size + (if left then ts[k - 1].size else 0) + (if right then ts[k + 1].size else 0);
    (if left then ts[..k - 1] else ts[..k]) + [Tile(addr, size, true)] + (if right then ts[k + 2..] else ts[k + 1..])
  }

  /** The state after prvHeapInit. */
  function Fresh(lo: nat, hi: nat): seq<Tile>
    requires lo < hi
  {
    [Tile(lo, hi - lo, true)]
  }

  lemma FreshInv(lo: nat, hi: nat)
    requires lo < hi && lo % ALIGN == 0 && hi % ALIGN == 0
    ensures Inv(Fresh(lo, hi), lo, hi) && FreeBytes(Fresh(lo, hi)) == hi - lo
  {
    FreeListSingle(Tile(lo, hi - lo, true));
    TilingOne(Tile(lo, hi - lo, true));
  }

  lemma CarveKeeps(ts: seq<Tile>, lo: nat, hi: nat, k: nat, want: nat)
    requires Inv(ts, lo, hi) && k < |ts| && ts[k].free && 0 < want <= ts[k].size && want % ALIGN == 0
    ensures var r := Carve(ts, k, want);
            && Inv(r, lo, hi) && k < |r| && r[k].addr == ts[k].addr && !r[k].free && want <= r[k].size
            && FreeBytes(r) == FreeBytes(ts) - r[k].size
            && Divided(ts, r, k, want)
  {
    CarveInv(ts, lo, hi, k, want);
    CarveBytes(ts, k, want);
    CarveDivides(ts, k, want);
  }

  /** Block k is cut down to exactly the size wanted when more than two headers' worth would be left over,
      the rest lying directly behind it as a free block; otherwise it is handed out whole.  All other
      blocks stay as they are. */
  ghost predicate Divided(ts: seq<Tile>, r: seq<Tile>, k: nat, want: nat)
    requires k < |ts| && want <= ts[k].size
  {
    && k < |r| && r[..k] == ts[..k]
    && if ts[k].size - want > 2 * STRUCT then
         && k + 1 < |r| && r[k] == Tile(ts[k].addr, want, false)
         && r[k + 1] == Tile(ts[k].addr + want, ts[k].size - want, true) && r[k + 2..] == ts[k + 1..]
       else r[k] == ts[k].(free := false) && r[k + 1..] == ts[k + 1..]
  }

  lemma CarveDivides(ts: seq<Tile>, k: nat, want: nat)
    requires k < |ts| && want <= ts[k].size
    ensures Divided(ts, Carve(ts, k, want), k, want)
  {
    var r := Carve(ts, k, want);
    assert r[..k] == ts[..k];
    if ts[k].size - want > 2 * STRUCT { assert r[k + 2..] == ts[k + 1..]; } else { assert r[k + 1..] == ts[k + 1..]; }
  }

  lemma CarveInv(ts: seq<Tile>, lo: nat, hi: nat, k: nat, want: nat)
    requires Inv(ts, lo, hi) && k < |ts| && ts[k].free && 0 < want <= ts[k].size && want % ALIGN == 0
    ensures Inv(Carve(ts, k, want), lo, hi)
  {
    hide Tiling, Coalesced;
    var b := ts[k];
    TilingSplit(ts, lo, hi, k);
    CoalescedSplit(ts, k + 1);
    CoalescedSplit(ts, k);
    assert EndsFree(ts[..k + 1]) && StartsFree(ts[k..]);
    if b.size - want > MINIMUM {
      var x, y := Tile(b.addr, want, false), Tile(b.addr + want, b.size - want, true);
      TilingOne(x);
      TilingOne(y);
      TilingConcat([x], [y], b.addr, y.addr, End(b));
      assert [x] + [y] == [x, y];
      CoalescedPair(x, y);
      Replace(ts, lo, hi, k, k + 1, [x, y], b.addr, End(b));
    } else {
      var x := b.(free := false);
      TilingOne(x);
      CoalescedOne(x);
      Replace(ts, lo, hi, k, k + 1, [x], b.addr, End(b));
      assert ts[k := x] == ts[..k] + [x] + ts[k + 1..];
    }
  }

  lemma CoalescedPair(x: Tile, y: Tile)
    requires !x.free
    ensures Coalesced([x, y])
  {
  }

  lemma CoalescedOne(x: Tile)
    ensures Coalesced([x])
  {
  }

  /** A sequence around one element. */
  lemma Around(ts: seq<Tile>, k: nat)
    requires k < |ts|
    ensures ts == ts[..k] + [ts[k]] + ts[k + 1..]
    ensures FreeList(ts) == FreeList(ts[..k]) + (if ts[k].free then [ts[k]] else []) + FreeList(ts[k + 1..])
    ensures FreeBytes(ts) == FreeBytes(ts[..k]) + (if ts[k].free then ts[k].size else 0) + FreeBytes(ts[k + 1..])
  {
    hide FreeList, FreeBytes;
    var a, t, c := ts[..k], ts[k], ts[k + 1..];
    assert ts == a + [t] + c;
    Joined(a, t, c);
  }

  lemma Joined(a: seq<Tile>, t: Tile, c: seq<Tile>)
    ensures FreeList(a + [t] + c) == FreeList(a) + (if t.free then [t] else []) + FreeList(c)
    ensures FreeBytes(a + [t] + c) == FreeBytes(a) + (if t.free then t.size else 0) + FreeBytes(c)
  {
    hide FreeList, FreeBytes;
    FreeListConcat(a, [t]);
    FreeListConcat(a + [t], c);
    FreeListSingle(t);
    assert t.free ==> FreeList([t]) == [t];
    assert !t.free ==> FreeList([t]) == [] && FreeList(a) + [] == FreeList(a);
  }

  lemma CarveBytes(ts: seq<Tile>, k: nat, want: nat)
    requires k < |ts| && ts[k].free && want <= ts[k].size
    ensures var r := Carve(ts, k, want);
            && k < |r| && r[k].addr == ts[k].addr && !r[k].free && want <= r[k].size
            && FreeBytes(r) == FreeBytes(ts) - r[k].size
            && r[..k] == ts[..k]
  {
    hide FreeBytes, FreeList;
    var r := Carve(ts, k, want);
    Around(ts, k);
    Around(r, k);
    assert r[..k] == ts[..k];
    if ts[k].size - want > MINIMUM {
      var rest := r[k + 1..];
      assert rest[..0] == [] && rest[1..] == ts[k + 1..] && rest[0] == Tile(ts[k].addr + want, ts[k].size - want, true);
      Around(rest, 0);
      FreeBytesNone();
    } else {
      assert r[k + 1..] == ts[k + 1..];
    }
  }

  lemma FreeBytesNone()
    ensures FreeBytes([]) == 0 && FreeList([]) == []
  {
  }

  // ----- Freeing

  lemma ReleaseKeeps(ts: seq<Tile>, lo: nat, hi: nat, k: nat)
    requires Inv(ts, lo, hi) && k < |ts| && !ts[k].free
    ensures Inv(Release(ts, k), lo, hi) && FreeBytes(Release(ts, k)) == FreeBytes(ts) + ts[k].size
  {
    ReleaseInv(ts, lo, hi, k);
    ReleaseBytes(ts, k);
  }

  lemma Neighbours(ts: seq<Tile>, lo: nat, hi: nat, k: nat)
    requires Tiling(ts, lo, hi) && k + 1 < |ts|
    ensures End(ts[k]) == ts[k + 1].addr
  {
    TilingSplit(ts, lo, hi, k);
  }

  lemma ReleaseInv(ts: seq<Tile>, lo: nat, hi: nat, k: nat)
    requires Inv(ts, lo, hi) && k < |ts| && !ts[k].free
    ensures Inv(Release(ts, k), lo, hi)
  {
    hide Tiling, Coalesced, Release, Span;
    var i := if k > 0 && ts[k - 1].free then k - 1 else k;
    var j := if k + 1 < |ts| && ts[k + 1].free then k + 2 else k + 1;
    var x := Tile(ts[i].addr, Span(ts, k), true);
    MergedShape(ts, k, i, j);
    MergedSpan(ts, lo, hi, k, i, j);
    TilingSplit(ts, lo, hi, i);
    TilingSplit(ts, lo, hi, j - 1);
    TilingOne(x);
    CoalescedOne(x);
    NotFreeBefore(ts, i, k);
    NotFreeAfter(ts, k, j);
    Replace(ts, lo, hi, i, j, [x], ts[i].addr, End(ts[j - 1]));
  }

  /** The size of the block that results from freeing block k. */
  function Span(ts: seq<Tile>, k: nat): (n: nat)
    requires k < |ts|
  {
    ts[k].size + (if k > 0 && ts[k - 1].free then ts[k - 1].size else 0)
    + (if k + 1 < |ts| && ts[k + 1].free then ts[k + 1].size else 0)
  }

  lemma MergedShape(ts: seq<Tile>, k: nat, i: nat, j: nat)
    requires k < |ts| && !ts[k].free
    requires i == (if k > 0 && ts[k - 1].free then k - 1 else k)
    requires j == (if k + 1 < |ts| && ts[k + 1].free then k + 2 else k + 1)
    ensures Release(ts, k) == ts[..i] + [Tile(ts[i].addr, Span(ts, k), true)] + ts[j..]
  {
  }

  lemma MergedSpan(ts: seq<Tile>, lo: nat, hi: nat, k: nat, i: nat, j: nat)
    requires Tiling(ts, lo, hi) && k < |ts| && !ts[k].free
    requires i == (if k > 0 && ts[k - 1].free then k - 1 else k)
    requires j == (if k + 1 < |ts| && ts[k + 1].free then k + 2 else k + 1)
    ensures ts[i].addr + Span(ts, k) == End(ts[j - 1]) && Aligned(Tile(ts[i].addr, Span(ts, k), true))
  {
    hide Tiling, Aligned;
    TilingSplit(ts, lo, hi, k);
    TilingSplit(ts, lo, hi, i);
    TilingSplit(ts, lo, hi, j - 1);
    var mid := if i < k then Tile(ts[i].addr, ts[i].size + ts[k].size, true) else ts[k];
    if i < k {
      Neighbours(ts, lo, hi, i);
      AlignedMerge(ts[i], ts[k]);
    }
    if k < j - 1 {
      Neighbours(ts, lo, hi, k);
      AlignedMerge(mid, ts[k + 1]);
    }
    AlignedFree(mid);
  }

  lemma AlignedMerge(x: Tile, y: Tile)
    requires Aligned(x) && Aligned(y)
    ensures Aligned(Tile(x.addr, x.size + y.size, true))
  {
  }

  lemma AlignedFree(x: Tile)
    requires Aligned(x)
    ensures Aligned(Tile(x.addr, x.size, true))
  {
  }

  lemma NotFreeBefore(ts: seq<Tile>, i: nat, k: nat)
    requires Coalesced(ts) && k < |ts| && i == (if k > 0 && ts[k - 1].free then k - 1 else k)
    ensures !EndsFree(ts[..i])
  {
  }

  lemma NotFreeAfter(ts: seq<Tile>, k: nat, j: nat)
    requires Coalesced(ts) && k < |ts| && j == (if k + 1 < |ts| && ts[k + 1].free then k + 2 else k + 1)
    ensures !StartsFree(ts[j..])
  {
  }

  lemma ReleaseBytes(ts: seq<Tile>, k: nat)
    requires k < |ts| && !ts[k].free
    ensures FreeBytes(Release(ts, k)) == FreeBytes(ts) + ts[k].size
  {
    hide FreeBytes, FreeList;
    var left := k > 0 && ts[k - 1].free;
    var right := k + 1 < |ts| && ts[k + 1].free;
    var r := Release(ts, k);
    Around(ts, k);
    LastApart(ts[..k]);
    FirstApart(ts[k + 1..]);
    var a, c := if left then ts[..k - 1] else ts[..k], if right then ts[k + 2..] else ts[k + 1..];
    assert left ==> ts[..k][..k - 1] == a;
    assert right ==> ts[k + 1..][1..] == c;
    var t := r[|a|];
    Joined(a, t, c);
    assert r == a + [t] + c;
  }

  lemma FirstApart(ts: seq<Tile>)
    ensures StartsFree(ts) ==>
              FreeBytes(ts) == ts[0].size + FreeBytes(ts[1..]) && FreeList(ts) == [ts[0]] + FreeList(ts[1..])
  {
    if ts != [] {
      FreeListConcat(ts[..1], ts[1..]);
      FreeListSingle(ts[0]);
      assert ts == ts[..1] + ts[1..] && ts[..1] == [ts[0]];
    }
  }

  lemma LastApart(ts: seq<Tile>)
    ensures EndsFree(ts) ==> FreeBytes(ts) == FreeBytes(ts[..|ts| - 1]) + ts[|ts| - 1].size
                             && FreeList(ts) == FreeList(ts[..|ts| - 1]) + [ts[|ts| - 1]]
  {
  }

  // ----- The main laws

  /** Freeing the block just allocated restores the exact previous heap. */
  lemma AllocateThenFree(ts: seq<Tile>, lo: nat, hi: nat, k: nat, want: nat)
    requires Inv(ts, lo, hi) && k < |ts| && ts[k].free && 0 < want <= ts[k].size && want % ALIGN == 0
    ensures k < |Carve(ts, k, want)| && Release(Carve(ts, k, want), k) == ts
  {
    var r, b := Carve(ts, k, want), ts[k];
    assert k > 0 ==> r[k - 1] == ts[k - 1] && !ts[k - 1].free;
    if b.size - want > MINIMUM {
      assert r[k + 1] == Tile(b.addr + want, b.size - want, true) && r[k + 2..] == ts[k + 1..] && r[..k] == ts[..k];
    } else {
      assert k + 1 < |ts| ==> r[k + 1] == ts[k + 1] && !ts[k + 1].free;
      assert r[..k] == ts[..k] && r[k + 1..] == ts[k + 1..];
    }
    assert Release(r, k) == ts[..k] + [b] + ts[k + 1..];
  }

  lemma SomeLive(ts: seq<Tile>)
    requires Coalesced(ts) && |ts| > 1
    ensures exists i :: 0 <= i < |ts| && !ts[i].free
  {
    assert !(ts[0].free && ts[1].free);
  }

  /** Once nothing is live the heap is the single block it started as, however it got there. */
  lemma FullRecovery(ts: seq<Tile>, lo: nat, hi: nat)
    requires Inv(ts, lo, hi) && lo < hi && forall i :: 0 <= i < |ts| ==> ts[i].free
    ensures ts == Fresh(lo, hi)
  {
    if |ts| > 1 { SomeLive(ts); }
    assert |ts| == 1;
    assert ts[1..] == [];
    assert Tiling(ts[1..], End(ts[0]), hi);
    assert ts == [ts[0]];
  }

  // ----- Histories

  datatype Op = Allocate(wanted: nat) | Free(addr: nat)

  predicate IsLive(ts: seq<Tile>, k: nat, addr: nat) { k < |ts| && !ts[k].free && ts[k].addr == addr }

  /** The index of the live block at an address. */
  function LiveIndex(ts: seq<Tile>, addr: nat): (k: nat)
    ensures k <= |ts| && (k < |ts| ==> IsLive(ts, k, addr))
    ensures k == |ts| ==> forall i :: 0 <= i < |ts| ==> !IsLive(ts, i, addr)
  {
    if ts == [] then 0
    else if !ts[0].free && ts[0].addr == addr then 0
    else
      var k := LiveIndex(ts[1..], addr);
      assert forall i :: 0 < i < |ts| ==> IsLive(ts, i, addr) == IsLive(ts[1..], i - 1, addr);
      1 + k
  }

  /** What heap_4.c demands of its callers: a request is a size_t, and only live blocks are freed. */
  predicate Legal(ts: seq<Tile>, op: Op) {
    match op
    case Allocate(wanted) => wanted < SIZE_LIMIT
    case Free(addr) => LiveIndex(ts, addr) < |ts|
  }

  /** pvPortMalloc and vPortFree on the block sequence; `total` is xTotalHeapSize. */
  function Apply(ts: seq<Tile>, total: nat, op: Op): (r: seq<Tile>)
    requires Legal(ts, op)
  {
    match op
    case Allocate(wanted) =>
      var want := Padded(wanted);
      var k := FirstFit(ts, want);
      if 0 < want < total && k < |ts| then Carve(ts, k, want) else ts
    case Free(addr) => Release(ts, LiveIndex(ts, addr))
  }

  predicate LegalAll(ts: seq<Tile>, total: nat, ops: seq<Op>)
    decreases |ops|
  {
    ops == [] || (Legal(ts, ops[0]) && LegalAll(Apply(ts, total, ops[0]), total, ops[1..]))
  }

  function ApplyAll(ts: seq<Tile>, total: nat, ops: seq<Op>): (r: seq<Tile>)
    requires LegalAll(ts, total, ops)
    decreases |ops|
  {
    if ops == [] then ts else ApplyAll(Apply(ts, total, ops[0]), total, ops[1..])
  }

  /** Over every sequence of allocations and frees of live blocks the blocks tile the heap without overlap, no two
      free blocks are adjacent and everything stays aligned. */
  lemma {:induction false} HistoryKeepsInv(ts: seq<Tile>, lo: nat, hi: nat, total: nat, ops: seq<Op>)
    requires Inv(ts, lo, hi) && LegalAll(ts, total, ops)
    ensures Inv(ApplyAll(ts, total, ops), lo, hi)
    decreases |ops|
  {
    hide Inv, Carve, Release;
    if ops != [] {
      match ops[0] {
        case Allocate(wanted) =>
          if 0 < wanted {
            PaddedFits(wanted);
            var want := Padded(wanted);
            var k := FirstFit(ts, want);
            if want > 0 && k < |ts| { CarveKeeps(ts, lo, hi, k, want); }
          }
        case Free(addr) => ReleaseKeeps(ts, lo, hi, LiveIndex(ts, addr));
      }
      HistoryKeepsInv(Apply(ts, total, ops[0]), lo, hi, total, ops[1..]);
    }
  }
}
