/** heap_4.c: pvPortMalloc and vPortFree. */
module HeapAllocators {
  import opened HeapTiles
  import opened Heaps

  /** Block k handed out whole or in part, with the part to be given back still marked live. */
  function Parted(ts: seq<Tile>, k: nat, want: nat): seq<Tile>
    requires k < |ts| && want <= ts[k].size
  {
    var b := ts[k];
    if b.size - want > MINIMUM
    then ts[..k] + [Tile(b.addr, want, false), Tile(b.addr + want, b.size - want, false)] + ts[k + 1..]
    else ts[k := b.(free := false)]
  }

  lemma PartedFacts(ts: seq<Tile>, lo: nat, hi: nat, k: nat, want: nat)
    requires Inv(ts, lo, hi) && k < |ts| && ts[k].free && 0 < want <= ts[k].size && want % ALIGN == 0
    ensures Inv(Parted(ts, k, want), lo, hi)
    ensures FreeList(Parted(ts, k, want)) == FreeList(ts[..k]) + FreeList(ts[k + 1..])
    ensures ts[k].size - want > MINIMUM ==> k + 1 < |Parted(ts, k, want)|
                                            && Release(Parted(ts, k, want), k + 1) == Carve(ts, k, want)
    ensures ts[k].size - want <= MINIMUM ==> Parted(ts, k, want) == Carve(ts, k, want)
  {
    if ts[k].size - want > MINIMUM {
      PartedInv(ts, lo, hi, k, want);
      PartedFree(ts, k, want);
      PartedReleased(ts, k, want);
    } else {
      CarveKeeps(ts, lo, hi, k, want);
      WholeFree(ts, k);
    }
  }

  lemma PartedInv(ts: seq<Tile>, lo: nat, hi: nat, k: nat, want: nat)
    requires Inv(ts, lo, hi) && k < |ts| && ts[k].size - want > MINIMUM && 0 < want && want % ALIGN == 0
    ensures Inv(Parted(ts, k, want), lo, hi)
  {
    hide Tiling, Coalesced;
    var b := ts[k];
    var x, y := Tile(b.addr, want, false), Tile(b.addr + want, b.size - want, false);
    TilingSplit(ts, lo, hi, k);
    TilingOne(x);
    TilingOne(y);
    TilingConcat([x], [y], b.addr, y.addr, End(b));
    assert [x] + [y] == [x, y];
    CoalescedPair(x, y);
    Replace(ts, lo, hi, k, k + 1, [x, y], b.addr, End(b));
  }

  lemma PartedFree(ts: seq<Tile>, k: nat, want: nat)
    requires k < |ts| && ts[k].size - want > MINIMUM
    ensures FreeList(Parted(ts, k, want)) == FreeList(ts[..k]) + FreeList(ts[k + 1..])
  {
    hide FreeList, FreeBytes;
    var b := ts[k];
    var x, y := Tile(b.addr, want, false), Tile(b.addr + want, b.size - want, false);
    Joined(ts[..k] + [x], y, ts[k + 1..]);
    FreeListConcat(ts[..k], [x]);
    FreeListSingle(x);
    assert Parted(ts, k, want) == ts[..k] + [x] + [y] + ts[k + 1..];
  }

  lemma WholeFree(ts: seq<Tile>, k: nat)
    requires k < |ts|
    ensures FreeList(ts[k := ts[k].(free := false)]) == FreeList(ts[..k]) + FreeList(ts[k + 1..])
  {
    hide FreeList, FreeBytes;
    var x := ts[k].(free := false);
    Joined(ts[..k], x, ts[k + 1..]);
    assert ts[k := x] == ts[..k] + [x] + ts[k + 1..];
    assert FreeList(ts[..k]) + [] == FreeList(ts[..k]);
  }

  lemma PartedReleased(ts: seq<Tile>, k: nat, want: nat)
    requires Coalesced(ts) && k < |ts| && ts[k].free && ts[k].size - want > MINIMUM
    ensures k + 1 < |Parted(ts, k, want)| && Release(Parted(ts, k, want), k + 1) == Carve(ts, k, want)
  {
    hide Coalesced;
    var r, b := Parted(ts, k, want), ts[k];
    NextIsLive(ts, k);
    assert r[..k + 1] == ts[..k] + [Tile(b.addr, want, false)] && r[k + 2..] == ts[k + 1..];
    assert k + 2 < |r| ==> r[k + 2] == ts[k + 1];
  }

  lemma NextIsLive(ts: seq<Tile>, k: nat)
    requires Coalesced(ts) && k < |ts| && ts[k].free
    ensures k + 1 < |ts| ==> !ts[k + 1].free
  {
  }

  /** The entry found, taken off the free list. */
  lemma TakenChain(mem: Memory, ts: seq<Tile>, lo: nat, end: nat, k: nat)
    requires Tiling(ts, lo, end) && k < |ts| && ts[k].free && Chain(mem, FreeList(ts), end)
    ensures var at := Before(Below(ts, k), |Below(ts, k)|);
            && at in mem && ts[k].addr in mem && at != ts[k].addr
            && mem[ts[k].addr].size == ts[k].size && mem[at].next == ts[k].addr
            && Chain(mem[at := Header(mem[ts[k].addr].next, mem[at].size)],
                FreeList(ts[..k]) + FreeList(ts[k + 1..]), end)
  {
    hide Tiling, FreeList, FreeBytes, Spaced, Path, Avoids;
    var a, x, c := FreeList(ts[..k]), ts[k], FreeList(ts[k + 1..]);
    FreeAround(ts, lo, end, k);
    assert FreeList(ts) == a + ([x] + c);
    SpacedAvoids(a, lo, x.addr);
    SpacedAvoids(c, End(x), end);
    ChainHas(mem, a, x, c, end);
    ChainBefore(mem, a, x, c, end);
    ChainLeave(mem, a, x, c, end);
  }

  lemma ChainBefore(mem: Memory, a: seq<Tile>, x: Tile, c: seq<Tile>, end: nat)
    requires Chain(mem, a + ([x] + c), end)
    ensures Before(a, |a|) in mem && mem[Before(a, |a|)].next == x.addr
  {
    if a != [] {
      PathConcat(mem, a, [x] + c, end);
      assert a[|a| - 1].addr in mem;
    }
  }

  /** The loop of prvInsertBlockIntoFreeList passes exactly the entries below the block. */
  lemma Located(mem: Memory, ts: seq<Tile>, lo: nat, hi: nat, k: nat, i: nat)
    requires Tiling(ts, lo, hi) && k < |ts| && !ts[k].free && Chain(mem, FreeList(ts), hi) && i <= |Below(ts, k)|
    ensures var at := Before(Below(ts, k), i);
            && at in mem
            && (mem[at].next < ts[k].addr <==> i < |Below(ts, k)|)
            && mem[at].next == (if i < |Below(ts, k)| then Below(ts, k)[i].addr else AddrAt(Above(ts, k), hi, 0))
  {
    hide Tiling, FreeList, FreeBytes, Chain;
    FreeAround(ts, lo, hi, k);
    assert FreeList(ts) == Below(ts, k) + Above(ts, k);
    LocatedIn(mem, Below(ts, k), Above(ts, k), hi, i);
  }

  lemma LocatedIn(mem: Memory, a: seq<Tile>, c: seq<Tile>, end: nat, i: nat)
    requires Chain(mem, a + c, end) && i <= |a|
    ensures var at := Before(a, i);
            && at in mem
            && mem[at].next == (if i < |a| then a[i].addr else AddrAt(c, end, 0))
  {
    var f := a + c;
    assert i > 0 ==> f[i - 1] == a[i - 1] && f[i - 1].addr in mem;
    assert i < |a| ==> f[i] == a[i];
    assert |a| < |f| ==> f[|a|] == c[0];
  }

  /** What the merging code finds in memory around live block k. */
  lemma Surroundings(mem: Memory, ts: seq<Tile>, lo: nat, end: nat, k: nat)
    requires Tiling(ts, lo, end) && k < |ts| && !ts[k].free && 0 < lo
    requires Chain(mem, FreeList(ts), end) && LiveHeaders(mem, ts)
    ensures var at, block := Before(Below(ts, k), |Below(ts, k)|), ts[k].addr;
            var left, right := k > 0 && ts[k - 1].free, k + 1 < |ts| && ts[k + 1].free;
            && at in mem && block in mem && mem[block].size == ts[k].size && 0 < block && at < block
            && (left <==> at + mem[at].size == block) && (left ==> mem[at].size == ts[k - 1].size)
            && var next := mem[at].next;
            && block < next
            && (right <==> block + ts[k].size == next && next != end)
            && (right ==> next in mem && mem[next] == Header(AddrAt(Beyond(ts, k), end, 0), ts[k + 1].size))
            && (!right ==> next == AddrAt(Beyond(ts, k), end, 0))
  {
    hide Tiling, FreeList, FreeBytes, LiveHeaders, Chain;
    FreeAround(ts, lo, end, k);
    Located(mem, ts, lo, end, k, |Below(ts, k)|);
    JoinsLeft(ts, lo, end, k);
    JoinsRight(ts, lo, end, k);
    LiveHeader(mem, ts, k);
    assert FreeList(ts) == Below(ts, k) + Above(ts, k);
    AtSize(mem, Below(ts, k), Above(ts, k), end);
    if k + 1 < |ts| && ts[k + 1].free {
      var a, x, c := FreeList(ts[..k]), ts[k + 1], Beyond(ts, k);
      assert FreeList(ts) == a + ([x] + c);
      ChainHas(mem, a, x, c, end);
    }
  }

  lemma LiveHeader(mem: Memory, ts: seq<Tile>, k: nat)
    requires LiveHeaders(mem, ts) && k < |ts| && !ts[k].free
    ensures ts[k].addr in mem && mem[ts[k].addr].size == ts[k].size
  {
  }

  lemma AtSize(mem: Memory, a: seq<Tile>, c: seq<Tile>, end: nat)
    requires Chain(mem, a + c, end)
    ensures var at := Before(a, |a|); at in mem && mem[at].size == (if a == [] then 0 else a[|a| - 1].size)
  {
    if a != [] { assert (a + c)[|a| - 1] == a[|a| - 1]; }
  }

  /** After linking, the free list and the headers describe the heap with block k released. */
  lemma LinkedAll(mem: Memory, ts: seq<Tile>, lo: nat, end: nat, k: nat)
    requires Inv(ts, lo, end) && k < |ts| && !ts[k].free && Chain(mem, FreeList(ts), end) && LiveHeaders(mem, ts)
    requires Before(Below(ts, k), |Below(ts, k)|) in mem
    ensures Inv(Release(ts, k), lo, end)
    ensures Chain(LinkedMemory(mem, ts, end, k), FreeList(Release(ts, k)), end)
    ensures LiveHeaders(LinkedMemory(mem, ts, end, k), Release(ts, k))
  {
    hide Tiling, FreeList, FreeBytes, LiveHeaders, Chain, Release, Beyond;
    ReleaseKeeps(ts, lo, end, k);
    LinkedChain(mem, ts, lo, end, k);
    ReleasedHeaders(mem, LinkedMemory(mem, ts, end, k), ts, lo, end, k);
  }

  /** Walking the free list: entry i is reached, and it is the end marker exactly when i entries exist. */
  lemma Walked(mem: Memory, f: seq<Tile>, end: nat, lo: nat, i: nat)
    requires Chain(mem, f, end) && Spaced(f, lo, end) && 0 < lo <= end && i <= |f|
    ensures var at := AddrAt(f, end, i);
            && at in mem && (mem[at].next == NULL <==> i == |f|) && (at == end <==> i == |f|)
            && (i < |f| ==> mem[at] == Header(AddrAt(f, end, i + 1), f[i].size))
            && (i == |f| ==> mem[at].size == 0)
  {
    assert i < |f| ==> f[i].addr in mem;
    assert i + 1 < |f| ==> lo <= f[i + 1].addr;
  }

  lemma ListHead(mem: Memory, f: seq<Tile>, end: nat)
    requires Chain(mem, f, end)
    ensures START in mem && mem[START].next == AddrAt(f, end, 0)
  {
  }

  lemma PartedShape(ts: seq<Tile>, k: nat, want: nat)
    requires k < |ts| && ts[k].free && want <= ts[k].size
    ensures var r := Parted(ts, k, want);
            if ts[k].size - want > MINIMUM
            then k + 1 < |r| && r[k + 1] == Tile(ts[k].addr + want, ts[k].size - want, false)
            else k < |r| && r[k] == Tile(ts[k].addr, ts[k].size, false)
  {
  }

  /** The memory once block k has been unlinked and, if it was split, both parts have their sizes. */
  lemma PartedMemory(mem: Memory, ts: seq<Tile>, lo: nat, end: nat, k: nat, want: nat, stale: int)
    requires Inv(ts, lo, end) && k < |ts| && ts[k].free && 0 < want <= ts[k].size && want % ALIGN == 0
    requires 0 < lo && Chain(mem, FreeList(ts), end) && LiveHeaders(mem, ts)
    ensures var at, block := Before(Below(ts, k), |Below(ts, k)|), ts[k].addr;
            && at in mem && block in mem && at != block && mem[at].next == block && mem[block].size == ts[k].size
            && at != block + want
            && var m1 := mem[at := Header(mem[block].next, mem[at].size)];
            && m1[block].size == ts[k].size
            && var m2 := if ts[k].size - want > MINIMUM
                         then m1[block + want := Header(stale, ts[k].size - want)]
                                [block := Header(m1[block].next, want)]
                         else m1;
            Chain(m2, FreeList(Parted(ts, k, want)), end) && LiveHeaders(m2, Parted(ts, k, want))
  {
    hide Tiling, FreeList, FreeBytes, Chain, Coalesced, LiveHeaders, Spaced;
    var at, block := Before(Below(ts, k), |Below(ts, k)|), ts[k].addr;
    TakenChain(mem, ts, lo, end, k);
    PartedFacts(ts, lo, end, k, want);
    FreeAround(ts, lo, end, k);
    var m1 := mem[at := Header(mem[block].next, mem[at].size)];
    var a, c := FreeList(ts[..k]), FreeList(ts[k + 1..]);
    SpacedAvoids(a, lo, block);
    SpacedAvoids(c, End(ts[k]), end);
    PartedHeaders(mem, m1, ts, lo, end, k);
    if ts[k].size - want > MINIMUM {
      ChainFrame(m1, a, c, end, block + want, Header(stale, ts[k].size - want));
      var m2 := m1[block + want := Header(stale, ts[k].size - want)];
      ChainFrame(m2, a, c, end, block, Header(m1[block].next, want));
      SplitHeaders(m1, m2[block := Header(m1[block].next, want)], ts, lo, end, k, want);
    } else {
      WholeHeaders(m1, ts, k);
    }
  }

  lemma ChainFrame(mem: Memory, a: seq<Tile>, c: seq<Tile>, end: nat, addr: int, h: Header)
    requires Chain(mem, a + c, end) && addr != START && addr != end && Avoids(a, addr) && Avoids(c, addr)
    ensures Chain(mem[addr := h], a + c, end)
  {
    hide Path;
    PathFrame(mem, a + c, end, addr, h);
  }

  /** Unlinking a free block writes no live block's header. */
  lemma PartedHeaders(mem: Memory, after: Memory, ts: seq<Tile>, lo: nat, hi: nat, k: nat)
    requires Tiling(ts, lo, hi) && k < |ts| && LiveHeaders(mem, ts) && 0 < lo
    requires var at := Before(Below(ts, k), |Below(ts, k)|);
             forall x :: x in mem && x != at ==> x in after && after[x] == mem[x]
    ensures LiveHeaders(after, ts)
  {
    hide Tiling, FreeList;
    FreeListMembers(ts[..k]);
    var a := Below(ts, k);
    forall t | t in ts && !t.free
      ensures t.addr in after && after[t.addr].size == t.size
    {
      var i :| 0 <= i < |ts| && ts[i] == t;
      if a != [] {
        var j :| 0 <= j < k && ts[j] == a[|a| - 1];
        Apart(ts, lo, hi, i, j);
      }
    }
  }

  lemma SplitHeaders(mem: Memory, after: Memory, ts: seq<Tile>, lo: nat, hi: nat, k: nat, want: nat)
    requires Tiling(ts, lo, hi) && k < |ts| && ts[k].free && LiveHeaders(mem, ts) && ts[k].size - want > MINIMUM
            && 0 < want
    requires forall x :: x in mem && x != ts[k].addr && x != ts[k].addr + want ==> x in after && after[x] == mem[x]
    requires ts[k].addr in after && after[ts[k].addr].size == want
    requires ts[k].addr + want in after && after[ts[k].addr + want].size == ts[k].size - want
    ensures LiveHeaders(after, Parted(ts, k, want))
  {
    hide Tiling;
    var b := ts[k];
    var x, y := Tile(b.addr, want, false), Tile(b.addr + want, b.size - want, false);
    forall t | t in Parted(ts, k, want) && !t.free && t != x && t != y
      ensures t.addr in after && after[t.addr].size == t.size
    {
      var i :| 0 <= i < |ts| && i != k && ts[i] == t;
      if i < k { Increasing(ts, lo, hi, i, k); TilingSplit(ts, lo, hi, i); } else { Increasing(ts, lo, hi, k, i); }
    }
  }

  lemma WholeHeaders(mem: Memory, ts: seq<Tile>, k: nat)
    requires LiveHeaders(mem, ts) && k < |ts| && ts[k].addr in mem && mem[ts[k].addr].size == ts[k].size
    ensures LiveHeaders(mem, ts[k := ts[k].(free := false)])
  {
    var r := ts[k := ts[k].(free := false)];
    assert forall t :: t in r ==> t in ts || t == r[k];
  }

  class Heap {
    const base: nat
    const total: nat
    var mem: Memory
    var end: nat
    var freeBytes: nat
    ghost var tiles: seq<Tile>

    ghost function Limit(): nat
      requires total > STRUCT
    {
      base + total - STRUCT
    }

    ghost predicate Layout() {
      && base > 0 && base % ALIGN == 0 && total % ALIGN == 0 && total > STRUCT
    }

    /** The free list and the headers describe the blocks. */
    ghost predicate Linked()
      reads this
    {
      && Layout() && end == Limit() && Inv(tiles, base, end)
      && Chain(mem, FreeList(tiles), end) && LiveHeaders(mem, tiles)
    }

    ghost predicate Valid()
      reads this
    {
      && Layout()
      && (if end == 0 then freeBytes == total else Linked() && freeBytes == FreeBytes(tiles))
    }

    /** The blocks of the heap; before the first allocation, those it is about to get. */
    ghost function Blocks(): seq<Tile>
      requires Layout()
      reads this
    {
      if end == 0 then Fresh(base, Limit()) else tiles
    }

    /** ucHeap lies at `heap` and holds `configured` bytes. */
    constructor (heap: nat, configured: nat)
      requires configured >= ALIGN + STRUCT + ALIGN
      ensures Valid() && end == 0 && heap < base <= heap + ALIGN && base + total <= heap + configured
      ensures total <= configured - ALIGN < total + ALIGN
    {
      base := (heap + ALIGN) / ALIGN * ALIGN;
      total := (configured - ALIGN) / ALIGN * ALIGN;
      end := 0;
      freeBytes := (configured - ALIGN) / ALIGN * ALIGN;
      mem, tiles := map[], [];
    }

    method HeapInit()
      requires Valid() && end == 0
      modifies this
      ensures Valid() && end != 0 && Blocks() == old(Blocks()) && freeBytes == total - STRUCT
    {
      mem := mem[START := Header(base, 0)];
      end := base + total - STRUCT;
      mem := mem[end := Header(NULL, 0)];
      mem := mem[base := Header(end, total - STRUCT)];
      freeBytes := freeBytes - STRUCT;
      tiles := Fresh(base, end);
      FreshInv(base, end);
      FreeListSingle(tiles[0]);
    }

    /** prvInsertBlockIntoFreeList for the live block k. */
    method InsertBlockIntoFreeList(block: nat, ghost k: nat)
      requires Linked() && k < |tiles| && !tiles[k].free && tiles[k].addr == block
      modifies this`mem, this`tiles
      ensures Linked() && tiles == Release(old(tiles), k)
    {
      hide Tiling, Coalesced, Chain, FreeList, FreeBytes, Release, Below, Above, Beyond, Grown, LiveHeaders;
      ghost var m0, f, a := mem, FreeList(tiles), Below(tiles, k);
      var it := START;
      ghost var i := 0;
      Surroundings(mem, tiles, base, end, k);
      GrownFrom(tiles, k);
      Located(mem, tiles, base, end, k, 0);
      while mem[it].next < block
        invariant i <= |a| && it == Before(a, i) && it in mem && mem == m0 && tiles == old(tiles)
        invariant mem[it].next < block <==> i < |a|
        invariant i < |a| ==> mem[it].next == a[i].addr
        decreases |a| - i
      {
        i, it := i + 1, mem[it].next;
        Located(mem, tiles, base, end, k, i);
      }
      var inserted := block;
      if it + mem[it].size == block {
        mem := mem[it := Header(mem[it].next, mem[it].size + mem[inserted].size)];
        inserted := it;
      }
      if inserted + mem[inserted].size == mem[it].next {
        if mem[it].next != end {
          var swallowed := mem[it].next;
          mem := mem[inserted := Header(mem[inserted].next, mem[inserted].size + mem[swallowed].size)];
          mem := mem[inserted := Header(mem[swallowed].next, mem[inserted].size)];
        } else {
          mem := mem[inserted := Header(end, mem[inserted].size)];
        }
      } else {
        mem := mem[inserted := Header(mem[it].next, mem[inserted].size)];
      }
      if it != inserted {
        mem := mem[it := Header(inserted, mem[it].size)];
      }
      assert mem == LinkedMemory(m0, tiles, end, k);
      LinkedAll(m0, tiles, base, end, k);
      tiles := Release(tiles, k);
    }

    /** pvPortMalloc: NULL, or the payload address of the lowest block that fits. */
    method Malloc(wanted: nat) returns (p: int)
      requires Valid() && wanted < SIZE_LIMIT
      modifies this
      ensures Valid() && end != 0
      ensures Blocks() == Apply(old(Blocks()), total, Allocate(wanted))
      ensures var ts, want := old(Blocks()), Padded(wanted);
              var k := FirstFit(ts, want);
              p == if 0 < want < total && k < |ts| then ts[k].addr + STRUCT else NULL
    {
      hide Inv, FreeList, FreeBytes, Chain, LiveHeaders, Release, Carve;
      if end == NULL {
        HeapInit();
      }
      var want := wanted;
      if want > 0 {
        want := (want + STRUCT) % SIZE_LIMIT;
        if want % ALIGN != 0 {
          want := (want + (ALIGN - want % ALIGN)) % SIZE_LIMIT;
        }
        PaddedFits(wanted);
      }
      assert want == Padded(wanted) && want % ALIGN == 0;
      p := NULL;
      if 0 < want < total {
        var previous, block := FindFit(want);
        ghost var k := FirstFit(tiles, want);
        if block != end {
          p := mem[previous].next + STRUCT;
          TakeBlock(previous, block, want, k);
        }
      }
    }

    /** The search loop of pvPortMalloc. */
    method FindFit(want: nat) returns (previous: int, block: int)
      requires Linked() && 0 < want
      ensures var k := FirstFit(tiles, want);
              if k < |tiles|
              then block == tiles[k].addr && block != end && previous == Before(Below(tiles, k), |Below(tiles, k)|)
              else block == end
      ensures previous in mem && block in mem && mem[previous].next == block
    {
      hide Tiling, Coalesced, FreeList, FreeBytes, Chain, LiveHeaders, Spaced;
      ghost var f := FreeList(tiles);
      FreeListSpaced(tiles, base, end);
      ghost var i := 0;
      ListHead(mem, f, end);
      previous, block := START, mem[START].next;
      Walked(mem, f, end, base, 0);
      while mem[block].size < want && mem[block].next != NULL
        invariant i <= |f| && previous == Before(f, i) && block == AddrAt(f, end, i)
        invariant previous in mem && mem[previous].next == block && block in mem
        invariant mem[block].next == NULL <==> i == |f|
        invariant block == end <==> i == |f|
        invariant i == |f| ==> mem[block].size == 0
        invariant i < |f| ==> mem[block] == Header(AddrAt(f, end, i + 1), f[i].size)
        invariant forall j :: 0 <= j < i ==> f[j].size < want
        decreases |f| - i
      {
        previous, block := block, mem[block].next;
        i := i + 1;
        Walked(mem, f, end, base, i);
      }
      FitInList(tiles, want, i);
    }

    /** The found block leaves the free list; a large enough rest goes back onto it. */
    method TakeBlock(previous: int, block: int, want: nat, ghost k: nat)
      requires Linked() && freeBytes == FreeBytes(tiles)
      requires k < |tiles| && tiles[k].free && 0 < want <= tiles[k].size && want % ALIGN == 0
      requires block == tiles[k].addr && previous == Before(Below(tiles, k), |Below(tiles, k)|)
      modifies this`mem, this`tiles, this`freeBytes
      ensures Linked() && freeBytes == FreeBytes(tiles) && tiles == Carve(old(tiles), k, want)
    {
      hide Tiling, Coalesced, FreeList, FreeBytes, Chain, LiveHeaders, Release, Carve, Parted, Below;
      var stale: int := *;
      ghost var ts := tiles;
      PartedMemory(mem, ts, base, end, k, want, stale);
      PartedFacts(ts, base, end, k, want);
      PartedShape(ts, k, want);
      CarveKeeps(ts, base, end, k, want);
      mem := mem[previous := Header(mem[block].next, mem[previous].size)];
      if mem[block].size - want > MINIMUM {
        var rest := block + want;
        mem := mem[rest := Header(stale, mem[block].size - want)];
        mem := mem[block := Header(mem[block].next, want)];
        tiles := Parted(ts, k, want);
        InsertBlockIntoFreeList(rest, k + 1);
      } else {
        tiles := Parted(ts, k, want);
      }
      LiveHeader(mem, tiles, k);
      freeBytes := freeBytes - mem[block].size;
    }

    /** vPortFree: the argument is NULL or the payload address of a live block. */
    method Free(p: int)
      requires Valid() && (p != NULL ==> p >= STRUCT && LiveIndex(Blocks(), p - STRUCT) < |Blocks()|)
      modifies this
      ensures Valid() && end == old(end)
      ensures Blocks() == if p == NULL then old(Blocks())
                          else Apply(old(Blocks()), total, HeapTiles.Op.Free(p - STRUCT))
    {
      hide Inv, FreeList, FreeBytes, Chain, LiveHeaders, Release;
      if p != NULL {
        var block: nat := p - STRUCT;
        ghost var k := LiveIndex(Blocks(), block);
        assert end != 0;
        LiveHeader(mem, tiles, k);
        ReleaseKeeps(tiles, base, end, k);
        freeBytes := freeBytes + mem[block].size;
        InsertBlockIntoFreeList(block, k);
      }
    }
  }
}
