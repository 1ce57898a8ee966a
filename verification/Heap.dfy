/** heap_4.c: the allocator itself, a singly linked free list threaded through the blocks' headers. */
module Heaps {
  import opened HeapTiles

  /** xBlockLink. */
  datatype Header = Header(next: int, size: nat)

  type Memory = map<int, Header>

  /** NULL, and the address of xStart, which lies outside the heap. */
  const NULL: int := 0
  const START: int := -1

  /** The address of entry i of the free list; the end marker follows the last entry. */
  function AddrAt(f: seq<Tile>, end: nat, i: nat): int {
    if i < |f| then f[i].addr else end
  }

  function Before(f: seq<Tile>, i: nat): int
    requires i <= |f|
  {
    if i == 0 then START else f[i - 1].addr
  }

  /** Every entry's header holds its size and leads to its successor, the last one to `to`. */
  ghost predicate Path(mem: Memory, f: seq<Tile>, to: nat) {
    forall i :: 0 <= i < |f| ==> f[i].addr in mem && mem[f[i].addr] == Header(AddrAt(f, to, i + 1), f[i].size)
  }

  /** xStart leads through the free blocks to the end marker. */
  ghost predicate Chain(mem: Memory, f: seq<Tile>, end: nat) {
    && START in mem && mem[START] == Header(AddrAt(f, end, 0), 0)
    && Path(mem, f, end)
    && end in mem && mem[end] == Header(NULL, 0)
  }

  /** Free blocks are strictly address-ordered and disjoint. */
  ghost predicate Spaced(f: seq<Tile>, lo: nat, hi: nat) {
    && (forall i :: 0 <= i < |f| ==> lo <= f[i].addr && f[i].size > 0 && End(f[i]) <= hi)
    && (forall i, j :: 0 <= i < j < |f| ==> End(f[i]) <= f[j].addr)
  }

  /** The header in front of each live block holds the block's size. */
  ghost predicate LiveHeaders(mem: Memory, ts: seq<Tile>) {
    forall t :: t in ts && !t.free ==> t.addr in mem && mem[t.addr].size == t.size
  }

  // ----- Paths through the headers

  lemma PathConcat(mem: Memory, a: seq<Tile>, c: seq<Tile>, to: nat)
    ensures Path(mem, a + c, to) <==> Path(mem, a, AddrAt(c, to, 0)) && Path(mem, c, to)
  {
    var f, mid := a + c, AddrAt(c, to, 0);
    forall i | 0 <= i < |a|
      ensures f[i] == a[i] && AddrAt(f, to, i + 1) == AddrAt(a, mid, i + 1)
    {
    }
    forall i | |a| <= i < |f|
      ensures f[i] == c[i - |a|] && AddrAt(f, to, i + 1) == AddrAt(c, to, i - |a| + 1)
    {
    }
    if Path(mem, f, to) {
      forall i | 0 <= i < |c|
        ensures c[i].addr in mem && mem[c[i].addr] == Header(AddrAt(c, to, i + 1), c[i].size)
      {
        assert f[|a| + i] == c[i];
      }
    }
  }

  lemma PathOne(mem: Memory, t: Tile, to: nat)
    ensures Path(mem, [t], to) <==> t.addr in mem && mem[t.addr] == Header(to, t.size)
  {
    assert AddrAt([t], to, 1) == to && [t][0] == t;
  }

  ghost predicate Avoids(f: seq<Tile>, addr: int) { forall i :: 0 <= i < |f| ==> f[i].addr != addr }

  lemma PathFrame(mem: Memory, f: seq<Tile>, to: nat, addr: int, h: Header)
    requires Path(mem, f, to) && Avoids(f, addr)
    ensures Path(mem[addr := h], f, to)
  {
  }

  // ----- The free list of a tiled heap

  lemma {:induction false} FreeListSpaced(ts: seq<Tile>, lo: nat, hi: nat)
    requires Tiling(ts, lo, hi)
    ensures Spaced(FreeList(ts), lo, hi)
    decreases |ts|
  {
    if ts != [] {
      var k := |ts| - 1;
      TilingSplit(ts, lo, hi, k);
      FreeListSpaced(ts[..k], lo, ts[k].addr);
    }
  }

  lemma SpacedSplit(a: seq<Tile>, c: seq<Tile>, lo: nat, hi: nat)
    requires Spaced(a + c, lo, hi)
    ensures Spaced(a, lo, hi) && Spaced(c, lo, hi)
    ensures forall i, j :: 0 <= i < |a| && 0 <= j < |c| ==> End(a[i]) <= c[j].addr
  {
    var f := a + c;
    assert forall i :: 0 <= i < |a| ==> f[i] == a[i];
    assert forall i :: 0 <= i < |c| ==> f[|a| + i] == c[i];
  }

  lemma {:induction false} Increasing(ts: seq<Tile>, lo: nat, hi: nat, i: nat, j: nat)
    requires Tiling(ts, lo, hi) && i < j < |ts|
    ensures End(ts[i]) <= ts[j].addr
  {
    TilingSplit(ts, lo, hi, j);
    TilingSplit(ts[..j], lo, ts[j].addr, i);
  }

  // ----- Changing the free list

  /** A block joins behind the entries `a`, swallowing the entries `d` that follow it. */
  lemma ChainJoin(mem: Memory, a: seq<Tile>, d: seq<Tile>, c: seq<Tile>, end: nat, t: Tile)
    requires Chain(mem, a + (d + c), end)
    requires Avoids(a, t.addr) && Avoids(c, t.addr) && t.addr != end
    requires Avoids(a, end) && Avoids(c, end) && Avoids(c, Before(a, |a|))
    requires forall i, j :: 0 <= i < j < |a| ==> a[i].addr != a[j].addr
    ensures var at := Before(a, |a|);
            at in mem && Chain(mem[t.addr := Header(AddrAt(c, end, 0), t.size)][at := Header(t.addr, mem[at].size)],
                               a + ([t] + c), end)
  {
    hide Path, Avoids;
    var at, next := Before(a, |a|), AddrAt(c, end, 0);
    PathConcat(mem, a, d + c, end);
    PathConcat(mem, d, c, end);
    var m1 := mem[t.addr := Header(next, t.size)];
    PathFrame(mem, c, end, t.addr, m1[t.addr]);
    PathFrame(mem, a, AddrAt(d + c, end, 0), t.addr, m1[t.addr]);
    if a == [] {
      var m2 := m1[at := Header(t.addr, mem[at].size)];
      PathFrame(m1, c, end, at, m2[at]);
      PathOne(m2, t, next);
      PathConcat(m2, [t], c, end);
      assert a + ([t] + c) == [t] + c && a + (d + c) == d + c;
    } else {
      var front, last := a[..|a| - 1], a[|a| - 1];
      assert a == front + [last];
      PathConcat(m1, front, [last], AddrAt(d + c, end, 0));
      PathOne(m1, last, AddrAt(d + c, end, 0));
      LastAvoided(a);
      EndAvoided(a, end);
      EndAvoided(a, t.addr);
      assert at in mem;
      var m2 := m1[at := Header(t.addr, mem[at].size)];
      PathFrame(m1, c, end, at, m2[at]);
      PathFrame(m1, front, at, at, m2[at]);
      PathOne(m2, last, t.addr);
      PathConcat(m2, front, [last], t.addr);
      PathOne(m2, t, next);
      PathConcat(m2, [t], c, end);
      PathConcat(m2, a, [t] + c, end);
      assert AddrAt(a + ([t] + c), end, 0) == AddrAt(a, end, 0) == AddrAt(a + (d + c), end, 0);
    }
  }

  lemma LastAvoided(a: seq<Tile>)
    requires a != [] && forall i, j :: 0 <= i < j < |a| ==> a[i].addr != a[j].addr
    ensures Avoids(a[..|a| - 1], a[|a| - 1].addr)
  {
  }

  lemma EndAvoided(a: seq<Tile>, addr: int)
    requires a != [] && Avoids(a, addr)
    ensures a[|a| - 1].addr != addr
  {
  }

  /** An entry grows at its far end, swallowing the entries `d` that follow it. */
  lemma ChainGrow(mem: Memory, a: seq<Tile>, x: Tile, d: seq<Tile>, c: seq<Tile>, end: nat, t: Tile)
    requires Chain(mem, a + ([x] + (d + c)), end) && t.addr == x.addr
    requires Avoids(a, t.addr) && Avoids(c, t.addr) && t.addr != end
    ensures Chain(mem[t.addr := Header(AddrAt(c, end, 0), t.size)], a + ([t] + c), end)
  {
    hide Path, Avoids;
    var next := AddrAt(c, end, 0);
    PathConcat(mem, a, [x] + (d + c), end);
    PathConcat(mem, [x], d + c, end);
    PathConcat(mem, d, c, end);
    var m := mem[t.addr := Header(next, t.size)];
    PathFrame(mem, a, t.addr, t.addr, m[t.addr]);
    PathFrame(mem, c, end, t.addr, m[t.addr]);
    PathOne(m, t, next);
    PathConcat(m, [t], c, end);
    PathConcat(m, a, [t] + c, end);
    assert AddrAt(a + ([t] + c), end, 0) == AddrAt(a + ([x] + (d + c)), end, 0);
  }

  /** The entry behind the entries `a` leaves the list. */
  lemma ChainLeave(mem: Memory, a: seq<Tile>, x: Tile, c: seq<Tile>, end: nat)
    requires Chain(mem, a + ([x] + c), end)
    requires Avoids(a, end) && Avoids(c, Before(a, |a|))
    requires forall i, j :: 0 <= i < j < |a| ==> a[i].addr != a[j].addr
    ensures var at := Before(a, |a|);
            at in mem && x.addr in mem
            && Chain(mem[at := Header(mem[x.addr].next, mem[at].size)], a + c, end)
  {
    hide Path, Avoids;
    var at, next := Before(a, |a|), AddrAt(c, end, 0);
    PathConcat(mem, a, [x] + c, end);
    PathConcat(mem, [x], c, end);
    PathOne(mem, x, next);
    if a == [] {
      var m := mem[at := Header(next, mem[at].size)];
      PathFrame(mem, c, end, at, m[at]);
      assert a + ([x] + c) == [x] + c && a + c == c;
    } else {
      var front, last := a[..|a| - 1], a[|a| - 1];
      assert a == front + [last];
      PathConcat(mem, front, [last], x.addr);
      PathOne(mem, last, x.addr);
      LastAvoided(a);
      EndAvoided(a, end);
      assert at in mem;
      var m := mem[at := Header(next, mem[at].size)];
      PathFrame(mem, c, end, at, m[at]);
      PathFrame(mem, front, at, at, m[at]);
      PathOne(m, last, next);
      PathConcat(m, front, [last], next);
      PathConcat(m, a, c, end);
      assert AddrAt(a + c, end, 0) == AddrAt(a, end, 0) == AddrAt(a + ([x] + c), end, 0);
    }
  }

  // ----- What the changes mean for the blocks

  lemma {:induction false} FreeListMembers(ts: seq<Tile>)
    ensures forall t :: t in FreeList(ts) <==> t in ts && t.free
    decreases |ts|
  {
    if ts != [] {
      var k := |ts| - 1;
      FreeListMembers(ts[..k]);
      assert ts == ts[..k] + [ts[k]];
    }
  }

  /** The blocks on either side of block k, seen from the free list. */
  lemma FreeAround(ts: seq<Tile>, lo: nat, hi: nat, k: nat)
    requires Tiling(ts, lo, hi) && k < |ts|
    ensures Spaced(FreeList(ts[..k]), lo, ts[k].addr) && Spaced(FreeList(ts[k + 1..]), End(ts[k]), hi)
    ensures lo <= ts[k].addr && ts[k].size > 0 && End(ts[k]) <= hi
    ensures FreeList(ts) == FreeList(ts[..k]) + (if ts[k].free then [ts[k]] else []) + FreeList(ts[k + 1..])
  {
    hide FreeList, FreeBytes, Spaced;
    TilingSplit(ts, lo, hi, k);
    FreeListSpaced(ts[..k], lo, ts[k].addr);
    FreeListSpaced(ts[k + 1..], End(ts[k]), hi);
    Around(ts, k);
  }

  /** The last free block below block k adjoins it exactly when the block before it is free. */
  lemma JoinsLeft(ts: seq<Tile>, lo: nat, hi: nat, k: nat)
    requires Tiling(ts, lo, hi) && k < |ts|
    ensures var a := FreeList(ts[..k]);
            if k > 0 && ts[k - 1].free then a == FreeList(ts[..k - 1]) + [ts[k - 1]] && End(ts[k - 1]) == ts[k].addr
            else a != [] ==> End(a[|a| - 1]) < ts[k].addr
  {
    if k > 0 {
      Neighbours(ts, lo, hi, k - 1);
      FreeAround(ts, lo, hi, k - 1);
      assert ts[..k][..k - 1] == ts[..k - 1];
    }
  }

  lemma JoinsRight(ts: seq<Tile>, lo: nat, hi: nat, k: nat)
    requires Tiling(ts, lo, hi) && k < |ts|
    ensures var c := FreeList(ts[k + 1..]);
            if k + 1 < |ts| && ts[k + 1].free
            then c == [ts[k + 1]] + FreeList(ts[k + 2..]) && End(ts[k]) == ts[k + 1].addr
            else c != [] ==> End(ts[k]) < c[0].addr
  {
    hide FreeList, FreeBytes;
    if k + 1 < |ts| {
      Neighbours(ts, lo, hi, k);
      FreeAround(ts, lo, hi, k + 1);
      FirstApart(ts[k + 1..]);
      assert ts[k + 1..][1..] == ts[k + 2..];
      FirstLive(ts[k + 1..]);
    } else {
      FreeBytesNone();
      assert ts[k + 1..] == [];
    }
  }

  lemma FirstLive(ts: seq<Tile>)
    requires ts != []
    ensures !ts[0].free ==> FreeList(ts) == FreeList(ts[1..])
  {
    hide FreeList, FreeBytes;
    Around(ts, 0);
    assert ts[..0] == [];
    FreeBytesNone();
  }

  /** The free list after freeing block k. */
  lemma ReleasedList(ts: seq<Tile>, k: nat)
    requires k < |ts| && !ts[k].free
    ensures var left, right := k > 0 && ts[k - 1].free, k + 1 < |ts| && ts[k + 1].free;
            var a, c := if left then ts[..k - 1] else ts[..k], if right then ts[k + 2..] else ts[k + 1..];
            FreeList(Release(ts, k)) == FreeList(a) + ([Release(ts, k)[|a|]] + FreeList(c))
  {
    hide FreeList, FreeBytes;
    var left, right := k > 0 && ts[k - 1].free, k + 1 < |ts| && ts[k + 1].free;
    var a, c := if left then ts[..k - 1] else ts[..k], if right then ts[k + 2..] else ts[k + 1..];
    var t := Release(ts, k)[|a|];
    Joined(a, t, c);
    assert Release(ts, k) == a + [t] + c;
    assert FreeList(a) + [t] + FreeList(c) == FreeList(a) + ([t] + FreeList(c));
  }

  /** A block that is live after freeing block k was live before. */
  ghost function StillLive(ts: seq<Tile>, k: nat, t: Tile): (i: nat)
    requires k < |ts| && t in Release(ts, k) && !t.free
    ensures i < |ts| && i != k && ts[i] == t
  {
    var i :| 0 <= i < |Release(ts, k)| && Release(ts, k)[i] == t;
    if i < k then i else i + |ts| - |Release(ts, k)|
  }

  /** Only the freed block's header and its predecessor's are written. */
  lemma ReleasedHeaders(mem: Memory, after: Memory, ts: seq<Tile>, lo: nat, hi: nat, k: nat)
    requires Tiling(ts, lo, hi) && k < |ts| && !ts[k].free && LiveHeaders(mem, ts)
    requires var a := FreeList(ts[..k]);
             forall x :: x in mem && x != ts[k].addr && x != Before(a, |a|) ==> x in after && after[x] == mem[x]
    ensures LiveHeaders(after, Release(ts, k))
  {
    hide FreeList, FreeBytes, Tiling, Release;
    var a := FreeList(ts[..k]);
    FreeListMembers(ts[..k]);
    forall t | t in Release(ts, k) && !t.free
      ensures t.addr in after && after[t.addr].size == t.size
    {
      var i := StillLive(ts, k, t);
      Apart(ts, lo, hi, i, k);
      if a != [] {
        var j :| 0 <= j < k && ts[j] == a[|a| - 1];
        Apart(ts, lo, hi, i, j);
      }
    }
  }

  lemma Apart(ts: seq<Tile>, lo: nat, hi: nat, i: nat, j: nat)
    requires Tiling(ts, lo, hi) && i < |ts| && j < |ts| && i != j
    ensures ts[i].addr != ts[j].addr
  {
    if i < j { Increasing(ts, lo, hi, i, j); } else { Increasing(ts, lo, hi, j, i); }
    TilingSplit(ts, lo, hi, i);
    TilingSplit(ts, lo, hi, j);
  }

  /** The first entry of the free list that is large enough is the first fit among the blocks. */
  lemma FitInList(ts: seq<Tile>, want: nat, i: nat)
    requires var f := FreeList(ts);
             && i <= |f| && (forall j :: 0 <= j < i ==> f[j].size < want) && (i < |f| ==> f[i].size >= want)
    ensures var k := FirstFit(ts, want);
            if i == |FreeList(ts)| then k == |ts|
            else k < |ts| && ts[k] == FreeList(ts)[i] && FreeList(ts[..k]) == FreeList(ts)[..i]
  {
    hide FreeList, FreeBytes;
    var f, k := FreeList(ts), FirstFit(ts, want);
    if k < |ts| {
      Around(ts, k);
      var a := FreeList(ts[..k]);
      SmallList(ts[..k], want);
      assert f == a + [ts[k]] + FreeList(ts[k + 1..]);
      assert f[|a|] == ts[k] && forall j :: 0 <= j < |a| ==> f[j] == a[j];
    } else {
      SmallList(ts, want);
    }
  }

  lemma SmallList(ts: seq<Tile>, want: nat)
    requires forall i :: 0 <= i < |ts| ==> !(ts[i].free && ts[i].size >= want)
    ensures var f := FreeList(ts); forall j :: 0 <= j < |f| ==> f[j].size < want
  {
    hide FreeList;
    FreeListMembers(ts);
    var f := FreeList(ts);
    assert forall j :: 0 <= j < |f| ==> f[j] in f;
  }

  // ----- Linking a freed block

  lemma SpacedAvoids(f: seq<Tile>, lo: nat, hi: nat)
    requires Spaced(f, lo, hi)
    ensures forall x: int :: x < lo || x >= hi ==> Avoids(f, x)
    ensures forall i, j :: 0 <= i < j < |f| ==> f[i].addr != f[j].addr
    ensures f != [] ==> lo <= f[|f| - 1].addr < hi
  {
  }

  /** The free list just below and just above block k as the links see it. */
  function Below(ts: seq<Tile>, k: nat): seq<Tile>
    requires k < |ts|
  {
    FreeList(ts[..k])
  }

  function Above(ts: seq<Tile>, k: nat): seq<Tile>
    requires k < |ts|
  {
    FreeList(ts[k + 1..])
  }

  function Beyond(ts: seq<Tile>, k: nat): seq<Tile>
    requires k < |ts|
  {
    FreeList(if k + 1 < |ts| && ts[k + 1].free then ts[k + 2..] else ts[k + 1..])
  }

  function Grown(ts: seq<Tile>, k: nat): (t: Tile)
    requires k < |ts|
  {
    var left := k > 0 && ts[k - 1].free;
    Release(ts, k)[if left then k - 1 else k]
  }

  /** The memory once block k is on the free list, merged with its free neighbours. */
  function LinkedMemory(mem: Memory, ts: seq<Tile>, end: nat, k: nat): Memory
    requires k < |ts| && Before(Below(ts, k), |Below(ts, k)|) in mem
  {
    var at := Before(Below(ts, k), |Below(ts, k)|);
    var h := Header(AddrAt(Beyond(ts, k), end, 0), Grown(ts, k).size);
    if k > 0 && ts[k - 1].free then mem[at := h] else mem[ts[k].addr := h][at := Header(ts[k].addr, mem[at].size)]
  }

  /** The entries swallowed when block k is freed. */
  function Swallowed(ts: seq<Tile>, k: nat): seq<Tile>
    requires k < |ts|
  {
    if k + 1 < |ts| && ts[k + 1].free then [ts[k + 1]] else []
  }

  lemma UpwardLinks(ts: seq<Tile>, lo: nat, end: nat, k: nat)
    requires Tiling(ts, lo, end) && k < |ts| && !ts[k].free
    ensures Above(ts, k) == Swallowed(ts, k) + Beyond(ts, k)
    ensures forall x: int :: x < End(ts[k]) || x >= end ==> Avoids(Beyond(ts, k), x)
  {
    hide Tiling, FreeList, Spaced, Avoids;
    FreeAround(ts, lo, end, k);
    JoinsRight(ts, lo, end, k);
    assert Above(ts, k) == Swallowed(ts, k) + Beyond(ts, k);
    SpacedSplit(Swallowed(ts, k), Beyond(ts, k), End(ts[k]), end);
    SpacedAvoids(Beyond(ts, k), End(ts[k]), end);
  }

  lemma DownwardLinks(ts: seq<Tile>, lo: nat, end: nat, k: nat)
    requires Tiling(ts, lo, end) && k < |ts| && !ts[k].free
    ensures var a := Below(ts, k);
            && (forall x: int :: x < lo || x >= ts[k].addr ==> Avoids(a, x))
            && (forall i, j :: 0 <= i < j < |a| ==> a[i].addr != a[j].addr)
            && Before(a, |a|) < ts[k].addr < end
    ensures k > 0 && ts[k - 1].free ==> Below(ts, k) == FreeList(ts[..k - 1]) + [ts[k - 1]]
                                        && Avoids(FreeList(ts[..k - 1]), ts[k - 1].addr)
  {
    hide Tiling, FreeList, Spaced, Avoids;
    FreeAround(ts, lo, end, k);
    JoinsLeft(ts, lo, end, k);
    var a := Below(ts, k);
    SpacedAvoids(a, lo, ts[k].addr);
    if k > 0 && ts[k - 1].free {
      LastAvoided(a);
      assert a[..|a| - 1] == FreeList(ts[..k - 1]);
    }
  }

  lemma LinkedChain(mem: Memory, ts: seq<Tile>, lo: nat, end: nat, k: nat)
    requires Tiling(ts, lo, end) && k < |ts| && !ts[k].free && Chain(mem, FreeList(ts), end)
    ensures Before(Below(ts, k), |Below(ts, k)|) in mem
    ensures Chain(LinkedMemory(mem, ts, end, k), FreeList(Release(ts, k)), end)
  {
    hide Tiling, FreeList, FreeBytes, Spaced, Path, Avoids, Release, Above, Beyond, Grown, Chain;
    var a, d, c, t := Below(ts, k), Swallowed(ts, k), Beyond(ts, k), Grown(ts, k);
    FreeAround(ts, lo, end, k);
    UpwardLinks(ts, lo, end, k);
    DownwardLinks(ts, lo, end, k);
    ReleasedList(ts, k);
    GrownFrom(ts, k);
    assert FreeList(ts) == a + (d + c) by { AboveIs(ts, k); }
    if k > 0 && ts[k - 1].free {
      var front := FreeList(ts[..k - 1]);
      assert a + (d + c) == front + ([ts[k - 1]] + (d + c));
      BeyondIs(ts, k);
      ChainGrow(mem, front, ts[k - 1], d, c, end, t);
      ChainHas(mem, front, ts[k - 1], d + c, end);
    } else {
      BeyondIs(ts, k);
      ChainJoin(mem, a, d, c, end, t);
    }
  }

  lemma AboveIs(ts: seq<Tile>, k: nat)
    requires k < |ts|
    ensures Above(ts, k) == FreeList(ts[k + 1..])
  {
  }

  lemma BeyondIs(ts: seq<Tile>, k: nat)
    requires k < |ts|
    ensures Beyond(ts, k) == FreeList(if k + 1 < |ts| && ts[k + 1].free then ts[k + 2..] else ts[k + 1..])
  {
  }

  lemma ChainHas(mem: Memory, a: seq<Tile>, x: Tile, c: seq<Tile>, end: nat)
    requires Chain(mem, a + ([x] + c), end)
    ensures x.addr in mem && mem[x.addr] == Header(AddrAt(c, end, 0), x.size)
  {
    PathConcat(mem, a, [x] + c, end);
    PathConcat(mem, [x], c, end);
    PathOne(mem, x, AddrAt(c, end, 0));
  }

  lemma GrownFrom(ts: seq<Tile>, k: nat)
    requires k < |ts| && !ts[k].free
    ensures Grown(ts, k).addr == (if k > 0 && ts[k - 1].free then ts[k - 1].addr else ts[k].addr)
    ensures Grown(ts, k).size == ts[k].size + (if k > 0 && ts[k - 1].free then ts[k - 1].size else 0)
                                 + (if k + 1 < |ts| && ts[k + 1].free then ts[k + 1].size else 0)
    ensures var left, right := k > 0 && ts[k - 1].free, k + 1 < |ts| && ts[k + 1].free;
            var a := if left then ts[..k - 1] else ts[..k];
            Release(ts, k)[|a|] == Grown(ts, k)
  {
  }
}
