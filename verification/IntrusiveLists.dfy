/** list.c and list.h at the level of links: circular doubly linked lists threaded through their items
    and end markers, all in one memory.  Every operation is proved against the sequence-and-cursor values
    of module XLists, and leaves every other list alone. */
module IntrusiveLists {
  import opened XLists

  /** portMAX_DELAY, the value of the end marker. */
  const MAX_DELAY: nat := 0xffff_ffff

  /** The address of the end marker of a list or of a list item, both named by numbers. */
  datatype Ref = Marker(list: nat) | Entry(item: nat)

  type Links = map<Ref, Ref>

  /** The ring of a list: its end marker followed by its items. */
  function Ring(l: nat, items: seq<nat>): (r: seq<Ref>)
    ensures |r| == |items| + 1 && r[0] == Marker(l)
    ensures forall k {:trigger items[k]} :: 0 <= k < |items| ==> r[k + 1] == Entry(items[k])
  {
    [Marker(l)] + seq(|items|, k requires 0 <= k < |items| => Entry(items[k]))
  }

  ghost predicate Forward(next: Links, ring: seq<Ref>) {
    && ring != []
    && (forall k {:trigger ring[k]} :: 0 <= k < |ring| ==> ring[k] in next)
    && (forall k {:trigger next[ring[k]]} :: 0 <= k < |ring| - 1 ==> next[ring[k]] == ring[k + 1])
    && next[ring[|ring| - 1]] == ring[0]
  }

  ghost predicate Backward(previous: Links, ring: seq<Ref>) {
    && ring != []
    && (forall k {:trigger ring[k]} :: 0 <= k < |ring| ==> ring[k] in previous)
    && (forall k {:trigger previous[ring[k]]} :: 0 < k < |ring| ==> previous[ring[k]] == ring[k - 1])
    && previous[ring[0]] == ring[|ring| - 1]
  }

  /** One cycle with mutually inverse links. */
  ghost predicate Linked(next: Links, previous: Links, ring: seq<Ref>) {
    NoDup(ring) && Forward(next, ring) && Backward(previous, ring)
  }

  /** The neighbours of a place on the ring. */
  function After(ring: seq<Ref>, k: nat): Ref
    requires k < |ring|
  {
    if k + 1 < |ring| then ring[k + 1] else ring[0]
  }

  function Behind(ring: seq<Ref>, k: nat): Ref
    requires k < |ring|
  {
    if k > 0 then ring[k - 1] else ring[|ring| - 1]
  }

  lemma ForwardAt(next: Links, ring: seq<Ref>, k: nat)
    requires Forward(next, ring) && k < |ring|
    ensures ring[k] in next && next[ring[k]] == After(ring, k)
  {
  }

  lemma ForwardFrom(next: Links, ring: seq<Ref>)
    requires ring != []
    requires forall k :: 0 <= k < |ring| ==> ring[k] in next && next[ring[k]] == After(ring, k)
    ensures Forward(next, ring)
  {
    forall k | 0 <= k < |ring| ensures ring[k] in next && next[ring[k]] == After(ring, k) {}
  }

  lemma BackwardAt(previous: Links, ring: seq<Ref>, k: nat)
    requires Backward(previous, ring) && k < |ring|
    ensures ring[k] in previous && previous[ring[k]] == Behind(ring, k)
  {
  }

  lemma BackwardFrom(previous: Links, ring: seq<Ref>)
    requires ring != []
    requires forall k :: 0 <= k < |ring| ==> ring[k] in previous && previous[ring[k]] == Behind(ring, k)
    ensures Backward(previous, ring)
  {
    forall k | 0 <= k < |ring| ensures ring[k] in previous && previous[ring[k]] == Behind(ring, k) {}
  }

  lemma SplicedAt(ring: seq<Ref>, at: nat, x: Ref, k: nat)
    requires at <= |ring| && k <= |ring|
    ensures Spliced(ring, at, x)[k] == if k < at then ring[k] else if k == at then x else ring[k - 1]
  {
  }

  lemma CutAt(ring: seq<Ref>, at: nat, k: nat)
    requires at < |ring| && k < |ring| - 1
    ensures Cut(ring, at)[k] == if k < at then ring[k] else ring[k + 1]
  {
  }

  lemma Apart(ring: seq<Ref>, i: nat, j: nat)
    requires NoDup(ring) && i < |ring| && j < |ring| && i != j
    ensures ring[i] != ring[j]
  {
  }

  lemma ForwardIn(next: Links, ring: seq<Ref>, at: nat, x: Ref)
    requires NoDup(ring) && Forward(next, ring) && at < |ring| && x !in ring
    ensures ring[at] in next && Forward(next[x := next[ring[at]]][ring[at] := x], Spliced(ring, at + 1, x))
  {
    hide Forward, NoDup;
    ForwardAt(next, ring, at);
    var n, r := next[x := next[ring[at]]][ring[at] := x], Spliced(ring, at + 1, x);
    forall k | 0 <= k < |r| ensures r[k] in n && n[r[k]] == After(r, k) { ForwardInAt(next, ring, at, x, k); }
    ForwardFrom(n, r);
  }

  lemma ForwardInAt(next: Links, ring: seq<Ref>, at: nat, x: Ref, k: nat)
    requires NoDup(ring) && Forward(next, ring) && at < |ring| && x !in ring && k <= |ring| && ring[at] in next
    ensures var n, r := next[x := next[ring[at]]][ring[at] := x], Spliced(ring, at + 1, x);
            r[k] in n && n[r[k]] == After(r, k)
  {
    hide Forward, NoDup, Spliced;
    var r := Spliced(ring, at + 1, x);
    assert |r| == |ring| + 1 by { SplicedLength(ring, at + 1, x); }
    SplicedAt(ring, at + 1, x, k);
    SplicedAt(ring, at + 1, x, if k < |ring| then k + 1 else 0);
    ForwardAt(next, ring, at);
    if k < at {
      Apart(ring, k, at);
      ForwardAt(next, ring, k);
    } else if k > at + 1 {
      Apart(ring, k - 1, at);
      ForwardAt(next, ring, k - 1);
    }
  }

  lemma SplicedLength(ring: seq<Ref>, at: nat, x: Ref)
    requires at <= |ring|
    ensures |Spliced(ring, at, x)| == |ring| + 1
  {
  }

  lemma BackwardIn(previous: Links, ring: seq<Ref>, at: nat, x: Ref)
    requires NoDup(ring) && Backward(previous, ring) && at < |ring| && x !in ring
    ensures Backward(previous[x := ring[at]][After(ring, at) := x], Spliced(ring, at + 1, x))
  {
    hide Backward, NoDup;
    var p, r := previous[x := ring[at]][After(ring, at) := x], Spliced(ring, at + 1, x);
    forall k | 0 <= k < |r| ensures r[k] in p && p[r[k]] == Behind(r, k) { BackwardInAt(previous, ring, at, x, k); }
    BackwardFrom(p, r);
  }

  lemma BackwardInAt(previous: Links, ring: seq<Ref>, at: nat, x: Ref, k: nat)
    requires NoDup(ring) && Backward(previous, ring) && at < |ring| && x !in ring && k <= |ring|
    ensures var p, r := previous[x := ring[at]][After(ring, at) := x], Spliced(ring, at + 1, x);
            r[k] in p && p[r[k]] == Behind(r, k)
  {
    hide Backward, NoDup, Spliced;
    var r := Spliced(ring, at + 1, x);
    assert |r| == |ring| + 1 by { SplicedLength(ring, at + 1, x); }
    SplicedAt(ring, at + 1, x, k);
    SplicedAt(ring, at + 1, x, if k > 0 then k - 1 else |ring|);
    var after := if at + 1 < |ring| then at + 1 else 0;
    if k <= at {
      BackwardAt(previous, ring, k);
      if k != after { Apart(ring, k, after); }
    } else if k > at + 1 {
      BackwardAt(previous, ring, k - 1);
      if k - 1 != after { Apart(ring, k - 1, after); }
    }
  }

  lemma ForwardOut(next: Links, ring: seq<Ref>, k: nat)
    requires NoDup(ring) && Forward(next, ring) && 0 < k < |ring|
    ensures ring[k] in next && Forward(next[ring[k - 1] := next[ring[k]]], Cut(ring, k))
  {
    hide Forward, NoDup;
    ForwardAt(next, ring, k);
    var n, r := next[ring[k - 1] := next[ring[k]]], Cut(ring, k);
    forall j | 0 <= j < |r| ensures r[j] in n && n[r[j]] == After(r, j) { ForwardOutAt(next, ring, k, j); }
    ForwardFrom(n, r);
  }

  lemma ForwardOutAt(next: Links, ring: seq<Ref>, k: nat, j: nat)
    requires NoDup(ring) && Forward(next, ring) && 0 < k < |ring| && j < |ring| - 1 && ring[k] in next
    ensures var n, r := next[ring[k - 1] := next[ring[k]]], Cut(ring, k);
            |r| == |ring| - 1 && r[j] in n && n[r[j]] == After(r, j)
  {
    hide Forward, NoDup;
    CutAt(ring, k, j);
    CutAt(ring, k, if j + 1 < |ring| - 1 then j + 1 else 0);
    ForwardAt(next, ring, k);
    var i := if j < k then j else j + 1;
    ForwardAt(next, ring, i);
    if i != k - 1 { Apart(ring, i, k - 1); }
  }

  lemma BackwardOut(previous: Links, ring: seq<Ref>, k: nat)
    requires NoDup(ring) && Backward(previous, ring) && 0 < k < |ring|
    ensures ring[k] in previous && Backward(previous[After(ring, k) := previous[ring[k]]], Cut(ring, k))
  {
    hide Backward, NoDup;
    BackwardAt(previous, ring, k);
    var p, r := previous[After(ring, k) := previous[ring[k]]], Cut(ring, k);
    forall j | 0 <= j < |r| ensures r[j] in p && p[r[j]] == Behind(r, j) { BackwardOutAt(previous, ring, k, j); }
    BackwardFrom(p, r);
  }

  lemma BackwardOutAt(previous: Links, ring: seq<Ref>, k: nat, j: nat)
    requires NoDup(ring) && Backward(previous, ring) && 0 < k < |ring| && j < |ring| - 1 && ring[k] in previous
    ensures var p, r := previous[After(ring, k) := previous[ring[k]]], Cut(ring, k);
            |r| == |ring| - 1 && r[j] in p && p[r[j]] == Behind(r, j)
  {
    hide Backward, NoDup;
    CutAt(ring, k, j);
    CutAt(ring, k, if j > 0 then j - 1 else |ring| - 2);
    BackwardAt(previous, ring, k);
    var i, after := if j < k then j else j + 1, if k + 1 < |ring| then k + 1 else 0;
    BackwardAt(previous, ring, i);
    if i != after { Apart(ring, i, after); }
  }

  /** The link writes of both insertions, placing x behind ring[at]. */
  lemma LinkIn(next: Links, previous: Links, ring: seq<Ref>, at: nat, x: Ref)
    requires Linked(next, previous, ring) && at < |ring| && x !in ring
    ensures var b, a := ring[at], next[ring[at]];
            Linked(next[x := a][b := x], previous[x := b][a := x], Spliced(ring, at + 1, x))
  {
    SplicedFacts(ring, at + 1, x);
    ForwardIn(next, ring, at, x);
    BackwardIn(previous, ring, at, x);
  }

  /** The link writes of uxListRemove. */
  lemma LinkOut(next: Links, previous: Links, ring: seq<Ref>, k: nat)
    requires Linked(next, previous, ring) && 0 < k < |ring|
    ensures var a, b := next[ring[k]], previous[ring[k]];
            Linked(next[b := a], previous[a := b], Cut(ring, k))
  {
    CutFacts(ring, k);
    ForwardOut(next, ring, k);
    BackwardOut(previous, ring, k);
  }

  lemma NextOnRing(next: Links, previous: Links, ring: seq<Ref>, k: nat)
    requires Linked(next, previous, ring) && k < |ring|
    ensures ring[k] in next && ring[k] in previous
    ensures next[ring[k]] == if k + 1 < |ring| then ring[k + 1] else ring[0]
    ensures previous[ring[k]] == if k > 0 then ring[k - 1] else ring[|ring| - 1]
  {
  }

  lemma RingSpliced(l: nat, items: seq<nat>, at: nat, x: nat)
    requires at <= |items|
    ensures Ring(l, Spliced(items, at, x)) == Spliced(Ring(l, items), at + 1, Entry(x))
    ensures x !in items ==> Entry(x) !in Ring(l, items)
  {
    hide Ring;
    var a, b := Ring(l, Spliced(items, at, x)), Spliced(Ring(l, items), at + 1, Entry(x));
    RingEntries(l, items);
    RingEntries(l, Spliced(items, at, x));
    forall k | 0 <= k < |a| ensures a[k] == b[k] {
      SplicedAt(Ring(l, items), at + 1, Entry(x), k);
      if k > 0 {
        var n := k - 1;
        assert Spliced(items, at, x)[n] == if n < at then items[n] else if n == at then x else items[n - 1];
      }
    }
  }

  lemma RingEntries(l: nat, items: seq<nat>)
    ensures Ring(l, items)[0] == Marker(l) && |Ring(l, items)| == |items| + 1
    ensures forall n :: 0 < n <= |items| ==> Ring(l, items)[n] == Entry(items[n - 1])
  {
  }

  lemma RingCut(l: nat, items: seq<nat>, k: nat)
    requires k < |items|
    ensures Ring(l, Cut(items, k)) == Cut(Ring(l, items), k + 1)
  {
    hide Ring;
    var a, b := Ring(l, Cut(items, k)), Cut(Ring(l, items), k + 1);
    RingEntries(l, items);
    RingEntries(l, Cut(items, k));
    forall n | 0 <= n < |a| ensures a[n] == b[n] {
      CutAt(Ring(l, items), k + 1, n);
      if n > 0 { assert Cut(items, k)[n - 1] == items[if n - 1 < k then n - 1 else n]; }
    }
  }

  /** A cursor on the removed item ends on its predecessor; any other cursor stays on its node. */
  lemma CursorAfterRemoval(l: nat, xl: XList<nat>, k: nat)
    requires xl.cursor <= |xl.items| && k < |xl.items| && NoDup(Ring(l, xl.items))
    ensures var ring, r := Ring(l, xl.items), RemoveAt(xl, k);
            Ring(l, r.items)[r.cursor] == if ring[xl.cursor] == ring[k + 1] then ring[k] else ring[xl.cursor]
  {
    hide NoDup, Ring;
    RingCut(l, xl.items, k);
    RingEntries(l, xl.items);
    var ring, r := Ring(l, xl.items), RemoveAt(xl, k);
    if xl.cursor != k + 1 { Apart(ring, xl.cursor, k + 1); }
    CutAt(ring, k + 1, r.cursor);
  }

  /** A cursor stays on its node when an item is linked in elsewhere. */
  lemma SplicedKnown(l: nat, items: seq<nat>, at: nat, x: nat)
    requires at <= |items|
    ensures |Spliced(items, at, x)| == |items| + 1
    ensures var ring := Ring(l, Spliced(items, at, x));
            && ring[at + 1] == Entry(x)
            && (forall c :: 0 <= c <= |items| ==> Ring(l, items)[c] == ring[if c <= at then c else c + 1])
  {
    hide Ring;
    var r := Spliced(items, at, x);
    RingSpliced(l, items, at, x);
    RingEntries(l, items);
    RingEntries(l, r);
    SplicedAt(Ring(l, items), at + 1, Entry(x), at + 1);
    forall c | 0 <= c <= |items| ensures Ring(l, items)[c] == Ring(l, r)[if c <= at then c else c + 1] {
      SplicedAt(Ring(l, items), at + 1, Entry(x), if c <= at then c else c + 1);
    }
  }

  lemma SplicedMembers(items: seq<nat>, at: nat, x: nat)
    requires at <= |items|
    ensures forall y :: y in Spliced(items, at, x) <==> y == x || y in items
  {
    assert Spliced(items, at, x)[at] == x && items == items[..at] + items[at..];
  }

  lemma CutMembers(l: nat, items: seq<nat>, k: nat)
    requires k < |items| && NoDup(Ring(l, items))
    ensures forall y :: y in Cut(items, k) <==> y in items && y != items[k]
  {
    var ring := Ring(l, items);
    assert forall i :: 0 <= i < |items| ==> ring[i + 1] == Entry(items[i]);
    assert items == items[..k] + [items[k]] + items[k + 1..];
    forall i, j | 0 <= i < j < |items| ensures items[i] != items[j] { assert ring[i + 1] != ring[j + 1]; }
  }

  // ----- Several lists in one memory

  /** One cycle through the end marker of l with mutually inverse links, a correct count and a cursor on
      the ring. */
  ghost predicate OneList(next: Links, previous: Links, index: map<nat, Ref>, count: map<nat, nat>,
                          l: nat, xl: XList<nat>) {
    && Linked(next, previous, Ring(l, xl.items)) && xl.cursor <= |xl.items|
    && l in index && index[l] == Ring(l, xl.items)[xl.cursor]
    && l in count && count[l] == |xl.items|
  }

  /** pvContainer of exactly the items on a list points to it. */
  ghost predicate Contained(lists: map<nat, XList<nat>>, container: map<nat, nat>) {
    && (forall l, i {:trigger i in lists[l].items} ::
          l in lists ==> (i in lists[l].items <==> i in container && container[i] == l))
    && (forall i :: i in container ==> container[i] in lists)
  }

  /** No node is on two lists. */
  lemma RingsApart(lists: map<nat, XList<nat>>, container: map<nat, nat>, l: nat, m: nat, r: Ref)
    requires Contained(lists, container) && l in lists && m in lists && l != m && r in Ring(l, lists[l].items)
    ensures r !in Ring(m, lists[m].items)
  {
    RingMembers(l, lists[l].items, r);
    RingMembers(m, lists[m].items, r);
  }

  lemma RingMembers(l: nat, items: seq<nat>, r: Ref)
    ensures r in Ring(l, items) <==> r == Marker(l) || (r.Entry? && r.item in items)
  {
    hide Ring;
    RingEntries(l, items);
    var ring := Ring(l, items);
    if r in ring {
      var n :| 0 <= n < |ring| && ring[n] == r;
      if n > 0 { assert r == Entry(items[n - 1]); }
    }
    if r.Entry? && r.item in items {
      var n :| 0 <= n < |items| && items[n] == r.item;
      assert ring[n + 1] == r;
    }
  }

  /** A list whose nodes are not written stays as it is. */
  lemma ListAside(next: Links, previous: Links, index: map<nat, Ref>, count: map<nat, nat>,
                  next': Links, previous': Links, index': map<nat, Ref>, count': map<nat, nat>, m: nat, xl: XList<nat>)
    requires OneList(next, previous, index, count, m, xl)
    requires forall r :: r in Ring(m, xl.items) && r in next ==> r in next' && next'[r] == next[r]
    requires forall r :: r in Ring(m, xl.items) && r in previous ==> r in previous' && previous'[r] == previous[r]
    requires m in index' && (m in index ==> index'[m] == index[m])
    requires m in count' && (m in count ==> count'[m] == count[m])
    ensures OneList(next', previous', index', count', m, xl)
  {
    hide NoDup, Ring;
    var ring := Ring(m, xl.items);
    forall k | 0 <= k < |ring| ensures ring[k] in next' && next'[ring[k]] == After(ring, k) {
      ForwardAt(next, ring, k);
    }
    ForwardFrom(next', ring);
    forall k | 0 <= k < |ring| ensures ring[k] in previous' && previous'[ring[k]] == Behind(ring, k) {
      BackwardAt(previous, ring, k);
    }
    BackwardFrom(previous', ring);
  }

  /** All lists after x has been linked into list l behind position `at`, with l's cursor on node c. */
  lemma ListsIn(next: Links, previous: Links, index: map<nat, Ref>, count: map<nat, nat>,
                lists: map<nat, XList<nat>>, container: map<nat, nat>, l: nat, at: nat, x: nat, c: nat)
    requires forall m :: m in lists ==> OneList(next, previous, index, count, m, lists[m])
    requires Contained(lists, container) && l in lists && x !in container && at <= |lists[l].items|
    requires c <= |lists[l].items| + 1
    requires Ring(l, lists[l].items)[at] in next
    ensures var b := Ring(l, lists[l].items)[at];
            var a, xl := next[b], XList(Spliced(lists[l].items, at, x), c);
            var next', previous' := next[Entry(x) := a][b := Entry(x)], previous[Entry(x) := b][a := Entry(x)];
            var index', after := index[l := Ring(l, xl.items)[c]], lists[l := xl];
            forall m :: m in after ==> OneList(next', previous', index', count[l := |xl.items|], m, after[m])
  {
    hide Linked, Ring, NoDup, Spliced;
    var items, e := lists[l].items, Entry(x);
    var ring := Ring(l, items);
    var b := ring[at];
    var a, xl := next[b], XList(Spliced(items, at, x), c);
    var next', previous' := next[e := a][b := e], previous[e := b][a := e];
    SplicedKnown(l, items, at, x);
    RingEntries(l, xl.items);
    var index', count' := index[l := Ring(l, xl.items)[c]], count[l := |xl.items|];
    assert OneList(next, previous, index, count, l, lists[l]);
    assert x !in items;
    RingSpliced(l, items, at, x);
    LinkIn(next, previous, ring, at, e);
    NextOnRing(next, previous, ring, at);
    assert a in ring && b in ring;
    var after := lists[l := xl];
    forall m | m in after ensures OneList(next', previous', index', count', m, after[m]) {
      if m != l {
        assert OneList(next, previous, index, count, m, lists[m]);
        RingsApart(lists, container, l, m, a);
        RingsApart(lists, container, l, m, b);
        NotOnRing(lists, container, m, x);
        ListAside(next, previous, index, count, next', previous', index', count', m, lists[m]);
      }
    }
  }

  lemma NotOnRing(lists: map<nat, XList<nat>>, container: map<nat, nat>, m: nat, x: nat)
    requires Contained(lists, container) && m in lists && x !in container
    ensures Entry(x) !in Ring(m, lists[m].items)
  {
    hide Ring;
    RingMembers(m, lists[m].items, Entry(x));
  }

  lemma ContainedIn(lists: map<nat, XList<nat>>, container: map<nat, nat>, l: nat, at: nat, x: nat, c: nat)
    requires Contained(lists, container) && l in lists && at <= |lists[l].items| && x !in container
    ensures Contained(lists[l := XList(Spliced(lists[l].items, at, x), c)], container[x := l])
  {
    hide Spliced;
    SplicedMembers(lists[l].items, at, x);
  }

  /** All lists after entry k of list l has been linked out. */
  lemma ListsOut(next: Links, previous: Links, index: map<nat, Ref>, count: map<nat, nat>,
                 lists: map<nat, XList<nat>>, container: map<nat, nat>, l: nat, k: nat)
    requires forall m :: m in lists ==> OneList(next, previous, index, count, m, lists[m])
    requires Contained(lists, container) && l in lists && k < |lists[l].items|
    requires Entry(lists[l].items[k]) in next && Entry(lists[l].items[k]) in previous && l in index
    ensures var e, r := Entry(lists[l].items[k]), RemoveAt(lists[l], k);
            var a, b := next[e], previous[e];
            var index', after := index[l := if index[l] == e then b else index[l]], lists[l := r];
            forall m :: m in after ==>
              OneList(next[b := a], previous[a := b], index', count[l := |r.items|], m, after[m])
  {
    hide Linked, Ring, NoDup, Cut;
    var xl, items := lists[l], lists[l].items;
    var ring, e, r := Ring(l, items), Entry(items[k]), RemoveAt(xl, k);
    assert OneList(next, previous, index, count, l, xl);
    RingEntries(l, items);
    NextOnRing(next, previous, ring, k + 1);
    var a, b := next[e], previous[e];
    assert a in ring && b in ring;
    LinkOut(next, previous, ring, k + 1);
    LinkedDistinct(next, previous, ring);
    CursorAfterRemoval(l, xl, k);
    RingCut(l, items, k);
    RingEntries(l, r.items);
    CutLength(items, k);
    var index', count' := index[l := if index[l] == e then b else index[l]], count[l := |r.items|];
    var after := lists[l := r];
    forall m | m in after ensures OneList(next[b := a], previous[a := b], index', count', m, after[m]) {
      if m != l {
        assert OneList(next, previous, index, count, m, lists[m]);
        RingsApart(lists, container, l, m, a);
        RingsApart(lists, container, l, m, b);
        ListAside(next, previous, index, count, next[b := a], previous[a := b], index', count', m, lists[m]);
      }
    }
  }

  lemma LinkedDistinct(next: Links, previous: Links, ring: seq<Ref>)
    requires Linked(next, previous, ring)
    ensures NoDup(ring)
  {
  }

  lemma CutLength(items: seq<nat>, k: nat)
    requires k < |items|
    ensures |Cut(items, k)| == |items| - 1
  {
  }

  lemma ContainedOut(lists: map<nat, XList<nat>>, container: map<nat, nat>, l: nat, k: nat)
    requires Contained(lists, container) && l in lists && k < |lists[l].items| && NoDup(Ring(l, lists[l].items))
    ensures Contained(lists[l := RemoveAt(lists[l], k)], container - {lists[l].items[k]})
  {
    hide Cut, Ring, NoDup;
    var after, x := lists[l := RemoveAt(lists[l], k)], lists[l].items[k];
    CutMembers(l, lists[l].items, k);
    forall m, i | m in after
      ensures i in after[m].items <==> i in container - {x} && (container - {x})[i] == m
    {
      assert i in lists[m].items <==> i in container && container[i] == m;
      assert x in lists[l].items;
    }
  }

  /** The memory holding all xLIST and xLIST_ITEM structures.  An item without a container is on no
      list. */
  class ListMemory {
    var next: Links
    var previous: Links
    var index: map<nat, Ref>
    var count: map<nat, nat>
    var value: map<nat, nat>
    var container: map<nat, nat>
    ghost var lists: map<nat, XList<nat>>

    ghost predicate Valid()
      reads this
    {
      && (forall l :: l in lists ==> OneList(next, previous, index, count, l, lists[l]))
      && Contained(lists, container)
      && (forall i :: i in container ==> i in value && value[i] <= MAX_DELAY)
    }

    ghost function ItemValues(l: nat): (vs: seq<nat>)
      requires l in lists
      reads this
      ensures |vs| == |lists[l].items|
      ensures forall k :: 0 <= k < |vs| ==> vs[k] == ValueAt(Entry(lists[l].items[k]))
    {
      var items := lists[l].items;
      seq(|items|, k requires 0 <= k < |items| reads this => ValueAt(Entry(items[k])))
    }

    /** What validity says of one list. */
    lemma Known(l: nat)
      requires Valid() && l in lists
      ensures lists[l].cursor <= |lists[l].items| && l in index && l in count && count[l] == |lists[l].items|
      ensures index[l] == Ring(l, lists[l].items)[lists[l].cursor]
      ensures Linked(next, previous, Ring(l, lists[l].items))
    {
      hide Linked, Ring, Contained;
      assert OneList(next, previous, index, count, l, lists[l]);
    }

    /** No list has been initialised yet. */
    constructor ()
      ensures Valid() && lists == map[] && container == map[]
    {
      next, previous, index, count, value, container := map[], map[], map[], map[], map[], map[];
      lists := map[];
    }

    /** vListInitialise of a list that is not in use. */
    method Initialise(l: nat)
      requires Valid() && l !in lists
      modifies this
      ensures Valid() && lists == old(lists)[l := EmptyList()] && container == old(container) && value == old(value)
    {
      hide OneList, Contained;
      ListsBegin(next, previous, index, count, lists, container, l);
      index := index[l := Marker(l)];
      next := next[Marker(l) := Marker(l)];
      previous := previous[Marker(l) := Marker(l)];
      count := count[l := 0];
      lists := lists[l := EmptyList()];
    }

    static lemma ListsBegin(next: Links, previous: Links, index: map<nat, Ref>, count: map<nat, nat>,
                            lists: map<nat, XList<nat>>, container: map<nat, nat>, l: nat)
      requires forall m :: m in lists ==> OneList(next, previous, index, count, m, lists[m])
      requires Contained(lists, container) && l !in lists
      ensures var e, after := Marker(l), lists[l := EmptyList()];
              forall m :: m in after ==>
                OneList(next[e := e], previous[e := e], index[l := e], count[l := 0], m, after[m])
      ensures Contained(lists[l := EmptyList()], container)
    {
      hide Linked, Ring;
      var e := Marker(l);
      var after := lists[l := EmptyList()];
      EmptyRing(next[e := e], previous[e := e], l);
      forall m | m in after ensures OneList(next[e := e], previous[e := e], index[l := e], count[l := 0], m, after[m]) {
        if m != l {
          assert OneList(next, previous, index, count, m, lists[m]);
          RingMembers(m, lists[m].items, e);
          ListAside(next, previous, index, count, next[e := e], previous[e := e], index[l := e], count[l := 0],
                    m, lists[m]);
        }
      }
      forall m, i | m in after ensures i in after[m].items <==> i in container && container[i] == m {
        if m != l { assert i in lists[m].items <==> i in container && container[i] == m; }
      }
    }

    static lemma EmptyRing(next: Links, previous: Links, l: nat)
      requires Marker(l) in next && next[Marker(l)] == Marker(l)
      requires Marker(l) in previous && previous[Marker(l)] == Marker(l)
      ensures Linked(next, previous, Ring(l, [])) && Ring(l, []) == [Marker(l)]
    {
      assert Ring(l, []) == [Marker(l)];
    }

    /** listSET_LIST_ITEM_VALUE on an item that is on no list yet. */
    method SetValue(x: nat, v: nat)
      requires Valid() && x !in container
      modifies this`value
      ensures Valid() && value == old(value)[x := v]
    {
      hide OneList;
      value := value[x := v];
    }

    /** vListInsertEnd. */
    method InsertEnd(l: nat, x: nat)
      requires Valid() && l in lists && x !in container && x in value && value[x] <= MAX_DELAY
      modifies this
      ensures Valid() && lists == old(lists)[l := XLists.InsertEnd(old(lists)[l], x)]
      ensures value == old(value) && container == old(container)[x := l]
    {
      hide Linked, Ring, Contained, Spliced, OneList;
      ghost var xl := lists[l];
      Known(l);
      NextOnRing(next, previous, Ring(l, xl.items), xl.cursor);
      SplicedKnown(l, xl.items, xl.cursor, x);
      ListsIn(next, previous, index, count, lists, container, l, xl.cursor, x, xl.cursor + 1);
      ContainedIn(lists, container, l, xl.cursor, x, xl.cursor + 1);
      var before, e := index[l], Entry(x);
      var after := next[before];
      next := next[e := after];
      previous := previous[e := before];
      previous := previous[after := e];
      next := next[before := e];
      index := index[l := e];
      container := container[x := l];
      count := count[l := count[l] + 1];
      lists := lists[l := XLists.InsertEnd(xl, x)];
    }

    /** vListInsert: behind every item whose value is not larger. */
    method Insert(l: nat, x: nat)
      requires Valid() && l in lists && x !in container && x in value && value[x] <= MAX_DELAY
      modifies this
      ensures Valid() && value == old(value) && container == old(container)[x := l]
      ensures var at := if value[x] == MAX_DELAY then |old(lists)[l].items|
                        else SortedPosition(old(ItemValues(l)), value[x]);
              lists == old(lists)[l := InsertAt(old(lists)[l], at, x)]
    {
      hide Linked, Ring, ItemValues, Contained;
      var before;
      ghost var at;
      assert OneList(next, previous, index, count, l, lists[l]);
      if value[x] == MAX_DELAY {
        RingEntries(l, lists[l].items);
        NextOnRing(next, previous, Ring(l, lists[l].items), 0);
        before, at := previous[Marker(l)], |lists[l].items|;
      } else {
        before, at := FindPosition(l, value[x]);
      }
      LinkBehind(l, before, at, x);
    }

    /** The link writes of vListInsert. */
    method LinkBehind(l: nat, before: Ref, ghost at: nat, x: nat)
      requires Valid() && l in lists && x !in container && x in value && value[x] <= MAX_DELAY
      requires at <= |lists[l].items| && before == Ring(l, lists[l].items)[at]
      modifies this
      ensures Valid() && value == old(value) && container == old(container)[x := l]
      ensures lists == old(lists)[l := InsertAt(old(lists)[l], at, x)]
    {
      hide Linked, Ring, Contained, Spliced, OneList;
      ghost var xl := lists[l];
      ghost var c := if xl.cursor > at then xl.cursor + 1 else xl.cursor;
      Known(l);
      NextOnRing(next, previous, Ring(l, xl.items), at);
      SplicedKnown(l, xl.items, at, x);
      ListsIn(next, previous, index, count, lists, container, l, at, x, c);
      ContainedIn(lists, container, l, at, x, c);
      assert index[l := index[l]] == index;
      var e := Entry(x);
      next := next[e := next[before]];
      previous := previous[next[e] := e];
      previous := previous[e := before];
      NotOnRing(lists, container, l, x);
      assert previous == old(previous)[e := before][old(next)[before] := e];
      next := next[before := e];
      container := container[x := l];
      count := count[l := count[l] + 1];
      lists := lists[l := InsertAt(xl, at, x)];
    }

    /** The search loop of vListInsert.  The end marker holds portMAX_DELAY, so for any smaller
        value the search stops there at the latest. */
    method FindPosition(l: nat, v: nat) returns (before: Ref, ghost at: nat)
      requires Valid() && l in lists && v < MAX_DELAY
      ensures at == SortedPosition(ItemValues(l), v) && at <= |lists[l].items|
      ensures before == Ring(l, lists[l].items)[at]
    {
      hide Linked, Ring, Contained, SortedPosition;
      ghost var items, vs := lists[l].items, ItemValues(l);
      ghost var ring := Ring(l, items);
      assert OneList(next, previous, index, count, l, lists[l]);
      RingEntries(l, items);
      before, at := Marker(l), 0;
      NextOnRing(next, previous, ring, 0);
      while ValueAt(next[before]) <= v
        invariant at <= |items| && before == ring[at] && before in next
        invariant next[before] == if at < |items| then ring[at + 1] else ring[0]
        invariant forall k :: 0 <= k < at ==> vs[k] <= v
        decreases |items| - at
      {
        assert at < |items| && vs[at] <= v;
        before, at := next[before], at + 1;
        NextOnRing(next, previous, ring, at);
      }
      PositionUnique(vs, v, at);
    }

    function ValueAt(r: Ref): nat
      reads this`value
    {
      if r.Marker? then MAX_DELAY else if r.item in value then value[r.item] else 0
    }

    static lemma PositionUnique(values: seq<nat>, v: nat, k: nat)
      requires k <= |values| && (forall i :: 0 <= i < k ==> values[i] <= v)
      requires k < |values| ==> values[k] > v
      ensures SortedPosition(values, v) == k
    {
    }

    /** uxListRemove: the list is found through the item's container, which is cleared. */
    method Remove(x: nat) returns (remaining: nat)
      requires Valid() && x in container
      modifies this
      ensures Valid() && value == old(value) && container == old(container) - {x}
      ensures var l := old(container)[x];
              && l in old(lists) && x in old(lists)[l].items
              && lists == old(lists)[l := RemoveAt(old(lists)[l], IndexOf(old(lists)[l].items, x))]
              && remaining == |lists[l].items|
    {
      hide Linked, Ring, IndexOf, Cut, OneList, Contained;
      ghost var l := container[x];
      OnItsList(x);
      ghost var xl := lists[l];
      ghost var k := IndexOf(xl.items, x);
      RemovalFacts(l, k);
      var e := Entry(x);
      var after, before := next[e], previous[e];
      previous := previous[after := before];
      next := next[before := after];
      var list := container[x];
      index := index[list := if index[list] == e then before else index[list]];
      container := container - {x};
      count := count[list := count[list] - 1];
      lists := lists[l := RemoveAt(xl, k)];
      remaining := count[list];
    }

    lemma OnItsList(x: nat)
      requires Valid() && x in container
      ensures container[x] in lists && x in lists[container[x]].items
    {
      hide OneList;
    }

    lemma RemovalFacts(l: nat, k: nat)
      requires Valid() && l in lists && k < |lists[l].items|
      ensures var e, r := Entry(lists[l].items[k]), RemoveAt(lists[l], k);
              && e in next && e in previous && l in index && l in count && count[l] == |r.items| + 1
              && var a, b, after := next[e], previous[e], lists[l := r];
              && (forall m :: m in after ==>
                    OneList(next[b := a], previous[a := b], index[l := if index[l] == e then b else index[l]],
                            count[l := |r.items|], m, after[m]))
              && Contained(after, container - {lists[l].items[k]})
    {
      hide Linked, Ring, Cut, Contained;
      var xl := lists[l];
      assert OneList(next, previous, index, count, l, xl);
      RingEntries(l, xl.items);
      NextOnRing(next, previous, Ring(l, xl.items), k + 1);
      LinkedDistinct(next, previous, Ring(l, xl.items));
      CutLength(xl.items, k);
      ListsOut(next, previous, index, count, lists, container, l, k);
      ContainedOut(lists, container, l, k);
    }

    /** listIS_CONTAINED_WITHIN. */
    method IsContained(l: nat, x: nat) returns (b: bool)
      requires Valid() && l in lists
      ensures b <==> x in lists[l].items
    {
      hide OneList;
      b := x in container && container[x] == l;
    }

    /** listGET_OWNER_OF_NEXT_ENTRY. */
    method NextEntry(l: nat) returns (x: nat)
      requires Valid() && l in lists && lists[l].items != []
      modifies this`index, this`lists
      ensures Valid() && lists == old(lists)[l := Advance(old(lists)[l])]
      ensures x == lists[l].items[lists[l].cursor - 1]
    {
      hide Linked, Ring, Contained;
      ghost var xl := lists[l];
      Known(l);
      RingEntries(l, xl.items);
      NextOnRing(next, previous, Ring(l, xl.items), xl.cursor);
      NextOnRing(next, previous, Ring(l, xl.items), 0);
      index := index[l := next[index[l]]];
      if index[l] == Marker(l) {
        index := index[l := next[index[l]]];
      }
      x := index[l].item;
      CursorOnly(lists, container, l, NextCursor(xl));
      lists := lists[l := Advance(xl)];
    }

    static lemma CursorOnly(lists: map<nat, XList<nat>>, container: map<nat, nat>, l: nat, c: nat)
      requires Contained(lists, container) && l in lists
      ensures Contained(lists[l := XList(lists[l].items, c)], container)
    {
    }

    /** listGET_OWNER_OF_HEAD_ENTRY. */
    method HeadEntry(l: nat) returns (x: nat)
      requires Valid() && l in lists && lists[l].items != []
      ensures x == lists[l].items[0]
    {
      hide Linked, Ring, Contained;
      assert OneList(next, previous, index, count, l, lists[l]);
      RingEntries(l, lists[l].items);
      NextOnRing(next, previous, Ring(l, lists[l].items), 0);
      x := next[Marker(l)].item;
    }
  }
}
