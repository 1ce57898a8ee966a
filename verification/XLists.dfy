/** The abstract value of an xList: the items in link order, starting after the end marker,
    and the position of pxIndex.  Position 0 is the end marker and position k is items[k-1]. */
module XLists {

  datatype XList<T> = XList(items: seq<T>, cursor: nat)

  ghost predicate NoDup<T>(s: seq<T>) {
    forall i, j :: 0 <= i < j < |s| ==> s[i] != s[j]
  }

  ghost predicate Valid<T>(l: XList<T>) {
    l.cursor <= |l.items| && NoDup(l.items)
  }

  function EmptyList<T>(): XList<T> { XList([], 0) }

  /** The index of the first occurrence of x. */
  function IndexOf<T(==)>(s: seq<T>, x: T): (k: nat)
    requires x in s
    ensures k < |s| && s[k] == x && x !in s[..k]
  {
    if s[0] == x then 0
    else
      assert s == [s[0]] + s[1..];
      var r := IndexOf(s[1..], x);
      assert s[..r + 1] == [s[0]] + s[1..][..r];
      r + 1
  }

  lemma IndexUnique<T>(s: seq<T>, k: nat)
    requires NoDup(s) && k < |s|
    ensures IndexOf(s, s[k]) == k
  {
  }

  /** vListInsertEnd: the item goes directly behind pxIndex, and pxIndex moves onto it. */
  function InsertEnd<T>(l: XList<T>, x: T): (r: XList<T>)
    requires l.cursor <= |l.items|
  {
    XList(Spliced(l.items, l.cursor, x), l.cursor + 1)
  }

  /** Linking an item in front of items[at] without touching pxIndex. */
  function InsertAt<T>(l: XList<T>, at: nat, x: T): (r: XList<T>)
    requires at <= |l.items|
  {
    XList(Spliced(l.items, at, x), if l.cursor > at then l.cursor + 1 else l.cursor)
  }

  /** uxListRemove: a cursor on the removed item steps back to its predecessor. */
  function RemoveAt<T>(l: XList<T>, k: nat): (r: XList<T>)
    requires k < |l.items|
  {
    XList(Cut(l.items, k), if l.cursor > k then l.cursor - 1 else l.cursor)
  }

  /** listGET_OWNER_OF_NEXT_ENTRY: advance the cursor, skipping the end marker. */
  function NextCursor<T>(l: XList<T>): (c: nat)
    requires l.items != [] && l.cursor <= |l.items|
    ensures 1 <= c <= |l.items|
  {
    if l.cursor == |l.items| then 1 else l.cursor + 1
  }

  function Advance<T>(l: XList<T>): (r: XList<T>)
    requires l.items != [] && l.cursor <= |l.items|
  {
    XList(l.items, NextCursor(l))
  }

  // ----- Sorted insertion (vListInsert)

  /** The number of leading values that are not above v. */
  function SortedPosition(values: seq<nat>, v: nat): (k: nat)
    ensures k <= |values|
    ensures forall i :: 0 <= i < k ==> values[i] <= v
    ensures k < |values| ==> values[k] > v
  {
    if values == [] || values[0] > v then 0 else 1 + SortedPosition(values[1..], v)
  }

  ghost predicate Sorted(values: seq<nat>) {
    forall i, j :: 0 <= i <= j < |values| ==> values[i] <= values[j]
  }

  function Spliced<T>(s: seq<T>, at: nat, x: T): (r: seq<T>)
    requires at <= |s|
  {
    s[..at] + [x] + s[at..]
  }

  function Cut<T>(s: seq<T>, k: nat): (r: seq<T>)
    requires k < |s|
  {
    s[..k] + s[k + 1..]
  }

  lemma SplicedFacts<T>(s: seq<T>, at: nat, x: T)
    requires at <= |s| && NoDup(s) && x !in s
    ensures NoDup(Spliced(s, at, x))
    ensures forall y :: y in Spliced(s, at, x) <==> y == x || y in s
  {
    var r := Spliced(s, at, x);
    forall y | y in s ensures y in r {
      var k := IndexOf(s, y);
      assert r[if k < at then k else k + 1] == y;
    }
    assert r[at] == x;
  }

  lemma CutFacts<T>(s: seq<T>, k: nat)
    requires k < |s| && NoDup(s)
    ensures NoDup(Cut(s, k))
    ensures forall y :: y in Cut(s, k) <==> y in s && y != s[k]
  {
    var r := Cut(s, k);
    forall y | y in s && y != s[k] ensures y in r {
      var m := IndexOf(s, y);
      assert r[if m < k then m else m - 1] == y;
    }
  }

  lemma InsertionKeepsSorted(values: seq<nat>, v: nat)
    requires Sorted(values)
    ensures Sorted(Spliced(values, SortedPosition(values, v), v))
  {
    var k := SortedPosition(values, v);
    var r := Spliced(values, k, v);
    forall i, j | 0 <= i <= j < |r| ensures r[i] <= r[j] {
      if k < |values| && j > k { assert values[k] <= values[j - 1]; }
    }
  }

  // ----- Event-list order: highest priority first, longest wait first

  /** A waiting entry: its item value and the moment it joined. */
  datatype Waiter = Waiter(value: nat, arrival: nat)

  function Values(ws: seq<Waiter>): (vs: seq<nat>)
    ensures |vs| == |ws| && forall i :: 0 <= i < |ws| ==> vs[i] == ws[i].value
  {
    seq(|ws|, i requires 0 <= i < |ws| => ws[i].value)
  }

  predicate Before(a: Waiter, b: Waiter) {
    a.value < b.value || (a.value == b.value && a.arrival < b.arrival)
  }

  ghost predicate ServiceOrder(ws: seq<Waiter>) {
    forall i, j :: 0 <= i < j < |ws| ==> Before(ws[i], ws[j])
  }

  datatype WaitOp = Join(value: nat) | Leave(at: nat)

  /** One change of an event list: a task joins by sorted insertion at time `now`, or the
      entry at some position leaves (woken when the position is 0, timed out otherwise). */
  function WaitListStep(ws: seq<Waiter>, now: nat, op: WaitOp): (r: seq<Waiter>) {
    match op
    case Join(v) => Spliced(ws, SortedPosition(Values(ws), v), Waiter(v, now))
    case Leave(at) => if at < |ws| then Cut(ws, at) else ws
  }

  function WaitRun(ws: seq<Waiter>, now: nat, ops: seq<WaitOp>): (r: seq<Waiter>)
    decreases |ops|
  {
    if ops == [] then ws else WaitRun(WaitListStep(ws, now, ops[0]), now + 1, ops[1..])
  }

  lemma JoinKeepsOrder(ws: seq<Waiter>, x: Waiter)
    requires ServiceOrder(ws) && forall w :: w in ws ==> w.arrival < x.arrival
    ensures ServiceOrder(Spliced(ws, SortedPosition(Values(ws), x.value), x))
  {
    hide ServiceOrder;
    var k := SortedPosition(Values(ws), x.value);
    forall i | 0 <= i < |ws| ensures if i < k then Before(ws[i], x) else Before(x, ws[i]) {
      assert ws[i] in ws && Values(ws)[i] == ws[i].value;
      if i >= k { FirstBefore(ws, x, k, i); }
    }
    SplicedOrder(ws, k, x);
  }

  /** Whoever stands at or behind the insertion point has a larger value than the newcomer. */
  lemma FirstBefore(ws: seq<Waiter>, x: Waiter, k: nat, i: nat)
    requires ServiceOrder(ws) && k <= i < |ws| && k == SortedPosition(Values(ws), x.value)
    ensures Before(x, ws[i])
  {
    assert Values(ws)[k] == ws[k].value;
    if k < i { assert Before(ws[k], ws[i]); }
  }

  lemma SplicedOrder(ws: seq<Waiter>, k: nat, x: Waiter)
    requires ServiceOrder(ws) && k <= |ws|
    requires forall i :: 0 <= i < |ws| ==> if i < k then Before(ws[i], x) else Before(x, ws[i])
    ensures ServiceOrder(Spliced(ws, k, x))
  {
    hide Before;
    var r := Spliced(ws, k, x);
    forall i, j | 0 <= i < j < |r| ensures Before(r[i], r[j]) {
      if j < k {
        assert r[i] == ws[i] && r[j] == ws[j];
      } else if j == k {
        assert r[i] == ws[i] && r[j] == x;
      } else if i < k {
        assert r[i] == ws[i] && r[j] == ws[j - 1];
      } else if i == k {
        assert r[i] == x && r[j] == ws[j - 1];
      } else {
        assert r[i] == ws[i - 1] && r[j] == ws[j - 1];
      }
    }
  }

  lemma WaitListKeepsOrder(ws: seq<Waiter>, now: nat, op: WaitOp)
    requires ServiceOrder(ws) && forall w :: w in ws ==> w.arrival < now
    ensures ServiceOrder(WaitListStep(ws, now, op))
    ensures forall w :: w in WaitListStep(ws, now, op) ==> w.arrival < now + 1
  {
    if op.Join? { JoinKeepsOrder(ws, Waiter(op.value, now)); }
  }

  /** Over every history of joins, timeouts and wake-ups, the head of an event list is the
      waiter of highest priority (lowest item value) and, among equals, the longest waiting. */
  lemma {:induction false} HeadIsNextToServe(ws: seq<Waiter>, now: nat, ops: seq<WaitOp>)
    requires ServiceOrder(ws) && forall w :: w in ws ==> w.arrival < now
    ensures ServiceOrder(WaitRun(ws, now, ops))
    ensures var r := WaitRun(ws, now, ops);
            forall w :: w in r && w != r[0] ==> Before(r[0], w)
    decreases |ops|
  {
    if ops != [] {
      WaitListKeepsOrder(ws, now, ops[0]);
      HeadIsNextToServe(WaitListStep(ws, now, ops[0]), now + 1, ops[1..]);
    }
  }

  // ----- Round robin: bounded bypass

  /** How many next-entry calls from now select x. */
  function Distance<T(==)>(l: XList<T>, x: T): (d: int)
    requires x in l.items && l.cursor <= |l.items|
    ensures 1 <= d <= |l.items|
  {
    var p := IndexOf(l.items, x) + 1;
    if p > l.cursor then p - l.cursor else p + |l.items| - l.cursor
  }

  datatype CursorOp<T> = SelectNext | AddEnd(x: T) | TakeOut(x: T)

  predicate Legal<T(==)>(l: XList<T>, op: CursorOp<T>) {
    l.cursor <= |l.items| &&
    match op
    case SelectNext => l.items != []
    case AddEnd(x) => x !in l.items
    case TakeOut(x) => x in l.items
  }

  function CursorStep<T(==)>(l: XList<T>, op: CursorOp<T>): (r: XList<T>)
    requires Legal(l, op)
  {
    match op
    case SelectNext => Advance(l)
    case AddEnd(x) => InsertEnd(l, x)
    case TakeOut(x) => RemoveAt(l, IndexOf(l.items, x))
  }

  /** The items selected, in order, by a sequence of operations. */
  function Selections<T(==)>(l: XList<T>, ops: seq<CursorOp<T>>): (r: seq<T>)
    requires LegalRun(l, ops)
    decreases |ops|
  {
    if ops == [] then []
    else
      var l' := CursorStep(l, ops[0]);
      (if ops[0].SelectNext? then [l'.items[l'.cursor - 1]] else []) + Selections(l', ops[1..])
  }

  predicate LegalRun<T(==)>(l: XList<T>, ops: seq<CursorOp<T>>)
    decreases |ops|
  {
    ops == [] || (Legal(l, ops[0]) && LegalRun(CursorStep(l, ops[0]), ops[1..]))
  }

  lemma InsertEndKeepsDistance<T>(l: XList<T>, x: T, y: T)
    requires Valid(l) && x in l.items && y !in l.items
    ensures Valid(InsertEnd(l, y)) && x in InsertEnd(l, y).items
    ensures Distance(InsertEnd(l, y), x) == Distance(l, x)
    ensures Distance(InsertEnd(l, y), y) == |l.items| + 1
  {
    var r := InsertEnd(l, y);
    var k := IndexOf(l.items, x);
    var k' := if k < l.cursor then k else k + 1;
    assert r.items[k'] == x && r.items[l.cursor] == y;
    IndexUnique(r.items, k');
    IndexUnique(r.items, l.cursor);
  }

  lemma RemovalNeverDelays<T>(l: XList<T>, x: T, y: T)
    requires Valid(l) && x in l.items && y in l.items && x != y
    ensures var r := RemoveAt(l, IndexOf(l.items, y));
            Valid(r) && x in r.items && Distance(r, x) <= Distance(l, x)
  {
    var j := IndexOf(l.items, y);
    var r := RemoveAt(l, j);
    var k := IndexOf(l.items, x);
    var k' := if k < j then k else k - 1;
    assert r.items[k'] == x;
    IndexUnique(r.items, k');
  }

  lemma AdvanceApproaches<T>(l: XList<T>, x: T)
    requires Valid(l) && x in l.items
    ensures var r := Advance(l);
            if Distance(l, x) == 1 then r.items[r.cursor - 1] == x
            else r.items[r.cursor - 1] != x && Distance(r, x) == Distance(l, x) - 1
  {
  }

  /** An item k steps ahead of the cursor is among the next k selections, whatever other items
      are inserted at the end or removed meanwhile. */
  lemma {:induction false} BoundedBypass<T>(l: XList<T>, ops: seq<CursorOp<T>>, x: T)
    requires Valid(l) && x in l.items && LegalRun(l, ops)
    requires TakeOut(x) !in ops
    requires |Selections(l, ops)| >= Distance(l, x)
    ensures x in Selections(l, ops)[..Distance(l, x)]
    decreases |ops|
  {
    if ops != [] {
      var l', rest := CursorStep(l, ops[0]), ops[1..];
      assert TakeOut(x) !in rest;
      match ops[0]
      case SelectNext =>
        AdvanceApproaches(l, x);
        var first := l'.items[l'.cursor - 1];
        assert Selections(l, ops) == [first] + Selections(l', rest);
        if Distance(l, x) == 1 {
          assert Selections(l, ops)[0] == x;
        } else {
          BoundedBypass(l', rest, x);
          assert Selections(l, ops)[..Distance(l, x)]
              == [first] + Selections(l', rest)[..Distance(l', x)];
        }
      case AddEnd(y) =>
        InsertEndKeepsDistance(l, x, y);
        assert Selections(l, ops) == Selections(l', rest);
        BoundedBypass(l', rest, x);
      case TakeOut(y) =>
        assert ops[0] in ops;
        RemovalNeverDelays(l, x, y);
        assert Selections(l, ops) == Selections(l', rest);
        BoundedBypass(l', rest, x);
        var s := Selections(l', rest);
        assert s[..Distance(l', x)] <= s[..Distance(l, x)];
    }
  }
}
