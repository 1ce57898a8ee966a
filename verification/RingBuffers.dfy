/** The byte ring of a queue as slots: pure facts used by the queue object. */
module RingBuffers {
  type Byte = nat

  /** The slot that is `i` places after the one last read from, in a ring of n slots. */
  function Place(r: nat, i: nat, n: nat): (p: nat)
    requires r < n && i < n
    ensures p < n
  {
    if r + 1 + i < n then r + 1 + i else r + 1 + i - n
  }

  /** The stored items in order, from the slot after the read position. */
  function InOrder(slots: seq<seq<Byte>>, r: nat, count: nat): (items: seq<seq<Byte>>)
    requires r < |slots| && count <= |slots|
    ensures |items| == count && forall i :: 0 <= i < count ==> items[i] == slots[Place(r, i, |slots|)]
  {
    seq(count, i requires 0 <= i < count => slots[Place(r, i, |slots|)])
  }

  lemma AppendsAtBack(slots: seq<seq<Byte>>, r: nat, count: nat, x: seq<Byte>)
    requires r < |slots| && count < |slots|
    ensures InOrder(slots[Place(r, count, |slots|) := x], r, count + 1) == InOrder(slots, r, count) + [x]
  {
  }

  /** The slot before r in the ring. */
  function Back(r: nat, n: nat): (p: nat)
    requires r < n
    ensures p < n && Place(p, 0, n) == r
  {
    if r == 0 then n - 1 else r - 1
  }

  lemma PrependsAtFront(slots: seq<seq<Byte>>, r: nat, count: nat, x: seq<Byte>)
    requires r < |slots| && count < |slots|
    ensures InOrder(slots[r := x], Back(r, |slots|), count + 1) == [x] + InOrder(slots, r, count)
  {
  }

  lemma PopsFront(slots: seq<seq<Byte>>, r: nat, count: nat)
    requires r < |slots| && 0 < count <= |slots|
    ensures var r' := Place(r, 0, |slots|);
            && slots[r'] == InOrder(slots, r, count)[0]
            && InOrder(slots, r', count - 1) == InOrder(slots, r, count)[1..]
  {
  }

  // ----- Slots of a byte array

  /** The byte offset of a slot. */
  function Offset(slot: nat, size: nat): nat { slot * size }

  /** Moving on by one item from slot w reaches the end marker exactly from the last slot. */
  lemma OffsetForward(w: nat, n: nat, size: nat)
    requires w < n
    ensures Offset(w, size) + size <= Offset(n, size)
    ensures size > 0 ==> (Offset(w, size) + size >= Offset(n, size) <==> w + 1 == n)
    ensures Offset(w + 1, size) == Offset(w, size) + size && Offset(0, size) == 0
    ensures size == 0 ==> Offset(w, size) == 0 && Offset(w + 1, size) == 0 && Offset(n, size) == 0
  {
    Within(w, n, size);
    if w + 1 < n { Apart(w + 1, n, size); }
  }

  /** Moving back by one item from slot r leaves the storage exactly from the first slot. */
  lemma OffsetBackward(r: nat, n: nat, size: nat)
    requires r < n
    ensures size > 0 ==> (Offset(r, size) - size < 0 <==> r == 0)
    ensures r > 0 ==> Offset(r - 1, size) == Offset(r, size) - size
    ensures Offset(n - 1, size) == Offset(n, size) - size
    ensures size == 0 ==> Offset(r, size) == 0 && Offset(Back(r, n), size) == 0
  {
    if r > 0 { MulMono(1, r, size); }
  }

  lemma Within(j: nat, n: nat, size: nat)
    requires j < n
    ensures j * size + size <= n * size && j * size >= 0
  {
    assert (j + 1) * size <= n * size by { MulMono(j + 1, n, size); }
  }

  lemma MulMono(a: nat, b: nat, size: nat)
    requires a <= b
    ensures a * size <= b * size
  {
    assert b * size - a * size == (b - a) * size;
  }

  lemma OffsetsFit(n: nat, size: nat)
    ensures forall j {:trigger Offset(j, size)} :: 0 <= j < n ==> Offset(j, size) + size <= Offset(n, size)
  {
    forall j | 0 <= j < n ensures Offset(j, size) + size <= Offset(n, size) { Within(j, n, size); }
  }

  /** The n slots of `size` bytes each. */
  function Slots(bytes: seq<Byte>, n: nat, size: nat): (s: seq<seq<Byte>>)
    requires |bytes| >= Offset(n, size)
    ensures |s| == n
  {
    OffsetsFit(n, size);
    seq(n, j requires 0 <= j < n => bytes[Offset(j, size)..Offset(j, size) + size])
  }

  lemma SlotBytes(bytes: seq<Byte>, n: nat, size: nat, k: nat)
    requires |bytes| >= Offset(n, size) && k < n
    ensures Offset(k, size) + size <= |bytes|
    ensures Slots(bytes, n, size)[k] == bytes[Offset(k, size)..Offset(k, size) + size]
  {
    OffsetsFit(n, size);
  }

  /** Overwriting one slot changes that slot and no other. */
  lemma SlotWritten(bytes: seq<Byte>, n: nat, size: nat, k: nat, x: seq<Byte>)
    requires |bytes| >= Offset(n, size) && k < n && |x| == size
    ensures Offset(k, size) + size <= |bytes|
    ensures Slots(bytes[..Offset(k, size)] + x + bytes[Offset(k, size) + size..], n, size)
            == Slots(bytes, n, size)[k := x]
  {
    hide Slots;
    SlotBytes(bytes, n, size, k);
    var after := bytes[..Offset(k, size)] + x + bytes[Offset(k, size) + size..];
    forall j | 0 <= j < n ensures Slots(after, n, size)[j] == Slots(bytes, n, size)[k := x][j] {
      SlotBytes(bytes, n, size, j);
      SlotBytes(after, n, size, j);
      Apart(j, k, size);
    }
  }

  /** Items of size zero occupy no bytes. */
  lemma NothingStored(bytes: seq<Byte>, n: nat, k: nat, x: seq<Byte>)
    requires |bytes| >= Offset(n, 0) && k < n && x == []
    ensures Slots(bytes, n, 0)[k := x] == Slots(bytes, n, 0)
  {
  }

  lemma Apart(j: nat, k: nat, size: nat)
    ensures j < k ==> j * size + size <= k * size
    ensures k < j ==> k * size + size <= j * size
  {
    if j < k { MulMono(j + 1, k, size); }
    if k < j { MulMono(k + 1, j, size); }
  }
}
