/** queue.c in its own form: the xQUEUE object with its byte storage, moving read and write
    positions, lock counts and event lists.  Each critical section is proved against module
    QueueCores, so the storage refines a bounded double-ended queue of items. */
module QueueObjects {
  import opened QueueCores
  import opened RingBuffers

  /** The slot the next item goes to: `count` places after the read slot. */
  function WriteSlot(r: nat, count: nat, n: nat): (w: nat)
    requires r < n && count <= n
    ensures w < n
  {
    if count < n then Place(r, count, n) else Place(r, 0, n)
  }

  /** One more item moves the write slot on by one. */
  lemma NextWrite(r: nat, count: nat, n: nat)
    requires r < n && 0 < count <= n
    ensures var w := Place(r, count - 1, n); WriteSlot(r, count, n) == if w + 1 == n then 0 else w + 1
  {
  }

  /** Prepending and popping leave the write slot where it is. */
  lemma WriteUnmoved(r: nat, count: nat, n: nat)
    requires r < n && count < n
    ensures WriteSlot(Back(r, n), count + 1, n) == WriteSlot(r, count, n)
  {
  }

  lemma FirstWrite(n: nat, size: nat)
    requires n > 0
    ensures Offset(WriteSlot(n - 1, 0, n), size) == 0
  {
  }

  lemma AfterPop(r: nat, count: nat, n: nat)
    requires r < n && 0 < count <= n
    ensures WriteSlot(Place(r, 0, n), count - 1, n) == WriteSlot(r, count, n)
  {
  }

  class QueueObject {
    const length: nat
    const itemSize: nat
    const isMutex: bool
    const storage: array<Byte>
    var writeTo: int
    var readFrom: int
    var messages: nat
    var txLock: int
    var rxLock: int
    var waitR: seq<Task>
    var waitS: seq<Task>
    ghost var wokenR: set<Task>
    ghost var wokenS: set<Task>
    ghost var readSlot: nat

    /** pcTail. */
    function Tail(): int { Offset(length, itemSize) }

    /** The read and write positions are slot boundaries and (read slot + 1 + count) mod length is the
        write slot. */
    ghost predicate Valid()
      reads this, storage
    {
      && length > 0 && storage.Length == Tail() + 1 && (isMutex ==> length == 1 && itemSize == 0)
      && readSlot < length && messages <= length
      && readFrom == Offset(readSlot, itemSize)
      && writeTo == Offset(WriteSlot(readSlot, messages, length), itemSize)
    }

    ghost function Contents(): (items: seq<Msg>)
      requires Valid()
      reads this, storage
      ensures |items| == messages
    {
      InOrder(Slots(storage[..], length, itemSize), readSlot, messages)
    }

    ghost function View(): Queue
      requires Valid()
      reads this, storage
    {
      Queue(length, Contents(), txLock, rxLock, waitR, waitS, wokenR, wokenS)
    }

    /** xQueueGenericCreate for a positive length; a mutex has one item of size zero. */
    constructor (length: nat, itemSize: nat, isMutex: bool)
      requires length > 0 && (isMutex ==> length == 1 && itemSize == 0)
      ensures Valid() && View() == Queue(length, [], UNLOCKED, UNLOCKED, [], [], {}, {})
      ensures this.length == length && this.itemSize == itemSize && this.isMutex == isMutex && fresh(storage)
    {
      this.length, this.itemSize, this.isMutex := length, itemSize, isMutex;
      storage := new Byte[Offset(length, itemSize) + 1](_ => 0);
      messages, writeTo := 0, 0;
      readFrom, readSlot := Offset(length - 1, itemSize), length - 1;
      txLock, rxLock := UNLOCKED, UNLOCKED;
      waitR, waitS, wokenR, wokenS := [], [], {}, {};
    }

    /** memcpy of one item into the storage. */
    method CopyIn(at: nat, item: Msg)
      requires |item| == itemSize && at + itemSize <= storage.Length
      modifies storage
      ensures storage[..] == old(storage[..])[..at] + item + old(storage[..])[at + itemSize..]
    {
      ghost var before := storage[..];
      for i := 0 to itemSize
        invariant storage[..] == before[..at] + item[..i] + before[at + i..]
      {
        storage[at + i] := item[i];
        assert item[..i + 1] == item[..i] + [item[i]];
      }
      assert item[..itemSize] == item;
    }

    /** prvCopyDataToQueue. */
    method CopyDataToQueue(item: Msg, front: bool)
      requires Valid() && |item| == itemSize && messages < length
      modifies this`writeTo, this`readFrom, this`readSlot, this`messages, storage
      ensures Valid() && View() == Put(old(View()), item, front)
    {
      if front {
        CopyToFront(item);
      } else {
        CopyToBack(item);
      }
    }

    /** Sending to the back writes at pcWriteTo and moves it on. */
    method CopyToBack(item: Msg)
      requires Valid() && |item| == itemSize && messages < length
      modifies this`writeTo, this`messages, storage
      ensures Valid() && Contents() == old(Contents()) + [item]
    {
      hide Slots, InOrder, Place, Offset;
      ghost var slots, w := Slots(storage[..], length, itemSize), Place(readSlot, messages, length);
      SlotWritten(storage[..], length, itemSize, w, item);
      AppendsAtBack(slots, readSlot, messages, item);
      OffsetForward(w, length, itemSize);
      NextWrite(readSlot, messages + 1, length);
      if itemSize == 0 {
        NothingStored(storage[..], length, w, item);
      } else {
        CopyIn(writeTo, item);
        writeTo := writeTo + itemSize;
        if writeTo >= Tail() {
          writeTo := 0;
        }
      }
      messages := messages + 1;
    }

    /** Sending to the front writes at pcReadFrom and moves it back. */
    method CopyToFront(item: Msg)
      requires Valid() && |item| == itemSize && messages < length
      modifies this`readFrom, this`readSlot, this`messages, storage
      ensures Valid() && Contents() == [item] + old(Contents())
    {
      hide Slots, InOrder, Place, Offset, WriteSlot;
      ghost var slots := Slots(storage[..], length, itemSize);
      SlotWritten(storage[..], length, itemSize, readSlot, item);
      PrependsAtFront(slots, readSlot, messages, item);
      OffsetForward(readSlot, length, itemSize);
      OffsetBackward(readSlot, length, itemSize);
      WriteUnmoved(readSlot, messages, length);
      if itemSize == 0 {
        NothingStored(storage[..], length, readSlot, item);
      } else {
        CopyIn(readFrom, item);
        readFrom := readFrom - itemSize;
        if readFrom < 0 {
          readFrom := Tail() - itemSize;
        }
      }
      readSlot := Back(readSlot, length);
      messages := messages + 1;
    }

    /** prvCopyDataFromQueue: the read position moves on, then the item under it is copied out.  A mutex
        has no storage, and nothing moves. */
    method CopyDataFromQueue() returns (item: Msg)
      requires Valid() && messages > 0
      modifies this`readFrom, this`readSlot
      ensures readSlot == Place(old(readSlot), 0, length) && readFrom == Offset(readSlot, itemSize)
      ensures item == old(Contents())[0]
      ensures isMutex ==> readFrom == old(readFrom)
    {
      hide Slots, InOrder, Offset, WriteSlot;
      PopsFront(Slots(storage[..], length, itemSize), readSlot, messages);
      OffsetForward(readSlot, length, itemSize);
      ghost var slot := Place(readSlot, 0, length);
      SlotBytes(storage[..], length, itemSize, slot);
      item := [];
      if !isMutex {
        readFrom := readFrom + itemSize;
        if readFrom >= Tail() {
          readFrom := 0;
        }
        OffsetForward(slot, length, itemSize);
        item := storage[readFrom..readFrom + itemSize];
      }
      readSlot := slot;
    }

    // ----- The critical sections

    method WakeOneReceiver()
      modifies this`waitR, this`wokenR
      ensures if old(waitR) == [] then waitR == [] && wokenR == old(wokenR)
              else waitR == old(waitR)[1..] && wokenR == old(wokenR) + {old(waitR)[0]}
    {
      if waitR != [] {
        wokenR := wokenR + {waitR[0]};
        waitR := waitR[1..];
      }
    }

    method WakeOneSender()
      modifies this`waitS, this`wokenS
      ensures if old(waitS) == [] then waitS == [] && wokenS == old(wokenS)
              else waitS == old(waitS)[1..] && wokenS == old(wokenS) + {old(waitS)[0]}
    {
      if waitS != [] {
        wokenS := wokenS + {waitS[0]};
        waitS := waitS[1..];
      }
    }

    /** The first critical section of xQueueGenericSend; false when the queue is full. */
    method TrySend(item: Msg, front: bool) returns (sent: bool)
      requires Valid() && |item| == itemSize
      modifies this, storage
      ensures Valid() && sent == (|old(Contents())| < length)
      ensures View() == if sent then Send(old(View()), item, front) else old(View())
    {
      hide Slots, InOrder, Offset, WriteSlot;
      sent := messages < length;
      if sent {
        CopyDataToQueue(item, front);
        WakeOneReceiver();
      }
    }

    /** The first critical section of xQueueGenericReceive; peeking restores the read position. */
    method TryReceive(peek: bool) returns (got: bool, item: Msg)
      requires Valid()
      modifies this`readFrom, this`readSlot, this`messages, this`waitR, this`wokenR, this`waitS, this`wokenS
      ensures Valid() && got == (old(Contents()) != [])
      ensures got ==> item == old(Contents())[0]
      ensures View() == if got then Receive(old(View()), peek) else old(View())
    {
      hide Slots, InOrder, Place, Offset, WriteSlot;
      got, item := messages > 0, [];
      if got {
        PopsFront(Slots(storage[..], length, itemSize), readSlot, messages);
        var original := readFrom;
        ghost var slot := readSlot;
        item := CopyDataFromQueue();
        if !peek {
          AfterPop(slot, messages, length);
          messages := messages - 1;
          WakeOneSender();
        } else {
          readFrom, readSlot := original, slot;
          WakeOneReceiver();
        }
      }
    }

    method SendFromISR(item: Msg, front: bool) returns (sent: bool)
      requires Valid() && |item| == itemSize
      modifies this, storage
      ensures Valid() && sent == (|old(Contents())| < length)
      ensures View() == QueueCores.SendFromISR(old(View()), item, front)
    {
      hide Slots, InOrder, Offset, WriteSlot;
      sent := messages < length;
      if sent {
        CopyDataToQueue(item, front);
        if txLock == UNLOCKED {
          WakeOneReceiver();
        } else {
          txLock := txLock + 1;
        }
      }
    }

    method ReceiveFromISR() returns (got: bool, item: Msg)
      requires Valid()
      modifies this`readFrom, this`readSlot, this`messages, this`rxLock, this`waitS, this`wokenS
      ensures Valid() && got == (old(Contents()) != [])
      ensures got ==> item == old(Contents())[0]
      ensures View() == QueueCores.ReceiveFromISR(old(View()))
    {
      hide Slots, InOrder, Place, Offset, WriteSlot;
      got, item := messages > 0, [];
      if got {
        PopsFront(Slots(storage[..], length, itemSize), readSlot, messages);
        AfterPop(readSlot, messages, length);
        item := CopyDataFromQueue();
        messages := messages - 1;
        if rxLock == UNLOCKED {
          WakeOneSender();
        } else {
          rxLock := rxLock + 1;
        }
      }
    }

    method LockQueue()
      requires Valid()
      modifies this`txLock, this`rxLock
      ensures Valid() && View() == Lock(old(View()))
    {
      if rxLock == UNLOCKED { rxLock := 0; }
      if txLock == UNLOCKED { txLock := 0; }
    }

    /** The first loop of prvUnlockQueue. */
    method UnlockQueueTx()
      requires Valid()
      modifies this`txLock, this`waitR, this`wokenR
      ensures Valid() && View() == UnlockTx(old(View()))
    {
      hide Slots, InOrder, Offset, WriteSlot;
      ghost var items := Contents();
      while txLock > 0
        invariant Valid() && Contents() == items
        invariant UnlockTx(View()) == UnlockTx(old(View()))
        decreases txLock
      {
        if waitR == [] { break; }
        WakeOneReceiver();
        txLock := txLock - 1;
      }
      txLock := UNLOCKED;
    }

    /** The second loop of prvUnlockQueue. */
    method UnlockQueueRx()
      requires Valid()
      modifies this`rxLock, this`waitS, this`wokenS
      ensures Valid() && View() == UnlockRx(old(View()))
    {
      hide Slots, InOrder, Offset, WriteSlot;
      ghost var items := Contents();
      while rxLock > 0
        invariant Valid() && Contents() == items
        invariant UnlockRx(View()) == UnlockRx(old(View()))
        decreases rxLock
      {
        if waitS == [] { break; }
        WakeOneSender();
        rxLock := rxLock - 1;
      }
      rxLock := UNLOCKED;
    }

    /** xQueueGenericReset of an existing queue. */
    method GenericReset()
      requires Valid()
      modifies this
      ensures Valid() && View() == Reset(old(View()))
    {
      hide Slots, Offset, WriteSlot, Place;
      messages := 0;
      writeTo := 0;
      readFrom, readSlot := Offset(length - 1, itemSize), length - 1;
      rxLock, txLock := UNLOCKED, UNLOCKED;
      FirstWrite(length, itemSize);
      assert Contents() == [];
      WakeOneSender();
    }
  }
}
