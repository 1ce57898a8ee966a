/** queue.c: the critical sections of a queue, semaphore or mutex as functions of its state. */
module QueueCores {

  type Task = nat
  type Msg = seq<nat>

  /** The fields of xQUEUE that its users can tell apart: the stored items in order, the lock counts
      (-1 when unlocked) and the two event lists in wake order.  `wokenR` and `wokenS` are history
      variables: the tasks removed from an event list by a post that have not retried yet. */
  datatype Queue = Queue(length: nat, items: seq<Msg>, txLock: int, rxLock: int,
                         waitR: seq<Task>, waitS: seq<Task>, wokenR: set<Task>, wokenS: set<Task>)

  const UNLOCKED: int := -1

  /** xTaskRemoveFromEventList on xTasksWaitingToReceive, if anyone waits. */
  function WakeReceiver(q: Queue): (r: Queue) {
    if q.waitR == [] then q else q.(waitR := q.waitR[1..], wokenR := q.wokenR + {q.waitR[0]})
  }

  function WakeSender(q: Queue): (r: Queue) {
    if q.waitS == [] then q else q.(waitS := q.waitS[1..], wokenS := q.wokenS + {q.waitS[0]})
  }

  /** prvCopyDataToQueue, at the back or at the front. */
  function Put(q: Queue, m: Msg, front: bool): (r: Queue) {
    q.(items := if front then [m] + q.items else q.items + [m])
  }

  function Drop(q: Queue): (r: Queue)
    requires q.items != []
  {
    q.(items := q.items[1..])
  }

  /** The successful first critical section of xQueueGenericSend. */
  function Send(q: Queue, m: Msg, front: bool): (r: Queue) { WakeReceiver(Put(q, m, front)) }

  /** The successful first critical section of xQueueGenericReceive. */
  function Receive(q: Queue, peek: bool): (r: Queue)
    requires q.items != []
  {
    if peek then WakeReceiver(q) else WakeSender(Drop(q))
  }

  /** xQueueGenericSendFromISR: a post to a locked queue is only counted. */
  function SendFromISR(q: Queue, m: Msg, front: bool): (r: Queue) {
    if |q.items| >= q.length then q
    else if q.txLock == UNLOCKED then Send(q, m, front)
    else Put(q, m, front).(txLock := q.txLock + 1)
  }

  /** xQueueReceiveFromISR. */
  function ReceiveFromISR(q: Queue): (r: Queue) {
    if q.items == [] then q
    else if q.rxLock == UNLOCKED then WakeSender(Drop(q))
    else Drop(q).(rxLock := q.rxLock + 1)
  }

  /** prvLockQueue. */
  function Lock(q: Queue): (r: Queue) {
    q.(rxLock := if q.rxLock == UNLOCKED then 0 else q.rxLock,
       txLock := if q.txLock == UNLOCKED then 0 else q.txLock)
  }

  /** The first half of prvUnlockQueue: one wake-up per counted post while anyone waits. */
  function UnlockTx(q: Queue): (r: Queue)
    decreases if q.txLock > 0 then q.txLock else 0
  {
    if q.txLock > 0 && q.waitR != [] then UnlockTx(WakeReceiver(q).(txLock := q.txLock - 1))
    else q.(txLock := UNLOCKED)
  }

  /** The second half of prvUnlockQueue. */
  function UnlockRx(q: Queue): (r: Queue)
    decreases if q.rxLock > 0 then q.rxLock else 0
  {
    if q.rxLock > 0 && q.waitS != [] then UnlockRx(WakeSender(q).(rxLock := q.rxLock - 1))
    else q.(rxLock := UNLOCKED)
  }

  /** xQueueGenericReset of an existing queue. */
  function Reset(q: Queue): (r: Queue) {
    WakeSender(q.(items := [], txLock := UNLOCKED, rxLock := UNLOCKED))
  }
}
