/** No spurious wake-ups over whole runs of the blocking protocol: tasks are woken only for messages put
    or peeked at, and for slots freed. */
module QueueWakes {
  import opened QueueCores
  import opened QueueProtocol
  import opened QueueDelivery

  // ----- Receivers

  /** How many receivers a step wakes.  Parking and leaving after a timeout are no wake-ups. */
  function ReceiversWoken(p: System, s: Step): int
    requires Enabled(p, s)
  {
    if s.Park? || s.Leave? then 0 else |p.q.waitR| - |Next(p, s).q.waitR|
  }

  /** A successful peek leaves its message for another receiver. */
  function Peeked(p: System, s: Step): nat {
    if s.Attempt? && PcOf(p, s.t).Attempting? && PcOf(p, s.t).side.Rx? && PcOf(p, s.t).side.peek && p.q.items != []
    then 1 else 0
  }

  /** Each wake-up is paid for by a message put, by a successful peek, or by a post counted before. */
  lemma StepWakesReceivers(p: System, s: Step)
    requires Enabled(p, s)
    ensures 0 <= ReceiversWoken(p, s)
    ensures ReceiversWoken(p, s) + Counted(Next(p, s).q.txLock)
            <= Counted(p.q.txLock) + |AcceptedBy(p, s)| + Peeked(p, s)
  {
    hide UnlockTx, UnlockRx, Without, SetOf;
    UnlockTxExact(p.q);
    OtherSide(p.q);
  }

  function TotalReceiversWoken(p: System, steps: seq<Step>): int
    requires Possible(p, steps)
    decreases |steps|
  {
    if steps == [] then 0 else ReceiversWoken(p, steps[0]) + TotalReceiversWoken(Next(p, steps[0]), steps[1..])
  }

  function TotalPeeked(p: System, steps: seq<Step>): nat
    requires Possible(p, steps)
    decreases |steps|
  {
    if steps == [] then 0 else Peeked(p, steps[0]) + TotalPeeked(Next(p, steps[0]), steps[1..])
  }

  /** Over every interleaving the receivers woken never outnumber the messages put plus the successful
      peeks, beyond the posts that were counted at the start. */
  lemma {:induction false} NoSpuriousReceiverWakeup(p: System, steps: seq<Step>)
    requires Possible(p, steps)
    ensures TotalReceiversWoken(p, steps) + Counted(Run(p, steps).q.txLock)
            <= Counted(p.q.txLock) + |Accepted(p, steps)| + TotalPeeked(p, steps)
    decreases |steps|
  {
    hide Next, Enabled, AcceptedBy, Peeked, ReceiversWoken;
    if steps != [] {
      StepWakesReceivers(p, steps[0]);
      NoSpuriousReceiverWakeup(Next(p, steps[0]), steps[1..]);
    }
  }

  /** One step of a run in which nothing is posted to an empty queue. */
  lemma StepStaysParked(p: System, s: Step, t: Task)
    requires Enabled(p, s) && t in p.q.waitR && p.q.items == [] && Counted(p.q.txLock) == 0
    requires AcceptedBy(p, s) == [] && s != Leave(t)
    ensures var r := Next(p, s); t in r.q.waitR && r.q.items == [] && Counted(r.q.txLock) == 0
  {
    hide UnlockTx, UnlockRx, Without, SetOf;
    UnlockTxExact(p.q);
    OtherSide(p.q);
    if s.Park? { ParkKeeps(p.q.waitR, s.at, t); }
    if s.Leave? { LeaveKeeps(p.q.waitR, s.t, t); }
    ItemsAfter(p, s);
  }

  lemma ParkKeeps(s: seq<Task>, at: nat, t: Task)
    requires t in s
    ensures forall u :: at <= |s| ==> t in s[..at] + [u] + s[at..]
  {
    if at <= |s| { assert s == s[..at] + s[at..]; }
  }

  lemma LeaveKeeps(s: seq<Task>, u: Task, t: Task)
    requires t in s && t != u
    ensures t in Without(s, u)
  {
  }

  /** A receiver parked on an empty queue to which nobody posts stays parked until it times out. */
  lemma {:induction false} StaysParked(p: System, steps: seq<Step>, t: Task)
    requires Possible(p, steps) && t in p.q.waitR && p.q.items == [] && Counted(p.q.txLock) == 0
    requires Accepted(p, steps) == [] && Leave(t) !in steps
    ensures t in Run(p, steps).q.waitR && Run(p, steps).q.items == []
    decreases |steps|
  {
    hide Next, Enabled, AcceptedBy;
    if steps != [] {
      assert steps[0] in steps;
      StepStaysParked(p, steps[0], t);
      StaysParked(Next(p, steps[0]), steps[1..], t);
    }
  }

  // ----- Senders

  function SendersWoken(p: System, s: Step): int
    requires Enabled(p, s)
  {
    if s.Park? || s.Leave? then 0 else |p.q.waitS| - |Next(p, s).q.waitS|
  }

  /** A wake-up is due for each message received and for each reset. */
  function Freed(p: System, s: Step): nat { if s.ResetQueue? then 1 else |RemovedBy(p, s)| }

  lemma StepWakesSenders(p: System, s: Step)
    requires Enabled(p, s)
    ensures 0 <= SendersWoken(p, s)
    ensures SendersWoken(p, s) + Counted(Next(p, s).q.rxLock) <= Counted(p.q.rxLock) + Freed(p, s)
  {
    hide UnlockTx, UnlockRx, Without, SetOf;
    UnlockRxExact(p.q);
    OtherSide(p.q);
  }

  function TotalSendersWoken(p: System, steps: seq<Step>): int
    requires Possible(p, steps)
    decreases |steps|
  {
    if steps == [] then 0 else SendersWoken(p, steps[0]) + TotalSendersWoken(Next(p, steps[0]), steps[1..])
  }

  function TotalFreed(p: System, steps: seq<Step>): nat
    requires Possible(p, steps)
    decreases |steps|
  {
    if steps == [] then 0 else Freed(p, steps[0]) + TotalFreed(Next(p, steps[0]), steps[1..])
  }

  /** Over every interleaving the senders woken never outnumber the messages received plus the resets,
      beyond the reads that were counted at the start. */
  lemma {:induction false} NoSpuriousSenderWakeup(p: System, steps: seq<Step>)
    requires Possible(p, steps)
    ensures TotalSendersWoken(p, steps) + Counted(Run(p, steps).q.rxLock)
            <= Counted(p.q.rxLock) + TotalFreed(p, steps)
    decreases |steps|
  {
    hide Next, Enabled, Freed, SendersWoken;
    if steps != [] {
      StepWakesSenders(p, steps[0]);
      NoSpuriousSenderWakeup(Next(p, steps[0]), steps[1..]);
    }
  }
}
