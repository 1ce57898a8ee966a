/** A run of the blocking protocol after which a queue reset leaves a sender asleep. */
module QueueExamples {
  import opened QueueCores
  import opened QueueProtocol

  lemma {:induction false} RunAppend(p: System, a: seq<Step>, b: seq<Step>)
    requires Possible(p, a) && Possible(Run(p, a), b)
    ensures Possible(p, a + b) && Run(p, a + b) == Run(Run(p, a), b)
    decreases |a|
  {
    hide Next, Enabled;
    if a == [] {
      assert a + b == b;
    } else {
      RunAppend(Next(p, a[0]), a[1..], b);
      assert (a + b)[0] == a[0] && (a + b)[1..] == a[1..] + b;
    }
  }

  lemma RunTwo(p: System, s: Step, t: Step)
    requires Enabled(p, s) && Enabled(Next(p, s), t)
    ensures Possible(p, [s, t]) && Run(p, [s, t]) == Next(Next(p, s), t)
  {
    hide Next, Enabled;
    var m := Next(p, s);
    assert [s, t][1..] == [t] && [t][1..] == [];
    assert Possible(m, [t]) && Run(m, [t]) == Next(m, t) by { assert Possible(Next(m, t), []); }
  }

  /** Nobody has suspended the scheduler and the queue is unlocked. */
  predicate AtRest(p: System) { p.owner.Nobody? && p.q.txLock == UNLOCKED && p.q.rxLock == UNLOCKED }

  /** The task is neither in a call nor on the way back from one. */
  predicate Free(p: System, t: Task) {
    PcOf(p, t).Outside? && !Waiting(p, t) && t !in p.q.wokenR && t !in p.q.wokenS
  }

  /** A receive or peek on an empty queue, or a send to a full one, cannot be served. */
  predicate MustBlock(q: Queue, side: Side) { if side.Rx? then q.items == [] else |q.items| == q.length }

  // ----- The two steps every call begins with

  function CallSteps(t: Task, side: Side, m: Msg, block: bool): seq<Step> {
    [Begin(t, side), Attempt(t, m, false, block)]
  }

  lemma Begins(p: System, t: Task, side: Side)
    requires AtRest(p) && PcOf(p, t).Outside?
    ensures Enabled(p, Begin(t, side)) && Next(p, Begin(t, side)) == p.(pc := p.pc[t := Attempting(side)])
  {
  }

  lemma SameWoken(q: Queue, t: Task)
    requires t !in q.wokenR && t !in q.wokenS
    ensures q.(wokenR := q.wokenR - {t}) == q && q.(wokenS := q.wokenS - {t}) == q
  {
    assert q.wokenR - {t} == q.wokenR && q.wokenS - {t} == q.wokenS;
  }

  lemma AttemptSends(b: System, t: Task, m: Msg)
    requires AtRest(b) && PcOf(b, t) == Attempting(Tx) && !Waiting(b, t) && t !in b.q.wokenR && t !in b.q.wokenS
    requires |b.q.items| < b.q.length
    ensures Enabled(b, Attempt(t, m, false, true))
    ensures Next(b, Attempt(t, m, false, true)) == b.(q := Send(b.q, m, false), pc := b.pc[t := Outside])
  {
    hide Send;
    SameWoken(b.q, t);
  }

  lemma Sends(p: System, t: Task, m: Msg)
    requires AtRest(p) && Free(p, t) && |p.q.items| < p.q.length && p.q.waitR == []
    ensures Possible(p, CallSteps(t, Tx, m, true))
    ensures Run(p, CallSteps(t, Tx, m, true)) == p.(q := p.q.(items := p.q.items + [m]), pc := p.pc[t := Outside])
  {
    hide Possible, Run, Next, Send, Enabled;
    Begins(p, t, Tx);
    var b := p.(pc := p.pc[t := Attempting(Tx)]);
    AttemptSends(b, t, m);
    SendsUnawaited(p.q, m);
    assert b.pc[t := Outside] == p.pc[t := Outside];
    RunTwo(p, Begin(t, Tx), Attempt(t, m, false, true));
  }

  lemma SendsUnawaited(q: Queue, m: Msg)
    requires q.waitR == []
    ensures Send(q, m, false) == q.(items := q.items + [m])
  {
  }

  lemma AttemptFails(b: System, t: Task, side: Side, m: Msg, block: bool)
    requires AtRest(b) && PcOf(b, t) == Attempting(side) && !Waiting(b, t) && t !in b.q.wokenR && t !in b.q.wokenS
    requires MustBlock(b.q, side)
    ensures Enabled(b, Attempt(t, m, false, block))
    ensures Next(b, Attempt(t, m, false, block)) == b.(pc := b.pc[t := if block then SuspendingAll(side) else Outside])
  {
    hide Send, Receive;
    SameWoken(b.q, t);
  }

  /** A call that cannot be served returns at once without a block time, and otherwise goes on to suspend
      the scheduler. */
  lemma CannotServe(p: System, t: Task, side: Side, m: Msg, block: bool)
    requires AtRest(p) && Free(p, t) && MustBlock(p.q, side)
    ensures Possible(p, CallSteps(t, side, m, block))
    ensures Run(p, CallSteps(t, side, m, block)) == p.(pc := p.pc[t := if block then SuspendingAll(side) else Outside])
  {
    hide Possible, Run, Next, Enabled;
    Begins(p, t, side);
    var b := p.(pc := p.pc[t := Attempting(side)]);
    AttemptFails(b, t, side, m, block);
    RunTwo(p, Begin(t, side), Attempt(t, m, false, block));
  }

  // ----- Blocking

  /** The queue while task t has it locked. */
  function Locked(p: System, t: Task, pc: Pc): System {
    System(p.q.(txLock := 0, rxLock := 0), p.pc[t := pc], Owner(t))
  }

  /** The same once the posts counted have been delivered. */
  function HalfLocked(p: System, t: Task, pc: Pc): System {
    System(p.q.(rxLock := 0), p.pc[t := pc], Owner(t))
  }

  lemma Locks(p: System, t: Task, side: Side)
    requires AtRest(p) && PcOf(p, t) == SuspendingAll(side)
    ensures Possible(p, [SuspendAll(t), LockQueue(t)])
    ensures Run(p, [SuspendAll(t), LockQueue(t)]) == Locked(p, t, CheckingTime(side))
  {
    RunTwo(p, SuspendAll(t), LockQueue(t));
  }

  /** Checking the timeout and then the queue: a call that has time left and still cannot be served parks. */
  lemma GoesToPark(p: System, t: Task, side: Side)
    requires AtRest(p)
    ensures var l, s := Locked(p, t, CheckingTime(side)), [CheckTime(t, false), Probe(t)];
            && Possible(l, s)
            && Run(l, s) == Locked(p, t, if MustBlock(p.q, side) then Parking(side) else UnlockingTx(side, true))
  {
    RunTwo(Locked(p, t, CheckingTime(side)), CheckTime(t, false), Probe(t));
  }

  /** The queue with t at the end of its waiting list. */
  function Joined(q: Queue, t: Task, side: Side): Queue {
    if side.Rx? then q.(waitR := q.waitR + [t]) else q.(waitS := q.waitS + [t])
  }

  function LastPlace(q: Queue, side: Side): nat { if side.Rx? then |q.waitR| else |q.waitS| }

  /** With no post counted in between, unlocking wakes nobody. */
  lemma Joins(p: System, t: Task, side: Side)
    requires AtRest(p)
    ensures var l, s := Locked(p, t, Parking(side)), [Park(t, LastPlace(p.q, side)), UnlockTxStep(t)];
            && Possible(l, s)
            && Run(l, s) == HalfLocked(p.(q := Joined(p.q, t, side)), t, UnlockingRx(side, true))
  {
    var l, at := Locked(p, t, Parking(side)), LastPlace(p.q, side);
    assert side.Rx? ==> p.q.waitR[..at] + [t] + p.q.waitR[at..] == p.q.waitR + [t];
    assert side.Tx? ==> p.q.waitS[..at] + [t] + p.q.waitS[at..] == p.q.waitS + [t];
    RunTwo(l, Park(t, at), UnlockTxStep(t));
  }

  lemma Unlocks(p: System, t: Task, side: Side, retry: bool)
    requires AtRest(p)
    ensures var l, s := HalfLocked(p, t, UnlockingRx(side, retry)), [UnlockRxStep(t), ResumeAll(t)];
            && Possible(l, s)
            && Run(l, s) == p.(pc := p.pc[t := if retry then Attempting(side) else Outside])
  {
    RunTwo(HalfLocked(p, t, UnlockingRx(side, retry)), UnlockRxStep(t), ResumeAll(t));
  }

  /** A call that cannot be served and has time left parks and unlocks the queue. */
  function ParkSteps(t: Task, side: Side, m: Msg, at: nat): seq<Step> {
    CallSteps(t, side, m, true) + [SuspendAll(t), LockQueue(t)] + [CheckTime(t, false), Probe(t)]
    + [Park(t, at), UnlockTxStep(t)] + [UnlockRxStep(t), ResumeAll(t)]
  }

  /** Undisturbed, a call that cannot be served ends up on the waiting list, asleep: its own unlocking wakes
      neither it nor anybody else. */
  lemma Parks(p: System, t: Task, side: Side, m: Msg)
    requires AtRest(p) && Free(p, t) && MustBlock(p.q, side)
    ensures Possible(p, ParkSteps(t, side, m, LastPlace(p.q, side)))
    ensures Run(p, ParkSteps(t, side, m, LastPlace(p.q, side)))
            == p.(q := Joined(p.q, t, side), pc := p.pc[t := Attempting(side)])
  {
    hide Next, Enabled, CallSteps, Possible, Run;
    var a, b, c := CallSteps(t, side, m, true), [SuspendAll(t), LockQueue(t)], [CheckTime(t, false), Probe(t)];
    var d, e := [Park(t, LastPlace(p.q, side)), UnlockTxStep(t)], [UnlockRxStep(t), ResumeAll(t)];
    var p1 := p.(pc := p.pc[t := SuspendingAll(side)]);
    CannotServe(p, t, side, m, true);
    Locks(p1, t, side);
    assert Locked(p1, t, CheckingTime(side)) == Locked(p, t, CheckingTime(side));
    RunAppend(p, a, b);
    GoesToPark(p, t, side);
    RunAppend(p, a + b, c);
    Joins(p, t, side);
    RunAppend(p, a + b + c, d);
    Unlocks(p.(q := Joined(p.q, t, side)), t, side, true);
    RunAppend(p, a + b + c + d, e);
  }

  /** A call whose timeout has expired. */
  function ExpireSteps(t: Task, side: Side, m: Msg): seq<Step> {
    CallSteps(t, side, m, true) + [SuspendAll(t), LockQueue(t)] + [CheckTime(t, true), UnlockTxStep(t)]
    + [UnlockRxStep(t), ResumeAll(t)]
  }

  lemma Expires(p: System, t: Task, side: Side)
    requires AtRest(p)
    ensures var l, s := Locked(p, t, CheckingTime(side)), [CheckTime(t, true), UnlockTxStep(t)];
            Possible(l, s) && Run(l, s) == HalfLocked(p, t, UnlockingRx(side, false))
  {
    RunTwo(Locked(p, t, CheckingTime(side)), CheckTime(t, true), UnlockTxStep(t));
  }

  /** Undisturbed, a call whose timeout has expired returns and leaves the queue as it was. */
  lemma GivesUp(p: System, t: Task, side: Side, m: Msg)
    requires AtRest(p) && Free(p, t) && MustBlock(p.q, side)
    ensures Possible(p, ExpireSteps(t, side, m))
    ensures Run(p, ExpireSteps(t, side, m)) == p.(pc := p.pc[t := Outside])
  {
    hide Next, Enabled, CallSteps, Possible, Run;
    var a, b := CallSteps(t, side, m, true), [SuspendAll(t), LockQueue(t)];
    var c, d := [CheckTime(t, true), UnlockTxStep(t)], [UnlockRxStep(t), ResumeAll(t)];
    var p1 := p.(pc := p.pc[t := SuspendingAll(side)]);
    CannotServe(p, t, side, m, true);
    Locks(p1, t, side);
    assert Locked(p1, t, CheckingTime(side)) == Locked(p, t, CheckingTime(side));
    RunAppend(p, a, b);
    Expires(p, t, side);
    RunAppend(p, a + b, c);
    Unlocks(p, t, side, false);
    RunAppend(p, a + b + c, d);
  }

  /** If the queue can serve the call after all by the time it has been locked, the call tries again. */
  lemma TriesAgain(p: System, t: Task, side: Side)
    requires AtRest(p) && !MustBlock(p.q, side)
    ensures var l := Locked(p, t, CheckingTime(side));
            var s := [CheckTime(t, false), Probe(t)] + [UnlockTxStep(t), UnlockRxStep(t)];
            && Possible(l, s)
            && Run(l, s) == System(p.q, p.pc[t := ResumingAll(side, true)], Owner(t))
  {
    hide Possible, Run;
    var l := Locked(p, t, CheckingTime(side));
    GoesToPark(p, t, side);
    RunTwo(Locked(p, t, UnlockingTx(side, true)), UnlockTxStep(t), UnlockRxStep(t));
    RunAppend(l, [CheckTime(t, false), Probe(t)], [UnlockTxStep(t), UnlockRxStep(t)]);
  }

  // ----- The run

  /** Task 1 fills a queue of two, then tasks 7 and 8 block on it. */
  function TwoSendersBlock(): seq<Step> {
    CallSteps(1, Tx, [1], true) + CallSteps(1, Tx, [2], true) + ParkSteps(7, Tx, [3], 0) + ParkSteps(8, Tx, [4], 1)
  }

  lemma TwoSendersWait()
    ensures Possible(Created(2, []), TwoSendersBlock())
    ensures var p := Run(Created(2, []), TwoSendersBlock());
            p.owner.Nobody? && p.q == Queue(2, [[1], [2]], UNLOCKED, UNLOCKED, [], [7, 8], {}, {})
  {
    hide CallSteps, ParkSteps, Possible, Run;
    var p := Created(2, []);
    var a, b := CallSteps(1, Tx, [1], true), CallSteps(1, Tx, [2], true);
    var c, d := ParkSteps(7, Tx, [3], 0), ParkSteps(8, Tx, [4], 1);
    Sends(p, 1, [1]);
    var p1 := p.(q := p.q.(items := p.q.items + [[1]]), pc := p.pc[1 := Outside]);
    Sends(p1, 1, [2]);
    var p2 := p1.(q := p1.q.(items := p1.q.items + [[2]]), pc := p1.pc[1 := Outside]);
    RunAppend(p, a, b);
    Parks(p2, 7, Tx, [3]);
    var p3 := p2.(q := p2.q.(waitS := p2.q.waitS + [7]), pc := p2.pc[7 := Attempting(Tx)]);
    RunAppend(p, a + b, c);
    Parks(p3, 8, Tx, [4]);
    RunAppend(p, a + b + c, d);
    assert p3.q.waitS + [8] == [7, 8] && p2.q.items == [[1], [2]];
  }

  /** Two senders blocked on a full queue of two: after a reset one of them sleeps on beside a free
      slot that no woken sender will take. */
  lemma ResetStrandsASender()
    ensures Possible(Created(2, []), TwoSendersBlock() + [ResetQueue])
    ensures var p := Run(Created(2, []), TwoSendersBlock() + [ResetQueue]);
            && p.q.items == [] && p.q.waitS == [8] && p.q.wokenS == {7} && p.q.rxLock == UNLOCKED
            && !SendersServed(p)
  {
    hide TwoSendersBlock;
    TwoSendersWait();
    var p := Run(Created(2, []), TwoSendersBlock());
    assert Possible(p, [ResetQueue]) && Run(p, [ResetQueue]) == Next(p, ResetQueue) by {
      assert [ResetQueue][1..] == [] && Possible(Next(p, ResetQueue), []);
    }
    RunAppend(Created(2, []), TwoSendersBlock(), [ResetQueue]);
  }
}
