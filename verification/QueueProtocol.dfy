/** The blocking protocol of queue.c: tasks execute xQueueGenericSend and xQueueGenericReceive one
    critical section at a time, and interrupts post to or read from the queue in between. */
module QueueProtocol {
  import opened QueueCores

  datatype Side = Rx(peek: bool) | Tx

  /** Where a task is inside a blocking call; `retry` tells whether it loops or gives up afterwards. */
  datatype Pc =
    | Outside
    | Attempting(side: Side)
    | SuspendingAll(side: Side)
    | Locking(side: Side)
    | CheckingTime(side: Side)
    | Probing(side: Side)
    | Parking(side: Side)
    | UnlockingTx(side: Side, retry: bool)
    | UnlockingRx(side: Side, retry: bool)
    | ResumingAll(side: Side, retry: bool)

  datatype Owner = Nobody | Owner(t: Task)

  /** `owner` is the task that has suspended the scheduler, if any. */
  datatype System = System(q: Queue, pc: map<Task, Pc>, owner: Owner)

  function PcOf(p: System, t: Task): Pc { if t in p.pc then p.pc[t] else Outside }

  datatype Step =
    | Begin(t: Task, side: Side)
    | Attempt(t: Task, m: Msg, front: bool, block: bool)
    | SuspendAll(t: Task)
    | LockQueue(t: Task)
    | CheckTime(t: Task, expired: bool)
    | Probe(t: Task)
    | Park(t: Task, at: nat)
    | UnlockTxStep(t: Task)
    | UnlockRxStep(t: Task)
    | ResumeAll(t: Task)
    | PostFromISR(m: Msg, front: bool)
    | ReadFromISR
    | Leave(t: Task)
    | ResetQueue

  predicate Waiting(p: System, t: Task) { t in p.q.waitR || t in p.q.waitS }

  /** A task runs only while no other task has suspended the scheduler, and a task on an event list
      runs only to finish the section in which it put itself there.  Whether a timeout has expired,
      whether a block time was given and where priority order places a waiter are left open. */
  predicate Enabled(p: System, s: Step) {
    match s
    case Begin(t, _) => p.owner.Nobody? && PcOf(p, t).Outside?
    case Attempt(t, _, _, _) => p.owner.Nobody? && PcOf(p, t).Attempting? && !Waiting(p, t)
    case SuspendAll(t) => p.owner.Nobody? && PcOf(p, t).SuspendingAll?
    case LockQueue(t) => p.owner == Owner(t) && PcOf(p, t).Locking?
    case CheckTime(t, _) => p.owner == Owner(t) && PcOf(p, t).CheckingTime?
    case Probe(t) => p.owner == Owner(t) && PcOf(p, t).Probing?
    case Park(t, at) =>
      && p.owner == Owner(t) && PcOf(p, t).Parking?
      && at <= if PcOf(p, t).side.Rx? then |p.q.waitR| else |p.q.waitS|
    case UnlockTxStep(t) => p.owner == Owner(t) && PcOf(p, t).UnlockingTx?
    case UnlockRxStep(t) => p.owner == Owner(t) && PcOf(p, t).UnlockingRx?
    case ResumeAll(t) => p.owner == Owner(t) && PcOf(p, t).ResumingAll?
    case PostFromISR(_, _) => true
    case ReadFromISR => true
    case Leave(t) => p.owner.Nobody? && Waiting(p, t)
    case ResetQueue => p.owner.Nobody?
  }

  function Goto(p: System, t: Task, pc: Pc): System { p.(pc := p.pc[t := pc]) }

  function Without(s: seq<Task>, t: Task): (r: seq<Task>)
    ensures forall u :: u in r <==> u in s && u != t
    ensures |r| <= |s|
  {
    if s == [] then []
    else if s[0] == t then Without(s[1..], t)
    else [s[0]] + Without(s[1..], t)
  }

  /** The first critical section of a send or receive call. */
  function AttemptStep(p: System, t: Task, side: Side, m: Msg, front: bool, block: bool): System {
    if side.Rx? then
      var q := p.q.(wokenR := p.q.wokenR - {t});
      if q.items != [] then Goto(p, t, Outside).(q := Receive(q, side.peek))
      else Goto(p, t, if block then SuspendingAll(side) else Outside).(q := q)
    else
      var q := p.q.(wokenS := p.q.wokenS - {t});
      if |q.items| < q.length then Goto(p, t, Outside).(q := Send(q, m, front))
      else Goto(p, t, if block then SuspendingAll(side) else Outside).(q := q)
  }

  function Next(p: System, s: Step): (r: System)
    requires Enabled(p, s)
  {
    match s
    case Begin(t, side) => Goto(p, t, Attempting(side))
    case Attempt(t, m, front, block) => AttemptStep(p, t, PcOf(p, t).side, m, front, block)
    case SuspendAll(t) => Goto(p, t, Locking(PcOf(p, t).side)).(owner := Owner(t))
    case LockQueue(t) => Goto(p, t, CheckingTime(PcOf(p, t).side)).(q := Lock(p.q))
    case CheckTime(t, expired) =>
      Goto(p, t, if expired then UnlockingTx(PcOf(p, t).side, false) else Probing(PcOf(p, t).side))
    case Probe(t) =>
      var side := PcOf(p, t).side;
      var mustWait := if side.Rx? then p.q.items == [] else |p.q.items| == p.q.length;
      Goto(p, t, if mustWait then Parking(side) else UnlockingTx(side, true))
    case Park(t, at) =>
      var side, q := PcOf(p, t).side, p.q;
      Goto(p, t, UnlockingTx(side, true)).(
        q := if side.Rx? then q.(waitR := q.waitR[..at] + [t] + q.waitR[at..])
             else q.(waitS := q.waitS[..at] + [t] + q.waitS[at..]))
    case UnlockTxStep(t) => Goto(p, t, UnlockingRx(PcOf(p, t).side, PcOf(p, t).retry)).(q := UnlockTx(p.q))
    case UnlockRxStep(t) => Goto(p, t, ResumingAll(PcOf(p, t).side, PcOf(p, t).retry)).(q := UnlockRx(p.q))
    case ResumeAll(t) =>
      Goto(p, t, if PcOf(p, t).retry then Attempting(PcOf(p, t).side) else Outside).(owner := Nobody)
    case PostFromISR(m, front) => p.(q := SendFromISR(p.q, m, front))
    case ReadFromISR => p.(q := ReceiveFromISR(p.q))
    case Leave(t) => p.(q := p.q.(waitR := Without(p.q.waitR, t), waitS := Without(p.q.waitS, t)))
    case ResetQueue => p.(q := Reset(p.q))
  }

  // ----- Invariants

  /** The sections between vTaskSuspendAll and xTaskResumeAll. */
  predicate InRegion(pc: Pc) {
    pc.Locking? || pc.CheckingTime? || pc.Probing? || pc.Parking? || pc.UnlockingTx? || pc.UnlockingRx?
        || pc.ResumingAll?
  }

  predicate TxLocked(pc: Pc) { pc.CheckingTime? || pc.Probing? || pc.Parking? || pc.UnlockingTx? }

  predicate RxLocked(pc: Pc) { TxLocked(pc) || pc.UnlockingRx? }

  /** After parking on one side and before retrying on it. */
  predicate Parked(pc: Pc) {
    pc.Attempting? || ((pc.UnlockingTx? || pc.UnlockingRx? || pc.ResumingAll?) && pc.retry)
  }

  ghost predicate Distinct(s: seq<Task>) { forall i, j :: 0 <= i < j < |s| ==> s[i] != s[j] }

  ghost predicate Shape(p: System) {
    && |p.q.items| <= p.q.length && p.q.txLock >= UNLOCKED && p.q.rxLock >= UNLOCKED
    && (forall t :: InRegion(PcOf(p, t)) ==> p.owner == Owner(t))
    && (p.owner.Nobody? ==> p.q.txLock == UNLOCKED && p.q.rxLock == UNLOCKED)
    && (p.owner.Owner? ==> InRegion(PcOf(p, p.owner.t))
                           && (TxLocked(PcOf(p, p.owner.t)) <==> p.q.txLock >= 0)
                           && (RxLocked(PcOf(p, p.owner.t)) <==> p.q.rxLock >= 0))
  }

  ghost predicate ReceiverShape(p: System) {
    && Distinct(p.q.waitR)
    && (forall t :: t in p.q.waitR ==> t !in p.q.wokenR)
    && (forall t :: t in p.q.waitR || t in p.q.wokenR ==> Parked(PcOf(p, t)) && PcOf(p, t).side.Rx?)
  }

  ghost predicate SenderShape(p: System) {
    && Distinct(p.q.waitS)
    && (forall t :: t in p.q.waitS ==> t !in p.q.wokenS)
    && (forall t :: t in p.q.waitS || t in p.q.wokenS ==> Parked(PcOf(p, t)) && PcOf(p, t).side.Tx?)
  }

  function Counted(lock: int): nat { if lock > 0 then lock else 0 }

  /** No wake-up is lost: while a task waits to receive, every message is matched by a task already
      woken for it or by a post still counted in the lock. */
  ghost predicate ReceiversServed(p: System) {
    && (p.q.waitR != [] ==> |p.q.items| <= |p.q.wokenR| + Counted(p.q.txLock))
    && (p.owner.Owner? && PcOf(p, p.owner.t).Parking? && PcOf(p, p.owner.t).side.Rx? ==>
          |p.q.items| <= Counted(p.q.txLock))
  }

  /** The dual: while a task waits to send, every free slot is matched. */
  ghost predicate SendersServed(p: System) {
    && (p.q.waitS != [] ==> p.q.length - |p.q.items| <= |p.q.wokenS| + Counted(p.q.rxLock))
    && (p.owner.Owner? && PcOf(p, p.owner.t).Parking? && PcOf(p, p.owner.t).side.Tx? ==>
          p.q.length - |p.q.items| <= Counted(p.q.rxLock))
  }

  ghost predicate InvR(p: System) { Shape(p) && ReceiverShape(p) && ReceiversServed(p) }

  ghost predicate InvS(p: System) { Shape(p) && SenderShape(p) && SendersServed(p) }

  // ----- The unlocking loops

  function SetOf(s: seq<Task>): set<Task> { set t | t in s }

  /** How many waiting tasks an unlock wakes: one per counted post while anyone waits. */
  function Delivered(lock: int, waiting: seq<Task>): (n: nat)
    ensures n <= |waiting| && n <= Counted(lock)
  {
    if Counted(lock) < |waiting| then Counted(lock) else |waiting|
  }

  /** Exactly as many receivers as posts were counted, or all there are, leave the list from its front
      and are woken; nothing else changes but the lock. */
  lemma {:induction false} UnlockTxExact(q: Queue)
    ensures var n := Delivered(q.txLock, q.waitR);
            UnlockTx(q) == q.(txLock := UNLOCKED, waitR := q.waitR[n..], wokenR := q.wokenR + SetOf(q.waitR[..n]))
    decreases Counted(q.txLock)
  {
    hide SetOf;
    var n := Delivered(q.txLock, q.waitR);
    if n > 0 {
      UnlockTxExact(WakeReceiver(q).(txLock := q.txLock - 1));
      FrontSet(q.waitR, n);
      assert q.waitR[1..][n - 1..] == q.waitR[n..];
    } else {
      NoFront(q.waitR);
    }
  }

  lemma {:induction false} UnlockRxExact(q: Queue)
    ensures var n := Delivered(q.rxLock, q.waitS);
            UnlockRx(q) == q.(rxLock := UNLOCKED, waitS := q.waitS[n..], wokenS := q.wokenS + SetOf(q.waitS[..n]))
    decreases Counted(q.rxLock)
  {
    hide SetOf;
    var n := Delivered(q.rxLock, q.waitS);
    if n > 0 {
      UnlockRxExact(WakeSender(q).(rxLock := q.rxLock - 1));
      FrontSet(q.waitS, n);
      assert q.waitS[1..][n - 1..] == q.waitS[n..];
    } else {
      NoFront(q.waitS);
    }
  }

  lemma FrontSet(s: seq<Task>, n: nat)
    requires 0 < n <= |s|
    ensures {s[0]} + SetOf(s[1..][..n - 1]) == SetOf(s[..n])
  {
    assert s[..n] == [s[0]] + s[1..][..n - 1];
  }

  lemma NoFront(s: seq<Task>)
    ensures s[0..] == s && SetOf(s[..0]) == {}
  {
  }

  /** Cutting a list of distinct tasks after its first n. */
  lemma FrontApart(s: seq<Task>, n: nat)
    requires Distinct(s) && n <= |s|
    ensures Distinct(s[n..]) && |SetOf(s[..n])| == n && SetOf(s[n..]) !! SetOf(s[..n])
    ensures SetOf(s) == SetOf(s[..n]) + SetOf(s[n..])
  {
    hide SetOf;
    var a, b := s[..n], s[n..];
    assert s == a + b;
    HalvesApart(a, b);
    DistinctCount(a);
  }

  lemma HalvesApart(a: seq<Task>, b: seq<Task>)
    requires Distinct(a + b)
    ensures Distinct(a) && Distinct(b) && SetOf(a) !! SetOf(b) && SetOf(a + b) == SetOf(a) + SetOf(b)
  {
    var s := a + b;
    assert forall i :: 0 <= i < |a| ==> s[i] == a[i];
    assert forall i :: 0 <= i < |b| ==> s[|a| + i] == b[i];
  }

  lemma {:induction false} DistinctCount(s: seq<Task>)
    requires Distinct(s)
    ensures |SetOf(s)| == |s|
  {
    hide SetOf;
    if s == [] {
      Members(s);
      assert SetOf(s) == {};
    } else {
      DistinctCount(s[1..]);
      OneMore(s);
    }
  }

  lemma OneMore(s: seq<Task>)
    requires s != [] && Distinct(s)
    ensures |SetOf(s)| == |SetOf(s[1..])| + 1
  {
    assert s == [s[0]] + s[1..];
    assert SetOf(s) == {s[0]} + SetOf(s[1..]);
    assert s[0] !in SetOf(s[1..]);
  }

  lemma Members(s: seq<Task>)
    ensures forall t :: t in SetOf(s) <==> t in s
  {
  }

  lemma UnlockTxFacts(q: Queue)
    requires Distinct(q.waitR) && forall t :: t in q.waitR ==> t !in q.wokenR
    ensures var r, n := UnlockTx(q), Delivered(q.txLock, q.waitR);
            && r == q.(txLock := UNLOCKED, waitR := q.waitR[n..], wokenR := q.wokenR + SetOf(q.waitR[..n]))
            && Distinct(r.waitR) && (forall t :: t in r.waitR ==> t !in r.wokenR)
            && (forall t :: t in r.waitR || t in r.wokenR <==> t in q.waitR || t in q.wokenR)
            && |r.wokenR| == |q.wokenR| + n && (r.waitR != [] ==> n == Counted(q.txLock))
  {
    hide UnlockTx, Distinct, SetOf;
    var n := Delivered(q.txLock, q.waitR);
    UnlockTxExact(q);
    FrontApart(q.waitR, n);
    Members(q.waitR);
    Members(q.waitR[..n]);
    Members(q.waitR[n..]);
    assert q.wokenR !! SetOf(q.waitR[..n]);
  }

  lemma UnlockRxFacts(q: Queue)
    requires Distinct(q.waitS) && forall t :: t in q.waitS ==> t !in q.wokenS
    ensures var r, n := UnlockRx(q), Delivered(q.rxLock, q.waitS);
            && r == q.(rxLock := UNLOCKED, waitS := q.waitS[n..], wokenS := q.wokenS + SetOf(q.waitS[..n]))
            && Distinct(r.waitS) && (forall t :: t in r.waitS ==> t !in r.wokenS)
            && (forall t :: t in r.waitS || t in r.wokenS <==> t in q.waitS || t in q.wokenS)
            && |r.wokenS| == |q.wokenS| + n && (r.waitS != [] ==> n == Counted(q.rxLock))
  {
    hide UnlockRx, Distinct, SetOf;
    var n := Delivered(q.rxLock, q.waitS);
    UnlockRxExact(q);
    FrontApart(q.waitS, n);
    Members(q.waitS);
    Members(q.waitS[..n]);
    Members(q.waitS[n..]);
    assert q.wokenS !! SetOf(q.waitS[..n]);
  }

  /** What the delivery means for the tasks that go on waiting. */
  lemma UnlockTxServes(q: Queue)
    requires Distinct(q.waitR) && forall t :: t in q.waitR ==> t !in q.wokenR
    ensures var r := UnlockTx(q);
            && r == q.(txLock := UNLOCKED, waitR := r.waitR, wokenR := r.wokenR)
            && Distinct(r.waitR) && (forall t :: t in r.waitR ==> t !in r.wokenR)
            && (forall t :: t in r.waitR || t in r.wokenR <==> t in q.waitR || t in q.wokenR)
            && (r.waitR != [] ==> q.waitR != [] && |r.wokenR| == |q.wokenR| + Counted(q.txLock))
  {
    hide UnlockTx, SetOf, Distinct;
    UnlockTxFacts(q);
  }

  lemma UnlockRxServes(q: Queue)
    requires Distinct(q.waitS) && forall t :: t in q.waitS ==> t !in q.wokenS
    ensures var r := UnlockRx(q);
            && r == q.(rxLock := UNLOCKED, waitS := r.waitS, wokenS := r.wokenS)
            && Distinct(r.waitS) && (forall t :: t in r.waitS ==> t !in r.wokenS)
            && (forall t :: t in r.waitS || t in r.wokenS <==> t in q.waitS || t in q.wokenS)
            && (r.waitS != [] ==> q.waitS != [] && |r.wokenS| == |q.wokenS| + Counted(q.rxLock))
  {
    hide UnlockRx, SetOf, Distinct;
    UnlockRxFacts(q);
  }

  lemma WakeReceiverFacts(q: Queue)
    requires Distinct(q.waitR) && forall t :: t in q.waitR ==> t !in q.wokenR
    ensures var r := WakeReceiver(q);
            && r == q.(waitR := r.waitR, wokenR := r.wokenR)
            && Distinct(r.waitR) && (forall t :: t in r.waitR ==> t !in r.wokenR)
            && (forall t :: t in r.waitR || t in r.wokenR <==> t in q.waitR || t in q.wokenR)
            && (r.waitR != [] ==> |r.wokenR| == |q.wokenR| + 1 && q.waitR != [])
  {
    if q.waitR != [] {
      assert q.waitR[0] in q.waitR;
      assert forall t :: t in q.waitR <==> t == q.waitR[0] || t in q.waitR[1..];
    }
  }

  lemma WakeSenderFacts(q: Queue)
    requires Distinct(q.waitS) && forall t :: t in q.waitS ==> t !in q.wokenS
    ensures var r := WakeSender(q);
            && r == q.(waitS := r.waitS, wokenS := r.wokenS)
            && Distinct(r.waitS) && (forall t :: t in r.waitS ==> t !in r.wokenS)
            && (forall t :: t in r.waitS || t in r.wokenS <==> t in q.waitS || t in q.wokenS)
            && (r.waitS != [] ==> |r.wokenS| == |q.wokenS| + 1 && q.waitS != [])
  {
    if q.waitS != [] {
      assert q.waitS[0] in q.waitS;
      assert forall t :: t in q.waitS <==> t == q.waitS[0] || t in q.waitS[1..];
    }
  }

  lemma {:induction false} WithoutDistinct(s: seq<Task>, t: Task)
    requires Distinct(s)
    ensures Distinct(Without(s, t))
  {
    if s != [] {
      WithoutDistinct(s[1..], t);
      assert s[0] !in s[1..];
    }
  }

  lemma JoinDistinct(s: seq<Task>, at: nat, t: Task)
    requires Distinct(s) && at <= |s| && t !in s
    ensures Distinct(s[..at] + [t] + s[at..])
    ensures forall u :: u in s[..at] + [t] + s[at..] <==> u == t || u in s
  {
    assert s == s[..at] + s[at..];
    assert (s[..at] + [t] + s[at..])[at] == t;
  }

  /** The frame of every queue operation on the receiving side that is not about receivers. */
  lemma OtherSide(q: Queue)
    ensures var r := UnlockRx(q); r == q.(rxLock := UNLOCKED, waitS := r.waitS, wokenS := r.wokenS)
    ensures var r := UnlockTx(q); r == q.(txLock := UNLOCKED, waitR := r.waitR, wokenR := r.wokenR)
    decreases Counted(q.rxLock) + Counted(q.txLock)
  {
    if q.rxLock > 0 && q.waitS != [] { OtherSide(WakeSender(q).(rxLock := q.rxLock - 1)); }
    if q.txLock > 0 && q.waitR != [] { OtherSide(WakeReceiver(q).(txLock := q.txLock - 1)); }
  }

  // ----- Every step keeps the invariants

  lemma ShapeStep(p: System, s: Step)
    requires Shape(p) && Enabled(p, s)
    ensures Shape(Next(p, s))
  {
    hide Shape, Next, Enabled;
    if OwnStep(s) {
      ShapeOwn(p, s);
    } else if s.Begin? || s.SuspendAll? || s.ResumeAll? {
      ShapeEnds(p, s);
    } else {
      ShapeQueue(p, s);
    }
  }

  /** The steps a task takes between vTaskSuspendAll and xTaskResumeAll. */
  predicate OwnStep(s: Step) {
    s.LockQueue? || s.CheckTime? || s.Probe? || s.Park? || s.UnlockTxStep? || s.UnlockRxStep?
  }

  lemma ShapeOwn(p: System, s: Step)
    requires Shape(p) && Enabled(p, s) && OwnStep(s)
    ensures Shape(Next(p, s))
  {
    hide UnlockTx, UnlockRx;
    OtherSide(p.q);
  }

  lemma ShapeEnds(p: System, s: Step)
    requires Shape(p) && Enabled(p, s) && (s.Begin? || s.SuspendAll? || s.ResumeAll?)
    ensures Shape(Next(p, s))
  {
  }

  lemma ShapeQueue(p: System, s: Step)
    requires Shape(p) && Enabled(p, s) && !OwnStep(s) && !s.Begin? && !s.SuspendAll? && !s.ResumeAll?
    ensures Shape(Next(p, s))
  {
    hide Without;
  }

  lemma ReceiverStep(p: System, s: Step)
    requires InvR(p) && Enabled(p, s)
    ensures ReceiverShape(Next(p, s)) && ReceiversServed(Next(p, s))
  {
    hide Shape, ReceiverShape, ReceiversServed, Next, Enabled;
    match s
    case Attempt(t, m, front, block) => ReceiverAttempt(p, t, m, front, block);
    case Park(t, at) => ReceiverParks(p, t, at);
    case UnlockTxStep(t) => ReceiverUnlocks(p, s);
    case UnlockRxStep(t) => ReceiverUnlocks(p, s);
    case PostFromISR(m, front) => ReceiverPost(p, m, front);
    case ReadFromISR => ReceiverRead(p);
    case Leave(t) => ReceiverLeaves(p, t);
    case ResetQueue => ReceiverReset(p);
    case _ => ReceiverMoves(p, s);
  }

  /** Steps that only move a program counter or lock the queue. */
  lemma ReceiverMoves(p: System, s: Step)
    requires InvR(p) && Enabled(p, s)
    requires s.Begin? || s.SuspendAll? || s.LockQueue? || s.CheckTime? || s.Probe? || s.ResumeAll?
    ensures ReceiverShape(Next(p, s)) && ReceiversServed(Next(p, s))
  {
  }

  lemma ReceiverParks(p: System, t: Task, at: nat)
    requires InvR(p) && Enabled(p, Park(t, at))
    ensures ReceiverShape(Next(p, Park(t, at))) && ReceiversServed(Next(p, Park(t, at)))
  {
    if PcOf(p, t).side.Rx? { JoinDistinct(p.q.waitR, at, t); }
  }

  lemma ReceiverUnlocks(p: System, s: Step)
    requires InvR(p) && Enabled(p, s) && (s.UnlockTxStep? || s.UnlockRxStep?)
    ensures ReceiverShape(Next(p, s)) && ReceiversServed(Next(p, s))
  {
    hide UnlockTx, UnlockRx;
    if s.UnlockTxStep? { UnlockTxServes(p.q); } else { OtherSide(p.q); }
  }

  lemma ReceiverPost(p: System, m: Msg, front: bool)
    requires InvR(p)
    ensures ReceiverShape(Next(p, PostFromISR(m, front))) && ReceiversServed(Next(p, PostFromISR(m, front)))
  {
    hide WakeReceiver;
    WakeReceiverFacts(Put(p.q, m, front));
  }

  /** Nothing changes for the receivers but that there may be fewer messages. */
  lemma FewerMessages(p: System, q: Queue)
    requires ReceiverShape(p) && ReceiversServed(p)
    requires q.waitR == p.q.waitR && q.wokenR == p.q.wokenR && |q.items| <= |p.q.items|
    requires q.items == [] || q.txLock == p.q.txLock
    ensures ReceiverShape(p.(q := q)) && ReceiversServed(p.(q := q))
  {
    var r := p.(q := q);
    assert forall t :: PcOf(r, t) == PcOf(p, t);
  }

  lemma ReceiverRead(p: System)
    requires InvR(p)
    ensures ReceiverShape(Next(p, ReadFromISR)) && ReceiversServed(Next(p, ReadFromISR))
  {
    hide WakeSender, ReceiverShape, ReceiversServed, Shape;
    if p.q.items != [] { SenderAside(Drop(p.q)); }
    FewerMessages(p, ReceiveFromISR(p.q));
  }

  lemma ReceiverLeaves(p: System, t: Task)
    requires InvR(p) && Enabled(p, Leave(t))
    ensures ReceiverShape(Next(p, Leave(t))) && ReceiversServed(Next(p, Leave(t)))
  {
    hide Without, Distinct;
    WithoutDistinct(p.q.waitR, t);
    WithoutNone(p.q.waitR, t);
  }

  lemma WithoutNone(s: seq<Task>, t: Task)
    ensures (forall u :: u in Without(s, t) <==> u in s && u != t) && (s == [] ==> Without(s, t) == [])
  {
  }

  lemma ReceiverReset(p: System)
    requires InvR(p) && Enabled(p, ResetQueue)
    ensures ReceiverShape(Next(p, ResetQueue)) && ReceiversServed(Next(p, ResetQueue))
  {
    hide WakeSender, ReceiverShape, ReceiversServed, Shape;
    SenderAside(p.q.(items := [], txLock := UNLOCKED, rxLock := UNLOCKED));
    FewerMessages(p, Reset(p.q));
  }

  lemma SenderAside(q: Queue)
    ensures WakeSender(q) == q.(waitS := WakeSender(q).waitS, wokenS := WakeSender(q).wokenS)
    ensures WakeReceiver(q) == q.(waitR := WakeReceiver(q).waitR, wokenR := WakeReceiver(q).wokenR)
  {
  }

  /** What an attempt by a receiver, having taken itself off the woken list, must establish. */
  lemma ReceiverAttempt(p: System, t: Task, m: Msg, front: bool, block: bool)
    requires InvR(p) && Enabled(p, Attempt(t, m, front, block))
    ensures var r := Next(p, Attempt(t, m, front, block)); ReceiverShape(r) && ReceiversServed(r)
  {
    hide UnlockTx, UnlockRx, WakeReceiver, WakeSender;
    var side, q := PcOf(p, t).side, p.q;
    var r := Next(p, Attempt(t, m, front, block));
    if side.Rx? {
      var q1 := q.(wokenR := q.wokenR - {t});
      if q1.items != [] { WakeReceiverFacts(q1); SenderAside(Drop(q1)); }
      TakenOff(q.wokenR, t);
      RetryKeeps(p, r, t);
    } else {
      var q1 := Put(q.(wokenS := q.wokenS - {t}), m, front);
      SenderAside(q1);
      WakeReceiverFacts(q1);
      RetryKeeps(p, r, t);
    }
  }

  lemma TakenOff(woken: set<Task>, t: Task)
    ensures |woken| <= |woken - {t}| + 1
  {
    if t in woken { assert woken == (woken - {t}) + {t}; } else { assert woken == woken - {t}; }
  }

  lemma RetryKeeps(p: System, r: System, t: Task)
    requires InvR(p) && r.owner == p.owner && p.owner.Nobody? && t !in p.q.waitR && r.q.txLock == p.q.txLock
    requires Distinct(r.q.waitR) && (forall u :: u in r.q.waitR ==> u !in r.q.wokenR)
    requires forall u :: u in r.q.waitR || u in r.q.wokenR ==>
               u in p.q.waitR || (u in p.q.wokenR && (u != t || PcOf(p, t).side.Tx?))
    requires forall u :: u != t ==> PcOf(r, u) == PcOf(p, u)
    requires PcOf(p, t).Attempting?
    requires r.q.waitR != [] ==> |r.q.items| <= |r.q.wokenR|
    ensures ReceiverShape(r) && ReceiversServed(r)
  {
  }

  lemma SenderStep(p: System, s: Step)
    requires InvS(p) && Enabled(p, s) && !s.ResetQueue?
    ensures SenderShape(Next(p, s)) && SendersServed(Next(p, s))
  {
    hide Shape, SenderShape, SendersServed, Next, Enabled;
    match s
    case Attempt(t, m, front, block) => SenderAttempt(p, t, m, front, block);
    case Park(t, at) => SenderParks(p, t, at);
    case UnlockTxStep(t) => SenderUnlocks(p, s);
    case UnlockRxStep(t) => SenderUnlocks(p, s);
    case PostFromISR(m, front) => SenderPost(p, m, front);
    case ReadFromISR => SenderRead(p);
    case Leave(t) => SenderLeaves(p, t);
    case _ => SenderMoves(p, s);
  }

  lemma SenderMoves(p: System, s: Step)
    requires InvS(p) && Enabled(p, s)
    requires s.Begin? || s.SuspendAll? || s.LockQueue? || s.CheckTime? || s.Probe? || s.ResumeAll?
    ensures SenderShape(Next(p, s)) && SendersServed(Next(p, s))
  {
  }

  lemma SenderParks(p: System, t: Task, at: nat)
    requires InvS(p) && Enabled(p, Park(t, at))
    ensures SenderShape(Next(p, Park(t, at))) && SendersServed(Next(p, Park(t, at)))
  {
    if PcOf(p, t).side.Tx? { JoinDistinct(p.q.waitS, at, t); }
  }

  lemma SenderUnlocks(p: System, s: Step)
    requires InvS(p) && Enabled(p, s) && (s.UnlockTxStep? || s.UnlockRxStep?)
    ensures SenderShape(Next(p, s)) && SendersServed(Next(p, s))
  {
    hide UnlockTx, UnlockRx;
    if s.UnlockRxStep? { UnlockRxServes(p.q); } else { OtherSide(p.q); }
  }

  lemma SenderRead(p: System)
    requires InvS(p)
    ensures SenderShape(Next(p, ReadFromISR)) && SendersServed(Next(p, ReadFromISR))
  {
    hide WakeSender;
    if p.q.items != [] { WakeSenderFacts(Drop(p.q)); }
  }

  lemma SenderPost(p: System, m: Msg, front: bool)
    requires InvS(p)
    ensures SenderShape(Next(p, PostFromISR(m, front))) && SendersServed(Next(p, PostFromISR(m, front)))
  {
    hide WakeReceiver, SenderShape, SendersServed, Shape;
    SenderAside(Put(p.q, m, front));
    FewerSlots(p, SendFromISR(p.q, m, front));
  }

  /** Nothing changes for the senders but that there may be fewer free slots. */
  lemma FewerSlots(p: System, q: Queue)
    requires SenderShape(p) && SendersServed(p) && q.length == p.q.length
    requires q.waitS == p.q.waitS && q.wokenS == p.q.wokenS && |q.items| >= |p.q.items| && q.rxLock == p.q.rxLock
    ensures SenderShape(p.(q := q)) && SendersServed(p.(q := q))
  {
    var r := p.(q := q);
    assert forall t :: PcOf(r, t) == PcOf(p, t);
  }

  lemma SenderLeaves(p: System, t: Task)
    requires InvS(p) && Enabled(p, Leave(t))
    ensures SenderShape(Next(p, Leave(t))) && SendersServed(Next(p, Leave(t)))
  {
    hide Without, Distinct;
    WithoutDistinct(p.q.waitS, t);
    WithoutNone(p.q.waitS, t);
  }

  lemma SenderAttempt(p: System, t: Task, m: Msg, front: bool, block: bool)
    requires InvS(p) && Enabled(p, Attempt(t, m, front, block))
    ensures var r := Next(p, Attempt(t, m, front, block)); SenderShape(r) && SendersServed(r)
  {
    hide UnlockTx, UnlockRx, WakeReceiver, WakeSender;
    var side, q := PcOf(p, t).side, p.q;
    var r := Next(p, Attempt(t, m, front, block));
    if side.Tx? {
      SenderAside(Put(q.(wokenS := q.wokenS - {t}), m, front));
      TakenOff(q.wokenS, t);
      ResendKeeps(p, r, t);
    } else {
      var q1 := q.(wokenR := q.wokenR - {t});
      SenderAside(q1);
      if q1.items != [] { WakeSenderFacts(Drop(q1)); }
      ResendKeeps(p, r, t);
    }
  }

  lemma ResendKeeps(p: System, r: System, t: Task)
    requires InvS(p) && r.owner == p.owner && p.owner.Nobody? && t !in p.q.waitS && r.q.rxLock == p.q.rxLock
    requires Distinct(r.q.waitS) && (forall u :: u in r.q.waitS ==> u !in r.q.wokenS)
    requires forall u :: u in r.q.waitS || u in r.q.wokenS ==>
               u in p.q.waitS || (u in p.q.wokenS && (u != t || PcOf(p, t).side.Rx?))
    requires forall u :: u != t ==> PcOf(r, u) == PcOf(p, u)
    requires PcOf(p, t).Attempting?
    requires r.q.waitS != [] ==> r.q.length - |r.q.items| <= |r.q.wokenS|
    ensures SenderShape(r) && SendersServed(r)
  {
  }

  // ----- Runs

  /** A queue as created, holding its initial items: none for a plain queue, the initial count of
      empty items for a counting semaphore, one for a mutex. */
  function Created(length: nat, initial: seq<Msg>): System {
    System(Queue(length, initial, UNLOCKED, UNLOCKED, [], [], {}, {}), map[], Nobody)
  }

  ghost predicate Possible(p: System, steps: seq<Step>)
    decreases |steps|
  {
    steps == [] || (Enabled(p, steps[0]) && Possible(Next(p, steps[0]), steps[1..]))
  }

  function Run(p: System, steps: seq<Step>): (r: System)
    requires Possible(p, steps)
    decreases |steps|
  {
    if steps == [] then p else Run(Next(p, steps[0]), steps[1..])
  }

  lemma {:induction false} ReceiversServedInRuns(p: System, steps: seq<Step>)
    requires InvR(p) && Possible(p, steps)
    ensures InvR(Run(p, steps))
    decreases |steps|
  {
    hide Next, Enabled, Shape, ReceiverShape, ReceiversServed;
    if steps != [] {
      ShapeStep(p, steps[0]);
      ReceiverStep(p, steps[0]);
      ReceiversServedInRuns(Next(p, steps[0]), steps[1..]);
    }
  }

  lemma {:induction false} SendersServedInRuns(p: System, steps: seq<Step>)
    requires InvS(p) && Possible(p, steps) && ResetQueue !in steps
    ensures InvS(Run(p, steps))
    decreases |steps|
  {
    hide Next, Enabled, Shape, SenderShape, SendersServed;
    if steps != [] {
      assert steps[0] in steps;
      ShapeStep(p, steps[0]);
      SenderStep(p, steps[0]);
      SendersServedInRuns(Next(p, steps[0]), steps[1..]);
    }
  }

  /** In every interleaving of tasks and interrupts from a fresh queue, resets included: if a task
      waits to receive, messages <= woken receivers + max(xTxLock, 0).  So with the queue unlocked and
      nobody woken, a task waits only on an empty queue. */
  lemma NoLostReceiverWakeup(length: nat, initial: seq<Msg>, steps: seq<Step>)
    requires |initial| <= length && Possible(Created(length, initial), steps)
    ensures var q := Run(Created(length, initial), steps).q;
            q.waitR != [] ==> |q.items| <= |q.wokenR| + Counted(q.txLock)
    ensures var p := Run(Created(length, initial), steps);
            p.owner.Nobody? && p.q.waitR != [] && p.q.wokenR == {} ==> p.q.items == []
  {
    ReceiversServedInRuns(Created(length, initial), steps);
  }

  /** The dual for senders and free slots, in every interleaving without a queue reset. */
  lemma NoLostSenderWakeup(length: nat, initial: seq<Msg>, steps: seq<Step>)
    requires |initial| <= length && Possible(Created(length, initial), steps) && ResetQueue !in steps
    ensures var q := Run(Created(length, initial), steps).q;
            q.waitS != [] ==> q.length - |q.items| <= |q.wokenS| + Counted(q.rxLock)
    ensures var p := Run(Created(length, initial), steps);
            p.owner.Nobody? && p.q.waitS != [] && p.q.wokenS == {} ==> |p.q.items| == p.q.length
  {
    SendersServedInRuns(Created(length, initial), steps);
  }

  /** A reset frees every slot but wakes one sender: the senders stay served exactly when at most one
      was waiting or enough senders were already on their way. */
  lemma ResetServesSendersIff(p: System)
    requires InvS(p) && p.owner.Nobody?
    ensures SendersServed(Next(p, ResetQueue)) <==> |p.q.waitS| <= 1 || p.q.length <= |p.q.wokenS| + 1
  {
    WakeSenderFacts(p.q.(items := [], txLock := UNLOCKED, rxLock := UNLOCKED));
  }
}
