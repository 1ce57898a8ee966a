/** The scheduler's own variables over whole runs: how deeply it is suspended, the yield it remembers,
    the running task and the range of the highest ready priority. */
module KernelControl {
  import opened XLists
  import opened Stores
  import opened ReadyLists
  import opened DelayLists
  import opened TaskMoves
  import opened Kernels
  import opened KernelSteps
  import opened KernelRuns
  import opened KernelMachine

  // ----- Nesting of vTaskSuspendAll

  function SuspendCalls(ops: seq<Op>): nat {
    if ops == [] then 0 else (if ops[0].OpSuspendAll? then 1 else 0) + SuspendCalls(ops[1..])
  }

  function ResumeCalls(ops: seq<Op>): nat {
    if ops == [] then 0 else (if ops[0].OpResumeAll? then 1 else 0) + ResumeCalls(ops[1..])
  }

  /** A switch asked for while the scheduler is suspended is owed until the suspension ends. */
  function Owed(depth: nat, owed: bool, op: Op): bool {
    match op
    case OpSwitch => owed || depth > 0
    case OpResumeAll => owed && depth != 1
    case _ => owed
  }

  function OwedAfter(depth: nat, owed: bool, ops: seq<Op>): bool
    decreases |ops|
  {
    if ops == [] then owed
    else
      var next: int := depth + (if ops[0].OpSuspendAll? then 1 else if ops[0].OpResumeAll? then -1 else 0);
      OwedAfter(if next < 0 then 0 else next, Owed(depth, owed, ops[0]), ops[1..])
  }

  lemma {:induction false} ReplayControl(k: Kernel)
    requires Core(k)
    ensures var r := Replay(k);
            r.suspended == k.suspended && r.missedYield == k.missedYield && r.current == k.current
    decreases k.missed
  {
    hide Core, ProcessTick;
    if k.missed > 0 {
      CachedAgrees(k);
      TickShape(k);
      var m := ProcessTick(k).(missed := k.missed - 1);
      SameCore(ProcessTick(k), m);
      ReplayControl(m);
    }
  }

  lemma ResumeControl(k: Kernel)
    requires Inv(k) && k.suspended > 0
    ensures var r := ResumeAll(k);
            && r.suspended == k.suspended - 1 && r.current == k.current
            && r.missedYield == (k.missedYield && k.suspended > 1)
  {
    hide Core, Replay, DrainPending;
    var c := k.(suspended := k.suspended - 1);
    SameCore(k, c);
    CoreSound(c);
    if c.suspended == 0 {
      DrainPendingStep(c);
      ReplayControl(c.(s := DrainPending(c.s)));
    }
  }

  /** Each suspension is counted and each resumption takes one back; only a switch with the scheduler
      running changes the running task; and a switch asked for meanwhile is owed. */
  lemma StepControl(k: Kernel, op: Op)
    requires Inv(k) && k.levels > 0 && Enabled(k, op)
    ensures var r := Step(k, op);
            && r.suspended == k.suspended + (if op.OpSuspendAll? then 1 else if op.OpResumeAll? then -1 else 0)
            && r.missedYield == Owed(k.suspended, k.missedYield, op)
            && ((op.OpSwitch? && k.suspended == 0) || r.current == k.current)
  {
    hide Core, Priorities, Counters, Settled, Roles, Drain, DrainPending, Replay, Arm, Append, Insert, DetachRunning;
    hide Retire, MakeReady, Pend, Birth, Bury, Reprioritise, TopLevel, Advance, ResumeAll;
    match op
    case OpResumeAll => ResumeControl(k);
    case OpTick =>
      var c := k.(interrupts := k.interrupts + 1);
      SameCore(k, c);
      TickShape(c);
    case _ =>
  }

  /** Over every run the scheduler is suspended exactly as deeply as the calls say. */
  lemma {:induction false} NestingIsExact(k: Kernel, ops: seq<Op>)
    requires Inv(k) && k.levels > 0 && Possible(k, ops)
    ensures Run(k, ops).suspended == k.suspended + SuspendCalls(ops) - ResumeCalls(ops)
    decreases |ops|
  {
    hide Inv, Step, Enabled, Owed;
    if ops != [] {
      StepRefines(k, ops[0]);
      StepControl(k, ops[0]);
      NestingIsExact(Step(k, ops[0]), ops[1..]);
    }
  }

  /** Over every run that starts with the scheduler running and resumes it as often as it suspends it:
      the scheduler runs, nothing is pending, no tick is missing and no yield is owed. */
  lemma BalancedRun(k: Kernel, ops: seq<Op>)
    requires Inv(k) && k.levels > 0 && Possible(k, ops) && k.suspended == 0 && !k.missedYield
    requires SuspendCalls(ops) == ResumeCalls(ops)
    ensures var r := Run(k, ops);
            && r.suspended == 0 && Items(r.s, PendingReady) == [] && r.missed == 0 && !r.missedYield
            && Now(r.w) == Now(k.w) + Interrupts(ops)
  {
    hide Core, Priorities, Roles, Step, Enabled;
    NestingIsExact(k, ops);
    RunRefinesUnboundedTime(k, ops);
    YieldSettled(k, ops);
  }

  /** No yield is owed while the scheduler runs. */
  lemma {:induction false} YieldSettled(k: Kernel, ops: seq<Op>)
    requires Inv(k) && k.levels > 0 && Possible(k, ops) && (k.suspended == 0 ==> !k.missedYield)
    ensures Run(k, ops).suspended == 0 ==> !Run(k, ops).missedYield
    decreases |ops|
  {
    hide Inv, Step, Enabled;
    if ops != [] {
      StepRefines(k, ops[0]);
      StepControl(k, ops[0]);
      YieldSettled(Step(k, ops[0]), ops[1..]);
    }
  }

  /** Over every run a switch asked for while the scheduler is suspended is remembered until the outermost
      suspension ends, and nothing else is. */
  lemma {:induction false} YieldIsRemembered(k: Kernel, ops: seq<Op>)
    requires Inv(k) && k.levels > 0 && Possible(k, ops)
    ensures Run(k, ops).missedYield == OwedAfter(k.suspended, k.missedYield, ops)
    decreases |ops|
  {
    hide Inv, Step, Enabled, Owed;
    if ops != [] {
      StepRefines(k, ops[0]);
      StepControl(k, ops[0]);
      YieldIsRemembered(Step(k, ops[0]), ops[1..]);
    }
  }

  // ----- The range of uxTopReadyPriority

  /** All priorities are below n. */
  ghost predicate AllBelow(s: Store, n: nat) { n > 0 && forall t :: t in s.priority ==> s.priority[t] < n }

  lemma RemoveTop(s: Store, i: Item)
    ensures Remove(s, i).top == s.top && Remove(s, i).priority == s.priority
  {
    hide RemoveAt, IndexOf;
  }

  lemma MakeReadyTop(s: Store, u: Task)
    ensures var r := MakeReady(s, u); r.top == Max(s.top, Prio(s, u)) && r.priority == s.priority
  {
    hide Remove, InsertEnd;
    RemoveTop(s, Gen(u));
    RemoveTop(Remove(s, Gen(u)), Ev(u));
  }

  lemma {:induction false} DrainTop(s: Store, id: ListId, tick: nat, n: nat)
    requires Sound(s) && (id.Delayed1? || id.Delayed2?) && AllBelow(s, n) && s.top < n
    ensures Drain(s, id, tick).top < n
    decreases |Items(s, id)|
  {
    hide Sound, MakeReady;
    if Items(s, id) != [] && Val(s, Items(s, id)[0]) <= tick {
      var u := Items(s, id)[0].task;
      EntryFacts(s, id, Items(s, id)[0]);
      MakeReadyFacts(s, u);
      MakeReadyTop(s, u);
      DrainTop(MakeReady(s, u), id, tick, n);
    }
  }

  lemma {:induction false} DrainPendingTop(s: Store, n: nat)
    requires Sound(s) && AllBelow(s, n) && s.top < n
    ensures DrainPending(s).top < n
    decreases |Items(s, PendingReady)|
  {
    hide Sound, MakeReady;
    if Items(s, PendingReady) != [] {
      PendingHead(s);
      var u := Items(s, PendingReady)[0].task;
      MakeReadyTop(s, u);
      DrainPendingTop(MakeReady(s, u), n);
    }
  }

  lemma TickTop(k: Kernel, n: nat)
    requires Core(k) && AllBelow(k.s, n) && k.s.top < n
    ensures ProcessTick(k).s.top < n && ProcessTick(k).s.priority == k.s.priority
  {
    hide Sound, CacheInv, Drain, ListSorted;
    WheelFacts(k.s, k.w);
    DrainTop(k.s, Turn(k.w).current, Turn(k.w).tick, n);
    CachedAgrees(k);
    TickRefines(k.s, k.w);
  }

  lemma {:induction false} ReplayTop(k: Kernel, n: nat)
    requires Core(k) && AllBelow(k.s, n) && k.s.top < n
    ensures Replay(k).s.top < n
    decreases k.missed
  {
    hide Core, ProcessTick;
    if k.missed > 0 {
      CachedAgrees(k);
      TickTop(k, n);
      var m := ProcessTick(k).(missed := k.missed - 1);
      SameCore(ProcessTick(k), m);
      ReplayTop(m, n);
    }
  }

  lemma ResumeTop(k: Kernel)
    requires Inv(k) && k.suspended > 0 && AllBelow(k.s, k.levels) && k.s.top < k.levels
    ensures ResumeAll(k).s.top < k.levels
  {
    hide Core, Replay, DrainPending;
    var c := k.(suspended := k.suspended - 1);
    SameCore(k, c);
    CoreSound(c);
    if c.suspended == 0 {
      DrainPendingStep(c);
      DrainPendingTop(c.s, k.levels);
      ReplayTop(c.(s := DrainPending(c.s)), k.levels);
    }
  }

  lemma DetachTop(s: Store, u: Task)
    ensures Detach(s, u).top == s.top && DetachRunning(s, u).top == s.top
    ensures Detach(s, u).priority == s.priority && DetachRunning(s, u).priority == s.priority
  {
    hide Remove;
    RemoveTop(s, Gen(u));
  }

  lemma RetireTop(s: Store, u: Task, id: ListId)
    ensures Retire(s, u, id).top == s.top
  {
    hide Remove, Detach, InsertEnd;
    DetachTop(s, u);
    RemoveTop(Detach(s, u), Ev(u));
  }

  lemma PendTop(s: Store, u: Task)
    ensures Pend(s, u).top == s.top
  {
    hide Remove, InsertEnd;
    RemoveTop(s, Ev(u));
  }

  lemma ReprioritiseTop(s: Store, u: Task, p: nat)
    ensures Reprioritise(s, u, p).top <= Max(s.top, p)
  {
    hide Detach, InsertEnd;
    DetachTop(s, u);
  }

  lemma BlockTop(k: Kernel, wake: nat)
    ensures BlockCurrent(k, wake).s.top == k.s.top
  {
    hide DetachRunning, InsertAt, InsertPosition;
    DetachTop(k.s, k.current);
  }

  lemma WaitTop(k: Kernel, q: nat, ticks: nat)
    ensures Wait(k, q, ticks).s.top == k.s.top
  {
    hide DetachRunning, InsertAt, InsertPosition, InsertEnd, BlockCurrent;
    DetachTop(k.s, k.current);
    BlockTop(k, (k.w.tick + ticks) % W);
  }

  lemma LevelsBelow(k: Kernel)
    requires Inv(k) && k.levels > 0
    ensures AllBelow(k.s, k.levels) && forall t :: Prio(k.s, t) < k.levels && BaseOf(k, t) < k.levels
  {
    hide Core, Counters, Roles, Settled;
  }

  /** The services that block the caller, wake a waiter or move a task to or from the ready lists. */
  lemma MovesKeepTop(k: Kernel, op: Op)
    requires Inv(k) && k.levels > 0 && Enabled(k, op) && k.s.top < k.levels
    requires op.OpDelete? || op.OpSuspend? || op.OpResume? || op.OpResumeFromISR? || op.OpWake?
    ensures Step(k, op).s.top < k.levels
  {
    hide Core, Counters, Settled, MakeReady, Retire, Pend;
    match op
    case OpDelete(u) => RetireTop(k.s, u, Termination);
    case OpSuspend(u) => RetireTop(k.s, u, Suspended);
    case OpResume(u) => MakeReadyTop(k.s, u);
    case OpResumeFromISR(u) => MakeReadyTop(k.s, u); PendTop(k.s, u);
    case OpWake(q) =>
      MakeReadyTop(k.s, Items(k.s, Event(q))[0].task);
      PendTop(k.s, Items(k.s, Event(q))[0].task);
  }

  lemma BlocksKeepTop(k: Kernel, op: Op)
    requires Inv(k) && k.levels > 0 && Enabled(k, op) && k.s.top < k.levels
    requires op.OpDelay? || op.OpDelayUntil? || op.OpWait? || op.OpReap?
    ensures Step(k, op).s.top < k.levels
  {
    hide Inv, BlockCurrent, Wait, DelayUntil, Bury;
    match op
    case OpDelay(n) => BlockTop(k, (k.w.tick + n) % W);
    case OpDelayUntil(previous, increment) => UntilTop(k, previous, increment);
    case OpWait(q, n) => WaitTop(k, q, n);
    case OpReap => BuryTop(k.s, Items(k.s, Termination)[0].task);
  }

  /** uxTopReadyPriority always indexes an existing ready list. */
  lemma StepKeepsTop(k: Kernel, op: Op)
    requires Inv(k) && k.levels > 0 && Enabled(k, op) && k.s.top < k.levels
    ensures Step(k, op).s.top < k.levels
  {
    hide Core, Priorities, Counters, Settled, Roles, ResumeAll, ProcessTick, Create, SetPriority, Inherit, Disinherit;
    hide Delete, Suspend, Resume, ResumeFromISR, Wake, Delay, DelayUntil, Wait, Reap, Switch;
    LevelsBelow(k);
    match op
    case OpCreate(u, p) => BirthTop(k, u, p);
    case OpSuspendAll =>
    case OpResumeAll => ResumeTop(k);
    case OpTick =>
      var c := k.(interrupts := k.interrupts + 1);
      SameCore(k, c);
      TickTop(c, k.levels);
    case OpSwitch => IdleIsReady(k); SwitchTop(k);
    case OpSetPriority(u, p) => SetPriorityTop(k, u, p);
    case OpInherit(u) => InheritTop(k, u);
    case OpDisinherit(u) => InheritTop(k, u);
    case OpDelay(_) => BlocksKeepTop(k, op);
    case OpDelayUntil(_, _) => BlocksKeepTop(k, op);
    case OpWait(_, _) => BlocksKeepTop(k, op);
    case OpReap => BlocksKeepTop(k, op);
    case _ => MovesKeepTop(k, op);
  }

  lemma BirthTop(k: Kernel, u: Task, p: nat)
    requires k.levels > 0 && k.s.top < k.levels
    ensures Create(k, u, p).s.top < k.levels
  {
    hide InsertEnd;
  }

  lemma BuryTop(s: Store, u: Task)
    ensures Bury(s, u).top == s.top
  {
    hide Remove;
    RemoveTop(s, Gen(u));
  }

  lemma WithPriorityTop(k: Kernel, u: Task, p: nat, key: nat)
    ensures WithPriority(k, u, p, key).s.top <= Max(k.s.top, p)
  {
    hide Reprioritise;
    ReprioritiseTop(k.s.(value := k.s.value[Ev(u) := Max(k.levels, key) - key]), u, p);
  }

  lemma SetPriorityTop(k: Kernel, u: Task, p: nat)
    requires k.levels > 0 && k.s.top < k.levels
    ensures SetPriority(k, u, p).s.top < k.levels
  {
    hide WithPriority;
    var q := Capped(k, p);
    WithPriorityTop(k.(base := k.base[u := q]), u, q, q);
  }

  lemma SwitchTop(k: Kernel)
    requires SomeReady(k.s)
    ensures Switch(k).s.top <= k.s.top
  {
    hide Advance;
  }

  lemma UntilTop(k: Kernel, previous: nat, increment: nat)
    ensures DelayUntil(k, previous, increment).s.top == k.s.top
  {
    hide BlockCurrent;
    BlockTop(k, (previous + increment) % W);
  }

  lemma InheritTop(k: Kernel, u: Task)
    ensures Inherit(k, u).s.top <= Max(k.s.top, Prio(k.s, k.current))
    ensures Disinherit(k, u).s.top <= Max(k.s.top, BaseOf(k, u))
  {
    hide WithPriority;
    WithPriorityTop(k, u, Prio(k.s, k.current), Prio(k.s, k.current));
    WithPriorityTop(k, u, BaseOf(k, u), BaseOf(k, u));
  }

  /** Over every run uxTopReadyPriority stays below configMAX_PRIORITIES. */
  lemma {:induction false} TopStaysInRange(k: Kernel, ops: seq<Op>)
    requires Inv(k) && k.levels > 0 && Possible(k, ops) && k.s.top < k.levels
    ensures Run(k, ops).s.top < k.levels && Run(k, ops).levels == k.levels
    decreases |ops|
  {
    hide Inv, Step, Enabled;
    if ops != [] {
      StepRefines(k, ops[0]);
      StepKeepsTop(k, ops[0]);
      TopStaysInRange(Step(k, ops[0]), ops[1..]);
    }
  }

  /** It starts in range. */
  lemma StartsInRange(levels: nat, idle: Task)
    requires levels > 0
    ensures var k := Initial(levels, idle); k.s.top == 0 && !k.missedYield && k.suspended == 0
  {
    hide InsertEnd;
  }
}
