/** The kernel as one transition system, and what holds over every run of it. */
module KernelMachine {
  import opened XLists
  import opened Stores
  import opened ReadyLists
  import opened DelayLists
  import opened TaskMoves
  import opened Kernels
  import opened KernelSteps
  import opened KernelRuns

  datatype Op =
    | OpCreate(t: Task, priority: nat) | OpDelete(t: Task) | OpReap
    | OpSuspend(t: Task) | OpResume(t: Task) | OpResumeFromISR(t: Task)
    | OpSuspendAll | OpResumeAll | OpTick | OpSwitch
    | OpDelay(ticks: nat) | OpDelayUntil(previous: nat, increment: nat)
    | OpWait(queue: nat, ticks: nat) | OpWake(queue: nat)
    | OpSetPriority(t: Task, priority: nat) | OpInherit(t: Task) | OpDisinherit(t: Task)

  /** What the source demands of its callers: handles are live, the idle task is never blocked,
      suspended or deleted, and a service that blocks its caller runs in the running task with the
      scheduler suspended. */
  predicate Enabled(k: Kernel, op: Op) {
    match op
    case OpCreate(t, _) => t !in k.s.priority
    case OpDelete(t) => t in k.s.priority && t != k.idle && Home(k.s, t) != Termination
    case OpReap => k.current == k.idle && Items(k.s, Termination) != [] && k.numTasks > 0 && k.deleted > 0
    case OpSuspend(t) => t in k.s.priority && t != k.idle && Home(k.s, t) != Termination
    case OpResume(t) => t in k.s.priority
    case OpResumeFromISR(t) => t in k.s.priority
    case OpSuspendAll => true
    case OpResumeAll => k.suspended > 0
    case OpTick => true
    case OpSwitch => true
    case OpDelay(n) => BlockingCall(k) && 0 < n < W
    case OpDelayUntil(previous, increment) => BlockingCall(k) && previous < W && 0 < increment < W
    case OpWait(_, n) => BlockingCall(k) && 0 < n < W
    case OpWake(q) => Items(k.s, Event(q)) != []
    case OpSetPriority(t, _) => t in k.s.priority
    case OpInherit(t) => t in k.s.priority
    case OpDisinherit(t) => t in k.s.priority && Home(k.s, t).Ready?
  }

  predicate BlockingCall(k: Kernel) {
    Home(k.s, k.current).Ready? && k.current != k.idle && k.suspended > 0
  }

  function Step(k: Kernel, op: Op): (r: Kernel)
    requires Inv(k) && k.levels > 0 && Enabled(k, op)
  {
    match op
    case OpCreate(t, p) => Create(k, t, p)
    case OpDelete(t) => Delete(k, t)
    case OpReap => Reap(k)
    case OpSuspend(t) => Suspend(k, t)
    case OpResume(t) => Resume(k, t)
    case OpResumeFromISR(t) => ResumeFromISR(k, t)
    case OpSuspendAll => SuspendAll(k)
    case OpResumeAll => ResumeAll(k)
    case OpTick => TickInterrupt(k)
    case OpSwitch => IdleIsReady(k); Switch(k)
    case OpDelay(n) => Delay(k, n)
    case OpDelayUntil(previous, increment) => DelayUntil(k, previous, increment)
    case OpWait(q, n) => Wait(k, q, n)
    case OpWake(q) => Wake(k, q)
    case OpSetPriority(t, p) => SetPriority(k, t, p)
    case OpInherit(t) => Inherit(k, t)
    case OpDisinherit(t) => Disinherit(k, t)
  }

  // ----- What a step does to the unbounded clock

  datatype Effect = Arms(t: Task, ticks: nat) | Passes(cancelled: set<Task>, ticks: nat)

  function Apply(c: Clock, e: Effect): Clock {
    match e
    case Arms(t, n) => Schedule(c, t, n)
    case Passes(ts, n) => ElapseBy(Cancel(c, ts), n)
  }

  /** Only blocking services set a deadline, only leaving the blocked state early cancels one, and
      only processed ticks let time pass. */
  function EffectOf(k: Kernel, op: Op): Effect
    requires Inv(k) && Enabled(k, op)
  {
    match op
    case OpDelete(t) => Passes({t}, 0)
    case OpSuspend(t) => Passes({t}, 0)
    case OpResumeAll => if k.suspended > 1 then Passes({}, 0) else Passes(PendingTasks(k.s), k.missed)
    case OpTick => Passes({}, if k.suspended == 0 then 1 else 0)
    case OpDelay(n) => Arms(k.current, n)
    case OpDelayUntil(previous, increment) =>
      var wake := (previous + increment) % W;
      if ShouldDelay(k.w.tick, previous, wake) then Arms(k.current, TicksAhead(k.w.tick, wake)) else Passes({}, 0)
    case OpWait(_, n) => if n == W - 1 then Passes({}, 0) else Arms(k.current, n)
    case OpWake(q) => Passes(if k.suspended == 0 then {Items(k.s, Event(q))[0].task} else {}, 0)
    case _ => Passes({}, 0)
  }

  lemma NoEffect(c: Clock)
    ensures Apply(c, Passes({}, 0)) == c && Apply(c, Passes({}, 1)) == Elapse(c)
    ensures forall ts :: Apply(c, Passes(ts, 0)) == Cancel(c, ts)
  {
    CancelNone(c);
    assert ElapseBy(c, 1) == ElapseBy(Elapse(c), 0);
  }

  /** Every step of every service keeps the whole invariant and refines the unbounded clock. */
  lemma StepRefines(k: Kernel, op: Op)
    requires Inv(k) && k.levels > 0 && Enabled(k, op)
    ensures Inv(Step(k, op)) && Step(k, op).levels == k.levels
    ensures Clk(Step(k, op)) == Apply(Clk(k), EffectOf(k, op))
    ensures Step(k, op).interrupts == k.interrupts + (if op.OpTick? then 1 else 0)
  {
    hide Core, Priorities, Counters, Roles, Settled, Clk, ElapseBy, Cancel, Schedule, Elapse, Apply;
    hide Create, Delete, Suspend, Delay, DelayUntil, Wait, SetPriority, ResumeAll, Reap, TickInterrupt, Switch;
    hide Inherit, Disinherit, Wake, Resume, ResumeFromISR;
    NoEffect(Clk(k));
    StepShape(k, op);
    match op
    case OpCreate(t, p) => CreateStep(k, t, p);
    case OpDelete(t) => DeleteStep(k, t);
    case OpReap => ReapStep(k);
    case OpSuspend(t) => SuspendStep(k, t);
    case OpResume(t) => ResumeStep(k, t);
    case OpResumeFromISR(t) => ResumeFromISRStep(k, t);
    case OpSuspendAll => SuspendAllStep(k);
    case OpResumeAll => ResumeAllStep(k); ApplyPasses(Clk(k), PendingTasks(k.s), k.missed);
    case OpTick => TickStep(k);
    case OpSwitch => SwitchStep(k);
    case OpDelay(n) => BlockStep(k, n); ApplyArms(Clk(k), k.current, n);
    case OpDelayUntil(previous, increment) => UntilRefines(k, previous, increment);
    case OpWait(q, n) => WaitStep(k, q, n); ApplyArms(Clk(k), k.current, n);
    case OpWake(q) => WakeStep(k, q);
    case OpSetPriority(t, p) => SetPriorityStep(k, t, p);
    case OpInherit(t) => InheritStep(k, t);
    case OpDisinherit(t) => DisinheritStep(k, t);
  }

  lemma ApplyArms(c: Clock, t: Task, n: nat)
    ensures Apply(c, Arms(t, n)) == Schedule(c, t, n)
  {
  }

  lemma ApplyPasses(c: Clock, ts: set<Task>, n: nat)
    ensures Apply(c, Passes(ts, n)) == ElapseBy(Cancel(c, ts), n)
  {
  }

  lemma SuspendAllStep(k: Kernel)
    requires Inv(k)
    ensures Inv(SuspendAll(k)) && Clk(SuspendAll(k)) == Clk(k)
  {
    hide Core, Clk;
    SameCore(k, SuspendAll(k));
  }

  lemma UntilRefines(k: Kernel, previous: nat, increment: nat)
    requires Inv(k) && Enabled(k, OpDelayUntil(previous, increment))
    ensures Inv(DelayUntil(k, previous, increment))
    ensures Clk(DelayUntil(k, previous, increment)) == Apply(Clk(k), EffectOf(k, OpDelayUntil(previous, increment)))
  {
    hide Core, Priorities, Counters, Roles, Settled, Clk, Schedule, DelayUntil, Apply;
    WheelFacts(k.s, k.w) by { CoreDelays(k); }
    DelayUntilStep(k, previous, increment);
    NoEffect(Clk(k));
    var wake := (previous + increment) % W;
    ApplyArms(Clk(k), k.current, TicksAhead(k.w.tick, wake));
  }

  /** The fields no service but the named ones touches. */
  lemma StepShape(k: Kernel, op: Op)
    requires Inv(k) && k.levels > 0 && Enabled(k, op)
    ensures Step(k, op).levels == k.levels && Step(k, op).idle == k.idle
    ensures Step(k, op).interrupts == k.interrupts + (if op.OpTick? then 1 else 0)
  {
    hide Core, Priorities, Counters, Settled, Roles, Drain, DrainPending, Replay, Arm, Append, Insert, DetachRunning;
    hide Retire, MakeReady, Pend, Birth, Bury, Reprioritise, TopLevel, Advance;
    match op
    case OpResumeAll => ResumeAllStep(k); ResumeShape(k);
    case OpTick =>
      var c := k.(interrupts := k.interrupts + 1);
      SameCore(k, c);
      TickShape(c);
    case _ =>
  }

  lemma ResumeShape(k: Kernel)
    requires Inv(k) && k.suspended > 0
    ensures ResumeAll(k).levels == k.levels && ResumeAll(k).idle == k.idle && ResumeAll(k).interrupts == k.interrupts
  {
    hide Core, Replay, DrainPending;
    var c := k.(suspended := k.suspended - 1);
    SameCore(k, c);
    CoreSound(c);
    if c.suspended == 0 {
      DrainPendingStep(c);
      ReplayShape(c.(s := DrainPending(c.s)));
    }
  }

  lemma {:induction false} ReplayShape(k: Kernel)
    requires Core(k)
    ensures Replay(k).levels == k.levels && Replay(k).idle == k.idle && Replay(k).interrupts == k.interrupts
    decreases k.missed
  {
    hide Core, ProcessTick;
    if k.missed > 0 {
      CachedAgrees(k);
      TickShape(k);
      var m := ProcessTick(k).(missed := k.missed - 1);
      SameCore(ProcessTick(k), m);
      ReplayShape(m);
    }
  }

  // ----- Runs

  ghost predicate Possible(k: Kernel, ops: seq<Op>)
    requires Inv(k) && k.levels > 0
    decreases |ops|
  {
    ops == [] || (Enabled(k, ops[0]) && (StepRefines(k, ops[0]); Possible(Step(k, ops[0]), ops[1..])))
  }

  function Run(k: Kernel, ops: seq<Op>): (r: Kernel)
    requires Inv(k) && k.levels > 0 && Possible(k, ops)
    decreases |ops|
  {
    if ops == [] then k else StepRefines(k, ops[0]); Run(Step(k, ops[0]), ops[1..])
  }

  ghost function Effects(k: Kernel, ops: seq<Op>): (es: seq<Effect>)
    requires Inv(k) && k.levels > 0 && Possible(k, ops)
    decreases |ops|
  {
    if ops == [] then [] else StepRefines(k, ops[0]); [EffectOf(k, ops[0])] + Effects(Step(k, ops[0]), ops[1..])
  }

  function ApplyAll(c: Clock, es: seq<Effect>): Clock
    decreases |es|
  {
    if es == [] then c else ApplyAll(Apply(c, es[0]), es[1..])
  }

  function Interrupts(ops: seq<Op>): nat {
    if ops == [] then 0 else (if ops[0].OpTick? then 1 else 0) + Interrupts(ops[1..])
  }

  /** Over every run, across any number of tick wraps and scheduler suspensions, the kernel with its
      two 32-bit delayed lists behaves as the unbounded clock does under the same events, the whole
      invariant holds, and no tick interrupt is lost: each is processed or still counted as missed. */
  lemma {:induction false} RunRefinesUnboundedTime(k: Kernel, ops: seq<Op>)
    requires Inv(k) && k.levels > 0 && Possible(k, ops)
    ensures Inv(Run(k, ops))
    ensures Clk(Run(k, ops)) == ApplyAll(Clk(k), Effects(k, ops))
    ensures Now(Run(k, ops).w) + Run(k, ops).missed == Now(k.w) + k.missed + Interrupts(ops)
    decreases |ops|
  {
    hide Core, Step, EffectOf, Apply, Clk, Enabled;
    if ops != [] {
      StepRefines(k, ops[0]);
      RunRefinesUnboundedTime(Step(k, ops[0]), ops[1..]);
      var e, es := EffectOf(k, ops[0]), Effects(Step(k, ops[0]), ops[1..]);
      assert ([e] + es)[1..] == es;
    }
  }

  lemma ClockNow(k: Kernel)
    ensures Clk(k).now == Now(k.w)
  {
  }

  /** Time never goes back. */
  lemma TimeMovesOn(k: Kernel, op: Op)
    requires Inv(k) && k.levels > 0 && Enabled(k, op)
    ensures Now(Step(k, op).w) >= Now(k.w)
  {
    hide Inv, Step, EffectOf, Enabled, Clk, Now;
    StepRefines(k, op);
    ClockNow(k);
    ClockNow(Step(k, op));
    var e := EffectOf(k, op);
    if e.Passes? { ElapsedNow(Cancel(Clk(k), e.cancelled), e.ticks); }
  }

  lemma {:induction false} ElapsedNow(c: Clock, n: nat)
    ensures ElapseBy(c, n).now == c.now + n
    decreases n
  {
    if n > 0 { ElapsedNow(Elapse(c), n - 1); }
  }

  /** A task that may block has no deadline yet. */
  lemma CallerNotTimed(k: Kernel)
    requires Inv(k) && BlockingCall(k)
    ensures k.current !in Clk(k).deadline
  {
    hide Sound, CacheInv, Counters, Settled;
    WheelFacts(k.s, k.w);
  }

  predicate Touches(e: Effect, t: Task) {
    match e
    case Arms(u, _) => u == t
    case Passes(ts, _) => t in ts
  }

  lemma {:induction false} UntouchedDeadline(c: Clock, es: seq<Effect>, t: Task)
    requires t in c.deadline ==> c.deadline[t] > c.now
    requires forall e :: e in es ==> !Touches(e, t)
    ensures var r := ApplyAll(c, es);
            if t in c.deadline && r.now < c.deadline[t]
            then t in r.deadline && r.deadline[t] == c.deadline[t] else t !in r.deadline
    ensures ApplyAll(c, es).now >= c.now
    decreases |es|
  {
    if es != [] {
      assert es[0] in es;
      var m := Apply(c, es[0]);
      if es[0].Passes? { OneDeadline(Cancel(c, es[0].cancelled), es[0].ticks, t); }
      UntouchedDeadline(m, es[1..], t);
    }
  }

  lemma {:induction false} OneDeadline(c: Clock, n: nat, t: Task)
    requires t in c.deadline ==> c.deadline[t] > c.now
    ensures var r := ElapseBy(c, n);
            && r.now == c.now + n
            && (t in r.deadline <==> t in c.deadline && c.deadline[t] > c.now + n)
            && (t in r.deadline ==> r.deadline[t] == c.deadline[t])
    decreases n
  {
    if n > 0 { OneDeadline(Elapse(c), n - 1, t); }
  }

  /** A timed-blocked task that no event, suspension, deletion or new wait touches is still blocked
      after a run exactly when the run has not yet processed its deadline tick. */
  lemma BlockedUntilExactlyItsDeadline(k: Kernel, ops: seq<Op>, t: Task)
    requires Inv(k) && k.levels > 0 && Possible(k, ops) && t in Clk(k).deadline
    requires forall e :: e in Effects(k, ops) ==> !Touches(e, t)
    ensures var r, d := Run(k, ops), Clk(k).deadline[t];
            if Now(r.w) < d then t in Clk(r).deadline && Clk(r).deadline[t] == d else t !in Clk(r).deadline
  {
    hide Sound, DelayInv, CacheInv, Apply, Effects, Run;
    RunRefinesUnboundedTime(k, ops);
    DeadlinesAhead(k.s, k.w, t);
    UntouchedDeadline(Clk(k), Effects(k, ops), t);
  }

  /** Every tick processed, live or replayed, moves exactly the tasks with that deadline to the ready
      list of their priority, and moves no other task. */
  lemma ReadiedOnTheDeadlineTick(k: Kernel, t: Task)
    requires Core(k) && t in k.s.priority
    ensures var r, c := ProcessTick(k), Clk(k);
            && r.s.priority == k.s.priority
            && Home(r.s, t) == if t in c.deadline && c.deadline[t] == c.now + 1
                               then Ready(Prio(k.s, t)) else Home(k.s, t)
  {
    hide Sound, DelayInv, CacheInv, ProcessTick, Tick;
    CachedAgrees(k);
    TickRefines(k.s, k.w);
  }

  /** Replaying the missed ticks readies exactly the tasks whose deadlines they reach. */
  lemma {:induction false} ReadiedByReplay(k: Kernel, t: Task)
    requires Core(k) && t in k.s.priority
    ensures var r, c := Replay(k), Clk(k);
            && r.s.priority == k.s.priority
            && Home(r.s, t) == if t in c.deadline && c.deadline[t] <= c.now + k.missed
                               then Ready(Prio(k.s, t)) else Home(k.s, t)
    decreases k.missed
  {
    hide Core, Clk, ProcessTick, Elapse, Home, Prio;
    AheadOfNow(k, t);
    if k.missed > 0 {
      var p := ProcessTick(k);
      var m := p.(missed := k.missed - 1);
      CachedAgrees(k);
      SameCore(p, m);
      ReadiedOnTheDeadlineTick(k, t);
      TickElapses(k, t);
      ReadiedByReplay(m, t);
      SamePrio(k.s, m.s, t);
    }
  }

  lemma SamePrio(s: Store, r: Store, t: Task)
    requires r.priority == s.priority
    ensures Prio(r, t) == Prio(s, t)
  {
  }

  lemma AheadOfNow(k: Kernel, t: Task)
    requires Core(k)
    ensures t in Clk(k).deadline ==> Clk(k).deadline[t] > Clk(k).now
  {
    hide Sound, CacheInv;
    if t in Clk(k).deadline { DeadlinesAhead(k.s, k.w, t); }
  }

  lemma TickElapses(k: Kernel, t: Task)
    requires Core(k)
    ensures var c, d := Clk(k), Clk(ProcessTick(k));
            && d.now == c.now + 1
            && (t in d.deadline <==> t in c.deadline && c.deadline[t] != c.now + 1)
            && (t in d.deadline ==> d.deadline[t] == c.deadline[t])
  {
    hide Sound, DelayInv, CacheInv, ProcessTick, Tick, Abs;
    CachedAgrees(k);
    TickRefines(k.s, k.w);
  }

  /** The pending tasks become ready when the scheduler is resumed. */
  lemma {:induction false} ReadiedFromPending(s: Store, t: Task)
    requires Sound(s) && t in s.priority
    ensures Home(DrainPending(s), t) == if t in PendingTasks(s) then Ready(Prio(s, t)) else Home(s, t)
    decreases |Items(s, PendingReady)|
  {
    hide Sound, MakeReady, PendingTasks;
    if Items(s, PendingReady) == [] {
      NonePendingTasks(s);
    } else {
      PendingHead(s);
      PendingAfterHead(s);
      var u := Items(s, PendingReady)[0].task;
      MakeReadyFacts(s, u);
      ReadiedFromPending(MakeReady(s, u), t);
    }
  }

  lemma NonePendingTasks(s: Store)
    requires Items(s, PendingReady) == []
    ensures PendingTasks(s) == {}
  {
  }

  /** xTaskResumeAll, when it ends the suspension, readies exactly the pending tasks and those whose
      deadlines lie in the ticks missed meanwhile, each on the ready list of its priority. */
  lemma ReadiedByResumeAll(k: Kernel, t: Task)
    requires Inv(k) && k.suspended == 1 && t in k.s.priority
    ensures var r, c := ResumeAll(k), Clk(k);
            Home(r.s, t) == if t in PendingTasks(k.s) || (t in c.deadline && c.deadline[t] <= c.now + k.missed)
                            then Ready(Prio(k.s, t)) else Home(k.s, t)
  {
    hide Core, Priorities, Counters, Settled, Replay, DrainPending, PendingTasks, Clk, Home, Prio;
    var c := k.(suspended := 0);
    SameCore(k, c);
    CoreSound(c);
    DrainPendingStep(c);
    var d := c.(s := DrainPending(c.s));
    ReadiedFromPending(c.s, t);
    ReadiedByReplay(d, t);
    SamePrio(c.s, d.s, t);
  }

  // ----- The initial state: only the idle task exists and it runs

  function Initial(levels: nat, idle: Task): Kernel {
    Kernel(Birth(Store(map[], map[], map[Ev(idle) := levels], map[], 0, {}), idle, 0), Wheel(Delayed1, Delayed2, 0, 0),
           map[idle := 0], idle, idle, levels, W - 1, 0, 0, false, 1, 0, 0)
  }

  lemma InitialInv(levels: nat, idle: Task)
    requires levels > 0
    ensures Inv(Initial(levels, idle)) && Clk(Initial(levels, idle)) == Clock(0, map[])
  {
    hide Core, Birth, Abs, Now;
    InitialLists(levels, idle);
    InitialCore(levels, idle);
    var k := Initial(levels, idle);
    assert Items(k.s, Termination) == [] && Items(k.s, PendingReady) == [];
    NobodyTimed(k.s, k.w);
  }

  /** Only the idle task exists, and it is on the ready list of priority 0. */
  lemma InitialLists(levels: nat, idle: Task)
    ensures var s := Initial(levels, idle).s;
            && Sound(s) && s.priority == map[idle := 0] && s.container == map[Gen(idle) := Ready(0)]
            && (forall id: ListId :: !id.Ready? ==> Items(s, id) == [])
  {
    hide Sound, Birth;
    EmptySound(map[Ev(idle) := levels]);
    BirthFacts(Store(map[], map[], map[Ev(idle) := levels], map[], 0, {}), idle, 0);
  }

  lemma InitialCore(levels: nat, idle: Task)
    ensures Core(Initial(levels, idle))
  {
    hide Sound, Birth;
    InitialLists(levels, idle);
    var k := Initial(levels, idle);
    assert Items(k.s, Delayed1) == [] && Items(k.s, Delayed2) == [];
  }

  lemma EmptySound(value: map<Item, nat>)
    ensures Sound(Store(map[], map[], value, map[], 0, {}))
  {
    var e := Store(map[], map[], value, map[], 0, {});
    assert forall id :: Items(e, id) == [];
  }

  /** Before the first tick, with every task ready, the clock is at zero without deadlines. */
  lemma NobodyTimed(s: Store, w: Wheel)
    requires w.tick == 0 && w.wraps == 0 && !w.current.Ready? && !w.overflow.Ready?
    requires forall t :: t in s.priority ==> Home(s, t).Ready?
    ensures Abs(s, w) == Clock(0, map[]) && Now(w) == 0
  {
    assert Abs(s, w).deadline.Keys == {};
  }

  // ----- The partition of tasks over the lists

  /** The task set of a list that holds generic items. */
  function TasksAt(s: Store, id: ListId): set<Task> { set t | t in s.priority && Home(s, t) == id }

  function LevelSum(s: Store, n: nat): nat {
    if n == 0 then 0 else LevelSum(s, n - 1) + |Items(s, Ready(n - 1))|
  }

  function ReadyBelow(s: Store, n: nat): set<Task> {
    set t | t in s.priority && Home(s, t).Ready? && Home(s, t).level < n
  }

  function TasksOf(items: seq<Item>): set<Task> { set i | i in items :: i.task }

  lemma {:induction false} DistinctTasks(items: seq<Item>)
    requires NoDup(items) && forall i :: i in items ==> i.Gen?
    ensures |TasksOf(items)| == |items|
  {
    hide TasksOf, NoDup;
    if items == [] {
      NoTasks();
    } else {
      RestDistinct(items);
      DistinctTasks(items[1..]);
      FirstTask(items);
    }
  }

  lemma NoTasks()
    ensures TasksOf([]) == {}
  {
  }

  lemma RestDistinct(items: seq<Item>)
    requires NoDup(items) && items != []
    ensures NoDup(items[1..]) && forall i :: i in items[1..] ==> i in items && i != items[0]
  {
  }

  lemma FirstTask(items: seq<Item>)
    requires items != [] && forall i :: i in items ==> i.Gen?
    requires forall i :: i in items[1..] ==> i != items[0]
    ensures |TasksOf(items)| == |TasksOf(items[1..])| + 1
  {
    assert items == [items[0]] + items[1..];
    assert TasksOf(items) == {items[0].task} + TasksOf(items[1..]);
    assert items[0].task !in TasksOf(items[1..]);
  }

  lemma ListCardinality(s: Store, id: ListId)
    requires Sound(s) && !id.PendingReady? && !id.Event?
    ensures |TasksAt(s, id)| == |Items(s, id)|
  {
    forall i | i in Items(s, id) ensures i == Gen(i.task) && i.task in s.priority && Home(s, i.task) == id {
      assert In(s, i, id);
      assert PlacedTask(s, i.task);
    }
    forall t | t in TasksAt(s, id) ensures Gen(t) in Items(s, id) { TaskFacts(s, t); }
    assert TasksAt(s, id) == TasksOf(Items(s, id));
    DistinctTasks(Items(s, id));
  }

  lemma {:induction false} ReadyCardinality(s: Store, n: nat)
    requires Sound(s)
    ensures |ReadyBelow(s, n)| == LevelSum(s, n)
  {
    hide Sound, ReadyBelow, TasksAt;
    if n == 0 {
      NoneBelow(s);
    } else {
      ReadyCardinality(s, n - 1);
      ListCardinality(s, Ready(n - 1));
      OneLevelMore(s, n - 1);
    }
  }

  lemma NoneBelow(s: Store)
    ensures ReadyBelow(s, 0) == {}
  {
  }

  lemma OneLevelMore(s: Store, n: nat)
    ensures |ReadyBelow(s, n + 1)| == |ReadyBelow(s, n)| + |TasksAt(s, Ready(n))|
  {
    assert ReadyBelow(s, n + 1) == ReadyBelow(s, n) + TasksAt(s, Ready(n));
    assert ReadyBelow(s, n) !! TasksAt(s, Ready(n));
  }

  /** In every reachable state each task is in exactly one state list, the ready list of priority p
      holds only tasks of priority p, a task on an event list or pending is blocked, and the list
      lengths add up to the number of tasks. */
  lemma TaskStatePartition(k: Kernel)
    requires Inv(k)
    ensures forall t, id :: t in k.s.priority ==> (Gen(t) in Items(k.s, id) <==> Home(k.s, t) == id)
    ensures forall t :: t in k.s.priority ==>
              Home(k.s, t) == Ready(Prio(k.s, t)) || Parked(Home(k.s, t)) || Home(k.s, t) == Termination
    ensures forall t :: Ev(t) in k.s.container ==> t in k.s.priority && Parked(Home(k.s, t))
    ensures Items(k.s, PendingReady) != [] ==> k.suspended > 0
    ensures LevelSum(k.s, k.levels) + |Items(k.s, Delayed1)| + |Items(k.s, Delayed2)|
            + |Items(k.s, Suspended)| + |Items(k.s, Termination)| == k.numTasks
    ensures k.deleted == |Items(k.s, Termination)|
  {
    hide Core, Priorities, Roles, LevelSum, PlacedTask;
    CoreSound(k);
    forall t, id | t in k.s.priority ensures Gen(t) in Items(k.s, id) <==> Home(k.s, t) == id { OneHome(k.s, t, id); }
    forall t | t in k.s.priority
      ensures Home(k.s, t) == Ready(Prio(k.s, t)) || Parked(Home(k.s, t)) || Home(k.s, t) == Termination
    {
      HomeKinds(k.s, t);
    }
    forall t | Ev(t) in k.s.container ensures t in k.s.priority && Parked(Home(k.s, t)) { WaiterParked(k.s, t); }
    LengthsAddUp(k);
  }

  lemma OneHome(s: Store, t: Task, id: ListId)
    requires Sound(s) && t in s.priority
    ensures Gen(t) in Items(s, id) <==> Home(s, t) == id
  {
    hide Placed, ReadyRecorded, PlacedTask;
    TaskFacts(s, t);
    assert Gen(t) in Items(s, id) <==> In(s, Gen(t), id);
  }

  lemma WaiterParked(s: Store, t: Task)
    requires Sound(s) && Ev(t) in s.container
    ensures t in s.priority && Parked(Home(s, t))
  {
    hide Integrity, ReadyRecorded;
    assert Ev(t).task in s.priority;
    assert PlacedTask(s, t);
  }

  lemma LengthsAddUp(k: Kernel)
    requires Inv(k)
    ensures LevelSum(k.s, k.levels) + |Items(k.s, Delayed1)| + |Items(k.s, Delayed2)|
            + |Items(k.s, Suspended)| + |Items(k.s, Termination)| == k.numTasks
  {
    hide Core, Priorities, Roles, Settled, Sound, ReadyBelow, TasksAt, LevelSum;
    var s := k.s;
    CoreSound(k);
    ReadyCardinality(s, k.levels);
    ListCardinality(s, Delayed1);
    ListCardinality(s, Delayed2);
    ListCardinality(s, Suspended);
    ListCardinality(s, Termination);
    AllSomewhere(k);
    DisjointStates(s, k.levels);
    assert |s.priority.Keys| == |s.priority|;
  }

  /** Every task is at some level, delayed, suspended or terminated. */
  lemma AllSomewhere(k: Kernel)
    requires Inv(k)
    ensures k.s.priority.Keys == ReadyBelow(k.s, k.levels) + TasksAt(k.s, Delayed1) + TasksAt(k.s, Delayed2)
                                 + TasksAt(k.s, Suspended) + TasksAt(k.s, Termination)
  {
    hide DelayInv, CacheInv, Sound, PlacedTask;
    CoreSound(k);
    forall t | t in k.s.priority
      ensures Home(k.s, t) == Ready(k.s.priority[t]) || Parked(Home(k.s, t)) || Home(k.s, t) == Termination
    {
      HomeKinds(k.s, t);
    }
  }

  lemma DisjointStates(s: Store, n: nat)
    ensures |ReadyBelow(s, n) + TasksAt(s, Delayed1) + TasksAt(s, Delayed2)
             + TasksAt(s, Suspended) + TasksAt(s, Termination)|
            == |ReadyBelow(s, n)| + |TasksAt(s, Delayed1)| + |TasksAt(s, Delayed2)|
               + |TasksAt(s, Suspended)| + |TasksAt(s, Termination)|
  {
  }

  lemma HomeKinds(s: Store, t: Task)
    requires Sound(s) && t in s.priority
    ensures Home(s, t) == Ready(Prio(s, t)) || Parked(Home(s, t)) || Home(s, t) == Termination
  {
    hide Sound;
    TaskFacts(s, t);
  }
}
