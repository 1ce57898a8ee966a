/** Runs from the start of the kernel that reach the states in which a property fails. */
module KernelExamples {
  import opened XLists
  import opened Stores
  import opened ReadyLists
  import opened DelayLists
  import opened TaskMoves
  import opened Kernels
  import opened KernelSteps
  import opened KernelRuns
  import opened KernelMachine
  import opened KernelEventOrder
  import opened KernelEventKeys
  import opened KernelEventWaits
  import PI = PriorityInheritance

  /** A kernel of five priorities with its event lists in order. */
  ghost predicate Good(k: Kernel) {
    Inv(k) && EventInv(k) && Exact(k) && k.levels == 5 && k.idle == 0
  }

  lemma GoodStep(k: Kernel, op: Op)
    requires Good(k) && Enabled(k, op) && !Rekeys(k, op) && !Miskeys(k, op)
    ensures Good(Step(k, op))
  {
    hide Inv, EventInv, Exact, Step, Enabled, Rekeys, Miskeys;
    Levels(k);
    StepRefines(k, op);
    StepKeepsOrder(k, op);
    StepExactIff(k, op);
    StepShape(k, op);
  }

  lemma Levels(k: Kernel)
    requires EventInv(k)
    ensures k.levels > 0
  {
  }

  lemma {:induction false} RunAppend(k: Kernel, a: seq<Op>, b: seq<Op>)
    requires Inv(k) && k.levels > 0 && Possible(k, a)
    requires Inv(Run(k, a)) && Run(k, a).levels > 0 && Possible(Run(k, a), b)
    ensures Possible(k, a + b) && Run(k, a + b) == Run(Run(k, a), b)
    decreases |a|
  {
    hide Inv, Step, Enabled;
    if a == [] {
      assert a + b == b;
    } else {
      StepRefines(k, a[0]);
      RunAppend(Step(k, a[0]), a[1..], b);
      assert (a + b)[0] == a[0] && (a + b)[1..] == a[1..] + b;
    }
  }

  lemma RunOne(k: Kernel, op: Op)
    requires Inv(k) && k.levels > 0 && Enabled(k, op)
    ensures Possible(k, [op]) && Run(k, [op]) == Step(k, op)
  {
    hide Inv, Step, Enabled;
    StepRefines(k, op);
    assert [op][1..] == [];
  }

  /** One more step at the end of a run. */
  lemma RunOn(k: Kernel, ops: seq<Op>, op: Op)
    requires Inv(k) && k.levels > 0 && Possible(k, ops) && Good(Run(k, ops)) && Enabled(Run(k, ops), op)
    ensures Possible(k, ops + [op]) && Run(k, ops + [op]) == Step(Run(k, ops), op)
  {
    hide Inv, Step, Enabled, EventInv, Exact;
    RunOne(Run(k, ops), op);
    RunAppend(k, ops, [op]);
  }

  function Start(): Kernel { Initial(5, 0) }

  lemma Started()
    ensures Good(Start()) && Start().suspended == 0 && Start().s.priority == map[0 := 0] && Start().base == map[0 := 0]
    ensures Home(Start().s, 0) == Ready(0)
  {
    hide Birth, Inv, EventInv, Exact;
    InitialInv(5, 0);
    StartsInOrder(5, 0);
    StartsExact(5, 0);
    EmptySound(map[Ev(0) := 5]);
    BirthFacts(Store(map[], map[], map[Ev(0) := 5], map[], 0, {}), 0, 0);
  }

  // ----- Two tasks beside the idle task

  /** Tasks 1 and 2 of priorities p and q exist and are ready, and the scheduler runs. */
  ghost predicate TwoTasks(k: Kernel, p: nat, q: nat) {
    && Good(k) && k.suspended == 0
    && k.s.priority == map[0 := 0, 1 := p, 2 := q] && k.base == map[0 := 0, 1 := p, 2 := q]
    && Home(k.s, 0) == Ready(0) && Home(k.s, 1) == Ready(p) && Home(k.s, 2) == Ready(q)
  }

  function Creations(p: nat, q: nat): seq<Op> { [OpCreate(1, p), OpCreate(2, q)] }

  lemma Created(p: nat, q: nat)
    requires p < 5 && q < 5
    ensures Good(Start()) && Possible(Start(), Creations(p, q)) && TwoTasks(Run(Start(), Creations(p, q)), p, q)
  {
    hide Inv, EventInv, Exact, Birth, Initial;
    Started();
    var a := OpCreate(1, p);
    var b := OpCreate(2, q);
    GoodStep(Start(), a);
    RunOne(Start(), a);
    CreatedOne(Start(), 1, p);
    var k := Step(Start(), a);
    GoodStep(k, b);
    RunOn(Start(), [a], b);
    CreatedOne(k, 2, q);
    assert [a] + [b] == Creations(p, q);
  }

  lemma CreatedOne(k: Kernel, t: Task, p: nat)
    requires Good(k) && t !in k.s.priority && p < 5
    ensures var r := Step(k, OpCreate(t, p));
            && r.suspended == k.suspended && r.s.priority == k.s.priority[t := p] && r.base == k.base[t := p]
            && Home(r.s, t) == Ready(p) && (forall u :: u != t ==> Home(r.s, u) == Home(k.s, u))
  {
    hide Core, Birth, EventInv, Exact;
    CreateStep(k, t, p);
  }

  /** The switch selects the one ready task that outranks all others. */
  lemma SwitchesTo(k: Kernel, t: Task)
    requires Good(k) && k.suspended == 0 && t in k.s.priority && Home(k.s, t).Ready?
    requires forall u :: u in k.s.priority && u != t && Home(k.s, u).Ready? ==> Prio(k.s, u) < Prio(k.s, t)
    ensures var r := Step(k, OpSwitch);
            && Good(r) && r.current == t && r.suspended == 0 && r.s.priority == k.s.priority && r.base == k.base
            && (forall u :: Home(r.s, u) == Home(k.s, u))
            && (forall q :: ListOf(r.s, Event(q)) == ListOf(k.s, Event(q)))
  {
    hide Core, EventInv, Exact, TopLevel;
    GoodStep(k, OpSwitch);
    SwitchSelectsHighest(k);
  }

  // ----- A base priority above the inherited one

  function InheritSteps(): seq<Op> { Creations(1, 3) + [OpSwitch] + [OpInherit(1)] }

  function InheritAndSet(): seq<Op> { InheritSteps() + [OpSetPriority(1, 4)] }

  lemma InheritedRun()
    ensures Good(Start()) && Possible(Start(), InheritSteps())
    ensures var r := Run(Start(), InheritSteps());
            Good(r) && r.s.priority == map[0 := 0, 1 := 3, 2 := 3] && r.base == map[0 := 0, 1 := 1, 2 := 3]
  {
    hide Inv, EventInv, Exact, Step, Enabled, Creations, Initial;
    Created(1, 3);
    var ops := Creations(1, 3);
    var k := Run(Start(), ops);
    Simple(k);
    SwitchesTo(k, 2);
    RunOn(Start(), ops, OpSwitch);
    var k1 := Step(k, OpSwitch);
    Inherited(k1);
    RunOn(Start(), ops + [OpSwitch], OpInherit(1));
  }

  /** Task 1 inherits priority 3 from task 2 and is then given the base priority 4: its effective
      priority stays at 3, below its base, and its event item value encodes 4. */
  lemma BaseAboveInherited()
    ensures Good(Start()) && Possible(Start(), InheritAndSet())
    ensures var r := Run(Start(), InheritAndSet());
            1 in r.s.priority && 1 in r.base && r.s.priority[1] == 3 && r.base[1] == 4 && !Exact(r)
  {
    hide Inv, EventInv, Exact, Step, InheritSteps, Initial;
    InheritedRun();
    var k := Run(Start(), InheritSteps());
    BaseRaised(k);
    RunOn(Start(), InheritSteps(), OpSetPriority(1, 4));
  }

  lemma Inherited(k: Kernel)
    requires Good(k) && k.current == 2 && Home(k.s, 1).Ready?
    requires k.s.priority == map[0 := 0, 1 := 1, 2 := 3] && k.base == map[0 := 0, 1 := 1, 2 := 3]
    ensures var r := Step(k, OpInherit(1));
            && Enabled(k, OpInherit(1))
            && Good(r) && r.s.priority == map[0 := 0, 1 := 3, 2 := 3] && r.base == k.base
  {
    hide Inv, EventInv, Exact, Inherit;
    ReadyNotListed(k, 1);
    GoodStep(k, OpInherit(1));
    InheritStep(k, 1);
  }

  lemma ReadyNotListed(k: Kernel, t: Task)
    requires Inv(k) && t in k.s.priority && Home(k.s, t).Ready?
    ensures !OnEventList(k.s, t)
  {
    hide Core, Priorities, Counters, Roles, Settled;
    CoreSound(k);
    PI.RunningTask(k.s, t);
  }

  lemma BaseRaised(k: Kernel)
    requires Good(k) && k.s.priority == map[0 := 0, 1 := 3, 2 := 3] && k.base == map[0 := 0, 1 := 1, 2 := 3]
    ensures var r := Step(k, OpSetPriority(1, 4));
            r.s.priority == k.s.priority && r.base == map[0 := 0, 1 := 4, 2 := 3] && !Exact(r)
  {
    hide Core, Counters, Roles, Settled, Priorities, EventInv, Exact, SetPriority;
    Levels(k);
    SetPriorityStep(k, 1, 4);
    StepExactIff(k, OpSetPriority(1, 4));
    assert Miskeys(k, OpSetPriority(1, 4));
  }

  // ----- A waiting task whose priority is raised

  /** The task selected waits on queue 0 without a time limit. */
  function SwitchAndWait(): seq<Op> { [OpSwitch, OpSuspendAll, OpWait(0, W - 1), OpResumeAll] }

  /** Suspending the scheduler and resuming it at once. */
  lemma ResumesQuietly(k: Kernel)
    requires Inv(k) && k.suspended == 1 && k.missed == 0 && Items(k.s, PendingReady) == []
    ensures var r := ResumeAll(k);
            r.s == k.s && r.base == k.base && r.suspended == 0 && r.current == k.current
  {
    hide Sound, DelayInv, CacheInv, ProcessTick;
  }

  /** The running task's wait, seen from the lists. */
  lemma WaitsForever(k: Kernel)
    requires Good(k) && Home(k.s, k.current).Ready? && k.current != 0 && k.suspended == 1 && k.missed == 0
    requires Items(k.s, PendingReady) == [] && k.current in k.s.priority
    ensures Enabled(k, OpWait(0, W - 1))
    ensures var r, c := Step(k, OpWait(0, W - 1)), k.current;
            && Good(r) && r.suspended == 1 && r.missed == 0 && r.s.priority == k.s.priority && r.base == k.base
            && Items(r.s, PendingReady) == [] && In(r.s, Ev(c), Event(0)) && !Home(r.s, c).Ready?
            && (forall u :: u != c ==> Home(r.s, u) == Home(k.s, u))
            && (forall v :: In(k.s, Ev(v), Event(0)) ==> In(r.s, Ev(v), Event(0)))
            && (forall v :: In(k.s, Ev(v), Event(0)) && Prio(k.s, v) >= Prio(k.s, c) ==> Precedes(r.s, 0, Ev(v), Ev(c)))
  {
    hide Core, EventInv, Exact, Wait, Precedes, Counters, Settled, Priorities;
    var op, c := OpWait(0, W - 1), k.current;
    GoodStep(k, op);
    WaitStep(k, 0, W - 1);
    PI.WaitShape(k, 0, W - 1);
    WaitFields(k);
    WheelHomes(k);
    StillNonePending(k, Step(k, op));
    forall v | In(k.s, Ev(v), Event(0)) && Prio(k.s, v) >= Prio(k.s, c)
      ensures Precedes(Step(k, op).s, 0, Ev(v), Ev(c))
    {
      ExactEverywhere(k);
      JoinsBehind(k, 0, W - 1, v);
    }
    NotWaitingYet(k);
  }

  lemma WaitFields(k: Kernel)
    ensures Wait(k, 0, W - 1).suspended == k.suspended && Wait(k, 0, W - 1).missed == k.missed
  {
  }

  lemma WheelHomes(k: Kernel)
    requires Inv(k)
    ensures !k.w.current.Ready? && !k.w.overflow.Ready? && !k.w.current.PendingReady? && !k.w.overflow.PendingReady?
  {
    hide Sound, CacheInv, Counters, Priorities, Settled;
    WheelFacts(k.s, k.w);
  }

  lemma NotWaitingYet(k: Kernel)
    requires Inv(k) && Home(k.s, k.current).Ready? && k.current in k.s.priority
    ensures Ev(k.current) !in k.s.container
  {
    hide Core, Priorities, Counters, Roles, Settled;
    CoreSound(k);
    PI.RunningTask(k.s, k.current);
  }

  lemma StillNonePending(k: Kernel, r: Kernel)
    requires Inv(k) && Inv(r) && Items(k.s, PendingReady) == []
    requires forall i :: In(r.s, i, PendingReady) ==> In(k.s, i, PendingReady)
    ensures Items(r.s, PendingReady) == []
  {
    hide Core, Priorities, Counters, Roles, Settled;
    CoreSound(k);
    CoreSound(r);
    PendingStaysEmpty(k.s, r.s);
  }

  /** What the four steps do to a kernel in which t is the one most urgent ready task. */
  lemma BlocksNext(k: Kernel, t: Task)
    requires Good(k) && k.suspended == 0 && t in k.s.priority && t != 0 && Home(k.s, t).Ready?
    requires forall u :: u in k.s.priority && u != t && Home(k.s, u).Ready? ==> Prio(k.s, u) < Prio(k.s, t)
    ensures Possible(k, SwitchAndWait())
    ensures var r := Run(k, SwitchAndWait());
            && Good(r) && r.suspended == 0 && r.s.priority == k.s.priority && r.base == k.base
            && In(r.s, Ev(t), Event(0)) && !Home(r.s, t).Ready?
            && (forall u :: u != t ==> Home(r.s, u) == Home(k.s, u))
            && (forall v :: In(k.s, Ev(v), Event(0)) ==> In(r.s, Ev(v), Event(0)))
            && (forall v :: In(k.s, Ev(v), Event(0)) && Prio(k.s, v) >= Prio(k.s, t) ==> Precedes(r.s, 0, Ev(v), Ev(t)))
  {
    hide Inv, EventInv, Exact, Step, Enabled, Precedes;
    var a, b, c, d := OpSwitch, OpSuspendAll, OpWait(0, W - 1), OpResumeAll;
    Simple(k);
    SwitchesTo(k, t);
    RunOne(k, a);
    var k1 := Step(k, a);
    Simple(k1);
    SuspendsAll(k1);
    RunOn(k, [a], b);
    SameWaiters(k, k1);
    var k2 := Step(k1, b);
    WaitsForever(k2);
    RunOn(k, [a] + [b], c);
    var k3 := Step(k2, c);
    ResumesAll(k3);
    RunOn(k, [a] + [b] + [c], d);
    assert [a] + [b] + [c] + [d] == SwitchAndWait();
  }

  lemma Simple(k: Kernel)
    requires Good(k)
    ensures Enabled(k, OpSwitch) && Enabled(k, OpSuspendAll) && k.levels > 0
    ensures k.suspended == 0 ==> k.missed == 0 && Items(k.s, PendingReady) == []
  {
    hide Core, EventInv, Exact;
  }

  lemma SuspendsAll(k: Kernel)
    requires Good(k)
    ensures Enabled(k, OpSuspendAll) && Good(Step(k, OpSuspendAll))
    ensures Step(k, OpSuspendAll) == k.(suspended := k.suspended + 1)
  {
    hide Inv, EventInv, Exact;
    Levels(k);
    GoodStep(k, OpSuspendAll);
  }

  lemma ResumesAll(k: Kernel)
    requires Good(k) && k.suspended == 1 && k.missed == 0 && Items(k.s, PendingReady) == []
    ensures Enabled(k, OpResumeAll) && Good(Step(k, OpResumeAll))
    ensures var r := Step(k, OpResumeAll);
            r.s == k.s && r.base == k.base && r.suspended == 0 && r.current == k.current
  {
    hide Inv, EventInv, Exact, ResumeAll;
    Levels(k);
    GoodStep(k, OpResumeAll);
    ResumesQuietly(k);
  }

  /** A switch leaves the event lists as they are. */
  lemma SameWaiters(k: Kernel, r: Kernel)
    requires Inv(k) && Inv(r) && ListOf(r.s, Event(0)) == ListOf(k.s, Event(0))
    ensures forall v :: In(r.s, Ev(v), Event(0)) <==> In(k.s, Ev(v), Event(0))
  {
    hide Inv;
    NoDuplicates(k, 0);
    NoDuplicates(r, 0);
    forall v ensures In(r.s, Ev(v), Event(0)) <==> In(k.s, Ev(v), Event(0)) {
      assert Ev(v) in Items(r.s, Event(0)) <==> Ev(v) in Items(k.s, Event(0));
    }
  }

  /** Tasks 1 and 2, of priorities 3 and 2, wait on queue 0 in this order. */
  function BothWait(): seq<Op> { Creations(3, 2) + SwitchAndWait() + SwitchAndWait() }

  lemma BothAreWaiting()
    ensures Good(Start()) && Possible(Start(), BothWait())
    ensures var r := Run(Start(), BothWait());
            && Good(r) && r.suspended == 0 && r.s.priority == map[0 := 0, 1 := 3, 2 := 2]
            && r.base == map[0 := 0, 1 := 3, 2 := 2]
            && In(r.s, Ev(1), Event(0)) && In(r.s, Ev(2), Event(0)) && Precedes(r.s, 0, Ev(1), Ev(2))
            && Home(r.s, 0) == Ready(0)
  {
    hide Inv, EventInv, Exact, Step, Creations, SwitchAndWait, Initial, Precedes;
    Created(3, 2);
    var k := Run(Start(), Creations(3, 2));
    BlocksNext(k, 1);
    RunAppend(Start(), Creations(3, 2), SwitchAndWait());
    var k1 := Run(k, SwitchAndWait());
    BlocksNext(k1, 2);
    RunAppend(Start(), Creations(3, 2) + SwitchAndWait(), SwitchAndWait());
  }

  function RaiseTheSecond(): seq<Op> { BothWait() + [OpSwitch] + [OpSetPriority(2, 4)] }

  /** The second of two waiters is given the highest priority by the idle task and stays behind the
      first: the event list is out of order, and the next wake-up goes to the less urgent task. */
  lemma RaisedWaiterStaysBehind()
    ensures Good(Start()) && Possible(Start(), RaiseTheSecond())
    ensures var k := Run(Start(), RaiseTheSecond());
            && Inv(k) && k.levels > 0 && !EventInv(k) && Exact(k)
            && 1 in k.s.priority && 2 in k.s.priority && k.s.priority[1] == 3 && k.s.priority[2] == 4
            && In(k.s, Ev(1), Event(0)) && In(k.s, Ev(2), Event(0)) && Enabled(k, OpWake(0))
            && var r := Step(k, OpWake(0)); Home(r.s, 1) == Ready(3) && In(r.s, Ev(2), Event(0))
  {
    hide Inv, EventInv, Exact, Step, Enabled, BothWait, Initial, Precedes;
    BothAreWaiting();
    var k := Run(Start(), BothWait());
    WaitersNotReady(k);
    Simple(k);
    SwitchesTo(k, 0);
    RunOn(Start(), BothWait(), OpSwitch);
    var k1 := Step(k, OpSwitch);
    SameWaiters(k, k1);
    SamePrecedence(k.s, k1.s, 0, Ev(1), Ev(2));
    Raised(k1);
    RunOn(Start(), BothWait() + [OpSwitch], OpSetPriority(2, 4));
    FirstIsWoken(Step(k1, OpSetPriority(2, 4)));
  }

  lemma WaitersNotReady(k: Kernel)
    requires Inv(k)
    ensures forall t :: t in k.s.priority && In(k.s, Ev(t), Event(0)) ==> !Home(k.s, t).Ready?
  {
    hide Inv;
    forall t | t in k.s.priority && In(k.s, Ev(t), Event(0)) ensures !Home(k.s, t).Ready? {
      if Home(k.s, t).Ready? { ReadyNotListed(k, t); }
    }
  }

  lemma Raised(k: Kernel)
    requires Good(k) && k.s.priority == map[0 := 0, 1 := 3, 2 := 2] && k.base == map[0 := 0, 1 := 3, 2 := 2]
    requires In(k.s, Ev(1), Event(0)) && In(k.s, Ev(2), Event(0)) && Precedes(k.s, 0, Ev(1), Ev(2))
    requires Home(k.s, 0) == Ready(0)
    ensures var r := Step(k, OpSetPriority(2, 4));
            && Enabled(k, OpSetPriority(2, 4))
            && Inv(r) && r.levels > 0 && r.suspended == k.suspended && Exact(r)
            && r.s.priority == map[0 := 0, 1 := 3, 2 := 4]
            && In(r.s, Ev(1), Event(0)) && In(r.s, Ev(2), Event(0)) && Precedes(r.s, 0, Ev(1), Ev(2))
            && Home(r.s, 0).Ready?
  {
    hide Core, Counters, Roles, Settled, EventInv, Exact, SetPriority, Precedes;
    var op := OpSetPriority(2, 4);
    Levels(k);
    SetPriorityStep(k, 2, 4);
    StepExactIff(k, op);
    StepShape(k, op);
    SetFields(k);
    IdleReady(Step(k, op));
    SamePrecedence(k.s, Step(k, op).s, 0, Ev(1), Ev(2));
    SameWaiters(k, Step(k, op));
  }

  lemma IdleReady(k: Kernel)
    requires Inv(k) && k.idle == 0
    ensures Home(k.s, 0).Ready?
  {
    hide Core, Priorities, Counters, Settled;
  }

  lemma SetFields(k: Kernel)
    ensures SetPriority(k, 2, 4).suspended == k.suspended
  {
    hide Reprioritise;
  }

  /** Of tasks 1 and 2 on queue 0 the first is woken, although the second is more urgent. */
  lemma FirstIsWoken(k: Kernel)
    requires Inv(k) && k.levels > 0 && Exact(k) && k.suspended == 0
    requires 1 in k.s.priority && 2 in k.s.priority && k.s.priority[1] == 3 && k.s.priority[2] == 4
    requires forall t :: t in k.s.priority && t != 1 && t != 2 ==> Home(k.s, t).Ready?
    requires In(k.s, Ev(1), Event(0)) && In(k.s, Ev(2), Event(0)) && Precedes(k.s, 0, Ev(1), Ev(2))
    ensures !EventInv(k) && Enabled(k, OpWake(0))
    ensures var r := Step(k, OpWake(0)); Home(r.s, 1) == Ready(3) && In(r.s, Ev(2), Event(0))
  {
    hide Inv, Sound, EventInv, Exact, Wake, Precedes;
    InvSound(k);
    NotFirst(k, 0, Ev(1), Ev(2));
    EventHead(k.s, 0);
    var h := Items(k.s, Event(0))[0].task;
    assert h == 1;
    WakeStep(k, 0);
    ExactEverywhere(k);
    if EventInv(k) { MostUrgentIsWoken(k, 0, 2); }
  }

  lemma InvSound(k: Kernel)
    requires Inv(k)
    ensures Sound(k.s)
  {
    hide Core, Priorities, Counters, Roles, Settled, Sound;
    CoreSound(k);
  }

  // ----- A waiting task that inherits a priority

  function InheritWhileWaiting(): seq<Op> { BothWait() + [OpCreate(3, 4)] + [OpSwitch] + [OpInherit(2)] }

  /** The second of two waiters inherits the highest priority from a third task and stays behind the
      first: the event list is out of order, and the next wake-up goes to the less urgent task. */
  lemma InheritingWaiterStaysBehind()
    ensures Good(Start()) && Possible(Start(), InheritWhileWaiting())
    ensures var k := Run(Start(), InheritWhileWaiting());
            && Inv(k) && k.levels > 0 && !EventInv(k) && Exact(k)
            && 1 in k.s.priority && 2 in k.s.priority && k.s.priority[1] == 3 && k.s.priority[2] == 4
            && In(k.s, Ev(1), Event(0)) && In(k.s, Ev(2), Event(0)) && Enabled(k, OpWake(0))
            && var r := Step(k, OpWake(0)); Home(r.s, 1) == Ready(3) && In(r.s, Ev(2), Event(0))
  {
    hide Inv, EventInv, Exact, Step, Enabled, BothWait, Initial, Precedes;
    BothAreWaiting();
    var k := Run(Start(), BothWait());
    Newcomer(k);
    RunOn(Start(), BothWait(), OpCreate(3, 4));
    var k1 := Step(k, OpCreate(3, 4));
    WaitersNotReady(k1);
    Simple(k1);
    SwitchesTo(k1, 3);
    RunOn(Start(), BothWait() + [OpCreate(3, 4)], OpSwitch);
    var k2 := Step(k1, OpSwitch);
    SameWaiters(k1, k2);
    SamePrecedence(k1.s, k2.s, 0, Ev(1), Ev(2));
    InheritsWaiting(k2);
    RunOn(Start(), BothWait() + [OpCreate(3, 4)] + [OpSwitch], OpInherit(2));
    FirstIsWoken(Step(k2, OpInherit(2)));
  }

  /** A third task of the highest priority is created. */
  lemma Newcomer(k: Kernel)
    requires Good(k) && k.s.priority == map[0 := 0, 1 := 3, 2 := 2] && k.suspended == 0
    requires In(k.s, Ev(1), Event(0)) && In(k.s, Ev(2), Event(0)) && Precedes(k.s, 0, Ev(1), Ev(2))
    requires Home(k.s, 0) == Ready(0)
    ensures Enabled(k, OpCreate(3, 4))
    ensures var r := Step(k, OpCreate(3, 4));
            && Good(r) && r.suspended == 0 && r.s.priority == map[0 := 0, 1 := 3, 2 := 2, 3 := 4]
            && Home(r.s, 0) == Ready(0) && Home(r.s, 3) == Ready(4)
            && In(r.s, Ev(1), Event(0)) && In(r.s, Ev(2), Event(0)) && Precedes(r.s, 0, Ev(1), Ev(2))
  {
    hide Inv, EventInv, Exact, Create, Precedes;
    var op := OpCreate(3, 4);
    GoodStep(k, op);
    CreatedOne(k, 3, 4);
    Levels(k);
    CreateStep(k, 3, 4);
    StepKeepsPlaces(k, op, 0, Ev(1), Ev(2));
  }

  lemma InheritsWaiting(k: Kernel)
    requires Good(k) && k.current == 3 && k.suspended == 0 && k.s.priority == map[0 := 0, 1 := 3, 2 := 2, 3 := 4]
    requires In(k.s, Ev(1), Event(0)) && In(k.s, Ev(2), Event(0)) && Precedes(k.s, 0, Ev(1), Ev(2))
    requires Home(k.s, 0) == Ready(0) && Home(k.s, 3) == Ready(4)
    ensures Enabled(k, OpInherit(2))
    ensures var r := Step(k, OpInherit(2));
            && Inv(r) && r.levels > 0 && r.suspended == 0 && Exact(r)
            && r.s.priority == map[0 := 0, 1 := 3, 2 := 4, 3 := 4]
            && Home(r.s, 0) == Ready(0) && Home(r.s, 3) == Ready(4)
            && In(r.s, Ev(1), Event(0)) && In(r.s, Ev(2), Event(0)) && Precedes(r.s, 0, Ev(1), Ev(2))
  {
    hide Inv, EventInv, Exact, Inherit, Precedes;
    var op := OpInherit(2);
    Levels(k);
    InheritStep(k, 2);
    StepExactIff(k, op);
    StepShape(k, op);
    InheritFields(k);
    InheritMovesOne(k, 2);
    SamePrecedence(k.s, Step(k, op).s, 0, Ev(1), Ev(2));
    SameWaiters(k, Step(k, op));
  }

  lemma InheritFields(k: Kernel)
    ensures Inherit(k, 2).suspended == k.suspended
  {
    hide Reprioritise;
  }

  /** Inheriting moves nobody but the holder. */
  lemma InheritMovesOne(k: Kernel, t: Task)
    requires Inv(k) && t in k.s.priority
    ensures forall u :: u != t ==> Home(Inherit(k, t).s, u) == Home(k.s, u)
  {
    hide Core, Priorities, Counters, Roles, Settled, Reprioritise, Sound;
    CoreSound(k);
    var p := Prio(k.s, k.current);
    var s := k.s.(value := k.s.value[Ev(t) := Max(k.levels, p) - p]);
    ValuesAside(k.s, s.value);
    ReprioritiseFacts(s, t, p);
  }
}
