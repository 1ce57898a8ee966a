/** A run from the start of the kernel in which a mutex is taken, blocks a more urgent task, passes that
    task's priority on and is given back. */
module MutexExamples {
  import opened XLists
  import opened Stores
  import opened ReadyLists
  import opened DelayLists
  import opened TaskMoves
  import opened Kernels
  import opened KernelSteps
  import opened KernelRuns
  import opened KernelMachine
  import opened KernelEventOrder
  import opened KernelEventKeys
  import opened KernelEventWaits
  import opened KernelExamples
  import PI = PriorityInheritance
  import MutexRuns

  /** The mutexes and a kernel of five priorities in order; mutex 0 is the only one. */
  ghost predicate Fit(y: PI.System) { PI.SysInv(y) && Good(y.k) && y.mutexes == {0} }

  function Free(): PI.System { PI.System(Start(), {0}, map[], map[], map[]) }

  /** One more action at the end of a run. */
  lemma {:induction false} ActOn(y: PI.System, acts: seq<PI.Action>, a: PI.Action)
    requires PI.SysInv(y) && PI.Possible(y, acts) && PI.Allowed(PI.Run(y, acts), a)
    ensures PI.SysInv(PI.Run(y, acts)) && PI.Possible(y, acts + [a])
    ensures PI.Run(y, acts + [a]) == PI.Act(PI.Run(y, acts), a)
    decreases |acts|
  {
    hide Inv, PI.Donated, PI.Boosted, PI.Act, PI.Allowed;
    if acts == [] {
      assert acts + [a] == [a] && [a][1..] == [];
      PI.ActKeeps(y, a);
    } else {
      PI.ActKeeps(y, acts[0]);
      ActOn(PI.Act(y, acts[0]), acts[1..], a);
      assert (acts + [a])[0] == acts[0] && (acts + [a])[1..] == acts[1..] + [a];
    }
  }

  /** A kernel service that is no wait and deletes nobody. */
  lemma Serves(y: PI.System, op: Op)
    requires Fit(y) && Enabled(y.k, op) && PI.Plain(op, {0}) && !op.OpDelete?
    ensures PI.Allowed(y, PI.Action.Kernel(op)) && PI.Act(y, PI.Action.Kernel(op)) == y.(k := Step(y.k, op))
    ensures Fit(y.(k := Step(y.k, op)))
  {
    hide Inv, EventInv, Exact, Step, Enabled, PI.Donated, PI.Boosted;
    PI.ActKeeps(y, PI.Action.Kernel(op));
    GoodStep(y.k, op);
  }

  // ----- The mutex is taken

  function Taking(): seq<PI.Action> {
    [PI.Action.Kernel(OpCreate(1, 1))] + [PI.Action.Kernel(OpSwitch)] + [PI.Take(0)]
  }

  /** Task 1 has mutex 0 and nobody else exists but the idle task. */
  ghost predicate OneHolds(y: PI.System) {
    && Fit(y) && y.k.suspended == 0 && y.holder == map[0 := 1]
    && y.k.s.priority == map[0 := 0, 1 := 1] && y.k.base == map[0 := 0, 1 := 1]
    && Home(y.k.s, 0) == Ready(0) && Home(y.k.s, 1) == Ready(1)
  }

  lemma Taken()
    ensures Fit(Free()) && PI.Possible(Free(), Taking()) && OneHolds(PI.Run(Free(), Taking()))
  {
    hide Inv, EventInv, Exact, Step, Enabled, PI.Donated, PI.Boosted, Initial, PI.Act;
    Started();
    PI.StartsFree(5, 0, {0});
    var y0 := Free();
    var a, b := PI.Action.Kernel(OpCreate(1, 1)), PI.Action.Kernel(OpSwitch);
    MayCreate(y0.k, 1, 1);
    Serves(y0, OpCreate(1, 1));
    CreatedOne(y0.k, 1, 1);
    ActOn(y0, [], a);
    var y1 := PI.Act(y0, a);
    assert [] + [a] == [a];
    Simple(y1.k);
    SwitchesTo(y1.k, 1);
    Serves(y1, OpSwitch);
    ActOn(y0, [a], b);
    var y2 := PI.Act(y1, b);
    Takes(y2);
    ActOn(y0, [a] + [b], PI.Take(0));
  }

  lemma MayCreate(k: Kernel, t: Task, p: nat)
    requires t !in k.s.priority
    ensures Enabled(k, OpCreate(t, p))
  {
  }

  /** The running task takes mutex 0. */
  lemma Takes(y: PI.System)
    requires Fit(y) && y.holder == map[] && Home(y.k.s, y.k.current).Ready?
    ensures PI.Allowed(y, PI.Take(0))
    ensures var r := PI.Act(y, PI.Take(0)); Fit(r) && r.k == y.k && r.holder == map[0 := y.k.current]
  {
    hide Inv, EventInv, Exact, PI.Donated, PI.Boosted;
    PI.ActKeeps(y, PI.Take(0));
  }

  // ----- Two more urgent tasks appear and the most urgent one runs

  function Preempting(): seq<PI.Action> {
    Taking() + [PI.Action.Kernel(OpCreate(2, 3))] + [PI.Action.Kernel(OpCreate(3, 2))] + [PI.Action.Kernel(OpSwitch)]
  }

  /** Task 1 has the mutex and task 2 runs. */
  ghost predicate TwoRuns(y: PI.System) {
    && Fit(y) && y.k.suspended == 0 && y.k.current == 2 && y.holder == map[0 := 1]
    && y.k.s.priority == map[0 := 0, 1 := 1, 2 := 3, 3 := 2] && y.k.base == map[0 := 0, 1 := 1, 2 := 3, 3 := 2]
    && Home(y.k.s, 0) == Ready(0) && Home(y.k.s, 1) == Ready(1)
    && Home(y.k.s, 2) == Ready(3) && Home(y.k.s, 3) == Ready(2)
  }

  lemma Preempted()
    ensures Fit(Free()) && PI.Possible(Free(), Preempting()) && TwoRuns(PI.Run(Free(), Preempting()))
  {
    hide Inv, EventInv, Exact, Step, Enabled, PI.Donated, PI.Boosted, Initial, PI.Act, Taking;
    Taken();
    var y0 := PI.Run(Free(), Taking());
    MayCreate(y0.k, 2, 3);
    Serves(y0, OpCreate(2, 3));
    CreatedOne(y0.k, 2, 3);
    ActOn(Free(), Taking(), PI.Action.Kernel(OpCreate(2, 3)));
    var acts := Taking() + [PI.Action.Kernel(OpCreate(2, 3))];
    var y1 := PI.Run(Free(), acts);
    MayCreate(y1.k, 3, 2);
    Serves(y1, OpCreate(3, 2));
    CreatedOne(y1.k, 3, 2);
    ActOn(Free(), acts, PI.Action.Kernel(OpCreate(3, 2)));
    acts := acts + [PI.Action.Kernel(OpCreate(3, 2))];
    var y2 := PI.Run(Free(), acts);
    Simple(y2.k);
    SwitchesTo(y2.k, 2);
    Serves(y2, OpSwitch);
    ActOn(Free(), acts, PI.Action.Kernel(OpSwitch));
  }

  // ----- It blocks on the mutex and its priority goes to the holder

  function Blocking(): seq<PI.Action> {
    Preempting() + [PI.Action.Kernel(OpSuspendAll)] + [PI.BlockOn(0, W - 1)] + [PI.Action.Kernel(OpResumeAll)]
  }

  function Inverting(): seq<PI.Action> { Blocking() + [PI.Action.Kernel(OpSwitch)] }

  /** Task 2 waits for the mutex and task 1 has its priority. */
  ghost predicate TwoWaits(y: PI.System) {
    && Fit(y) && y.k.suspended == 0 && y.holder == map[0 := 1]
    && y.k.s.priority == map[0 := 0, 1 := 3, 2 := 3, 3 := 2] && y.k.base == map[0 := 0, 1 := 1, 2 := 3, 3 := 2]
    && Home(y.k.s, 0) == Ready(0) && Home(y.k.s, 1) == Ready(3) && Home(y.k.s, 3) == Ready(2)
    && In(y.k.s, Ev(2), Event(0)) && !Home(y.k.s, 2).Ready?
  }

  lemma InheritAside(k: Kernel, t: Task)
    requires Inv(k) && t in k.s.priority
    ensures var r := Inherit(k, t);
            r.suspended == k.suspended && r.missed == k.missed && Items(r.s, PendingReady) == Items(k.s, PendingReady)
  {
    hide Core, Priorities, Counters, Roles, Settled, Reprioritise, Sound;
    CoreSound(k);
    var p := Prio(k.s, k.current);
    var s := k.s.(value := k.s.value[Ev(t) := Max(k.levels, p) - p]);
    ValuesAside(k.s, s.value);
    ReprioritiseFacts(s, t, p);
  }

  /** What inheriting from task 2 does to task 1. */
  lemma OneInherits(k: Kernel)
    requires Good(k) && k.current == 2 && Home(k.s, 1).Ready?
    requires k.s.priority == map[0 := 0, 1 := 1, 2 := 3, 3 := 2]
    ensures var r := Inherit(k, 1);
            && Good(r) && r.s.priority == map[0 := 0, 1 := 3, 2 := 3, 3 := 2] && r.base == k.base
            && r.current == 2 && Home(r.s, 1) == Ready(3)
  {
    hide Inv, EventInv, Exact, Inherit;
    ReadyNotListed(k, 1);
    GoodStep(k, OpInherit(1));
    InheritStep(k, 1);
  }

  /** Task 2, running with the scheduler suspended, blocks on mutex 0. */
  lemma TwoBlocks(y: PI.System)
    requires Fit(y) && y.k.suspended == 1 && y.k.missed == 0 && Items(y.k.s, PendingReady) == []
    requires y.k.current == 2 && y.holder == map[0 := 1]
    requires y.k.s.priority == map[0 := 0, 1 := 1, 2 := 3, 3 := 2] && y.k.base == map[0 := 0, 1 := 1, 2 := 3, 3 := 2]
    requires Home(y.k.s, 0) == Ready(0) && Home(y.k.s, 1) == Ready(1)
    requires Home(y.k.s, 2) == Ready(3) && Home(y.k.s, 3) == Ready(2)
    ensures PI.Allowed(y, PI.BlockOn(0, W - 1))
    ensures var r := PI.Act(y, PI.BlockOn(0, W - 1));
            && Fit(r) && r.k.suspended == 1 && r.k.missed == 0 && Items(r.k.s, PendingReady) == []
            && r.holder == map[0 := 1]
            && r.k.s.priority == map[0 := 0, 1 := 3, 2 := 3, 3 := 2] && r.k.base == y.k.base
            && Home(r.k.s, 0) == Ready(0) && Home(r.k.s, 1) == Ready(3) && Home(r.k.s, 3) == Ready(2)
            && In(r.k.s, Ev(2), Event(0)) && !Home(r.k.s, 2).Ready?
  {
    hide Inv, EventInv, Exact, PI.Donated, PI.Boosted, Inherit, Wait;
    OneInherits(y.k);
    InheritAside(y.k, 1);
    InheritMovesOne(y.k, 1);
    WaitsForever(Inherit(y.k, 1));
    PI.ActKeeps(y, PI.BlockOn(0, W - 1));
  }

  lemma Blocked()
    ensures Fit(Free()) && PI.Possible(Free(), Blocking()) && TwoWaits(PI.Run(Free(), Blocking()))
  {
    hide Inv, EventInv, Exact, Step, Enabled, PI.Donated, PI.Boosted, Initial, PI.Act, Preempting;
    Preempted();
    var y0 := PI.Run(Free(), Preempting());
    Simple(y0.k);
    SuspendsAll(y0.k);
    Serves(y0, OpSuspendAll);
    ActOn(Free(), Preempting(), PI.Action.Kernel(OpSuspendAll));
    var acts := Preempting() + [PI.Action.Kernel(OpSuspendAll)];
    var y1 := PI.Run(Free(), acts);
    TwoBlocks(y1);
    ActOn(Free(), acts, PI.BlockOn(0, W - 1));
    acts := acts + [PI.BlockOn(0, W - 1)];
    var y2 := PI.Run(Free(), acts);
    ResumesAll(y2.k);
    Serves(y2, OpResumeAll);
    ActOn(Free(), acts, PI.Action.Kernel(OpResumeAll));
  }

  /** No priority inversion: with the most urgent task waiting for the mutex, the switch selects its
      holder, whose base priority is 1, and not the ready task of priority 2. */
  lemma HolderRunsBeforeTheMiddle()
    ensures Fit(Free()) && PI.Possible(Free(), Inverting())
    ensures var y := PI.Run(Free(), Inverting()); TwoWaits(y) && y.k.current == 1
  {
    hide Inv, EventInv, Exact, Step, Enabled, PI.Donated, PI.Boosted, Initial, PI.Act, Blocking;
    Blocked();
    var y := PI.Run(Free(), Blocking());
    Simple(y.k);
    SwitchesTo(y.k, 1);
    Serves(y, OpSwitch);
    SameWaiters(y.k, Step(y.k, OpSwitch));
    ActOn(Free(), Blocking(), PI.Action.Kernel(OpSwitch));
  }

  // ----- The mutex is given back

  /** Task 1 gives the mutex: it is back at priority 1, the mutex is free and task 2 is ready. */
  lemma OneGives(y: PI.System)
    requires TwoWaits(y) && y.k.current == 1
    ensures PI.Allowed(y, PI.Give(0))
    ensures var r := PI.Act(y, PI.Give(0));
            && r.holder == map[] && Prio(r.k.s, 1) == 1 && Home(r.k.s, 1) == Ready(1)
            && Home(r.k.s, 2) == Ready(3) && !In(r.k.s, Ev(2), Event(0))
  {
    hide Inv, EventInv, Exact, PI.Donated, PI.Boosted, Disinherit, Wake;
    PI.GiveKeeps(y, 0);
    MutexRuns.GiveWakesFirst(y, 0);
    OnlyTwoWaits(y.k);
  }

  lemma OnlyTwoWaits(k: Kernel)
    requires Inv(k) && k.s.priority.Keys == {0, 1, 2, 3} && In(k.s, Ev(2), Event(0))
    requires Home(k.s, 0).Ready? && Home(k.s, 1).Ready? && Home(k.s, 3).Ready?
    ensures Items(k.s, Event(0)) != [] && Items(k.s, Event(0))[0].task == 2
  {
    hide Inv, Sound;
    InvSound(k);
    WaitersNotReady(k);
    NoDuplicates(k, 0);
    EventHead(k.s, 0);
  }

  /** The whole run: taken by task 1, wanted by task 2, given by task 1. */
  lemma TakenInheritedGiven()
    ensures Fit(Free()) && PI.Possible(Free(), Inverting() + [PI.Give(0)])
    ensures var r := PI.Run(Free(), Inverting() + [PI.Give(0)]);
            && r.holder == map[] && Prio(r.k.s, 1) == 1 && Home(r.k.s, 1) == Ready(1)
            && Home(r.k.s, 2) == Ready(3) && !In(r.k.s, Ev(2), Event(0))
  {
    hide Inv, EventInv, Exact, PI.Donated, PI.Boosted, Initial, PI.Act, Inverting;
    HolderRunsBeforeTheMiddle();
    OneGives(PI.Run(Free(), Inverting()));
    ActOn(Free(), Inverting(), PI.Give(0));
  }
}
