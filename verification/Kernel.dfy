/** tasks.c as a state machine whose steps are the kernel's critical sections. */
module Kernels {
  import opened XLists
  import opened Stores
  import opened ReadyLists
  import opened DelayLists
  import opened TaskMoves

  /** The file-scope variables of tasks.c.  `w` holds pxDelayedTaskList, pxOverflowDelayedTaskList,
      xTickCount and xNumOfOverflows; `levels` is configMAX_PRIORITIES; `interrupts` is a history
      variable counting tick interrupts. */
  datatype Kernel = Kernel(
    s: Store, w: Wheel, base: map<Task, nat>, current: Task, idle: Task, levels: nat,
    nextUnblock: nat, missed: nat, suspended: nat, missedYield: bool,
    numTasks: nat, deleted: nat, interrupts: nat)

  // ----- Invariants

  /** The cached xNextTaskUnblockTime is never behind the tick and never beyond the head. */
  ghost predicate CacheInv(k: Kernel) {
    && k.w.tick <= k.nextUnblock < W && (k.w.tick == k.nextUnblock ==> k.nextUnblock == W - 1)
    && forall i :: i in Items(k.s, k.w.current) ==> k.nextUnblock <= Val(k.s, i)
  }

  ghost predicate Core(k: Kernel) {
    Sound(k.s) && DelayInv(k.s, k.w) && CacheInv(k)
  }

  ghost predicate Priorities(k: Kernel) {
    && k.base.Keys == k.s.priority.Keys
    && (forall t :: t in k.s.priority ==> k.s.priority[t] < k.levels && k.base[t] < k.levels)
  }

  ghost predicate Counters(k: Kernel) {
    && k.numTasks == |k.s.priority|
    && k.deleted == |Items(k.s, Termination)|
    && k.interrupts == Now(k.w) + k.missed
  }

  ghost predicate Roles(k: Kernel) {
    && k.idle in k.s.priority && Home(k.s, k.idle).Ready?
    && k.current in k.s.priority
  }

  /** Nothing is left pending once the scheduler runs. */
  ghost predicate Settled(k: Kernel) {
    k.suspended == 0 ==> Items(k.s, PendingReady) == [] && k.missed == 0
  }

  ghost predicate Inv(k: Kernel) {
    Core(k) && Priorities(k) && Counters(k) && Roles(k) && Settled(k)
  }

  function Clk(k: Kernel): Clock { Abs(k.s, k.w) }

  // ----- Ticks

  /** listGET_ITEM_VALUE_OF_HEAD_ENTRY, or portMAX_DELAY for an empty list. */
  function HeadValue(s: Store, id: ListId): nat {
    if Items(s, id) == [] then W - 1 else Val(s, Items(s, id)[0])
  }

  /** vTaskIncrementTick with the scheduler running: the scan is skipped while the tick is before
      the cached unblock time. */
  function ProcessTick(k: Kernel): (r: Kernel)
    requires Core(k)
  {
    var w := Turn(k.w);
    var next := if w.tick == 0 then HeadValue(k.s, w.current) else k.nextUnblock;
    if w.tick >= next then
      var s := Drain(k.s, w.current, w.tick);
      k.(s := s, w := w, nextUnblock := HeadValue(s, w.current))
    else
      k.(w := w, nextUnblock := next)
  }

  function TickInterrupt(k: Kernel): (r: Kernel)
    requires Core(k)
  {
    var c := k.(interrupts := k.interrupts + 1);
    if k.suspended == 0 then ProcessTick(c) else c.(missed := k.missed + 1)
  }

  lemma HeadIsLeast(s: Store, id: ListId)
    requires ListSorted(s, id)
    ensures forall i :: i in Items(s, id) ==> HeadValue(s, id) <= Val(s, i)
  {
    forall i | i in Items(s, id) ensures HeadValue(s, id) <= Val(s, i) {
      var n := IndexOf(Items(s, id), i);
      assert ValuesOf(s, Items(s, id))[0] <= ValuesOf(s, Items(s, id))[n];
    }
  }

  /** Skipping the scan wakes exactly what a scan on every tick would wake, and the cache stays
      between the tick and the head. */
  lemma CachedAgrees(k: Kernel)
    requires Core(k)
    ensures ProcessTick(k).s == Tick(k.s, k.w) && ProcessTick(k).w == Turn(k.w)
    ensures Core(ProcessTick(k))
  {
    hide Integrity, Placed, ReadyRecorded;
    var w, r := Turn(k.w), ProcessTick(k);
    WheelFacts(k.s, k.w);
    TickRefines(k.s, k.w);
    HeadIsLeast(k.s, k.w.overflow);
    var s := Drain(k.s, w.current, w.tick);
    HeadIsLeast(s, w.current);
    if s.value == k.s.value { HeadInRange(s, w); }
    var next := if w.tick == 0 then HeadValue(k.s, w.current) else k.nextUnblock;
    if w.tick < next {
      assert Items(k.s, w.current) == [] || Items(k.s, w.current)[0] in Items(k.s, w.current);
      assert s == k.s;
    }
  }

  lemma HeadInRange(s: Store, w: Wheel)
    requires DelayInv(s, w)
    ensures w.tick <= HeadValue(s, w.current) < W
    ensures HeadValue(s, w.current) == w.tick ==> w.tick == W - 1
  {
    assert Items(s, w.current) == [] || Items(s, w.current)[0] in Items(s, w.current);
  }

  // ----- The kernel services, one function per critical section

  /** prvAddCurrentTaskToDelayedList for the running task, after it left its ready list. */
  function BlockCurrent(k: Kernel, wake: nat): (r: Kernel) {
    k.(s := Arm(DetachRunning(k.s, k.current), k.w, k.current, wake),
       nextUnblock := if k.w.tick <= wake < k.nextUnblock then wake else k.nextUnblock)
  }

  /** The suspended-scheduler body of vTaskDelay. */
  function Delay(k: Kernel, ticks: nat): (r: Kernel) { BlockCurrent(k, (k.w.tick + ticks) % W) }

  /** The test of vTaskDelayUntil, with the tick and both times modulo 2^32. */
  predicate ShouldDelay(tick: nat, previous: nat, wake: nat) {
    if tick < previous then wake < previous && wake > tick else wake < previous || wake > tick
  }

  function DelayUntil(k: Kernel, previous: nat, increment: nat): (r: Kernel) {
    var wake := (previous + increment) % W;
    if ShouldDelay(k.w.tick, previous, wake) then BlockCurrent(k, wake) else k
  }

  /** vTaskPlaceOnEventList, with the event item placed last; KernelRuns.EventJoined shows that
      placing it first, as the code does, leads to the same state. */
  function Wait(k: Kernel, q: nat, ticks: nat): (r: Kernel) {
    var b := if ticks == W - 1 then k.(s := Append(DetachRunning(k.s, k.current), Suspended, Gen(k.current)))
             else Delay(k, ticks);
    b.(s := Insert(b.s, Event(q), Ev(k.current)))
  }

  /** xTaskRemoveFromEventList: the head waiter becomes ready, or pending while the scheduler is
      suspended. */
  function Wake(k: Kernel, q: nat): (r: Kernel)
    requires Items(k.s, Event(q)) != []
  {
    var t := Items(k.s, Event(q))[0].task;
    k.(s := if k.suspended == 0 then MakeReady(k.s, t) else Pend(k.s, t))
  }

  /** xTaskIsTaskSuspended. */
  predicate IsSuspended(k: Kernel, t: Task) {
    Home(k.s, t) == Suspended && Ev(t) !in k.s.container
  }

  function Resume(k: Kernel, t: Task): (r: Kernel) {
    if t != k.current && IsSuspended(k, t) then k.(s := MakeReady(k.s, t)) else k
  }

  function ResumeFromISR(k: Kernel, t: Task): (r: Kernel) {
    if !IsSuspended(k, t) then k
    else k.(s := if k.suspended == 0 then MakeReady(k.s, t) else Pend(k.s, t))
  }

  function Capped(k: Kernel, p: nat): nat { if p >= k.levels then Max(k.levels, 1) - 1 else p }

  function Create(k: Kernel, t: Task, p: nat): (r: Kernel) {
    var q := Capped(k, p);
    var s := k.s.(value := k.s.value[Ev(t) := Max(k.levels, q) - q]);
    k.(s := Birth(s, t, q), base := k.base[t := q], numTasks := k.numTasks + 1)
  }

  function Delete(k: Kernel, t: Task): (r: Kernel) {
    k.(s := Retire(k.s, t, Termination), deleted := k.deleted + 1)
  }

  function Reap(k: Kernel): (r: Kernel)
    requires Items(k.s, Termination) != [] && k.numTasks > 0 && k.deleted > 0
  {
    var t := Items(k.s, Termination)[0].task;
    k.(s := Bury(k.s, t), base := k.base - {t}, numTasks := k.numTasks - 1, deleted := k.deleted - 1)
  }

  function Suspend(k: Kernel, t: Task): (r: Kernel) { k.(s := Retire(k.s, t, Suspended)) }

  /** A new effective priority together with the event item value derived from `key`. */
  function WithPriority(k: Kernel, t: Task, p: nat, key: nat): (r: Kernel) {
    var s := k.s.(value := k.s.value[Ev(t) := Max(k.levels, key) - key]);
    k.(s := Reprioritise(s, t, p))
  }

  function BaseOf(k: Kernel, t: Task): nat { if t in k.base then k.base[t] else 0 }

  /** vTaskPrioritySet: an inherited priority stays in use, the base priority changes. */
  function SetPriority(k: Kernel, t: Task, p: nat): (r: Kernel) {
    var q := Capped(k, p);
    if BaseOf(k, t) == q then k
    else
      var inUse := if BaseOf(k, t) == Prio(k.s, t) then q else Prio(k.s, t);
      var m := k.(base := k.base[t := q]);
      if inUse == Prio(k.s, t) then
        m.(s := m.s.(value := m.s.value[Ev(t) := Max(k.levels, q) - q]))
      else WithPriority(m, t, inUse, q)
  }

  /** vTaskPriorityInherit by the running task. */
  function Inherit(k: Kernel, holder: Task): (r: Kernel) {
    var p := Prio(k.s, k.current);
    if Prio(k.s, holder) < p then WithPriority(k, holder, p, p) else k
  }

  /** vTaskPriorityDisinherit. */
  function Disinherit(k: Kernel, holder: Task): (r: Kernel) {
    var p := BaseOf(k, holder);
    if Prio(k.s, holder) != p then WithPriority(k, holder, p, p) else k
  }

  // ----- Selecting the next task

  /** The downward search of taskSELECT_HIGHEST_PRIORITY_TASK. */
  function TopLevel(s: Store, p: nat): (r: nat)
    requires exists q: nat :: q <= p && Items(s, Ready(q)) != []
    ensures r <= p && Items(s, Ready(r)) != []
    ensures forall q: nat :: r < q <= p ==> Items(s, Ready(q)) == []
  {
    if Items(s, Ready(p)) != [] then p else TopLevel(s, p - 1)
  }

  ghost predicate SomeReady(s: Store) { exists q: nat :: q <= s.top && Items(s, Ready(q)) != [] }

  /** vTaskSwitchContext. */
  function Switch(k: Kernel): (r: Kernel)
    requires SomeReady(k.s)
  {
    if k.suspended > 0 then k.(missedYield := true)
    else
      var p := TopLevel(k.s, k.s.top);
      var l := Advance(ListOf(k.s, Ready(p)));
      k.(s := k.s.(top := p, lists := k.s.lists[Ready(p) := l]), current := l.items[l.cursor - 1].task)
  }

  // ----- Suspending and resuming the scheduler

  function SuspendAll(k: Kernel): (r: Kernel) { k.(suspended := k.suspended + 1) }

  lemma PendingHead(s: Store)
    requires Sound(s) && Items(s, PendingReady) != []
    ensures var i := Items(s, PendingReady)[0];
            && i == Ev(i.task) && i.task in s.priority && Parked(Home(s, i.task)) && In(s, i, PendingReady)
            && Sound(MakeReady(s, i.task))
            && |Items(MakeReady(s, i.task), PendingReady)| < |Items(s, PendingReady)|
  {
    var i := Items(s, PendingReady)[0];
    assert i in Items(s, PendingReady);
    assert In(s, i, PendingReady);
    assert PlacedTask(s, i.task);
    MakeReadyFacts(s, i.task);
    MakeReadyTakesEvent(s, i.task);
  }

  /** The loop of xTaskResumeAll that moves every pending task to its ready list. */
  function DrainPending(s: Store): (r: Store)
    requires Sound(s)
    decreases |Items(s, PendingReady)|
  {
    if Items(s, PendingReady) == [] then s
    else
      PendingHead(s);
      DrainPending(MakeReady(s, Items(s, PendingReady)[0].task))
  }

  /** The loop of xTaskResumeAll that processes the ticks missed meanwhile. */
  function Replay(k: Kernel): (r: Kernel)
    requires Core(k)
    decreases k.missed
  {
    if k.missed == 0 then k
    else
      CachedAgrees(k);
      Replay(ProcessTick(k).(missed := k.missed - 1))
  }
}
