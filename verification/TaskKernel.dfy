/** tasks.c in its own form: global state updated in place.  Every service is proved against the
    corresponding function of module Kernels, whose invariants and runs are treated there. */
module TaskKernels {
  import opened XLists
  import opened Stores
  import opened ReadyLists
  import opened DelayLists
  import opened TaskMoves
  import opened Kernels
  import opened KernelSteps
  import opened KernelRuns
  import opened KernelMachine

  class TaskKernel {
    var s: Store
    var w: Wheel
    var base: map<Task, nat>
    var current: Task
    var nextUnblock: nat
    var missedTicks: nat
    var schedulerSuspended: nat
    var missedYield: bool
    var numTasks: nat
    var tasksDeleted: nat
    const idle: Task
    const levels: nat
    ghost var interrupts: nat

    ghost function View(): Kernel
      reads this
    {
      Kernel(s, w, base, current, idle, levels, nextUnblock, missedTicks, schedulerSuspended, missedYield,
             numTasks, tasksDeleted, interrupts)
    }

    /** The lists set up by prvInitialiseTaskLists, with the idle task created and running. */
    constructor (levels: nat, idle: Task)
      requires levels > 0
      ensures View() == Initial(levels, idle)
    {
      this.levels, this.idle, current := levels, idle, idle;
      s := Birth(Store(map[], map[], map[Ev(idle) := levels], map[], 0, {}), idle, 0);
      w := Wheel(Delayed1, Delayed2, 0, 0);
      base := map[idle := 0];
      nextUnblock, missedTicks, schedulerSuspended, missedYield := W - 1, 0, 0, false;
      numTasks, tasksDeleted, interrupts := 1, 0, 0;
    }

    // ----- The list operations used throughout

    method ListRemove(i: Item) returns (remaining: nat)
      requires i in s.container && i in Items(s, s.container[i])
      modifies this`s
      ensures s == Remove(old(s), i) && remaining == |Items(s, old(s).container[i])|
    {
      var id := s.container[i];
      var l := ListOf(s, id);
      s := s.(lists := s.lists[id := RemoveAt(l, IndexOf(l.items, i))], container := s.container - {i});
      remaining := |Items(s, id)|;
    }

    method ListInsertEnd(id: ListId, i: Item)
      modifies this`s
      ensures s == Append(old(s), id, i)
    {
      s := s.(lists := s.lists[id := InsertEnd(ListOf(s, id), i)], container := s.container[i := id]);
    }

    method ListInsert(id: ListId, i: Item)
      modifies this`s
      ensures s == Insert(old(s), id, i)
    {
      var at := InsertPosition(s, id, i);
      s := s.(lists := s.lists[id := InsertAt(ListOf(s, id), at, i)], container := s.container[i := id]);
    }

    /** prvAddTaskToReadyQueue. */
    method AddToReadyQueue(t: Task)
      modifies this`s
      ensures s == AddReady(old(s), t)
    {
      var p := Prio(s, t);
      if p > s.top { s := s.(top := p); }
      s := s.(bits := s.bits + {p});
      ListInsertEnd(Ready(p), Gen(t));
    }

    /** uxListRemove of a generic item with taskRESET_READY_PRIORITY. */
    method RemoveGeneric(t: Task)
      requires Gen(t) in s.container && Gen(t) in Items(s, s.container[Gen(t)])
      modifies this`s
      ensures s == Detach(old(s), t)
    {
      var p := Prio(s, t);
      var n := ListRemove(Gen(t));
      if n == 0 && Items(s, Ready(p)) == [] {
        s := s.(bits := s.bits - {p});
      }
    }

    /** The same for the running task, with portRESET_READY_PRIORITY. */
    method RemoveRunning()
      requires Gen(current) in s.container && Gen(current) in Items(s, s.container[Gen(current)])
      modifies this`s
      ensures s == DetachRunning(old(s), current)
    {
      var p := Prio(s, current);
      var n := ListRemove(Gen(current));
      if n == 0 {
        s := s.(bits := s.bits - {p});
      }
    }

    method RemoveEvent(t: Task)
      requires Ev(t) in s.container ==> Ev(t) in Items(s, s.container[Ev(t)])
      modifies this`s
      ensures s == Remove(old(s), Ev(t))
    {
      if Ev(t) in s.container {
        var n := ListRemove(Ev(t));
      }
    }

    // ----- Ticks

    /** The removals and insertion shared by every wake-up, generic item first. */
    method ReadyTask(t: Task)
      requires Sound(s) && t in s.priority
      modifies this`s
      ensures s == MakeReady(old(s), t)
    {
      hide Remove, AddReady;
      ItemsListed(s, t);
      var n := ListRemove(Gen(t));
      RemoveEvent(t);
      AddToReadyQueue(t);
    }

    /** prvCheckDelayedTasks. */
    method CheckDelayedTasks()
      requires Sound(s) && (w.current == Delayed1 || w.current == Delayed2)
      modifies this`s, this`nextUnblock
      ensures w.tick < old(nextUnblock) ==> s == old(s) && nextUnblock == old(nextUnblock)
      ensures w.tick >= old(nextUnblock) ==>
                s == Drain(old(s), w.current, w.tick) && nextUnblock == HeadValue(s, w.current)
    {
      hide Sound, MakeReady;
      if w.tick >= nextUnblock {
        while true
          invariant Sound(s) && Drain(s, w.current, w.tick) == Drain(old(s), w.current, w.tick)
          decreases |Items(s, w.current)|
        {
          var items := Items(s, w.current);
          if items == [] {
            nextUnblock := W - 1;
            break;
          }
          var t := items[0].task;
          EntryFacts(s, w.current, items[0]);
          if w.tick < Val(s, items[0]) {
            nextUnblock := Val(s, items[0]);
            break;
          }
          MakeReadyFacts(s, t);
          ReadyTask(t);
        }
      }
    }

    /** vTaskIncrementTick with the scheduler running. */
    method Advance()
      requires Core(View())
      modifies this
      ensures View() == ProcessTick(old(View()))
    {
      hide Sound, DelayInv, CacheInv, Drain;
      WheelFacts(s, w);
      w := w.(tick := (w.tick + 1) % W);
      if w.tick == 0 {
        w := Wheel(w.overflow, w.current, 0, w.wraps + 1);
        var items := Items(s, w.current);
        nextUnblock := if items == [] then W - 1 else Val(s, items[0]);
      }
      CheckDelayedTasks();
    }

    /** vTaskIncrementTick. */
    method IncrementTick()
      requires Core(View())
      modifies this
      ensures View() == TickInterrupt(old(View()))
      ensures old(Allowed(View(), OpTick)) ==> Inv(View())
    {
      hide Core, ProcessTick, Allowed;
      KeepsTick(View());
      SameCore(View(), View().(interrupts := interrupts + 1));
      interrupts := interrupts + 1;
      if schedulerSuspended == 0 {
        Advance();
      } else {
        missedTicks := missedTicks + 1;
      }
    }

    // ----- Scheduler suspension

    method SuspendAll()
      modifies this`schedulerSuspended
      ensures View() == Kernels.SuspendAll(old(View()))
      ensures old(Allowed(View(), OpSuspendAll)) ==> Inv(View())
    {
      Keeps(View(), OpSuspendAll);
      schedulerSuspended := schedulerSuspended + 1;
    }

    /** The first loop of xTaskResumeAll; reports whether a moved task matches the running one. */
    method MovePendingTasks() returns (yieldRequired: bool)
      requires Sound(s)
      modifies this`s
      ensures s == DrainPending(old(s))
      ensures yieldRequired <==> AnyUrgent(old(s), current)
    {
      hide Sound, MakeReady;
      yieldRequired := false;
      ghost var s0 := s;
      while Items(s, PendingReady) != []
        invariant Sound(s) && DrainPending(s) == DrainPending(s0) && s.priority == old(s).priority
        invariant (yieldRequired || AnyUrgent(s, current)) == AnyUrgent(s0, current)
        decreases |Items(s, PendingReady)|
      {
        var t := Items(s, PendingReady)[0].task;
        PendingHead(s);
        UrgentAfterHead(s, current);
        ghost var s1 := s;
        RemovalsCommute(s, t);
        ItemsListed(s, t);
        var n := ListRemove(Ev(t));
        GenStillListed(s1, t);
        n := ListRemove(Gen(t));
        AddToReadyQueue(t);
        ReadyUnfolded(s1, t);
        if Prio(s, t) >= Prio(s, current) {
          yieldRequired := true;
        }
      }
    }

    /** The second loop of xTaskResumeAll. */
    method ReplayMissedTicks()
      requires Core(View()) && schedulerSuspended == 0
      modifies this
      ensures View() == Replay(old(View()))
    {
      hide Core, Replay, ProcessTick;
      ghost var d := View();
      while missedTicks > 0
        invariant Core(View()) && Replay(View()) == Replay(d) && schedulerSuspended == 0
      {
        ghost var v := View();
        CachedAgrees(v);
        ReplayUnfolded(v);
        TickShape(v);
        Advance();
        SameCore(View(), View().(missed := missedTicks - 1));
        missedTicks := missedTicks - 1;
      }
      ReplayDone(View());
    }

    /** xTaskResumeAll; reports whether a yield was requested. */
    method ResumeAll() returns (alreadyYielded: bool)
      requires Inv(View()) && schedulerSuspended > 0
      modifies this
      ensures View() == KernelRuns.ResumeAll(old(View())) && schedulerSuspended == old(schedulerSuspended) - 1
      ensures alreadyYielded <==>
                old(schedulerSuspended) == 1
                    && (AnyUrgent(old(s), old(current)) || old(missedTicks) > 0 || old(missedYield))
      ensures old(Allowed(View(), OpResumeAll)) ==> Inv(View())
    {
      hide Core, Replay, DrainPending, ProcessTick, Allowed, Priorities, Counters, Settled, AnyUrgent, ElapseBy, Cancel;
      KeepsResumeAll(View());
      ResumeAllStep(View());
      ghost var k := View();
      alreadyYielded := false;
      schedulerSuspended := schedulerSuspended - 1;
      SameCore(k, View());
      if schedulerSuspended == 0 {
        ghost var c := View();
        CoreSound(c);
        DrainPendingStep(c);
        var yieldRequired := MovePendingTasks();
        ghost var d := c.(s := DrainPending(c.s));
        if missedTicks > 0 {
          ReplayMissedTicks();
          yieldRequired := true;
        } else {
          ReplayDone(d);
        }
        if yieldRequired || missedYield {
          alreadyYielded := true;
          missedYield := false;
        }
      }
    }

    // ----- Selection

    /** vTaskSwitchContext: the decrementing search, then the next entry of that ready list. */
    method SwitchContext()
      requires SomeReady(s)
      modifies this
      ensures View() == Switch(old(View()))
      ensures old(Allowed(View(), OpSwitch)) ==> Inv(View())
    {
      hide Allowed, Inv;
      KeepsSwitch(View());
      if schedulerSuspended > 0 {
        missedYield := true;
      } else {
        ghost var p := TopLevel(s, s.top);
        while Items(s, Ready(s.top)) == []
          invariant s.top >= p && s == old(s).(top := s.top) && s.top <= old(s).top
          invariant View() == old(View()).(s := s)
          decreases s.top
        {
          s := s.(top := s.top - 1);
        }
        LevelFound(old(s), old(s).top, s.top);
        var l: Chain := XLists.Advance(ListOf(s, Ready(s.top)));
        s := s.(lists := s.lists[Ready(s.top) := l]);
        current := l.items[l.cursor - 1].task;
      }
    }

    // ----- Delays and event lists

    /** prvAddCurrentTaskToDelayedList, after leaving the ready list. */
    method BlockRunning(wake: nat)
      requires Gen(current) in s.container && Gen(current) in Items(s, s.container[Gen(current)])
      modifies this`s, this`nextUnblock
      ensures View() == BlockCurrent(old(View()), wake)
    {
      RemoveRunning();
      AddCurrentToDelayedList(wake);
    }

    /** prvAddCurrentTaskToDelayedList. */
    method AddCurrentToDelayedList(wake: nat)
      modifies this`s, this`nextUnblock
      ensures s == Arm(old(s), w, current, wake)
      ensures nextUnblock == if w.tick <= wake < old(nextUnblock) then wake else old(nextUnblock)
    {
      s := s.(value := s.value[Gen(current) := wake]);
      if wake < w.tick {
        ListInsert(w.overflow, Gen(current));
      } else {
        ListInsert(w.current, Gen(current));
        if wake < nextUnblock {
          nextUnblock := wake;
        }
      }
    }

    /** The body of vTaskDelay. */
    method Delay(ticks: nat)
      requires Inv(View())
      modifies this`s, this`nextUnblock
      ensures View() == Kernels.Delay(old(View()), ticks)
      ensures old(Allowed(View(), OpDelay(ticks))) ==> Inv(View())
    {
      hide Core, BlockCurrent;
      Keeps(View(), OpDelay(ticks));
      CoreSound(View());
      ItemsListed(s, current);
      BlockRunning((w.tick + ticks) % W);
    }

    /** The body of vTaskDelayUntil; returns the updated previous wake time. */
    method DelayUntil(previous: nat, increment: nat) returns (newPrevious: nat)
      requires Inv(View())
      modifies this`s, this`nextUnblock
      ensures View() == Kernels.DelayUntil(old(View()), previous, increment)
      ensures newPrevious == (previous + increment) % W
      ensures old(Allowed(View(), OpDelayUntil(previous, increment))) ==> Inv(View())
    {
      hide Core, BlockCurrent;
      Keeps(View(), OpDelayUntil(previous, increment));
      CoreSound(View());
      ItemsListed(s, current);
      var wake := (previous + increment) % W;
      var shouldDelay := false;
      if w.tick < previous {
        if wake < previous && wake > w.tick { shouldDelay := true; }
      } else {
        if wake < previous || wake > w.tick { shouldDelay := true; }
      }
      newPrevious := wake;
      if shouldDelay {
        BlockRunning(wake);
      }
    }

    /** vTaskPlaceOnEventList. */
    method PlaceOnEventList(q: nat, ticks: nat)
      requires Inv(View())
      modifies this`s, this`nextUnblock
      ensures View() == Wait(old(View()), q, ticks)
      ensures old(Allowed(View(), OpWait(q, ticks))) ==> Inv(View())
    {
      hide Core, Insert, Append, DetachRunning, Arm, Allowed;
      KeepsWait(View(), q, ticks);
      CoreSound(View());
      ItemsListed(s, current);
      EventJoined(View(), q, ticks);
      ListInsert(Event(q), Ev(current));
      RemoveRunning();
      if ticks == W - 1 {
        ListInsertEnd(Suspended, Gen(current));
      } else {
        AddCurrentToDelayedList((w.tick + ticks) % W);
      }
    }

    /** xTaskRemoveFromEventList; reports whether the task removed outranks or equals the running one. */
    method RemoveFromEventList(q: nat) returns (higher: bool)
      requires Inv(View()) && Items(s, Event(q)) != []
      modifies this`s
      ensures View() == Wake(old(View()), q)
      ensures higher <==> Prio(old(s), Items(old(s), Event(q))[0].task) >= Prio(old(s), current)
      ensures old(Allowed(View(), OpWake(q))) ==> Inv(View())
    {
      hide Core, Remove, Append, AddReady, Allowed;
      KeepsWake(View(), q);
      CoreSound(View());
      EventHead(s, q);
      var t := Items(s, Event(q))[0].task;
      ItemsListed(s, t);
      GenStillListed(s, t);
      RemovalsCommute(s, t);
      higher := Prio(s, t) >= Prio(s, current);
      var n := ListRemove(Ev(t));
      if schedulerSuspended == 0 {
        n := ListRemove(Gen(t));
        AddToReadyQueue(t);
      } else {
        ListInsertEnd(PendingReady, Ev(t));
      }
    }

    // ----- Task life cycle

    method Resume(t: Task)
      requires Inv(View()) && t in s.priority
      modifies this`s
      ensures View() == Kernels.Resume(old(View()), t)
      ensures old(Allowed(View(), OpResume(t))) ==> Inv(View())
    {
      hide Core, MakeReady;
      Keeps(View(), OpResume(t));
      CoreSound(View());
      if t != current && Home(s, t) == Suspended && Ev(t) !in s.container {
        ReadyTask(t);
      }
    }

    method ResumeFromISR(t: Task) returns (yieldRequired: bool)
      requires Inv(View()) && t in s.priority
      modifies this`s
      ensures View() == Kernels.ResumeFromISR(old(View()), t)
      ensures yieldRequired <==>
                IsSuspended(old(View()), t) && schedulerSuspended == 0 && Prio(old(s), t) >= Prio(old(s), current)
      ensures old(Allowed(View(), OpResumeFromISR(t))) ==> Inv(View())
    {
      hide Core, MakeReady, Append, Remove, Allowed;
      KeepsResumeFromISR(View(), t);
      CoreSound(View());
      yieldRequired := false;
      if Home(s, t) == Suspended && Ev(t) !in s.container {
        if schedulerSuspended == 0 {
          yieldRequired := Prio(s, t) >= Prio(s, current);
          ReadyTask(t);
        } else {
          RemoveAbsent(s, Ev(t));
          ListInsertEnd(PendingReady, Ev(t));
        }
      }
    }

    method SuspendTask(t: Task)
      requires Inv(View()) && t in s.priority
      modifies this`s
      ensures View() == Kernels.Suspend(old(View()), t)
      ensures old(Allowed(View(), OpSuspend(t))) ==> Inv(View())
    {
      hide Core, Detach, Remove, Append, Allowed;
      KeepsSuspend(View(), t);
      CoreSound(View());
      ItemsListed(s, t);
      DetachListed(s, t);
      RemoveGeneric(t);
      RemoveEvent(t);
      ListInsertEnd(Suspended, Gen(t));
    }

    method DeleteTask(t: Task)
      requires Inv(View()) && t in s.priority
      modifies this`s, this`tasksDeleted
      ensures View() == Kernels.Delete(old(View()), t)
      ensures old(Allowed(View(), OpDelete(t))) ==> Inv(View())
    {
      hide Core, Detach, Remove, Append, Allowed;
      KeepsDelete(View(), t);
      CoreSound(View());
      ItemsListed(s, t);
      DetachListed(s, t);
      RemoveGeneric(t);
      RemoveEvent(t);
      ListInsertEnd(Termination, Gen(t));
      tasksDeleted := tasksDeleted + 1;
    }

    /** The critical section of prvCheckTasksWaitingTermination. */
    method ReapTask()
      requires Inv(View()) && Items(s, Termination) != [] && numTasks > 0 && tasksDeleted > 0
      modifies this
      ensures View() == Reap(old(View()))
      ensures old(Allowed(View(), OpReap)) ==> Inv(View())
    {
      hide Core, Remove, Allowed;
      KeepsReap(View());
      CoreSound(View());
      TerminatedHead(s);
      var t := Items(s, Termination)[0].task;
      ItemsListed(s, t);
      var n := ListRemove(Gen(t));
      s := s.(priority := s.priority - {t});
      base := base - {t};
      numTasks, tasksDeleted := numTasks - 1, tasksDeleted - 1;
    }

    method CreateTask(t: Task, p: nat)
      requires Inv(View()) && t !in s.priority
      modifies this
      ensures View() == Kernels.Create(old(View()), t, p)
      ensures old(Allowed(View(), OpCreate(t, p))) ==> Inv(View())
    {
      hide AddReady, Allowed, Inv;
      KeepsCreate(View(), t, p);
      var q := if p >= levels then Max(levels, 1) - 1 else p;
      numTasks := numTasks + 1;
      s := s.(value := s.value[Ev(t) := Max(levels, q) - q]);
      s := s.(priority := s.priority[t := q]);
      base := base[t := q];
      AddToReadyQueue(t);
    }

    // ----- Priorities

    /** Rewrites the event item value and moves a ready task to the list of its new priority. */
    method ChangePriority(t: Task, p: nat, key: nat)
      requires Sound(s) && t in s.priority
      modifies this`s
      ensures View() == WithPriority(old(View()), t, p, key)
    {
      hide Sound, Detach, AddReady;
      ItemsListed(s, t);
      s := s.(value := s.value[Ev(t) := Max(levels, key) - key]);
      if Home(s, t) == Ready(Prio(s, t)) {
        RemoveGeneric(t);
        s := s.(priority := s.priority[t := p]);
        AddToReadyQueue(t);
      } else {
        s := s.(priority := s.priority[t := p]);
      }
    }

    method PrioritySet(t: Task, p: nat)
      requires Inv(View()) && t in s.priority
      modifies this`s, this`base
      ensures View() == SetPriority(old(View()), t, p)
      ensures old(Allowed(View(), OpSetPriority(t, p))) ==> Inv(View())
    {
      hide Core, Reprioritise, Allowed;
      KeepsPrioritySet(View(), t, p);
      CoreSound(View());
      var q := if p >= levels then Max(levels, 1) - 1 else p;
      if base[t] != q {
        var used, was := s.priority[t], base[t];
        base := base[t := q];
        if was == used {
          ChangePriority(t, q, q);
        } else {
          s := s.(value := s.value[Ev(t) := Max(levels, q) - q]);
        }
      }
    }

    method PriorityInherit(holder: Task)
      requires Inv(View()) && holder in s.priority
      modifies this`s
      ensures View() == Inherit(old(View()), holder)
      ensures old(Allowed(View(), OpInherit(holder))) ==> Inv(View())
    {
      hide Core, WithPriority;
      Keeps(View(), OpInherit(holder));
      CoreSound(View());
      if s.priority[holder] < s.priority[current] {
        ChangePriority(holder, s.priority[current], s.priority[current]);
      }
    }

    /** The giver is the running task, so it is on a ready list. */
    method PriorityDisinherit(holder: Task)
      requires Inv(View()) && holder in s.priority && Home(s, holder).Ready?
      modifies this`s
      ensures View() == Disinherit(old(View()), holder)
      ensures old(Allowed(View(), OpDisinherit(holder))) ==> Inv(View())
    {
      hide Core, AddReady, Detach, Allowed, Counters, Roles, Settled;
      KeepsDisinherit(View(), holder);
      CoreSound(View());
      ItemsListed(s, holder);
      TaskFacts(s, holder);
      if s.priority[holder] != base[holder] {
        var p := base[holder];
        DetachValues(s, holder, s.value[Ev(holder) := Max(levels, p) - p]);
        RemoveGeneric(holder);
        s := s.(priority := s.priority[holder := p]);
        s := s.(value := s.value[Ev(holder) := Max(levels, p) - p]);
        AddToReadyQueue(holder);
      }
    }
  }

  /** A call as the source demands it: see KernelMachine.Enabled. */
  ghost predicate Allowed(k: Kernel, op: Op) { Inv(k) && k.levels > 0 && Enabled(k, op) }

  lemma Keeps(k: Kernel, op: Op)
    ensures Allowed(k, op) ==> Inv(Step(k, op))
  {
    hide Inv, Step, Enabled;
    if Allowed(k, op) { StepRefines(k, op); }
  }

  lemma KeepsSwitch(k: Kernel)
    ensures Allowed(k, OpSwitch) ==> SomeReady(k.s) && Inv(Switch(k))
  {
    hide Core, Priorities, Counters, Settled, Switch;
    if Allowed(k, OpSwitch) { IdleIsReady(k); StepRefines(k, OpSwitch); }
  }

  lemma KeepsResumeAll(k: Kernel)
    ensures Allowed(k, OpResumeAll) ==> Inv(KernelRuns.ResumeAll(k))
  {
    hide Inv;
    if Allowed(k, OpResumeAll) { StepRefines(k, OpResumeAll); }
  }

  lemma KeepsPrioritySet(k: Kernel, t: Task, p: nat)
    ensures Allowed(k, OpSetPriority(t, p)) ==> Inv(SetPriority(k, t, p))
  {
    hide Inv;
    if Allowed(k, OpSetPriority(t, p)) { StepRefines(k, OpSetPriority(t, p)); }
  }

  lemma KeepsWait(k: Kernel, q: nat, ticks: nat)
    ensures Allowed(k, OpWait(q, ticks)) ==> Inv(Wait(k, q, ticks))
  {
    hide Inv;
    if Allowed(k, OpWait(q, ticks)) { StepRefines(k, OpWait(q, ticks)); }
  }

  lemma KeepsCreate(k: Kernel, t: Task, p: nat)
    ensures Allowed(k, OpCreate(t, p)) ==> Inv(Kernels.Create(k, t, p))
  {
    hide Inv;
    if Allowed(k, OpCreate(t, p)) { StepRefines(k, OpCreate(t, p)); }
  }

  lemma KeepsDisinherit(k: Kernel, holder: Task)
    ensures Allowed(k, OpDisinherit(holder)) ==> Inv(Disinherit(k, holder))
  {
    hide Inv;
    if Allowed(k, OpDisinherit(holder)) { StepRefines(k, OpDisinherit(holder)); }
  }

  lemma KeepsReap(k: Kernel)
    ensures Allowed(k, OpReap) ==> Inv(Reap(k))
  {
    hide Inv;
    if Allowed(k, OpReap) { StepRefines(k, OpReap); }
  }

  lemma KeepsWake(k: Kernel, q: nat)
    ensures Allowed(k, OpWake(q)) ==> Inv(Wake(k, q))
  {
    hide Inv;
    if Allowed(k, OpWake(q)) { StepRefines(k, OpWake(q)); }
  }

  lemma KeepsTick(k: Kernel)
    ensures Allowed(k, OpTick) ==> Inv(TickInterrupt(k))
  {
    hide Inv;
    if Allowed(k, OpTick) { StepRefines(k, OpTick); }
  }

  lemma KeepsSuspend(k: Kernel, t: Task)
    ensures Allowed(k, OpSuspend(t)) ==> Inv(Kernels.Suspend(k, t))
  {
    hide Inv;
    if Allowed(k, OpSuspend(t)) { StepRefines(k, OpSuspend(t)); }
  }

  lemma KeepsDelete(k: Kernel, t: Task)
    ensures Allowed(k, OpDelete(t)) ==> Inv(Kernels.Delete(k, t))
  {
    hide Inv;
    if Allowed(k, OpDelete(t)) { StepRefines(k, OpDelete(t)); }
  }

  lemma KeepsResumeFromISR(k: Kernel, t: Task)
    ensures Allowed(k, OpResumeFromISR(t)) ==> Inv(Kernels.ResumeFromISR(k, t))
  {
    hide Inv;
    if Allowed(k, OpResumeFromISR(t)) { StepRefines(k, OpResumeFromISR(t)); }
  }

  lemma DetachListed(s: Store, t: Task)
    requires Sound(s) && t in s.priority
    ensures var m := Detach(s, t);
            Ev(t) in m.container ==> Ev(t) in Items(m, m.container[Ev(t)])
  {
    ItemsListed(s, t);
    var d, m := Remove(s, Gen(t)), Detach(s, t);
    assert m.container == d.container && forall id :: Items(m, id) == Items(d, id);
  }

  /** Detaching an item does not look at item values. */
  lemma DetachValues(s: Store, t: Task, value: map<Item, nat>)
    ensures Detach(s.(value := value), t) == Detach(s, t).(value := value) && Detach(s, t).value == s.value
    ensures Detach(s, t).priority == s.priority
  {
    hide RemoveAt, IndexOf, ListOf;
    var m := s.(value := value);
    SameLists(s, m);
    SameLists(Remove(s, Gen(t)), Remove(s, Gen(t)).(value := value));
    assert Remove(m, Gen(t)) == Remove(s, Gen(t)).(value := value);
  }

  lemma SameLists(s: Store, m: Store)
    requires m.lists == s.lists
    ensures forall id {:trigger ListOf(m, id)} {:trigger ListOf(s, id)} :: ListOf(m, id) == ListOf(s, id)
  {
  }

  lemma LevelFound(s: Store, top: nat, p: nat)
    requires (exists q: nat :: q <= top && Items(s, Ready(q)) != []) && p <= top
    requires Items(s, Ready(p)) != [] && p >= TopLevel(s, top)
    ensures p == TopLevel(s, top)
  {
  }

  lemma ReplayUnfolded(k: Kernel)
    requires Core(k) && k.missed > 0
    ensures Core(ProcessTick(k).(missed := k.missed - 1))
    ensures Replay(k) == Replay(ProcessTick(k).(missed := k.missed - 1))
  {
    hide Core, ProcessTick;
    CachedAgrees(k);
    SameCore(ProcessTick(k), ProcessTick(k).(missed := k.missed - 1));
  }

  lemma ReplayDone(k: Kernel)
    requires Core(k) && k.missed == 0
    ensures Replay(k) == k
  {
  }

  lemma ReadyUnfolded(s: Store, t: Task)
    ensures MakeReady(s, t) == AddReady(Remove(Remove(s, Gen(t)), Ev(t)), t)
  {
  }

  ghost predicate AnyUrgent(s: Store, c: Task) {
    exists i :: i in Items(s, PendingReady) && Prio(s, i.task) >= Prio(s, c)
  }

  lemma UrgentAfterHead(s: Store, c: Task)
    requires Sound(s) && Items(s, PendingReady) != []
    ensures var t := Items(s, PendingReady)[0].task;
            && MakeReady(s, t).priority == s.priority
            && (AnyUrgent(s, c) <==> Prio(s, t) >= Prio(s, c) || AnyUrgent(MakeReady(s, t), c))
  {
    hide Sound, MakeReady;
    var t := Items(s, PendingReady)[0].task;
    PendingHead(s);
    MakeReadyFacts(s, t);
    var r := MakeReady(s, t);
    PendingSame(s, t);
    assert Items(s, PendingReady)[0] in Items(s, PendingReady);
  }

  lemma PendingSame(s: Store, t: Task)
    requires Sound(s) && t in s.priority && !Home(s, t).Ready? && In(s, Ev(t), PendingReady)
    ensures forall i :: i in Items(s, PendingReady) <==> i == Ev(t) || i in Items(MakeReady(s, t), PendingReady)
  {
    hide MakeReady, Placed, ReadyRecorded;
    TaskFacts(s, t);
    MakeReadyFacts(s, t);
    var r := MakeReady(s, t);
    assert forall i :: In(r, i, PendingReady) <==> In(s, i, PendingReady) && i != Ev(t);
    forall i ensures i in Items(s, PendingReady) <==> i == Ev(t) || i in Items(r, PendingReady) {
      assert i in Items(s, PendingReady) <==> In(s, i, PendingReady);
      assert i in Items(r, PendingReady) <==> In(r, i, PendingReady);
    }
  }

  lemma ItemsListed(s: Store, t: Task)
    requires Sound(s) && t in s.priority
    ensures Gen(t) in s.container && Gen(t) in Items(s, s.container[Gen(t)])
    ensures Ev(t) in s.container ==> Ev(t) in Items(s, s.container[Ev(t)])
    ensures var m := Remove(s, Gen(t));
            Ev(t) in m.container ==> Ev(t) in Items(m, m.container[Ev(t)])
  {
    TaskFacts(s, t);
    RemoveFacts(s, Gen(t));
    var m := Remove(s, Gen(t));
    if Ev(t) in s.container {
      assert In(s, Ev(t), s.container[Ev(t)]);
      assert In(m, Ev(t), m.container[Ev(t)]);
    }
  }

  lemma GenStillListed(s: Store, t: Task)
    requires Sound(s) && t in s.priority && Ev(t) in s.container
    ensures var m := Remove(s, Ev(t));
            Gen(t) in m.container && Gen(t) in Items(m, m.container[Gen(t)])
  {
    TaskFacts(s, t);
    RemoveFacts(s, Ev(t));
    assert In(Remove(s, Ev(t)), Gen(t), Home(s, t));
  }
}
