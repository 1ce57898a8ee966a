/** What vTaskPrioritySet and inheritance do to the order in which waiting tasks are woken. */
module KernelEventKeys {
  import opened XLists
  import opened Stores
  import opened ReadyLists
  import opened DelayLists
  import opened TaskMoves
  import opened Kernels
  import opened KernelSteps
  import opened KernelRuns
  import opened KernelMachine
  import opened KernelEventOrder
  import PI = PriorityInheritance

  /** The event item value for a priority: the lower, the more urgent. */
  function Key(k: Kernel, p: nat): nat { Max(k.levels, p) - p }

  /** Every event item value encodes the effective priority of its task. */
  ghost predicate Exact(k: Kernel) {
    forall t {:trigger Val(k.s, Ev(t))} :: t in k.s.priority ==> Val(k.s, Ev(t)) == Key(k, Prio(k.s, t))
  }

  /** vTaskPrioritySet gives a task that uses an inherited priority a base priority that differs from
      both the present one and the inherited one. */
  predicate Miskeys(k: Kernel, op: Op) {
    && op.OpSetPriority?
    && BaseOf(k, op.t) != Prio(k.s, op.t)
    && Capped(k, op.priority) != BaseOf(k, op.t) && Capped(k, op.priority) != Prio(k.s, op.t)
  }

  lemma ExactKept(k: Kernel, r: Kernel)
    requires Exact(k) && Calm(k.s, r.s) && r.levels == k.levels
    requires forall t :: t in r.s.priority ==> t in k.s.priority && Prio(r.s, t) == Prio(k.s, t)
    ensures Exact(r)
  {
  }

  /** When only the item and the priority of t change, exactness is a matter of t alone. */
  lemma ExactAfter(k: Kernel, r: Kernel, t: Task)
    requires Exact(k) && r.levels == k.levels && t in r.s.priority
    requires forall u {:trigger Val(r.s, Ev(u))} :: u != t ==> Val(r.s, Ev(u)) == Val(k.s, Ev(u))
    requires forall u :: u != t && u in r.s.priority ==> u in k.s.priority && Prio(r.s, u) == Prio(k.s, u)
    ensures Exact(r) <==> Val(r.s, Ev(t)) == Key(r, Prio(r.s, t))
  {
  }

  lemma KeysDiffer(k: Kernel, p: nat, q: nat)
    requires p < k.levels && q < k.levels
    ensures Key(k, p) == Key(k, q) <==> p == q
    ensures Key(k, p) <= Key(k, q) <==> p >= q
  {
  }

  lemma SetPriorityExactIff(k: Kernel, t: Task, p: nat)
    requires Inv(k) && k.levels > 0 && Exact(k) && t in k.s.priority
    ensures Exact(SetPriority(k, t, p)) <==> !Miskeys(k, OpSetPriority(t, p))
  {
    hide Core, Counters, Roles, Settled, SetPriority, Exact, Key;
    var r, q := SetPriority(k, t, p), Capped(k, p);
    SetPriorityStep(k, t, p);
    StepShape(k, OpSetPriority(t, p));
    if BaseOf(k, t) == q {
      Untouched(k, t, p);
    } else {
      SetPriorityWrites(k, t, p);
      ExactAfter(k, r, t);
      KeysDiffer(k, Prio(k.s, t), q);
      SameKeys(k, r);
    }
  }

  lemma SameKeys(k: Kernel, r: Kernel)
    requires r.levels == k.levels
    ensures forall p :: Key(r, p) == Key(k, p)
  {
  }

  lemma SetPriorityWrites(k: Kernel, t: Task, p: nat)
    requires BaseOf(k, t) != Capped(k, p)
    ensures var r := SetPriority(k, t, p);
            && Val(r.s, Ev(t)) == Key(k, Capped(k, p))
            && (forall u {:trigger Val(r.s, Ev(u))} :: u != t ==> Val(r.s, Ev(u)) == Val(k.s, Ev(u)))
            && Shrinks(k.s, r.s)
  {
    hide WithPriority, Shrinks;
    var q := Capped(k, p);
    if BaseOf(k, t) == Prio(k.s, t) {
      PriorityValues(k.(base := k.base[t := q]), t, q, q);
    } else {
      SamePlaces(k.s, SetPriority(k, t, p).s);
    }
  }

  lemma InheritExact(k: Kernel, t: Task)
    requires Inv(k) && Exact(k) && t in k.s.priority
    ensures Exact(Inherit(k, t))
  {
    hide Core, Counters, Roles, Settled, WithPriority, Exact;
    InheritStep(k, t);
    var p := Prio(k.s, k.current);
    if Prio(k.s, t) < p {
      PriorityValues(k, t, p, p);
      RekeyedLevels(k, t, p, p);
      ExactAfter(k, Inherit(k, t), t);
    }
  }

  lemma DisinheritExact(k: Kernel, t: Task)
    requires Inv(k) && Exact(k) && t in k.s.priority && Home(k.s, t).Ready?
    ensures Exact(Disinherit(k, t))
  {
    hide Core, Counters, Roles, Settled, WithPriority, Exact;
    DisinheritStep(k, t);
    var p := BaseOf(k, t);
    if Prio(k.s, t) != p {
      PriorityValues(k, t, p, p);
      RekeyedLevels(k, t, p, p);
      ExactAfter(k, Disinherit(k, t), t);
    }
  }

  lemma CreateExact(k: Kernel, t: Task, p: nat)
    requires Inv(k) && k.levels > 0 && Exact(k) && t !in k.s.priority
    ensures Exact(Create(k, t, p))
  {
    hide Core, Counters, Roles, Settled, AddReady, Exact, Tidy, Shrinks;
    CreateStep(k, t, p);
    var q, r := Capped(k, p), Create(k, t, p);
    var s := k.s.(value := k.s.value[Ev(t) := Max(k.levels, q) - q]);
    var m := s.(priority := s.priority[t := q]);
    TidiedAddReady(m, t);
    forall u ensures Val(r.s, Ev(u)) == Val(m, Ev(u)) {}
    assert forall u :: u != t ==> Val(m, Ev(u)) == Val(k.s, Ev(u));
    ExactAfter(k, r, t);
  }

  /** Every service keeps the event item values at the effective priorities, and vTaskPrioritySet does
      so exactly when the task uses no inherited priority, or its base priority does not change, or the
      new base priority is the inherited one. */
  lemma StepExactIff(k: Kernel, op: Op)
    requires Inv(k) && EventInv(k) && Exact(k) && Enabled(k, op)
    ensures Exact(Step(k, op)) <==> !Miskeys(k, op)
  {
    hide Core, Calm, Shrinks, Tidy, Counters, Settled, Roles, Exact, Keys;
    hide SetPriority, Inherit, Disinherit, Create, Reap, Wait, Retire, Miskeys;
    match op
    case OpSetPriority(t, p) => SetPriorityExactIff(k, t, p);
    case OpInherit(t) => InheritExact(k, t); NoMiskey(k, op);
    case OpDisinherit(t) => DisinheritExact(k, t); NoMiskey(k, op);
    case OpCreate(t, p) => CreateExact(k, t, p); NoMiskey(k, op);
    case _ => OthersExact(k, op); NoMiskey(k, op);
  }

  lemma NoMiskey(k: Kernel, op: Op)
    requires !op.OpSetPriority?
    ensures !Miskeys(k, op)
  {
  }

  lemma OthersExact(k: Kernel, op: Op)
    requires Inv(k) && EventInv(k) && Exact(k) && Enabled(k, op)
    requires !op.OpSetPriority? && !op.OpInherit? && !op.OpDisinherit? && !op.OpCreate?
    ensures Exact(Step(k, op))
  {
    hide Core, Calm, Shrinks, Tidy, Counters, Settled, Exact, Keys, Delete, Reap, Wait;
    StepShape(k, op);
    StepCalm(k, op);
    if op.OpDelete? {
      DeleteStep(k, op.t);
    } else if op.OpReap? {
      ReapStep(k);
    } else if op.OpWait? {
      PI.WaitShape(k, op.queue, op.ticks);
    } else {
      PI.QuietPriority(k, op);
    }
    ExactKept(k, Step(k, op));
  }

  lemma StepCalm(k: Kernel, op: Op)
    requires Inv(k) && EventInv(k) && Enabled(k, op)
    requires !op.OpSetPriority? && !op.OpInherit? && !op.OpDisinherit? && !op.OpCreate?
    ensures Calm(k.s, Step(k, op).s) && (!op.OpWait? ==> Shrinks(k.s, Step(k, op).s))
  {
    hide Core, Calm, Shrinks, Tidy, Counters, Settled, Retire, Reap, Wait;
    match op
    case OpDelete(t) => TidiedRetire(k.s, t, Termination);
    case OpReap => TidiedReap(k);
    case OpWait(q, n) => WaiterBound(k); CalmWait(k, q, n);
    case _ => QuietOrder(k, op);
  }

  lemma WaiterBound(k: Kernel)
    requires Inv(k) && EventInv(k)
    ensures Val(k.s, Ev(k.current)) < W - 1
  {
    hide Core, Tidy, Counters, Settled;
    assert k.current in k.s.priority && k.current in k.base;
  }

  // ----- Runs

  ghost predicate NeverMiskeys(k: Kernel, ops: seq<Op>)
    requires Inv(k) && k.levels > 0 && Possible(k, ops)
    decreases |ops|
  {
    ops == [] || (!Miskeys(k, ops[0]) && (StepRefines(k, ops[0]); NeverMiskeys(Step(k, ops[0]), ops[1..])))
  }

  /** Over every run in which no waiting task is rekeyed and no inheriting task is given another base
      priority, all event item values are exact, those of tasks that do not wait included. */
  lemma {:induction false} ExactOverRuns(k: Kernel, ops: seq<Op>)
    requires Inv(k) && EventInv(k) && Exact(k) && Possible(k, ops) && NeverRekeys(k, ops) && NeverMiskeys(k, ops)
    ensures Inv(Run(k, ops)) && EventInv(Run(k, ops)) && Exact(Run(k, ops))
    decreases |ops|
  {
    hide Inv, Step, Enabled, Rekeys, Miskeys, Tidy, Keys, Exact;
    if ops != [] {
      StepRefines(k, ops[0]);
      StepKeepsOrder(k, ops[0]);
      StepExactIff(k, ops[0]);
      ExactOverRuns(Step(k, ops[0]), ops[1..]);
    }
  }

  // ----- Only waiting tasks matter

  ghost predicate ExactOf(k: Kernel, t: Task) { Val(k.s, Ev(t)) == Key(k, Prio(k.s, t)) }

  /** The values on the event lists encode effective priorities. */
  ghost predicate ExactWaiters(k: Kernel) {
    forall t {:trigger OnEventList(k.s, t)} :: OnEventList(k.s, t) ==> ExactOf(k, t)
  }

  lemma ExactEverywhere(k: Kernel)
    requires Inv(k) && Exact(k)
    ensures ExactWaiters(k) && ExactOf(k, k.current)
  {
    hide Core, Counters, Priorities, Settled, Key;
    forall t | OnEventList(k.s, t) ensures ExactOf(k, t) { Alive(k, t); }
  }

  /** What a step must leave alone: those who wait afterwards waited before, or are the task that has
      just joined, with the same values and priorities. */
  lemma WaitersStayExact(k: Kernel, r: Kernel)
    requires ExactWaiters(k) && r.levels == k.levels
    requires forall t :: OnEventList(r.s, t) ==>
               && (OnEventList(k.s, t) || (t == k.current && ExactOf(k, t)))
               && Val(r.s, Ev(t)) == Val(k.s, Ev(t)) && Prio(r.s, t) == Prio(k.s, t)
    ensures ExactWaiters(r)
  {
  }

  /** Nobody joins an event list while the lists shrink. */
  lemma WaitedBefore(k: Kernel, r: Kernel, t: Task)
    requires Inv(k) && Inv(r) && Shrinks(k.s, r.s) && OnEventList(r.s, t)
    ensures OnEventList(k.s, t) && t in r.s.priority && t in k.s.priority
  {
    hide DelayInv, CacheInv, Placed, ReadyRecorded, Priorities, Counters, Settled, Precedes, NoDup;
    var q := r.s.container[Ev(t)].queue;
    assert In(r.s, Ev(t), Event(q));
    assert Ev(t) in Items(r.s, Event(q));
    assert Ev(t) in Items(k.s, Event(q));
    assert In(k.s, Ev(t), Event(q));
    Alive(k, t);
    Alive(r, t);
  }

  /** The services that change no live task's priority and start no wait. */
  lemma PlainWaiters(k: Kernel, op: Op)
    requires Inv(k) && EventInv(k) && ExactWaiters(k) && Enabled(k, op)
    requires !op.OpSetPriority? && !op.OpInherit? && !op.OpDisinherit? && !op.OpCreate? && !op.OpWait?
    ensures ExactWaiters(Step(k, op))
  {
    hide Core, Shrinks, Tidy, Counters, Settled, Keys, Key, ExactWaiters, Delete, Reap;
    var r := Step(k, op);
    StepRefines(k, op);
    StepShape(k, op);
    StepCalm(k, op);
    if op.OpDelete? {
      DeleteStep(k, op.t);
    } else if op.OpReap? {
      ReapStep(k);
    } else {
      PI.QuietPriority(k, op);
    }
    forall t | OnEventList(r.s, t)
      ensures OnEventList(k.s, t) && Val(r.s, Ev(t)) == Val(k.s, Ev(t)) && Prio(r.s, t) == Prio(k.s, t)
    {
      WaitedBefore(k, r, t);
    }
    WaitersStayExact(k, r);
  }

  /** The services that write one event item, of a task that does not wait. */
  lemma WritingWaiters(k: Kernel, r: Kernel, t: Task)
    requires Inv(k) && Inv(r) && ExactWaiters(k) && r.levels == k.levels && Shrinks(k.s, r.s) && !OnEventList(k.s, t)
    requires forall u {:trigger Val(r.s, Ev(u))} :: u != t ==> Val(r.s, Ev(u)) == Val(k.s, Ev(u))
    requires forall u :: u != t ==> Prio(r.s, u) == Prio(k.s, u)
    ensures ExactWaiters(r)
  {
    hide Inv, Shrinks, ExactWaiters;
    forall u | OnEventList(r.s, u)
      ensures OnEventList(k.s, u) && Val(r.s, Ev(u)) == Val(k.s, Ev(u)) && Prio(r.s, u) == Prio(k.s, u)
    {
      WaitedBefore(k, r, u);
    }
    WaitersStayExact(k, r);
  }

  lemma SetPriorityWaiters(k: Kernel, t: Task, p: nat)
    requires Inv(k) && k.levels > 0 && ExactWaiters(k) && t in k.s.priority && !Rekeys(k, OpSetPriority(t, p))
    ensures ExactWaiters(SetPriority(k, t, p))
  {
    hide Core, Counters, Roles, Settled, SetPriority, Shrinks, ExactWaiters;
    if BaseOf(k, t) == Capped(k, p) {
      Untouched(k, t, p);
    } else {
      SetPriorityStep(k, t, p);
      StepShape(k, OpSetPriority(t, p));
      SetPriorityWrites(k, t, p);
      WritingWaiters(k, SetPriority(k, t, p), t);
    }
  }

  lemma InheritWaiters(k: Kernel, t: Task)
    requires Inv(k) && ExactWaiters(k) && t in k.s.priority && !Rekeys(k, OpInherit(t))
    ensures ExactWaiters(Inherit(k, t))
  {
    hide Core, Counters, Roles, Settled, WithPriority, Shrinks, ExactWaiters;
    var p := Prio(k.s, k.current);
    if Prio(k.s, t) < p {
      InheritStep(k, t);
      PriorityValues(k, t, p, p);
      RekeyedLevels(k, t, p, p);
      WritingWaiters(k, Inherit(k, t), t);
    }
  }

  lemma DisinheritWaiters(k: Kernel, t: Task)
    requires Inv(k) && ExactWaiters(k) && t in k.s.priority && Home(k.s, t).Ready?
    ensures ExactWaiters(Disinherit(k, t))
  {
    hide Core, Counters, Roles, Settled, WithPriority, Shrinks, ExactWaiters;
    var p := BaseOf(k, t);
    if Prio(k.s, t) != p {
      CoreSound(k);
      PI.RunningTask(k.s, t);
      DisinheritStep(k, t);
      PriorityValues(k, t, p, p);
      RekeyedLevels(k, t, p, p);
      WritingWaiters(k, Disinherit(k, t), t);
    }
  }

  lemma CreateWaiters(k: Kernel, t: Task, p: nat)
    requires Inv(k) && k.levels > 0 && ExactWaiters(k) && t !in k.s.priority
    ensures ExactWaiters(Create(k, t, p))
  {
    hide Core, Counters, Roles, Settled, AddReady, Tidy, Shrinks, ExactWaiters;
    CreateStep(k, t, p);
    CoreSound(k);
    NewcomerListless(k.s, t);
    var q, r := Capped(k, p), Create(k, t, p);
    var s := k.s.(value := k.s.value[Ev(t) := Max(k.levels, q) - q]);
    var m := s.(priority := s.priority[t := q]);
    TidiedAddReady(m, t);
    SamePlaces(k.s, m);
    ShrinksTrans(k.s, m, r.s);
    forall u ensures Val(r.s, Ev(u)) == Val(m, Ev(u)) {}
    assert forall u :: u != t ==> Val(m, Ev(u)) == Val(k.s, Ev(u));
    WritingWaiters(k, r, t);
  }

  lemma WaitWaiters(k: Kernel, q: nat, ticks: nat)
    requires Inv(k) && EventInv(k) && ExactWaiters(k) && ExactOf(k, k.current) && Enabled(k, OpWait(q, ticks))
    ensures ExactWaiters(Step(k, OpWait(q, ticks)))
  {
    hide Core, Tidy, Counters, Settled, Keys, Key, ExactWaiters, Wait;
    var r := Step(k, OpWait(q, ticks));
    StepShape(k, OpWait(q, ticks));
    StepCalm(k, OpWait(q, ticks));
    PI.WaitShape(k, q, ticks);
    WaitersStayExact(k, r);
  }

  /** Every service that rewrites no waiting item keeps the waiting values exact, provided a task that
      starts to wait has an exact value itself. */
  lemma StepKeepsWaitersExact(k: Kernel, op: Op)
    requires Inv(k) && EventInv(k) && ExactWaiters(k) && Enabled(k, op) && !Rekeys(k, op)
    requires op.OpWait? ==> ExactOf(k, k.current)
    ensures ExactWaiters(Step(k, op))
  {
    hide Inv, Tidy, Keys, ExactWaiters, ExactOf, Rekeys, SetPriority, Inherit, Disinherit, Create, Wait;
    match op
    case OpSetPriority(t, p) => SetPriorityWaiters(k, t, p);
    case OpInherit(t) => InheritWaiters(k, t);
    case OpDisinherit(t) => DisinheritWaiters(k, t);
    case OpCreate(t, p) => CreateWaiters(k, t, p);
    case OpWait(q, n) => WaitWaiters(k, q, n);
    case _ => PlainWaiters(k, op);
  }

  /** Whoever starts to wait has an event item value that encodes its effective priority. */
  ghost predicate ExactJoins(k: Kernel, ops: seq<Op>)
    requires Inv(k) && k.levels > 0 && Possible(k, ops)
    decreases |ops|
  {
    ops == [] ||
    ((ops[0].OpWait? ==> ExactOf(k, k.current)) && (StepRefines(k, ops[0]); ExactJoins(Step(k, ops[0]), ops[1..])))
  }

  /** Over every run in which no waiting task is rekeyed and every task that starts to wait has an exact
      value, every event list is in the order of its tasks' effective priorities. */
  lemma {:induction false} UrgencyOverRuns(k: Kernel, ops: seq<Op>)
    requires Inv(k) && EventInv(k) && ExactWaiters(k) && Possible(k, ops)
    requires NeverRekeys(k, ops) && ExactJoins(k, ops)
    ensures Inv(Run(k, ops)) && EventInv(Run(k, ops)) && ExactWaiters(Run(k, ops))
    decreases |ops|
  {
    hide Inv, Step, Enabled, Rekeys, Tidy, Keys, ExactWaiters, ExactOf;
    if ops != [] {
      StepRefines(k, ops[0]);
      StepKeepsOrder(k, ops[0]);
      StepKeepsWaitersExact(k, ops[0]);
      UrgencyOverRuns(Step(k, ops[0]), ops[1..]);
    }
  }

  /** xTaskRemoveFromEventList wakes a task that no other waiter on the list outranks, boosted mutex
      holders included. */
  lemma MostUrgentIsWoken(k: Kernel, q: nat, v: Task)
    requires Inv(k) && EventInv(k) && ExactWaiters(k) && In(k.s, Ev(v), Event(q))
    ensures Items(k.s, Event(q)) != []
    ensures var h := Items(k.s, Event(q))[0].task;
            h in k.s.priority && Prio(k.s, h) >= Prio(k.s, v)
  {
    hide DelayInv, CacheInv, Placed, ReadyRecorded, Counters, Settled, ListSorted, Key;
    assert Ev(v) in Items(k.s, Event(q));
    OnlyEvents(k.s, q);
    CoreSound(k);
    EventHead(k.s, q);
    HeadIsLeast(k.s, Event(q));
    var h := Items(k.s, Event(q))[0].task;
    Alive(k, v);
    assert Val(k.s, Ev(h)) <= Val(k.s, Ev(v));
    assert OnEventList(k.s, h) && OnEventList(k.s, v);
    KeysDiffer(k, Prio(k.s, h), Prio(k.s, v));
  }

  /** The kernel starts with exact values. */
  lemma StartsExact(levels: nat, idle: Task)
    requires levels > 0
    ensures Exact(Initial(levels, idle))
  {
    hide AddReady, Shrinks, Tidy;
    var e := Store(map[], map[], map[Ev(idle) := levels], map[], 0, {});
    var m := e.(priority := e.priority[idle := 0]);
    TidiedAddReady(m, idle);
    assert Val(AddReady(m, idle), Ev(idle)) == Val(m, Ev(idle));
    AddReadyPriority(m, idle);
  }

  lemma AddReadyPriority(s: Store, t: Task)
    ensures AddReady(s, t).priority == s.priority
  {
  }
}
