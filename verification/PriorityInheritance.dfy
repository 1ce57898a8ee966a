/** Mutexes with priority inheritance on top of the kernel, without nested mutexes and without
    vTaskPrioritySet. */
module PriorityInheritance {
  import opened XLists
  import opened Stores
  import opened ReadyLists
  import opened DelayLists
  import opened TaskMoves
  import opened Kernels
  import opened KernelSteps
  import opened KernelRuns
  import opened KernelMachine

  // ----- What the other kernel services leave alone

  /** No effective priority changes, nobody joins an event list and nobody is deleted. */
  ghost predicate Quiet(s: Store, r: Store) {
    && r.priority == s.priority
    && (forall t, q {:trigger In(r, Ev(t), Event(q))} :: In(r, Ev(t), Event(q)) ==> In(s, Ev(t), Event(q)))
    && (forall t {:trigger Home(r, t)} :: t in s.priority && Home(r, t) == Termination ==> Home(s, t) == Termination)
  }

  lemma QuietReady(s: Store, t: Task)
    requires Sound(s) && t in s.priority && Parked(Home(s, t))
    ensures Quiet(s, MakeReady(s, t)) && Sound(MakeReady(s, t))
  {
    hide Sound, MakeReady;
    MakeReadyFacts(s, t);
  }

  lemma QuietPend(s: Store, t: Task)
    requires Sound(s) && t in s.priority && Parked(Home(s, t)) && !In(s, Ev(t), PendingReady)
    ensures Quiet(s, Pend(s, t))
  {
    hide Sound, Pend;
    PendFacts(s, t);
  }

  lemma {:induction false} QuietDrainPending(s: Store)
    requires Sound(s)
    ensures Quiet(s, DrainPending(s))
    decreases |Items(s, PendingReady)|
  {
    hide Sound, MakeReady, Quiet;
    if Items(s, PendingReady) == [] {
      QuietSame(s);
    } else {
      PendingHead(s);
      var t := Items(s, PendingReady)[0].task;
      QuietReady(s, t);
      QuietDrainPending(MakeReady(s, t));
      QuietTrans(s, MakeReady(s, t), DrainPending(MakeReady(s, t)));
    }
  }

  lemma QuietSame(s: Store)
    ensures Quiet(s, s)
  {
  }

  lemma QuietTrans(a: Store, b: Store, c: Store)
    requires Quiet(a, b) && Quiet(b, c)
    ensures Quiet(a, c)
  {
  }

  lemma QuietTick(k: Kernel)
    requires Core(k)
    ensures Quiet(k.s, ProcessTick(k).s)
  {
    hide Sound, DelayInv, CacheInv, ProcessTick, Tick;
    CachedAgrees(k);
    TickRefines(k.s, k.w);
  }

  lemma {:induction false} QuietReplay(k: Kernel)
    requires Core(k)
    ensures Quiet(k.s, Replay(k).s)
    decreases k.missed
  {
    hide Core, ProcessTick, Quiet;
    if k.missed == 0 {
      QuietSame(k.s);
    } else {
      CachedAgrees(k);
      QuietTick(k);
      var m := ProcessTick(k).(missed := k.missed - 1);
      SameCore(ProcessTick(k), m);
      QuietReplay(m);
      QuietTrans(k.s, m.s, Replay(m).s);
    }
  }

  lemma QuietResumeAll(k: Kernel)
    requires Inv(k) && k.suspended > 0
    ensures Quiet(k.s, ResumeAll(k).s)
  {
    hide Core, Quiet, Replay, DrainPending;
    var c := k.(suspended := k.suspended - 1);
    SameCore(k, c);
    CoreSound(c);
    QuietSame(k.s);
    if c.suspended == 0 {
      DrainPendingStep(c);
      QuietDrainPending(c.s);
      var d := c.(s := DrainPending(c.s));
      QuietReplay(d);
      QuietTrans(k.s, d.s, Replay(d).s);
    }
  }

  lemma QuietRetire(s: Store, t: Task)
    requires Sound(s) && t in s.priority
    ensures Quiet(s, Retire(s, t, Suspended))
  {
    hide Sound, Retire;
    RetireFacts(s, t, Suspended);
  }

  lemma QuietBlock(k: Kernel, wake: nat)
    requires Inv(k) && Home(k.s, k.current).Ready? && wake < W && wake != k.w.tick
    ensures Quiet(k.s, BlockCurrent(k, wake).s)
  {
    hide Sound, DelayInv, CacheInv, SoundWithout, DetachRunning, Arm, Abs, Priorities, Counters, Settled;
    WheelFacts(k.s, k.w);
    DetachedRunning(k);
    ArmFacts(DetachRunning(k.s, k.current), k.w, k.current, wake);
  }

  /** The services a task or interrupt may use besides the mutexes. */
  predicate Plain(op: Op, mutexes: set<nat>) {
    match op
    case OpSetPriority(_, _) => false
    case OpInherit(_) => false
    case OpDisinherit(_) => false
    case OpWait(q, _) => q !in mutexes
    case OpWake(q) => q !in mutexes
    case _ => true
  }

  lemma QuietDelays(k: Kernel, op: Op)
    requires Inv(k) && k.levels > 0 && Enabled(k, op) && (op.OpDelay? || op.OpDelayUntil?)
    ensures Quiet(k.s, Step(k, op).s) && Step(k, op).base == k.base
  {
    hide Inv, Quiet, BlockCurrent, ShouldDelay;
    QuietSame(k.s);
    TickRange(k);
    match op
    case OpDelay(n) =>
      WakeTime(k.w, n);
      QuietBlock(k, (k.w.tick + n) % W);
      BlockShape(k, (k.w.tick + n) % W);
    case OpDelayUntil(previous, increment) =>
      UntilWake(k.w.tick, previous, increment);
      var wake := (previous + increment) % W;
      if ShouldDelay(k.w.tick, previous, wake) { QuietBlock(k, wake); BlockShape(k, wake); }
  }

  /** The plain services that neither create, delete nor start a wait are quiet. */
  lemma QuietStep(k: Kernel, op: Op)
    requires Inv(k) && k.levels > 0 && Enabled(k, op) && Plain(op, {})
    requires !op.OpCreate? && !op.OpDelete? && !op.OpReap? && !op.OpWait?
    ensures Quiet(k.s, Step(k, op).s) && Step(k, op).base == k.base
  {
    hide Sound, DelayInv, CacheInv, Quiet, BlockCurrent, MakeReady, Pend, Retire, Replay, DrainPending, ProcessTick;
    hide TopLevel;
    QuietSame(k.s);
    match op
    case OpSuspend(t) => QuietRetire(k.s, t);
    case OpResume(t) => if IsSuspended(k, t) { QuietReady(k.s, t); }
    case OpResumeFromISR(t) =>
      if IsSuspended(k, t) { if k.suspended == 0 { QuietReady(k.s, t); } else { QuietPend(k.s, t); } }
    case OpSuspendAll =>
    case OpResumeAll => QuietResumeAll(k); ResumeKeepsBase(k);
    case OpTick =>
      var c := k.(interrupts := k.interrupts + 1);
      SameCore(k, c);
      if k.suspended == 0 { QuietTick(c); TickShape(c); }
    case OpSwitch => QuietSwitch(k);
    case OpDelay(_) => QuietDelays(k, op);
    case OpDelayUntil(_, _) => QuietDelays(k, op);
    case OpWake(q) =>
      EventHead(k.s, q);
      if k.suspended == 0 { QuietReady(k.s, Items(k.s, Event(q))[0].task); }
      else { QuietPend(k.s, Items(k.s, Event(q))[0].task); }
  }

  lemma ResumeKeepsBase(k: Kernel)
    requires Inv(k) && k.suspended > 0
    ensures ResumeAll(k).base == k.base
  {
    hide Core, Replay, DrainPending;
    var c := k.(suspended := k.suspended - 1);
    SameCore(k, c);
    CoreSound(c);
    if c.suspended == 0 {
      DrainPendingStep(c);
      ReplayStep(c.(s := DrainPending(c.s)));
    }
  }

  lemma QuietSwitch(k: Kernel)
    requires Inv(k)
    ensures SomeReady(k.s) && Quiet(k.s, Switch(k).s) && Switch(k).base == k.base
  {
    hide Core, TopLevel;
    IdleIsReady(k);
  }

  // ----- The mutexes

  /** `holder` is pxMutexHolder of each held mutex; the waiters of mutex m are on event list m.
      `blocked` and `donation` are history variables: the tasks that blocked on a mutex since its
      present holder took it, and the highest priority with which one of them did. */
  datatype System = System(k: Kernel, mutexes: set<nat>, holder: map<nat, Task>,
                           blocked: map<nat, set<Task>>, donation: map<nat, nat>)

  /** The history variables of mutex m after task t has blocked on it. */
  function Recorded(y: System, m: nat, t: Task): (r: System) {
    y.(blocked := y.blocked[m := (if m in y.blocked then y.blocked[m] else {}) + {t}],
       donation := y.donation[m := Max(if m in y.donation then y.donation[m] else 0, Prio(y.k.s, t))])
  }

  datatype Action =
    | Kernel(op: Op)
    | Take(m: nat)
    | BlockOn(m: nat, ticks: nat)
    | Give(m: nat)

  predicate Holds(y: System, t: Task) { exists m :: m in y.holder && y.holder[m] == t }

  predicate Allowed(y: System, a: Action) {
    match a
    case Kernel(op) =>
      && Enabled(y.k, op) && Plain(op, y.mutexes)
      && (op.OpDelete? ==> !Holds(y, op.t))
    case Take(m) => m in y.mutexes && m !in y.holder && Home(y.k.s, y.k.current).Ready? && !Holds(y, y.k.current)
    case BlockOn(m, ticks) =>
      m in y.mutexes && m in y.holder && BlockingCall(y.k) && 0 < ticks < W && !Holds(y, y.k.current)
    case Give(m) => m in y.holder && y.holder[m] == y.k.current && Home(y.k.s, y.k.current).Ready?
  }

  /** Blocking inherits and then joins the event list, both with the scheduler suspended; giving
      disinherits, clears the holder and wakes the first waiter. */
  function Act(y: System, a: Action): (r: System)
    requires Inv(y.k) && y.k.levels > 0 && Allowed(y, a)
  {
    match a
    case Kernel(op) => y.(k := Step(y.k, op))
    case Take(m) =>
      y.(holder := y.holder[m := y.k.current], blocked := y.blocked[m := {}], donation := y.donation[m := 0])
    case BlockOn(m, ticks) => Recorded(y, m, y.k.current).(k := Wait(Inherit(y.k, y.holder[m]), m, ticks))
    case Give(m) =>
      var d := Disinherit(y.k, y.k.current);
      y.(k := if Items(d.s, Event(m)) == [] then d else Wake(d, m), holder := y.holder - {m})
  }

  /** A mutex holder is alive and runs at no less than its base priority, everybody else exactly at
      it, and nobody on a mutex's event list holds a mutex. */
  ghost predicate Donated(y: System) {
    && (forall m :: m in y.holder ==>
          && m in y.mutexes && m in y.blocked && m in y.donation
          && y.holder[m] in y.k.s.priority && Home(y.k.s, y.holder[m]) != Termination)
    && (forall m, n :: m in y.holder && n in y.holder && m != n ==> y.holder[m] != y.holder[n])
    && (forall t :: t in y.k.s.priority && t in y.k.base ==> Prio(y.k.s, t) >= y.k.base[t])
    && (forall t :: t in y.k.s.priority && t in y.k.base && !Holds(y, t) ==> Prio(y.k.s, t) == y.k.base[t])
    && (forall t, m :: m in y.mutexes && In(y.k.s, Ev(t), Event(m)) ==> !Holds(y, t))
  }

  /** From the moment a task blocks on a held mutex until the holder gives it back, the holder's
      effective priority is at least the one with which the task blocked, whether or not it is still
      waiting; while it waits, it is at least the task's own. */
  ghost predicate Boosted(y: System) {
    && (forall m :: m in y.holder && m in y.donation ==> Prio(y.k.s, y.holder[m]) >= y.donation[m])
    && (forall m, t {:trigger In(y.k.s, Ev(t), Event(m))} ::
          m in y.holder && m in y.blocked && t in y.blocked[m] && In(y.k.s, Ev(t), Event(m)) ==>
            Prio(y.k.s, y.holder[m]) >= Prio(y.k.s, t))
  }

  ghost predicate SysInv(y: System) {
    Inv(y.k) && y.k.levels > 0 && Donated(y) && Boosted(y)
  }

  /** Quiet as far as the mutexes are concerned. */
  ghost predicate MutexQuiet(y: System, r: Store) {
    && r.priority == y.k.s.priority
    && (forall t, m {:trigger In(r, Ev(t), Event(m))} ::
          m in y.mutexes && In(r, Ev(t), Event(m)) ==> In(y.k.s, Ev(t), Event(m)))
    && (forall t {:trigger Home(r, t)} ::
          t in y.k.s.priority && Home(r, t) == Termination ==> Home(y.k.s, t) == Termination)
  }

  lemma QuietKeeps(y: System, r: Kernel)
    requires SysInv(y) && Inv(r) && MutexQuiet(y, r.s) && r.base == y.k.base && r.levels == y.k.levels
    ensures SysInv(y.(k := r))
  {
    hide Core, Priorities, Counters, Roles, Settled, Holds;
    var z := y.(k := r);
    forall t ensures Holds(z, t) == Holds(y, t) { SameHolders(y, z, t); }
  }

  /** All tasks but one, which holds no mutex, keep their priorities, lists and lives. */
  ghost predicate OneChanged(y: System, r: Kernel, x: Task) {
    && (forall t :: t != x ==> (t in r.s.priority <==> t in y.k.s.priority))
    && (forall t :: t != x ==> Prio(r.s, t) == Prio(y.k.s, t) && BaseOf(r, t) == BaseOf(y.k, t))
    && (forall t :: t != x && t in y.k.s.priority && Home(r.s, t) == Termination ==> Home(y.k.s, t) == Termination)
    && (forall t, m {:trigger In(r.s, Ev(t), Event(m))} ::
          m in y.mutexes && In(r.s, Ev(t), Event(m)) ==>
            In(y.k.s, Ev(t), Event(m)) && Prio(r.s, t) == Prio(y.k.s, t))
    && (x in r.s.priority ==> Prio(r.s, x) == BaseOf(r, x))
  }

  lemma OneChangedKeeps(y: System, r: Kernel, x: Task)
    requires SysInv(y) && Inv(r) && r.levels == y.k.levels && !Holds(y, x) && OneChanged(y, r, x)
    ensures SysInv(y.(k := r))
  {
    hide Core, Counters, Roles, Settled, Donated, Boosted, OneChanged;
    assert r.base.Keys == r.s.priority.Keys && y.k.base.Keys == y.k.s.priority.Keys;
    OneChangedDonated(y, r, x);
    OneChangedBoosted(y, r, x);
  }

  lemma OneChangedDonated(y: System, r: Kernel, x: Task)
    requires Donated(y) && !Holds(y, x) && OneChanged(y, r, x)
    requires r.base.Keys == r.s.priority.Keys && y.k.base.Keys == y.k.s.priority.Keys
    ensures Donated(y.(k := r))
  {
    hide Holds;
    var z := y.(k := r);
    forall u ensures Holds(z, u) == Holds(y, u) { SameHolders(y, z, u); }
    forall m | m in y.holder ensures y.holder[m] != x { HolderHolds(y, m); }
  }

  lemma OneChangedBoosted(y: System, r: Kernel, x: Task)
    requires Donated(y) && Boosted(y) && !Holds(y, x) && OneChanged(y, r, x)
    ensures Boosted(y.(k := r))
  {
    assert forall m :: m in y.holder ==> Holds(y, y.holder[m]) && y.holder[m] != x;
  }

  lemma CreateKeeps(y: System, t: Task, p: nat)
    requires SysInv(y) && t !in y.k.s.priority
    ensures SysInv(y.(k := Create(y.k, t, p)))
  {
    hide Core, Priorities, Counters, Roles, Settled, Create, Donated, Boosted, Holds, OneChanged;
    CreateStep(y.k, t, p);
    CoreSound(y.k);
    StepShape(y.k, OpCreate(t, p));
    CreateChanges(y, t, p);
    NewcomerHoldsNothing(y, t);
    OneChangedKeeps(y, Create(y.k, t, p), t);
  }

  lemma CreateChanges(y: System, t: Task, p: nat)
    requires Sound(y.k.s) && t !in y.k.s.priority
    ensures OneChanged(y, Create(y.k, t, p), t)
  {
    hide Sound, Birth, Holds;
    var q := Capped(y.k, p);
    var m := y.k.s.(value := y.k.s.value[Ev(t) := Max(y.k.levels, q) - q]);
    ValuesAside(y.k.s, m.value);
    BirthFacts(m, t, q);
    NewcomerListless(y.k.s, t);
  }

  lemma NewcomerHoldsNothing(y: System, t: Task)
    requires Donated(y) && t !in y.k.s.priority
    ensures !Holds(y, t)
  {
  }

  lemma BaseKept(y: System, t: Task)
    requires SysInv(y) && t in y.k.s.priority && !Holds(y, t)
    ensures Prio(y.k.s, t) == BaseOf(y.k, t)
  {
  }

  lemma DeleteKeeps(y: System, t: Task)
    requires SysInv(y) && Enabled(y.k, OpDelete(t)) && !Holds(y, t)
    ensures SysInv(y.(k := Delete(y.k, t)))
  {
    hide Core, Priorities, Counters, Roles, Settled, Retire, Donated, Boosted, Holds, OneChanged;
    DeleteStep(y.k, t);
    CoreSound(y.k);
    BaseKept(y, t);
    DeleteChanges(y, t);
    OneChangedKeeps(y, Delete(y.k, t), t);
  }

  lemma DeleteChanges(y: System, t: Task)
    requires Sound(y.k.s) && Enabled(y.k, OpDelete(t)) && Prio(y.k.s, t) == BaseOf(y.k, t)
    ensures OneChanged(y, Delete(y.k, t), t)
  {
    hide Sound, Retire, Holds;
    RetireFacts(y.k.s, t, Termination);
  }

  lemma ReapKeeps(y: System)
    requires SysInv(y) && Enabled(y.k, OpReap)
    ensures SysInv(y.(k := Reap(y.k)))
  {
    hide Core, Priorities, Counters, Roles, Settled, Bury, Donated, Boosted, Holds;
    ReapStep(y.k);
    CoreSound(y.k);
    TerminatedHead(y.k.s);
    var t := Items(y.k.s, Termination)[0].task;
    BuryFacts(y.k.s, t);
    TaskFacts(y.k.s, t);
    DeadHoldsNothing(y, t);
    OneChangedKeeps(y, Reap(y.k), t);
  }

  lemma DeadHoldsNothing(y: System, t: Task)
    requires Donated(y) && Home(y.k.s, t) == Termination
    ensures !Holds(y, t)
  {
  }

  lemma WaitKeeps(y: System, q: nat, ticks: nat)
    requires SysInv(y) && Enabled(y.k, OpWait(q, ticks)) && q !in y.mutexes
    ensures SysInv(y.(k := Wait(y.k, q, ticks)))
  {
    hide Core, Priorities, Counters, Roles, Settled, Wait, Donated, Boosted;
    KernelRuns.WaitStep(y.k, q, ticks);
    WaitJoins(y.k, q, ticks);
    QuietKeeps(y, Wait(y.k, q, ticks));
  }

  /** The items of the running task after it started a wait. */
  lemma WaitShape(k: Kernel, q: nat, ticks: nat)
    requires Inv(k) && BlockingCall(k) && 0 < ticks < W
    ensures var r := Wait(k, q, ticks);
            && r.s.priority == k.s.priority && r.base == k.base && r.levels == k.levels
            && (r.s.container == k.s.container[Gen(k.current) := Suspended][Ev(k.current) := Event(q)]
                || r.s.container == k.s.container[Gen(k.current) := k.w.current][Ev(k.current) := Event(q)]
                || r.s.container == k.s.container[Gen(k.current) := k.w.overflow][Ev(k.current) := Event(q)])
  {
    hide Core, Priorities, Counters, Roles, Settled, DetachRunning, BlockCurrent, Insert, Append;
    var t := k.current;
    if ticks == W - 1 {
      DetachedContainer(k);
      var d := DetachRunning(k.s, t);
      Reparked(k.s.container, d.container, t, Suspended);
      AppendShape(d, Suspended, Gen(t));
      InsertShape(Append(d, Suspended, Gen(t)), Event(q), Ev(t));
    } else {
      DelayShape(k, ticks);
      InsertShape(Delay(k, ticks).s, Event(q), Ev(t));
    }
  }

  lemma DetachedContainer(k: Kernel)
    requires Inv(k) && BlockingCall(k)
    ensures var d := DetachRunning(k.s, k.current);
            d.container == k.s.container - {Gen(k.current)} && d.priority == k.s.priority
  {
    hide Core, Counters, DetachRunning, SoundWithout;
    DetachedRunning(k);
  }

  lemma DelayShape(k: Kernel, ticks: nat)
    requires Inv(k) && BlockingCall(k) && 0 < ticks < W
    ensures var r := Delay(k, ticks);
            && r.s.priority == k.s.priority && r.base == k.base && r.levels == k.levels
            && (r.s.container == k.s.container[Gen(k.current) := k.w.current]
                || r.s.container == k.s.container[Gen(k.current) := k.w.overflow])
  {
    hide Sound, DelayInv, CacheInv, SoundWithout, DetachRunning, Arm, Abs, Priorities, Counters, Settled;
    var t := k.current;
    WheelFacts(k.s, k.w);
    WakeTime(k.w, ticks);
    CurrentAlive(k);
    DetachedRunning(k);
    var d, wake := DetachRunning(k.s, t), (k.w.tick + ticks) % W;
    ArmFacts(d, k.w, t, wake);
    Reparked(k.s.container, d.container, t, if wake < k.w.tick then k.w.overflow else k.w.current);
  }

  lemma Reparked(before: map<Item, ListId>, after: map<Item, ListId>, t: Task, id: ListId)
    requires after == before - {Gen(t)}
    ensures after[Gen(t) := id] == before[Gen(t) := id]
  {
  }

  /** Starting a wait puts exactly the running task on exactly that event list. */
  lemma WaitJoins(k: Kernel, q: nat, ticks: nat)
    requires Inv(k) && BlockingCall(k) && 0 < ticks < W
    ensures var r := Wait(k, q, ticks);
            && r.s.priority == k.s.priority && r.base == k.base && r.levels == k.levels
            && (forall t, e {:trigger In(r.s, Ev(t), Event(e))} ::
                  In(r.s, Ev(t), Event(e)) ==> In(k.s, Ev(t), Event(e)) || (t == k.current && e == q))
            && (forall t :: t in k.s.priority && Home(r.s, t) == Termination ==> Home(k.s, t) == Termination)
  {
    hide Sound, DelayInv, CacheInv, Wait, Priorities, Counters, Roles, Settled;
    WheelFacts(k.s, k.w);
    WaitShape(k, q, ticks);
  }

  lemma InsertShape(s: Store, id: ListId, i: Item)
    ensures Insert(s, id, i).container == s.container[i := id] && Insert(s, id, i).priority == s.priority
  {
  }

  lemma TakeKeeps(y: System, m: nat)
    requires SysInv(y) && Allowed(y, Take(m))
    ensures SysInv(Act(y, Take(m)))
  {
    hide Core, Counters, Roles, Settled, Donated, Boosted;
    CoreSound(y.k);
    CurrentAlive(y.k);
    RunningTask(y.k.s, y.k.current);
    TakenDonated(y, m);
    TakenBoosted(y, m);
  }

  lemma TakenBoosted(y: System, m: nat)
    requires Inv(y.k) && y.k.levels > 0 && Boosted(y) && Allowed(y, Take(m))
    ensures Boosted(Act(y, Take(m)))
  {
    hide Inv;
  }

  lemma TakenDonated(y: System, m: nat)
    requires Inv(y.k) && y.k.levels > 0 && Donated(y) && Allowed(y, Take(m))
    requires y.k.current in y.k.s.priority && Ev(y.k.current) !in y.k.s.container
    ensures Donated(Act(y, Take(m)))
  {
    hide Inv, Holds;
    var r, c := Act(y, Take(m)), y.k.current;
    forall t ensures Holds(r, t) <==> Holds(y, t) || t == c { HoldersMore(y, r, m, t); }
    forall n | n in y.holder ensures y.holder[n] != c { HolderHolds(y, n); }
  }

  lemma HoldersMore(y: System, r: System, m: nat, t: Task)
    requires m !in y.holder && m in r.holder && r.holder == y.holder[m := r.holder[m]]
    ensures Holds(r, t) <==> Holds(y, t) || t == r.holder[m]
  {
    if Holds(y, t) { var n :| n in y.holder && y.holder[n] == t; assert r.holder[n] == t; }
  }

  lemma CurrentAlive(k: Kernel)
    requires Inv(k)
    ensures k.current in k.s.priority
  {
  }

  lemma RunningTask(s: Store, t: Task)
    requires Sound(s) && t in s.priority && Home(s, t).Ready?
    ensures Ev(t) !in s.container
  {
    hide Sound;
    TaskFacts(s, t);
  }

  lemma BlockKeeps(y: System, m: nat, ticks: nat)
    requires m in y.holder && SysInv(y) && Allowed(y, BlockOn(m, ticks))
    ensures SysInv(Act(y, BlockOn(m, ticks)))
    ensures var r, h := Act(y, BlockOn(m, ticks)), y.holder[m];
            Prio(r.k.s, h) >= Prio(r.k.s, y.k.current) && In(r.k.s, Ev(y.k.current), Event(m))
  {
    hide Core, Counters, Roles, Settled, Inherit, Wait;
    var h, c := y.holder[m], y.k.current;
    assert Holds(y, h) && h != c;
    CurrentAlive(y.k);
    InheritStep(y.k, h);
    var i := Inherit(y.k, h);
    InheritKeepsHomes(y.k, h);
    KernelRuns.WaitStep(i, m, ticks);
    WaitJoins(i, m, ticks);
    BlockedBoosted(y, Wait(i, m, ticks), m);
  }

  /** Raising the holder to the new waiter and listing the waiter keeps everybody boosted. */
  lemma BlockedBoosted(y: System, w: Kernel, m: nat)
    requires SysInv(y) && m in y.holder && m in y.mutexes && !Holds(y, y.k.current) && y.k.current in y.k.s.priority
    requires Inv(w) && w.levels == y.k.levels && w.base == y.k.base
    requires var h := y.holder[m];
             w.s.priority == y.k.s.priority[h := Max(Prio(y.k.s, h), Prio(y.k.s, y.k.current))]
    requires forall t, e {:trigger In(w.s, Ev(t), Event(e))} ::
               In(w.s, Ev(t), Event(e)) ==> In(y.k.s, Ev(t), Event(e)) || (t == y.k.current && e == m)
    requires forall t :: t in y.k.s.priority && Home(w.s, t) == Termination ==> Home(y.k.s, t) == Termination
    ensures SysInv(Recorded(y, m, y.k.current).(k := w))
  {
    hide Core, Counters, Roles, Settled, Donated, Boosted;
    assert w.base.Keys == w.s.priority.Keys && y.k.base.Keys == y.k.s.priority.Keys;
    BlockedDonated(y, w, m);
    BlockedStillBoosted(y, w, m);
  }

  lemma BlockedDonated(y: System, w: Kernel, m: nat)
    requires Donated(y) && m in y.holder && m in y.mutexes && !Holds(y, y.k.current) && w.base == y.k.base
    requires y.k.base.Keys == y.k.s.priority.Keys
    requires var h := y.holder[m];
             w.s.priority == y.k.s.priority[h := Max(Prio(y.k.s, h), Prio(y.k.s, y.k.current))]
    requires forall t, e {:trigger In(w.s, Ev(t), Event(e))} ::
               In(w.s, Ev(t), Event(e)) ==> In(y.k.s, Ev(t), Event(e)) || (t == y.k.current && e == m)
    requires forall t :: t in y.k.s.priority && Home(w.s, t) == Termination ==> Home(y.k.s, t) == Termination
    ensures Donated(Recorded(y, m, y.k.current).(k := w))
  {
    hide Max, Holds;
    MaxFacts(Prio(y.k.s, y.holder[m]), Prio(y.k.s, y.k.current));
    var r := Recorded(y, m, y.k.current).(k := w);
    forall u ensures Holds(r, u) == Holds(y, u) { SameHolders(y, r, u); }
    HolderHolds(y, m);
    forall t | t in w.s.priority && t in w.base
      ensures Prio(w.s, t) >= w.base[t] && (!Holds(r, t) ==> Prio(w.s, t) == w.base[t])
    {
      if t != y.holder[m] { assert Prio(w.s, t) == Prio(y.k.s, t); }
    }
  }

  lemma SameHolders(y: System, r: System, t: Task)
    requires r.holder == y.holder
    ensures Holds(r, t) == Holds(y, t)
  {
  }

  lemma MaxFacts(a: nat, b: nat)
    ensures Max(a, b) >= a && Max(a, b) >= b && (Max(a, b) == a || Max(a, b) == b)
  {
  }

  lemma BlockedStillBoosted(y: System, w: Kernel, m: nat)
    requires Donated(y) && Boosted(y) && m in y.holder && !Holds(y, y.k.current)
    requires var h := y.holder[m];
             w.s.priority == y.k.s.priority[h := Max(Prio(y.k.s, h), Prio(y.k.s, y.k.current))]
    requires forall t, e {:trigger In(w.s, Ev(t), Event(e))} ::
               In(w.s, Ev(t), Event(e)) ==> In(y.k.s, Ev(t), Event(e)) || (t == y.k.current && e == m)
    ensures Boosted(Recorded(y, m, y.k.current).(k := w))
  {
    hide Max, Holds;
    var r, h, c := Recorded(y, m, y.k.current).(k := w), y.holder[m], y.k.current;
    HolderHolds(y, m);
    MaxFacts(Prio(y.k.s, h), Prio(y.k.s, c));
    MaxFacts(if m in y.donation then y.donation[m] else 0, Prio(y.k.s, c));
    forall u ensures Prio(w.s, u) >= Prio(y.k.s, u) && (u != h ==> Prio(w.s, u) == Prio(y.k.s, u)) {}
    forall n, t | n in r.holder && n in r.blocked && t in r.blocked[n] && In(r.k.s, Ev(t), Event(n))
      ensures Prio(r.k.s, r.holder[n]) >= Prio(r.k.s, t)
    {
      assert t == h ==> !In(y.k.s, Ev(t), Event(n));
    }
  }

  lemma InheritKeepsHomes(k: Kernel, h: Task)
    requires Inv(k) && h in k.s.priority && h != k.current
    ensures var i := Inherit(k, h);
            && Home(i.s, k.current) == Home(k.s, k.current) && i.suspended == k.suspended && i.idle == k.idle
            && i.levels == k.levels
            && (forall t, e {:trigger In(i.s, Ev(t), Event(e))} ::
                  In(i.s, Ev(t), Event(e)) <==> In(k.s, Ev(t), Event(e)))
            && (forall t :: t in k.s.priority && Home(i.s, t) == Termination ==> Home(k.s, t) == Termination)
  {
    hide Core, Priorities, Counters, Settled, Reprioritise, Sound;
    CoreSound(k);
    TaskFacts(k.s, k.current);
    var p := Prio(k.s, k.current);
    var s := k.s.(value := k.s.value[Ev(h) := Max(k.levels, p) - p]);
    ValuesAside(k.s, s.value);
    ReprioritiseFacts(s, h, p);
  }

  lemma GiveKeeps(y: System, m: nat)
    requires SysInv(y) && Allowed(y, Give(m))
    ensures SysInv(Act(y, Give(m)))
    ensures var r, h := Act(y, Give(m)), y.k.current;
            && m in y.holder && h in y.k.base && Prio(r.k.s, h) == y.k.base[h] && Home(r.k.s, h) == Ready(y.k.base[h])
            && m !in r.holder
  {
    hide Core, Counters, Roles, Settled, Disinherit, Wake, Donated, Boosted;
    var h := y.k.current;
    CurrentAlive(y.k);
    DisinheritStep(y.k, h);
    var d := Disinherit(y.k, h);
    DisinheritKeepsHomes(y.k, h);
    var mid := y.(k := d, holder := y.holder - {m});
    GivenBack(y, d, m);
    if Items(d.s, Event(m)) != [] {
      WakeStep(d, m);
      QuietWake(d, m);
      WakeKeepsRunning(d, m);
      QuietKeeps(mid, Wake(d, m));
    }
  }

  /** After the holder is back at its base priority and the mutex has no holder, the rest stands. */
  lemma GivenBack(y: System, d: Kernel, m: nat)
    requires SysInv(y) && m in y.holder && y.holder[m] in y.k.base
    requires Inv(d) && d.levels == y.k.levels && d.base == y.k.base
    requires d.s.priority == y.k.s.priority[y.holder[m] := y.k.base[y.holder[m]]]
    requires forall t, e {:trigger In(d.s, Ev(t), Event(e))} :: In(d.s, Ev(t), Event(e)) <==> In(y.k.s, Ev(t), Event(e))
    requires forall t :: t in y.k.s.priority && Home(d.s, t) == Termination ==> Home(y.k.s, t) == Termination
    ensures SysInv(y.(k := d, holder := y.holder - {m}))
  {
    hide Core, Counters, Roles, Settled, Donated, Boosted, Holds;
    assert d.base.Keys == d.s.priority.Keys && y.k.base.Keys == y.k.s.priority.Keys;
    GivenDonated(y, d, m);
    GivenBoosted(y, d, m);
  }

  lemma GivenDonated(y: System, d: Kernel, m: nat)
    requires Donated(y) && m in y.holder && y.holder[m] in y.k.base && d.base == y.k.base
    requires y.k.base.Keys == y.k.s.priority.Keys
    requires d.s.priority == y.k.s.priority[y.holder[m] := y.k.base[y.holder[m]]]
    requires forall t, e {:trigger In(d.s, Ev(t), Event(e))} :: In(d.s, Ev(t), Event(e)) <==> In(y.k.s, Ev(t), Event(e))
    requires forall t :: t in y.k.s.priority && Home(d.s, t) == Termination ==> Home(y.k.s, t) == Termination
    ensures Donated(y.(k := d, holder := y.holder - {m}))
  {
    hide Holds;
    var mid, h := y.(k := d, holder := y.holder - {m}), y.holder[m];
    forall t ensures Holds(mid, t) <==> Holds(y, t) && t != h { HoldersLess(y, m, t); }
  }

  lemma GivenBoosted(y: System, d: Kernel, m: nat)
    requires Donated(y) && Boosted(y) && m in y.holder && y.holder[m] in y.k.base
    requires d.s.priority == y.k.s.priority[y.holder[m] := y.k.base[y.holder[m]]]
    requires forall t, e {:trigger In(d.s, Ev(t), Event(e))} :: In(d.s, Ev(t), Event(e)) <==> In(y.k.s, Ev(t), Event(e))
    ensures Boosted(y.(k := d, holder := y.holder - {m}))
  {
    hide Holds;
    HolderHolds(y, m);
  }

  lemma HolderHolds(y: System, m: nat)
    requires m in y.holder
    ensures Holds(y, y.holder[m])
  {
  }

  lemma HoldersLess(y: System, m: nat, t: Task)
    requires Donated(y) && m in y.holder
    ensures forall k :: Holds(y.(k := k, holder := y.holder - {m}), t) <==> Holds(y, t) && t != y.holder[m]
  {
    if Holds(y, t) && t != y.holder[m] {
      var n :| n in y.holder && y.holder[n] == t;
      assert n in y.holder - {m};
    }
  }

  lemma DisinheritKeepsHomes(k: Kernel, h: Task)
    requires Inv(k) && h in k.s.priority && Home(k.s, h).Ready?
    ensures var i := Disinherit(k, h);
            && i.suspended == k.suspended && i.levels == k.levels
            && (forall t, e {:trigger In(i.s, Ev(t), Event(e))} ::
                  In(i.s, Ev(t), Event(e)) <==> In(k.s, Ev(t), Event(e)))
            && (forall t :: t in k.s.priority && Home(i.s, t) == Termination ==> Home(k.s, t) == Termination)
  {
    hide Core, Priorities, Counters, Roles, Settled, Reprioritise, Sound;
    CoreSound(k);
    var p := BaseOf(k, h);
    var s := k.s.(value := k.s.value[Ev(h) := Max(k.levels, p) - p]);
    ValuesAside(k.s, s.value);
    ReprioritiseFacts(s, h, p);
  }

  lemma QuietWake(k: Kernel, q: nat)
    requires Inv(k) && k.levels > 0 && Items(k.s, Event(q)) != []
    ensures Quiet(k.s, Wake(k, q).s) && Wake(k, q).base == k.base && Wake(k, q).levels == k.levels
  {
    hide Core, Quiet;
    QuietStep(k, OpWake(q));
    StepShape(k, OpWake(q));
  }

  lemma WakeKeepsRunning(k: Kernel, q: nat)
    requires Inv(k) && Items(k.s, Event(q)) != [] && Home(k.s, k.current).Ready?
    ensures Home(Wake(k, q).s, k.current) == Home(k.s, k.current) && Wake(k, q).s.priority == k.s.priority
  {
    hide Sound, DelayInv, CacheInv, MakeReady, Pend;
    EventHead(k.s, q);
    var t := Items(k.s, Event(q))[0].task;
    if k.suspended == 0 { MakeReadyFacts(k.s, t); } else { PendFacts(k.s, t); }
  }

  // ----- Runs

  lemma PlainKeeps(y: System, op: Op)
    requires SysInv(y) && Enabled(y.k, op) && Plain(op, {})
    requires !op.OpCreate? && !op.OpDelete? && !op.OpReap? && !op.OpWait?
    ensures SysInv(y.(k := Step(y.k, op)))
  {
    hide Core, Priorities, Counters, Roles, Settled, Donated, Boosted, Step, Quiet;
    StepRefines(y.k, op);
    QuietStep(y.k, op);
    QuietForMutexes(y, Step(y.k, op).s);
    QuietKeeps(y, Step(y.k, op));
  }

  lemma QuietForMutexes(y: System, r: Store)
    requires Quiet(y.k.s, r)
    ensures MutexQuiet(y, r)
  {
  }

  lemma ActKeeps(y: System, a: Action)
    requires SysInv(y) && Allowed(y, a)
    ensures SysInv(Act(y, a))
  {
    hide Core, Priorities, Counters, Roles, Settled, Donated, Boosted;
    match a
    case Kernel(op) =>
      if op.OpCreate? { CreateKeeps(y, op.t, op.priority); }
      else if op.OpDelete? { DeleteKeeps(y, op.t); }
      else if op.OpReap? { ReapKeeps(y); }
      else if op.OpWait? { WaitKeeps(y, op.queue, op.ticks); }
      else { PlainKeeps(y, op); }
    case Take(m) => TakeKeeps(y, m);
    case BlockOn(m, ticks) => BlockKeeps(y, m, ticks);
    case Give(m) => GiveKeeps(y, m);
  }

  ghost predicate Possible(y: System, acts: seq<Action>)
    requires SysInv(y)
    decreases |acts|
  {
    acts == [] || (Allowed(y, acts[0]) && (ActKeeps(y, acts[0]); Possible(Act(y, acts[0]), acts[1..])))
  }

  function Run(y: System, acts: seq<Action>): (r: System)
    requires SysInv(y) && Possible(y, acts)
    decreases |acts|
  {
    if acts == [] then y else ActKeeps(y, acts[0]); Run(Act(y, acts[0]), acts[1..])
  }

  /** Over every run without nested mutexes and vTaskPrioritySet: a holder's effective priority never
      drops below its base priority, and until it gives a mutex back it is at least the highest with
      which a task blocked on the mutex meanwhile, whether or not that task still waits. */
  lemma {:induction false} InheritanceHolds(y: System, acts: seq<Action>)
    requires SysInv(y) && Possible(y, acts)
    ensures SysInv(Run(y, acts))
    decreases |acts|
  {
    hide Core, Priorities, Counters, Roles, Settled, Donated, Boosted, Act, Allowed;
    if acts != [] {
      ActKeeps(y, acts[0]);
      InheritanceHolds(Act(y, acts[0]), acts[1..]);
    }
  }

  /** No action but giving the mutex back lowers its holder's effective priority. */
  lemma NeverLowered(y: System, a: Action, m: nat)
    requires SysInv(y) && Allowed(y, a) && m in y.holder && a != Give(m)
    ensures var r, h := Act(y, a), y.holder[m];
            m in r.holder && r.holder[m] == h && Prio(r.k.s, h) >= Prio(y.k.s, h)
  {
    hide Core, Priorities, Counters, Settled, Step, Wait, Inherit, Disinherit, Wake, Boosted, Max;
    var h := y.holder[m];
    match a
    case Kernel(op) => OthersKeepPriority(y, op, m);
    case Take(n) =>
    case BlockOn(n, ticks) =>
      InheritStep(y.k, y.holder[n]);
      MaxFacts(Prio(y.k.s, y.holder[n]), Prio(y.k.s, y.k.current));
      InheritKeepsHomes(y.k, y.holder[n]) by { assert Holds(y, y.holder[n]); }
      WaitJoins(Inherit(y.k, y.holder[n]), n, ticks);
    case Give(n) => GiverOnly(y, n, h);
  }

  /** Giving a mutex back changes the priority of the giver only. */
  lemma GiverOnly(y: System, n: nat, h: Task)
    requires SysInv(y) && Allowed(y, Give(n)) && h != y.k.current
    ensures Prio(Act(y, Give(n)).k.s, h) == Prio(y.k.s, h)
  {
    hide Core, Counters, Settled, Donated, Boosted, Disinherit, Wake;
    var g := y.k.current;
    CurrentAlive(y.k);
    DisinheritStep(y.k, g);
    var d := Disinherit(y.k, g);
    DisinheritKeepsHomes(y.k, g);
    if Items(d.s, Event(n)) != [] { WakeKeepsRunning(d, n); }
  }

  /** The plain kernel services change no holder's priority. */
  lemma OthersKeepPriority(y: System, op: Op, m: nat)
    requires SysInv(y) && Allowed(y, Action.Kernel(op)) && m in y.holder
    ensures Prio(Step(y.k, op).s, y.holder[m]) == Prio(y.k.s, y.holder[m])
  {
    hide Core, Priorities, Counters, Settled, Boosted, Create, Delete, Reap, Wait, Quiet;
    var h := y.holder[m];
    if op.OpCreate? {
      CreateStep(y.k, op.t, op.priority);
    } else if op.OpDelete? {
      DeleteStep(y.k, op.t);
    } else if op.OpReap? {
      ReapStep(y.k);
    } else if op.OpWait? {
      WaitJoins(y.k, op.queue, op.ticks);
    } else {
      QuietPriority(y.k, op);
    }
  }

  lemma QuietPriority(k: Kernel, op: Op)
    requires Inv(k) && k.levels > 0 && Enabled(k, op) && Plain(op, {})
    requires !op.OpCreate? && !op.OpDelete? && !op.OpReap? && !op.OpWait?
    ensures Step(k, op).s.priority == k.s.priority
  {
    hide Inv, Step, Enabled;
    QuietStep(k, op);
  }

  /** Over every run in which the mutex is not given back, the holder stays the holder and its
      effective priority never drops. */
  lemma {:induction false} BoostLastsUntilGive(y: System, acts: seq<Action>, m: nat)
    requires SysInv(y) && Possible(y, acts) && m in y.holder && Give(m) !in acts
    ensures var r, h := Run(y, acts), y.holder[m];
            m in r.holder && r.holder[m] == h && Prio(r.k.s, h) >= Prio(y.k.s, h)
    decreases |acts|
  {
    hide Inv, Donated, Boosted, Act, Allowed;
    if acts != [] {
      assert acts[0] in acts;
      ActKeeps(y, acts[0]);
      NeverLowered(y, acts[0], m);
      BoostLastsUntilGive(Act(y, acts[0]), acts[1..], m);
    }
  }

  /** From the step in which w blocks on a mutex until its holder gives it back, over every run and
      whether w goes on waiting, times out or is deleted: the holder's effective priority is at least
      the one w blocked with. */
  lemma WaiterBoostsHolder(y: System, acts: seq<Action>, m: nat)
    requires SysInv(y) && Possible(y, acts) && m in y.holder && Give(m) !in acts
    requires acts != [] && acts[0].BlockOn? && acts[0].m == m
    ensures var r, h := Run(y, acts), y.holder[m];
            m in r.holder && r.holder[m] == h && Prio(r.k.s, h) >= Prio(y.k.s, y.k.current)
  {
    hide Inv, Donated, Boosted, Step, Wait, Inherit;
    BlockKeeps(y, m, acts[0].ticks);
    BlockerUnchanged(y, m, acts[0].ticks);
    BoostLastsUntilGive(Act(y, acts[0]), acts[1..], m);
  }

  /** Blocking leaves the blocking task's own priority alone. */
  lemma BlockerUnchanged(y: System, m: nat, ticks: nat)
    requires SysInv(y) && Allowed(y, BlockOn(m, ticks))
    ensures Prio(Act(y, BlockOn(m, ticks)).k.s, y.k.current) == Prio(y.k.s, y.k.current)
  {
    hide Core, Priorities, Counters, Settled, Boosted, Inherit, Wait;
    var h := y.holder[m];
    assert Holds(y, h);
    InheritStep(y.k, h);
    InheritKeepsHomes(y.k, h);
    WaitJoins(Inherit(y.k, h), m, ticks);
  }

  /** The kernel with its idle task and any set of free mutexes starts out right. */
  lemma StartsFree(levels: nat, idle: Task, mutexes: set<nat>)
    requires levels > 0
    ensures SysInv(System(Initial(levels, idle), mutexes, map[], map[], map[]))
  {
    hide Birth, Inv, Sound;
    InitialInv(levels, idle);
    EmptySound(map[Ev(idle) := levels]);
    BirthFacts(Store(map[], map[], map[Ev(idle) := levels], map[], 0, {}), idle, 0);
  }
}
