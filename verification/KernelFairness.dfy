/** Round robin in the whole kernel: what every service does to the place of a ready task among the
    tasks of its priority. */
module KernelFairness {
  import opened XLists
  import opened Stores
  import opened ReadyLists
  import opened DelayLists
  import opened TaskMoves
  import opened Kernels
  import opened KernelSteps
  import opened KernelRuns
  import opened KernelMachine

  /** The task is on the ready list of its priority. */
  ghost predicate Queued(s: Store, t: Task) {
    Valid(ListOf(s, Ready(Prio(s, t)))) && Gen(t) in Items(s, Ready(Prio(s, t)))
  }

  /** How many selections from that list away the task is. */
  ghost function Ahead(s: Store, t: Task): (d: int)
    requires Queued(s, t)
    ensures d >= 1
  {
    Distance(ListOf(s, Ready(Prio(s, t))), Gen(t))
  }

  /** A queued task stays queued at its priority and is no further from being selected. */
  ghost predicate Kept(s: Store, r: Store, t: Task) {
    Queued(s, t) ==> Prio(r, t) == Prio(s, t) && Queued(r, t) && Ahead(r, t) <= Ahead(s, t)
  }

  lemma KeptTrans(a: Store, b: Store, c: Store, t: Task)
    requires Kept(a, b, t) && Kept(b, c, t)
    ensures Kept(a, c, t)
  {
  }

  lemma KeptSame(s: Store, r: Store, t: Task)
    requires Prio(r, t) == Prio(s, t) && ListOf(r, Ready(Prio(s, t))) == ListOf(s, Ready(Prio(s, t)))
    ensures Kept(s, r, t)
  {
  }

  // ----- The list primitives

  lemma KeptRemove(s: Store, i: Item, t: Task)
    requires i != Gen(t)
    ensures Kept(s, Remove(s, i), t)
  {
    var p := Prio(s, t);
    if Queued(s, t) && i in s.container && i in Items(s, s.container[i]) && s.container[i] == Ready(p) {
      hide Distance, Valid, RemoveAt, IndexOf;
      RemovalNeverDelays(ListOf(s, Ready(p)), Gen(t), i);
    }
  }

  lemma KeptAppend(s: Store, id: ListId, i: Item, t: Task)
    requires i != Gen(t) && i !in Items(s, id)
    ensures Kept(s, Append(s, id, i), t)
  {
    var p := Prio(s, t);
    if Queued(s, t) && id == Ready(p) {
      hide Distance, Valid, XLists.InsertEnd;
      InsertEndKeepsDistance(ListOf(s, id), Gen(t), i);
    }
  }

  lemma KeptInsert(s: Store, id: ListId, i: Item, t: Task)
    requires !id.Ready?
    ensures Kept(s, Insert(s, id, i), t)
  {
    hide Distance, XLists.Valid, InsertAt, InsertPosition;
    KeptSame(s, Insert(s, id, i), t);
  }

  lemma KeptDetach(s: Store, u: Task, t: Task)
    requires u != t
    ensures Kept(s, Detach(s, u), t) && Kept(s, DetachRunning(s, u), t)
  {
    hide Kept, Remove;
    var d := Remove(s, Gen(u));
    KeptRemove(s, Gen(u), t);
    var b := d.(bits := d.bits - {Prio(s, u)});
    KeptSame(d, b, t);
    KeptTrans(s, d, b, t);
  }

  lemma KeptAddReady(s: Store, u: Task, t: Task)
    requires u != t && Gen(u) !in Items(s, Ready(Prio(s, u)))
    ensures Kept(s, AddReady(s, u), t)
  {
    hide Kept, Append;
    var m := s.(top := Max(s.top, Prio(s, u)), bits := s.bits + {Prio(s, u)});
    KeptSame(s, m, t);
    KeptAppend(m, Ready(Prio(s, u)), Gen(u), t);
    KeptTrans(s, m, AddReady(s, u), t);
  }

  lemma Unlisted(s: Store, i: Item, id: ListId)
    requires Integrity(s) && i !in s.container
    ensures i !in Items(s, id)
  {
    assert !In(s, i, id);
  }

  /** A queued task of a sound store is ready, so it is none of the blocked ones. */
  lemma QueuedIsReady(s: Store, t: Task)
    requires Sound(s) && Queued(s, t)
    ensures Home(s, t) == Ready(Prio(s, t))
  {
    assert In(s, Gen(t), Ready(Prio(s, t)));
  }

  // ----- The moves

  lemma KeptBoth(s: Store, u: Task, t: Task)
    requires Sound(s) && u in s.priority && u != t
    ensures var d := Remove(Detach(s, u), Ev(u));
            && Kept(s, d, t) && SoundWithout(d, u) && d.priority == s.priority
            && (forall id :: Gen(u) !in Items(d, id))
  {
    hide Kept, Detach, Remove, ReadyRecorded, Placed;
    var d := Remove(Detach(s, u), Ev(u));
    DetachBoth(s, u);
    KeptDetach(s, u, t);
    KeptRemove(Detach(s, u), Ev(u), t);
    KeptTrans(s, Detach(s, u), d, t);
    forall id ensures Gen(u) !in Items(d, id) { Unlisted(d, Gen(u), id); }
  }

  lemma KeptRetire(s: Store, u: Task, id: ListId, t: Task)
    requires Sound(s) && u in s.priority && u != t
    ensures Kept(s, Retire(s, u, id), t)
  {
    hide Kept, Detach, Remove, Append, Sound, SoundWithout;
    KeptBoth(s, u, t);
    var d := Remove(Detach(s, u), Ev(u));
    KeptAppend(d, id, Gen(u), t);
    KeptTrans(s, d, Append(d, id, Gen(u)), t);
  }

  lemma KeptMakeReady(s: Store, u: Task, t: Task)
    requires Sound(s) && u in s.priority && !Home(s, u).Ready? && u != t
    ensures Kept(s, MakeReady(s, u), t)
  {
    hide Kept, Detach, Remove, AddReady, Sound, SoundWithout;
    KeptBoth(s, u, t);
    DetachIsRemove(s, u);
    var d := Remove(Detach(s, u), Ev(u));
    KeptAddReady(d, u, t);
    KeptTrans(s, d, AddReady(d, u), t);
  }

  lemma KeptPend(s: Store, u: Task, t: Task)
    requires Sound(s)
    ensures Kept(s, Pend(s, u), t)
  {
    hide Kept, Remove, Append;
    var d := Remove(s, Ev(u));
    KeptRemove(s, Ev(u), t);
    EvGone(s, u);
    KeptAppend(d, PendingReady, Ev(u), t);
    KeptTrans(s, d, Pend(s, u), t);
  }

  lemma EvGone(s: Store, u: Task)
    requires Integrity(s)
    ensures Ev(u) !in Items(Remove(s, Ev(u)), PendingReady)
  {
    hide Remove, Integrity;
    if Ev(u) in s.container { RemoveFacts(s, Ev(u)); } else { RemoveAbsent(s, Ev(u)); }
    Unlisted(Remove(s, Ev(u)), Ev(u), PendingReady);
  }

  lemma KeptReprioritise(s: Store, u: Task, p: nat, t: Task)
    requires Sound(s) && u in s.priority && u != t
    ensures Kept(s, Reprioritise(s, u, p), t)
  {
    hide Kept, Detach, Remove, AddReady, SoundWithout, Sound;
    TaskFacts(s, u);
    if Home(s, u) == Ready(Prio(s, u)) {
      var d := Detach(s, u);
      KeptBoth(s, u, t);
      DetachedBare(s, u);
      var m := d.(priority := d.priority[u := p]);
      KeptSame(d, m, t);
      KeptTrans(s, d, m, t);
      SameItems(d, m);
      KeptAddReady(m, u, t);
      KeptTrans(s, m, AddReady(m, u), t);
    } else {
      KeptSame(s, s.(priority := s.priority[u := p]), t);
    }
  }

  lemma SameItems(s: Store, m: Store)
    requires m.lists == s.lists
    ensures forall id {:trigger Items(m, id)} :: Items(m, id) == Items(s, id)
  {
  }

  lemma DetachedBare(s: Store, u: Task)
    requires Sound(s) && u in s.priority && Home(s, u).Ready?
    ensures Remove(Detach(s, u), Ev(u)) == Detach(s, u)
  {
    hide Detach, Remove;
    TaskFacts(s, u);
    DetachFacts(s, u);
    RemoveAbsent(Detach(s, u), Ev(u));
  }

  lemma {:induction false} KeptDrain(s: Store, id: ListId, tick: nat, t: Task)
    requires Sound(s) && (id.Delayed1? || id.Delayed2?)
    ensures Kept(s, Drain(s, id, tick), t)
    decreases |Items(s, id)|
  {
    hide Kept, MakeReady, Sound;
    KeptSame(s, s, t);
    if Items(s, id) != [] && Val(s, Items(s, id)[0]) <= tick {
      var u := Items(s, id)[0].task;
      EntryFacts(s, id, Items(s, id)[0]);
      MakeReadyFacts(s, u);
      KeptParked(s, u, t);
      KeptDrain(MakeReady(s, u), id, tick, t);
      KeptTrans(s, MakeReady(s, u), Drain(MakeReady(s, u), id, tick), t);
    }
  }

  /** A parked task may be readied without regard to whether it is t: t was not queued then. */
  lemma KeptParked(s: Store, u: Task, t: Task)
    requires Sound(s) && u in s.priority && Parked(Home(s, u))
    ensures Kept(s, MakeReady(s, u), t)
  {
    hide MakeReady, Sound, Queued;
    if Queued(s, t) {
      QueuedIsReady(s, t);
      KeptMakeReady(s, u, t);
    }
  }

  lemma {:induction false} KeptDrainPending(s: Store, t: Task)
    requires Sound(s)
    ensures Kept(s, DrainPending(s), t)
    decreases |Items(s, PendingReady)|
  {
    hide Kept, MakeReady, Sound;
    KeptSame(s, s, t);
    if Items(s, PendingReady) != [] {
      PendingHead(s);
      var u := Items(s, PendingReady)[0].task;
      KeptParked(s, u, t);
      KeptDrainPending(MakeReady(s, u), t);
      KeptTrans(s, MakeReady(s, u), DrainPending(MakeReady(s, u)), t);
    }
  }

  lemma KeptTick(k: Kernel, t: Task)
    requires Core(k)
    ensures Kept(k.s, ProcessTick(k).s, t)
  {
    hide Sound, CacheInv, Kept, Drain;
    WheelFacts(k.s, k.w);
    KeptSame(k.s, k.s, t);
    KeptDrain(k.s, Turn(k.w).current, Turn(k.w).tick, t);
  }

  lemma {:induction false} KeptReplay(k: Kernel, t: Task)
    requires Core(k)
    ensures Kept(k.s, Replay(k).s, t)
    decreases k.missed
  {
    hide Core, ProcessTick, Kept;
    KeptSame(k.s, k.s, t);
    if k.missed > 0 {
      CachedAgrees(k);
      KeptTick(k, t);
      var m := ProcessTick(k).(missed := k.missed - 1);
      SameCore(ProcessTick(k), m);
      KeptReplay(m, t);
      KeptTrans(k.s, m.s, Replay(m).s, t);
    }
  }

  lemma KeptResumeAll(k: Kernel, t: Task)
    requires Inv(k) && k.suspended > 0
    ensures Kept(k.s, ResumeAll(k).s, t)
  {
    hide Core, Kept, Replay, DrainPending;
    var c := k.(suspended := k.suspended - 1);
    SameCore(k, c);
    CoreSound(c);
    KeptSame(k.s, k.s, t);
    if c.suspended == 0 {
      DrainPendingStep(c);
      KeptDrainPending(c.s, t);
      var d := c.(s := DrainPending(c.s));
      KeptReplay(d, t);
      KeptTrans(k.s, d.s, Replay(d).s, t);
    }
  }

  lemma KeptBlock(k: Kernel, wake: nat, t: Task)
    requires Inv(k) && k.current != t
    ensures Kept(k.s, BlockCurrent(k, wake).s, t)
  {
    hide Sound, CacheInv, Kept, DetachRunning, Insert;
    WheelFacts(k.s, k.w);
    KeptDetach(k.s, k.current, t);
    var d := DetachRunning(k.s, k.current);
    var m := d.(value := d.value[Gen(k.current) := wake]);
    KeptSame(d, m, t);
    KeptTrans(k.s, d, m, t);
    var id := if wake < k.w.tick then k.w.overflow else k.w.current;
    KeptInsert(m, id, Gen(k.current), t);
    KeptTrans(k.s, m, Insert(m, id, Gen(k.current)), t);
  }

  lemma KeptWait(k: Kernel, q: nat, ticks: nat, t: Task)
    requires Inv(k) && BlockingCall(k) && k.current != t
    ensures Kept(k.s, Wait(k, q, ticks).s, t)
  {
    hide Core, Kept, DetachRunning, Insert, Append, BlockCurrent;
    var c := k.current;
    if ticks == W - 1 {
      var d := DetachRunning(k.s, c);
      CurrentGone(k);
      KeptDetach(k.s, c, t);
      KeptAppend(d, Suspended, Gen(c), t);
      var b := Append(d, Suspended, Gen(c));
      KeptTrans(k.s, d, b, t);
      KeptInsert(b, Event(q), Ev(c), t);
      KeptTrans(k.s, b, Insert(b, Event(q), Ev(c)), t);
    } else {
      var b := Delay(k, ticks).s;
      KeptBlock(k, (k.w.tick + ticks) % W, t);
      KeptInsert(b, Event(q), Ev(c), t);
      KeptTrans(k.s, b, Insert(b, Event(q), Ev(c)), t);
    }
  }

  lemma CurrentGone(k: Kernel)
    requires Inv(k) && BlockingCall(k)
    ensures Gen(k.current) !in Items(DetachRunning(k.s, k.current), Suspended)
  {
    hide Core, Counters, DetachRunning, Placed, ReadyRecorded;
    DetachedRunning(k);
    Unlisted(DetachRunning(k.s, k.current), Gen(k.current), Suspended);
  }

  // ----- The services

  /** The step acts on the task itself: it is deleted, suspended or has its priority changed, or it is
      the running task and blocks. */
  predicate Names(k: Kernel, op: Op, t: Task) {
    match op
    case OpDelete(u) => u == t
    case OpSuspend(u) => u == t
    case OpSetPriority(u, _) => u == t
    case OpInherit(u) => u == t
    case OpDisinherit(u) => u == t
    case OpDelay(_) => k.current == t
    case OpDelayUntil(_, _) => k.current == t
    case OpWait(_, _) => k.current == t
    case _ => false
  }

  lemma QueuedLives(k: Kernel, t: Task)
    requires Inv(k) && Queued(k.s, t)
    ensures t in k.s.priority && Home(k.s, t) == Ready(Prio(k.s, t))
  {
    hide DelayInv, CacheInv, ReadyRecorded;
    assert In(k.s, Gen(t), Ready(Prio(k.s, t)));
    assert Gen(t) in k.s.container;
    assert Gen(t).task in k.s.priority;
  }

  lemma KeptCreate(k: Kernel, u: Task, p: nat, t: Task)
    requires Inv(k) && u !in k.s.priority && u != t
    ensures Kept(k.s, Create(k, u, p).s, t)
  {
    hide Core, Kept, AddReady;
    CoreSound(k);
    var q := Capped(k, p);
    var s := k.s.(value := k.s.value[Ev(u) := Max(k.levels, q) - q]);
    var m := s.(priority := s.priority[u := q]);
    NewcomerListless(k.s, u);
    NewcomerOnNoList(k.s, u, Ready(q));
    KeptSame(k.s, m, t);
    SameItems(k.s, m);
    KeptAddReady(m, u, t);
    KeptTrans(k.s, m, AddReady(m, u), t);
  }

  lemma NewcomerOnNoList(s: Store, u: Task, id: ListId)
    requires Sound(s) && Gen(u) !in s.container
    ensures Gen(u) !in Items(s, id)
  {
    Unlisted(s, Gen(u), id);
  }

  lemma KeptReap(k: Kernel, t: Task)
    requires Inv(k) && Items(k.s, Termination) != [] && k.numTasks > 0 && k.deleted > 0 && Queued(k.s, t)
    ensures Kept(k.s, Reap(k).s, t)
  {
    hide Core, Kept, Remove, Queued;
    CoreSound(k);
    TerminatedHead(k.s);
    QueuedLives(k, t);
    var u := Items(k.s, Termination)[0].task;
    KeptRemove(k.s, Gen(u), t);
    var d := Remove(k.s, Gen(u));
    KeptSame(d, Bury(k.s, u), t);
    KeptTrans(k.s, d, Bury(k.s, u), t);
  }

  lemma KeptWithPriority(k: Kernel, u: Task, p: nat, key: nat, t: Task)
    requires Sound(k.s) && u in k.s.priority && u != t
    ensures Kept(k.s, WithPriority(k, u, p, key).s, t)
  {
    hide Sound, Kept, Reprioritise;
    var s := k.s.(value := k.s.value[Ev(u) := Max(k.levels, key) - key]);
    ValuesAside(k.s, s.value);
    KeptSame(k.s, s, t);
    KeptReprioritise(s, u, p, t);
    KeptTrans(k.s, s, Reprioritise(s, u, p), t);
  }

  /** Every service that does not act on a ready task itself, except selecting it, leaves it on its
      ready list and no further from being selected. */
  lemma StepKeepsPlace(k: Kernel, op: Op, t: Task)
    requires Inv(k) && k.levels > 0 && Enabled(k, op) && Queued(k.s, t) && !Names(k, op, t) && !op.OpSwitch?
    ensures Kept(k.s, Step(k, op).s, t)
  {
    hide Core, Kept, MakeReady, Pend, Retire, Replay, DrainPending, ProcessTick, BlockCurrent, Wait, Create, Reap;
    hide WithPriority, Queued;
    CoreSound(k);
    QueuedLives(k, t);
    KeptSame(k.s, k.s, t);
    match op
    case OpCreate(u, p) => KeptCreate(k, u, p, t);
    case OpDelete(u) => KeptRetire(k.s, u, Termination, t);
    case OpReap => KeptReap(k, t);
    case OpSuspend(u) => KeptRetire(k.s, u, Suspended, t);
    case OpResume(u) => if IsSuspended(k, u) { KeptParked(k.s, u, t); }
    case OpResumeFromISR(u) => if IsSuspended(k, u) { KeptParked(k.s, u, t); KeptPend(k.s, u, t); }
    case OpSuspendAll =>
    case OpResumeAll => KeptResumeAll(k, t);
    case OpTick =>
      var c := k.(interrupts := k.interrupts + 1);
      SameCore(k, c);
      KeptTick(c, t);
    case OpDelay(n) => KeptBlock(k, (k.w.tick + n) % W, t);
    case OpDelayUntil(previous, increment) => KeptBlock(k, (previous + increment) % W, t);
    case OpWait(q, n) => KeptWait(k, q, n, t);
    case OpWake(q) =>
      EventHead(k.s, q);
      KeptParked(k.s, Items(k.s, Event(q))[0].task, t);
      KeptPend(k.s, Items(k.s, Event(q))[0].task, t);
    case OpSetPriority(u, p) => KeptSetPriority(k, u, p, t);
    case OpInherit(u) => KeptWithPriority(k, u, Prio(k.s, k.current), Prio(k.s, k.current), t);
    case OpDisinherit(u) => KeptWithPriority(k, u, BaseOf(k, u), BaseOf(k, u), t);
  }

  lemma KeptSetPriority(k: Kernel, u: Task, p: nat, t: Task)
    requires Sound(k.s) && u in k.s.priority && u != t
    ensures Kept(k.s, SetPriority(k, u, p).s, t)
  {
    hide Sound, Kept, WithPriority;
    var q := Capped(k, p);
    var m := k.(base := k.base[u := q]);
    KeptSame(k.s, k.s, t);
    KeptSame(k.s, k.s.(value := k.s.value[Ev(u) := Max(k.levels, q) - q]), t);
    KeptWithPriority(m, u, q, q, t);
  }

  // ----- Selections

  /** The step selects a task from the ready list of priority p. */
  predicate Selects(k: Kernel, op: Op, p: nat)
    requires Inv(k)
  {
    op.OpSwitch? && k.suspended == 0 && (IdleIsReady(k); TopLevel(k.s, k.s.top) == p)
  }

  /** A selection at the task's own priority picks it when its turn has come and otherwise brings it
      one selection closer; any other switch leaves its place alone. */
  lemma SwitchPlace(k: Kernel, t: Task)
    requires Inv(k) && k.levels > 0 && Queued(k.s, t)
    ensures var r := Step(k, OpSwitch);
            if !Selects(k, OpSwitch, Prio(k.s, t)) then Kept(k.s, r.s, t)
            else if Ahead(k.s, t) == 1 then r.current == t
            else Prio(r.s, t) == Prio(k.s, t) && Queued(r.s, t) && Ahead(r.s, t) == Ahead(k.s, t) - 1 && r.current != t
  {
    hide Core, Distance;
    IdleIsReady(k);
    if Selects(k, OpSwitch, Prio(k.s, t)) {
      var l := ListOf(k.s, Ready(Prio(k.s, t)));
      AdvanceApproaches(l, Gen(t));
      AdvanceDistance(l, Gen(t));
      OnlyGenericItems(k, Prio(k.s, t));
    } else {
      KeptSame(k.s, Step(k, OpSwitch).s, t);
    }
  }

  lemma AdvanceDistance<T>(l: XList<T>, x: T)
    requires Valid(l) && x in l.items
    ensures Valid(Advance(l)) && x in Advance(l).items
  {
  }

  lemma OnlyGenericItems(k: Kernel, p: nat)
    requires Inv(k)
    ensures forall i :: i in Items(k.s, Ready(p)) ==> i == Gen(i.task)
  {
    hide DelayInv, CacheInv, ReadyRecorded;
    forall i | i in Items(k.s, Ready(p)) ensures i == Gen(i.task) {
      assert In(k.s, i, Ready(p));
      assert PlacedTask(k.s, i.task);
    }
  }

  /** No step of the run acts on the task itself. */
  ghost predicate LeftAlone(k: Kernel, ops: seq<Op>, t: Task)
    requires Inv(k) && k.levels > 0 && Possible(k, ops)
    decreases |ops|
  {
    ops == [] || (!Names(k, ops[0], t) && (StepRefines(k, ops[0]); LeftAlone(Step(k, ops[0]), ops[1..], t)))
  }

  /** How many selections from the ready list of priority p the run makes. */
  ghost function Selections(k: Kernel, ops: seq<Op>, p: nat): (n: nat)
    requires Inv(k) && k.levels > 0 && Possible(k, ops)
    decreases |ops|
  {
    if ops == [] then 0
    else
      StepRefines(k, ops[0]);
      (if Selects(k, ops[0], p) then 1 else 0) + Selections(Step(k, ops[0]), ops[1..], p)
  }

  /** The task is selected somewhere in the run. */
  ghost predicate GetsSelected(k: Kernel, ops: seq<Op>, t: Task)
    requires Inv(k) && k.levels > 0 && Possible(k, ops)
    decreases |ops|
  {
    ops != [] && (StepRefines(k, ops[0]);
                  (ops[0].OpSwitch? && k.suspended == 0 && Step(k, ops[0]).current == t)
                  || GetsSelected(Step(k, ops[0]), ops[1..], t))
  }

  /** Over every run of the kernel, whatever other tasks are created, deleted, blocked, woken or have
      their priorities changed: a ready task that is d selections away is among the next d tasks
      selected at its priority. */
  lemma {:induction false} NobodyIsPassedOver(k: Kernel, ops: seq<Op>, t: Task)
    requires Inv(k) && k.levels > 0 && Possible(k, ops) && Queued(k.s, t) && LeftAlone(k, ops, t)
    requires Selections(k, ops, Prio(k.s, t)) >= Ahead(k.s, t)
    ensures GetsSelected(k, ops, t)
    decreases |ops|
  {
    hide Inv, Step, Enabled, Names, Queued, Selects;
    if ops != [] {
      var p, r := Prio(k.s, t), Step(k, ops[0]);
      StepRefines(k, ops[0]);
      if ops[0] == OpSwitch { SwitchPlace(k, t); } else { StepKeepsPlace(k, ops[0], t); NotASwitch(k, ops[0], p); }
      if !(ops[0] == OpSwitch && Selects(k, OpSwitch, p) && Ahead(k.s, t) == 1) {
        NobodyIsPassedOver(r, ops[1..], t);
      } else {
        SelectsRuns(k, p);
      }
    }
  }

  lemma NotASwitch(k: Kernel, op: Op, p: nat)
    requires Inv(k) && op != OpSwitch
    ensures !Selects(k, op, p)
  {
  }

  lemma SelectsRuns(k: Kernel, p: nat)
    requires Inv(k) && Selects(k, OpSwitch, p)
    ensures k.suspended == 0
  {
  }
}
