/** Blocking, ticks, scheduler suspension and task selection, and the theorems over whole runs. */
module KernelRuns {
  import opened XLists
  import opened Stores
  import opened ReadyLists
  import opened DelayLists
  import opened TaskMoves
  import opened Kernels
  import opened KernelSteps

  // ----- Blocking the running task

  ghost predicate Running(k: Kernel) { Home(k.s, k.current).Ready? }

  /** The running task off its ready list. */
  lemma DetachedRunning(k: Kernel)
    requires Core(k) && k.current in k.s.priority && Running(k)
    ensures var d := DetachRunning(k.s, k.current);
            && SoundWithout(d, k.current) && DelayInv(d, k.w) && Abs(d, k.w) == Clk(k)
            && d.container == k.s.container - {Gen(k.current)} && d.value == k.s.value && d.priority == k.s.priority
            && d == Remove(Detach(k.s, k.current), Ev(k.current))
            && (forall id: ListId :: !id.Ready? ==> ListOf(d, id) == ListOf(k.s, id))
  {
    hide Sound, SoundWithout, DelayInv, CacheInv, Detach, DetachRunning, Remove, Abs;
    var t := k.current;
    TaskFacts(k.s, t);
    DetachFacts(k.s, t);
    DetachBoth(k.s, t);
    var d := Detach(k.s, t);
    RemoveAbsent(d, Ev(t));
    SameDelays(k.s, d, k.w);
    BothSorted(k);
    UntimedRemoved(k.s, d, k.w, t);
  }

  /** Taking a ready task's generic item off its list leaves the clock alone. */
  lemma UntimedRemoved(s: Store, d: Store, w: Wheel, t: Task)
    requires d.container == s.container - {Gen(t)} && d.value == s.value && d.priority == s.priority
    requires !Timed(s, w, t) && w.current != Termination && w.overflow != Termination
    ensures Abs(d, w) == Abs(s, w)
  {
    forall u
      ensures Timed(d, w, u) == Timed(s, w, u)
      ensures Timed(s, w, u) ==> DeadlineOf(d, w, u) == DeadlineOf(s, w, u)
    {
      assert u != t ==> Home(d, u) == Home(s, u);
    }
    hide Timed, DeadlineOf;
    assert Abs(d, w).deadline == Abs(s, w).deadline;
  }

  lemma SameDelays(s: Store, d: Store, w: Wheel)
    requires DelayInv(s, w) && d.value == s.value
    requires ListOf(d, Delayed1) == ListOf(s, Delayed1) && ListOf(d, Delayed2) == ListOf(s, Delayed2)
    ensures DelayInv(d, w)
  {
    hide ListSorted;
    SortedAlike(s, d, w.current);
    SortedAlike(s, d, w.overflow);
  }

  lemma BlockCore(k: Kernel, ticks: nat)
    requires Core(k) && k.current in k.s.priority && Running(k) && 0 < ticks < W
    ensures var r := BlockCurrent(k, (k.w.tick + ticks) % W);
            && Core(r) && Clk(r) == Schedule(Clk(k), k.current, ticks)
            && Ev(k.current) !in r.s.container && r.s.priority == k.s.priority
            && (Home(r.s, k.current).Delayed1? || Home(r.s, k.current).Delayed2?)
            && (forall t :: t != k.current ==> Home(r.s, t) == Home(k.s, t))
            && ListOf(r.s, Termination) == ListOf(k.s, Termination)
            && ListOf(r.s, PendingReady) == ListOf(k.s, PendingReady)
  {
    hide Sound, SoundWithout, DelayInv, CacheInv, DetachRunning, Arm, Abs, Schedule;
    var t, wake := k.current, (k.w.tick + ticks) % W;
    WheelFacts(k.s, k.w);
    WakeTime(k.w, ticks);
    TaskFacts(k.s, t);
    DetachedRunning(k);
    var d := DetachRunning(k.s, t);
    ArmFacts(d, k.w, t, wake);
    ArmSchedules(d, k.w, t, ticks);
    var r := BlockCurrent(k, wake);
    BlockCache(k, d, r, wake);
  }

  lemma BlockCache(k: Kernel, d: Store, r: Kernel, wake: nat)
    requires Core(k) && Sound(r.s) && DelayInv(r.s, k.w) && r.w == k.w && wake < W
    requires ListOf(d, k.w.current) == ListOf(k.s, k.w.current) && d.value == k.s.value && SoundWithout(d, k.current)
    requires r.s.value == d.value[Gen(k.current) := wake]
    requires r.s.container == d.container[Gen(k.current) := if wake < k.w.tick then k.w.overflow else k.w.current]
    requires r.nextUnblock == if k.w.tick <= wake < k.nextUnblock then wake else k.nextUnblock
    requires wake != k.w.tick
    ensures CacheInv(r)
  {
    forall i | i in Items(r.s, k.w.current) ensures r.nextUnblock <= Val(r.s, i) {
      assert In(r.s, i, k.w.current);
      if i != Gen(k.current) {
        assert In(d, i, k.w.current);
        assert i in Items(d, k.w.current) && i in Items(k.s, k.w.current);
      }
    }
  }

  lemma BlockStep(k: Kernel, ticks: nat)
    requires Inv(k) && Running(k) && k.current != k.idle && 0 < ticks < W
    ensures Inv(Delay(k, ticks)) && Clk(Delay(k, ticks)) == Schedule(Clk(k), k.current, ticks)
    ensures Parked(Home(Delay(k, ticks).s, k.current)) && Ev(k.current) !in Delay(k, ticks).s.container
    ensures Delay(k, ticks).s.priority == k.s.priority
  {
    hide Core, Clk, BlockCurrent, Schedule;
    BlockCore(k, ticks);
    var r := BlockCurrent(k, (k.w.tick + ticks) % W);
    BlockShape(k, (k.w.tick + ticks) % W);
    StillBooked(k, r);
  }

  lemma BlockShape(k: Kernel, wake: nat)
    ensures var r := BlockCurrent(k, wake);
            r == k.(s := r.s, nextUnblock := r.nextUnblock)
  {
  }

  // ----- Joining an event list first or last makes no difference

  lemma InsertSameSpot(a: Store, b: Store, id: ListId, i: Item)
    requires ListOf(a, id) == ListOf(b, id) && Val(a, i) == Val(b, i)
    requires forall j :: j in Items(a, id) ==> Val(a, j) == Val(b, j)
    ensures InsertPosition(a, id, i) == InsertPosition(b, id, i)
  {
    assert ValuesOf(a, Items(a, id)) == ValuesOf(b, Items(b, id));
  }

  lemma SwapUpdates<K, V>(m: map<K, V>, a: K, x: V, b: K, y: V)
    requires a != b
    ensures m[a := x][b := y] == m[b := y][a := x]
  {
  }

  lemma SwapRemoval<K, V>(m: map<K, V>, a: K, x: V, b: K)
    requires a != b
    ensures m[a := x] - {b} == (m - {b})[a := x]
  {
  }

  lemma InsertThenDetach(s: Store, q: nat, t: Task)
    requires Gen(t) in s.container && !s.container[Gen(t)].Event?
    ensures DetachRunning(Insert(s, Event(q), Ev(t)), t) == Insert(DetachRunning(s, t), Event(q), Ev(t))
  {
    hide Insert, Remove;
    var a, d := Insert(s, Event(q), Ev(t)), Remove(s, Gen(t));
    InsertThenRemove(s, q, t);
    InsertBits(d, q, Ev(t), d.bits - {Prio(s, t)});
    InsertAside(s, q, Ev(t), Home(s, t));
    InsertAside(d, q, Ev(t), Home(s, t));
    InsertKeepsGen(s, q, t);
  }

  lemma InsertKeepsGen(s: Store, q: nat, t: Task)
    ensures var a := Insert(s, Event(q), Ev(t));
            Home(a, t) == Home(s, t) && (Gen(t) in a.container <==> Gen(t) in s.container) && Prio(a, t) == Prio(s, t)
  {
    hide InsertAt, InsertPosition;
  }

  lemma InsertAside(s: Store, q: nat, i: Item, id: ListId)
    requires id != Event(q)
    ensures ListOf(Insert(s, Event(q), i), id) == ListOf(s, id)
  {
    hide InsertAt, InsertPosition;
  }

  lemma InsertBits(s: Store, q: nat, i: Item, bits: set<nat>)
    ensures Insert(s.(bits := bits), Event(q), i) == Insert(s, Event(q), i).(bits := bits)
    ensures Insert(s, Event(q), i).bits == s.bits
  {
    hide InsertAt, InsertPosition;
    InsertSameSpot(s, s.(bits := bits), Event(q), i);
  }

  lemma InsertThenRemove(s: Store, q: nat, t: Task)
    requires Gen(t) in s.container && !s.container[Gen(t)].Event?
    ensures Remove(Insert(s, Event(q), Ev(t)), Gen(t)) == Insert(Remove(s, Gen(t)), Event(q), Ev(t))
  {
    hide InsertAt, RemoveAt, IndexOf, InsertPosition;
    var a, d, id, g := Insert(s, Event(q), Ev(t)), Remove(s, Gen(t)), Home(s, t), Gen(t);
    InsertSameSpot(s, d, Event(q), Ev(t));
    InsertAside(s, q, Ev(t), id);
    if g in Items(s, id) {
      SwapUpdates(s.lists, Event(q), a.lists[Event(q)], id, RemoveAt(ListOf(s, id), IndexOf(Items(s, id), g)));
      SwapRemoval(s.container, Ev(t), Event(q), g);
    }
  }

  lemma InsertThenAppend(s: Store, q: nat, t: Task, id: ListId)
    requires !id.Event?
    ensures Append(Insert(s, Event(q), Ev(t)), id, Gen(t)) == Insert(Append(s, id, Gen(t)), Event(q), Ev(t))
  {
    hide InsertAt, InsertEnd, InsertPosition;
    var a, d := Insert(s, Event(q), Ev(t)), Append(s, id, Gen(t));
    InsertSameSpot(s, d, Event(q), Ev(t));
    SwapUpdates(s.lists, Event(q), a.lists[Event(q)], id, d.lists[id]);
    SwapUpdates(s.container, Ev(t), Event(q), Gen(t), id);
  }

  lemma InsertThenArm(s: Store, w: Wheel, q: nat, t: Task, wake: nat)
    requires !w.current.Event? && !w.overflow.Event? && Gen(t) !in Items(s, Event(q))
    ensures Arm(Insert(s, Event(q), Ev(t)), w, t, wake) == Insert(Arm(s, w, t, wake), Event(q), Ev(t))
  {
    hide InsertAt, InsertPosition;
    var id := if wake < w.tick then w.overflow else w.current;
    var a, d := Insert(s, Event(q), Ev(t)), Arm(s, w, t, wake);
    var m, n := s.(value := s.value[Gen(t) := wake]), a.(value := a.value[Gen(t) := wake]);
    InsertSameSpot(s, d, Event(q), Ev(t));
    InsertSameSpot(m, n, id, Gen(t));
    SwapUpdates(s.lists, Event(q), a.lists[Event(q)], id, d.lists[id]);
    SwapUpdates(s.container, Ev(t), Event(q), Gen(t), id);
  }

  /** vTaskPlaceOnEventList joins the event list before it leaves the ready list. */
  lemma EventJoined(k: Kernel, q: nat, ticks: nat)
    requires Inv(k)
    ensures var t, a := k.current, Insert(k.s, Event(q), Ev(k.current));
            var d, wake := DetachRunning(a, t), (k.w.tick + ticks) % W;
            && Gen(t) in a.container && Gen(t) in Items(a, a.container[Gen(t)])
            && Wait(k, q, ticks) ==
                 if ticks == W - 1 then k.(s := Append(d, Suspended, Gen(t)))
                 else k.(s := Arm(d, k.w, t, wake), nextUnblock := Delay(k, ticks).nextUnblock)
  {
    hide Sound, DelayInv, CacheInv, Insert, DetachRunning, Append, Arm, Priorities, Counters, Settled;
    var t, a, wake := k.current, Insert(k.s, Event(q), Ev(k.current)), (k.w.tick + ticks) % W;
    TaskFacts(k.s, t);
    WheelFacts(k.s, k.w);
    InsertThenDetach(k.s, q, t);
    JoinedApart(k.s, q, t);
    var d := DetachRunning(k.s, t);
    if ticks == W - 1 { InsertThenAppend(d, q, t, Suspended); } else { InsertThenArm(d, k.w, q, t, wake); }
  }

  lemma JoinedApart(s: Store, q: nat, t: Task)
    requires Sound(s) && t in s.priority && Gen(t) in s.container && !s.container[Gen(t)].Event?
    ensures var a, d := Insert(s, Event(q), Ev(t)), DetachRunning(s, t);
            && Gen(t) in a.container && a.container[Gen(t)] == s.container[Gen(t)]
            && ListOf(a, a.container[Gen(t)]) == ListOf(s, s.container[Gen(t)])
            && Gen(t) !in Items(d, Event(q))
  {
    assert In(s, Gen(t), s.container[Gen(t)]);
  }

  // ----- vTaskDelayUntil

  /** With P the true time of the previous wake-up, not in the future and under 2^32 ticks old, the
      wrapped comparison delays exactly when the true deadline P + increment is ahead, and then the
      wrapped wake time is that deadline. */
  lemma DelayUntilExact(now: nat, P: nat, increment: nat)
    requires P <= now < P + W && 0 < increment < W
    ensures var wake := (P % W + increment) % W;
            && wake == (P + increment) % W
            && (ShouldDelay(now % W, P % W, wake) <==> P + increment > now)
            && (P + increment > now ==> wake == (now % W + (P + increment - now)) % W && P + increment - now < W)
  {
    var tick, previous := now % W, P % W;
    var e := now - P;
    Wrap(P, e);
    Wrap(P, increment);
    assert tick == if previous + e < W then previous + e else previous + e - W;
    var wake := (previous + increment) % W;
    Wrap(previous, increment);
    assert wake == if previous + increment < W then previous + increment else previous + increment - W;
    if P + increment > now {
      Wrap(now, P + increment - now);
      assert now + (P + increment - now) == P + increment;
      Wrap(tick, P + increment - now);
    }
  }

  /** Adding less than 2^32 to a number, modulo 2^32. */
  lemma Wrap(a: nat, d: nat)
    requires d < W
    ensures (a + d) % W == (a % W + d) % W
    ensures (a + d) % W == if a % W + d < W then a % W + d else a % W + d - W
  {
    var q, r := a / W, a % W;
    assert a == W * q + r;
    if r + d < W {
      assert (a + d) == W * q + (r + d);
      Unique(a + d, q, r + d);
      Unique(r + d, 0, r + d);
    } else {
      assert (a + d) == W * (q + 1) + (r + d - W);
      Unique(a + d, q + 1, r + d - W);
      Unique(r + d, 1, r + d - W);
    }
  }

  lemma Unique(a: nat, q: nat, r: nat)
    requires a == W * q + r && r < W
    ensures a % W == r
  {
  }

  /** When the test passes, the wake time is 1 to 2^32-1 ticks ahead of the tick. */
  function TicksAhead(tick: nat, wake: nat): (n: nat)
    requires tick < W && wake < W
    ensures n < W && (tick + n) % W == wake
  {
    if wake >= tick then wake - tick else wake + W - tick
  }

  lemma DelayUntilStep(k: Kernel, previous: nat, increment: nat)
    requires Inv(k) && Running(k) && k.current != k.idle && previous < W && 0 < increment < W
    ensures var r, wake := DelayUntil(k, previous, increment), (previous + increment) % W;
            && Inv(r)
            && Clk(r) == if ShouldDelay(k.w.tick, previous, wake)
                         then Schedule(Clk(k), k.current, TicksAhead(k.w.tick, wake)) else Clk(k)
  {
    hide Inv, Clk, BlockCurrent, Schedule, ShouldDelay, TicksAhead;
    TickRange(k);
    UntilWake(k.w.tick, previous, increment);
    var wake := (previous + increment) % W;
    if ShouldDelay(k.w.tick, previous, wake) {
      BlockStep(k, TicksAhead(k.w.tick, wake));
      DelayIs(k, TicksAhead(k.w.tick, wake), wake);
    }
  }

  lemma TickRange(k: Kernel)
    requires Inv(k)
    ensures k.w.tick < W
  {
    hide Sound, CacheInv, ListSorted, Counters, Priorities, Roles, Settled;
  }

  /** The wake time is a tick value, and another one than the present tick when the test passes. */
  lemma UntilWake(tick: nat, previous: nat, increment: nat)
    requires tick < W && previous < W
    ensures var wake := (previous + increment) % W;
            && wake < W
            && (ShouldDelay(tick, previous, wake) ==> wake != tick && 0 < TicksAhead(tick, wake))
  {
  }

  lemma DelayIs(k: Kernel, ticks: nat, wake: nat)
    requires (k.w.tick + ticks) % W == wake
    ensures Delay(k, ticks) == BlockCurrent(k, wake)
  {
    hide BlockCurrent;
  }

  /** Called with the true previous wake time P, not in the future and under 2^32 ticks old,
      vTaskDelayUntil sets the caller's deadline to exactly P + increment if that is ahead, and
      otherwise changes nothing. */
  lemma DelayUntilArms(k: Kernel, P: nat, increment: nat)
    requires Inv(k) && Running(k) && k.current != k.idle
    requires P <= Now(k.w) < P + W && 0 < increment < W
    ensures var r, c := DelayUntil(k, P % W, increment), Clk(k);
            Clk(r) == if P + increment > Now(k.w) then c.(deadline := c.deadline[k.current := P + increment]) else c
  {
    hide Core, Priorities, Counters, Settled, DelayUntil, Clk, Schedule, ShouldDelay, Now;
    CoreDelays(k);
    WheelFacts(k.s, k.w);
    TickIsNow(k.w);
    DelayUntilExact(Now(k.w), P, increment);
    DelayUntilStep(k, P % W, increment);
    if P + increment > Now(k.w) {
      AheadUnique(k.w.tick, (P + increment) % W, P + increment - Now(k.w));
      ScheduledAt(k, k.current, P + increment - Now(k.w));
    }
  }

  lemma ScheduledAt(k: Kernel, t: Task, n: nat)
    ensures Schedule(Clk(k), t, n) == Clk(k).(deadline := Clk(k).deadline[t := Now(k.w) + n])
  {
  }

  lemma CoreDelays(k: Kernel)
    requires Core(k)
    ensures DelayInv(k.s, k.w)
  {
    hide Sound, DelayInv, CacheInv;
  }

  lemma TickIsNow(w: Wheel)
    requires w.tick < W
    ensures Now(w) % W == w.tick
  {
    Unique(Now(w), w.wraps, w.tick);
  }

  lemma AheadUnique(tick: nat, wake: nat, n: nat)
    requires tick < W && n < W && wake == (tick + n) % W
    ensures TicksAhead(tick, wake) == n
  {
    Wrap(tick, n);
  }

  // ----- vTaskPlaceOnEventList

  lemma JoinStep(k: Kernel, q: nat, t: Task)
    requires Inv(k) && t in k.s.priority && Parked(Home(k.s, t)) && Ev(t) !in k.s.container
    ensures var r := k.(s := Insert(k.s, Event(q), Ev(t)));
            Inv(r) && Clk(r) == Clk(k) && In(r.s, Ev(t), Event(q)) && r.s.priority == k.s.priority
  {
    hide Core, Clk, Insert;
    CoreSound(k);
    JoinEventFacts(k.s, t, q);
    JoinCore(k, q, t);
    var r := k.(s := Insert(k.s, Event(q), Ev(t)));
    assert ListOf(r.s, Termination) == ListOf(k.s, Termination)
        && ListOf(r.s, PendingReady) == ListOf(k.s, PendingReady);
    StillBooked(k, r);
  }

  lemma JoinCore(k: Kernel, q: nat, t: Task)
    requires Core(k) && t in k.s.priority && Parked(Home(k.s, t)) && Ev(t) !in k.s.container
    ensures var r := k.(s := Insert(k.s, Event(q), Ev(t))); Core(r) && Clk(r) == Clk(k)
  {
    hide Sound, DelayInv, CacheInv, ListSorted, Clk, Cancel, Insert;
    var r := k.(s := Insert(k.s, Event(q), Ev(t)));
    JoinEventFacts(k.s, t, q);
    BothSorted(k);
    SortedAlike(k.s, r.s, Delayed1);
    SortedAlike(k.s, r.s, Delayed2);
    StillCore(k, r, {});
    CancelNone(Clk(k));
  }

  lemma WaitStep(k: Kernel, q: nat, ticks: nat)
    requires Inv(k) && Running(k) && k.current != k.idle && 0 < ticks < W
    ensures Inv(Wait(k, q, ticks)) && In(Wait(k, q, ticks).s, Ev(k.current), Event(q))
    ensures Clk(Wait(k, q, ticks)) == if ticks == W - 1 then Clk(k) else Schedule(Clk(k), k.current, ticks)
    ensures Wait(k, q, ticks).s.priority == k.s.priority
  {
    hide Core, Clk, Delay, Insert, Append, DetachRunning, Schedule;
    var t := k.current;
    if ticks == W - 1 {
      IndefiniteWait(k);
      JoinStep(k.(s := Append(DetachRunning(k.s, t), Suspended, Gen(t))), q, t);
    } else {
      BlockStep(k, ticks);
      DelayKeepsCurrent(k, ticks);
      JoinStep(Delay(k, ticks), q, t);
    }
  }

  lemma DelayKeepsCurrent(k: Kernel, ticks: nat)
    ensures Delay(k, ticks).current == k.current
  {
  }

  lemma IndefiniteWait(k: Kernel)
    requires Inv(k) && Running(k) && k.current != k.idle
    ensures var r := k.(s := Append(DetachRunning(k.s, k.current), Suspended, Gen(k.current)));
            && Inv(r) && Clk(r) == Clk(k) && Home(r.s, k.current) == Suspended && Ev(k.current) !in r.s.container
            && r.s.priority == k.s.priority
  {
    hide Sound, DelayInv, CacheInv, Clk, Cancel, DetachRunning, Detach, Remove, Append;
    var t := k.current;
    TaskFacts(k.s, t);
    DetachedRunning(k);
    assert Retire(k.s, t, Suspended) == Append(DetachRunning(k.s, t), Suspended, Gen(t));
    SuspendStep(k, t);
    RetireFacts(k.s, t, Suspended);
    NotTimed(k, t);
  }

  // ----- Ticks

  /** The invariant with possibly unprocessed ticks and nothing pending. */
  ghost predicate Catching(k: Kernel) {
    Core(k) && Priorities(k) && Counters(k) && Roles(k) && Items(k.s, PendingReady) == []
  }

  /** One processed tick, taken from the interrupt just counted or from the missed ones. */
  lemma TickOnce(k: Kernel)
    requires Core(k) && Priorities(k) && Roles(k) && Items(k.s, PendingReady) == []
    requires k.numTasks == |k.s.priority| && k.deleted == |Items(k.s, Termination)|
    ensures var r := ProcessTick(k);
            && Core(r) && Priorities(r) && Roles(r) && Items(r.s, PendingReady) == []
            && r.numTasks == |r.s.priority| && r.deleted == |Items(r.s, Termination)|
            && Now(r.w) == Now(k.w) + 1 && Clk(r) == Elapse(Clk(k)) && r.s.priority == k.s.priority
            && r == k.(s := r.s, w := r.w, nextUnblock := r.nextUnblock)
  {
    hide Sound, DelayInv, CacheInv, Tick, Abs, Elapse, Drain;
    CachedAgrees(k);
    TickRefines(k.s, k.w);
    CoreSound(k);
    var r := ProcessTick(k);
    TickShape(k);
    PendingStaysEmptyEv(k.s, r.s);
    TaskFacts(k.s, k.idle);
    IdleNotTimed(k);
    WheelFacts(k.s, k.w);
  }

  lemma TickShape(k: Kernel)
    requires Core(k)
    ensures var r := ProcessTick(k);
            r == k.(s := r.s, w := r.w, nextUnblock := r.nextUnblock) && Now(r.w) == Now(k.w) + 1
  {
    hide Sound, CacheInv, Drain;
  }

  lemma IdleNotTimed(k: Kernel)
    requires Core(k) && Roles(k)
    ensures k.idle !in Clk(k).deadline
  {
    hide Sound, CacheInv, ListSorted;
  }

  lemma PendingStaysEmptyEv(s: Store, r: Store)
    requires Sound(s) && Sound(r) && Items(s, PendingReady) == []
    requires forall t :: Ev(t) in r.container ==> Ev(t) in s.container && r.container[Ev(t)] == s.container[Ev(t)]
    ensures Items(r, PendingReady) == []
  {
    forall i | In(r, i, PendingReady) ensures In(s, i, PendingReady) {
      assert i.task in r.priority && PlacedTask(r, i.task);
      assert i == Ev(i.task);
    }
    hide Sound;
    PendingStaysEmpty(s, r);
  }

  lemma TickStep(k: Kernel)
    requires Inv(k)
    ensures Inv(TickInterrupt(k))
    ensures Clk(TickInterrupt(k)) == if k.suspended == 0 then Elapse(Clk(k)) else Clk(k)
  {
    hide Core, Clk, Elapse, ProcessTick;
    var c := k.(interrupts := k.interrupts + 1);
    SameCore(k, c);
    SameCore(k, c.(missed := k.missed + 1));
    if k.suspended == 0 { TickOnce(c); }
  }

  lemma {:induction false} ReplayStep(k: Kernel)
    requires Catching(k)
    ensures var r := Replay(k);
            && Catching(r) && r.missed == 0 && r.interrupts == k.interrupts
            && Clk(r) == ElapseBy(Clk(k), k.missed) && r.s.priority == k.s.priority
            && r.suspended == k.suspended && r.base == k.base
    decreases k.missed
  {
    hide Core, Clk, Elapse, ProcessTick;
    if k.missed > 0 {
      TickOnce(k);
      var p := ProcessTick(k);
      var m := p.(missed := k.missed - 1);
      SameCore(p, m);
      ReplayStep(m);
    }
  }

  // ----- xTaskResumeAll

  function PendingTasks(s: Store): set<Task> { set i | i in Items(s, PendingReady) :: i.task }

  lemma PendingAfterHead(s: Store)
    requires Sound(s) && Items(s, PendingReady) != []
    ensures var t := Items(s, PendingReady)[0].task;
            PendingTasks(s) == {t} + PendingTasks(MakeReady(s, t))
  {
    hide MakeReady, Placed, ReadyRecorded;
    PendingHead(s);
    var t := Items(s, PendingReady)[0].task;
    MakeReadyFacts(s, t);
    var r := MakeReady(s, t);
    assert forall i :: In(r, i, PendingReady) <==> In(s, i, PendingReady) && i != Ev(t);
    forall i | i in Items(s, PendingReady) ensures i.task == t || i in Items(r, PendingReady) {
      assert In(s, i, PendingReady);
      if i != Ev(t) { assert In(r, i, PendingReady); } 
    }
    forall i | i in Items(r, PendingReady) ensures i in Items(s, PendingReady) {
      assert In(r, i, PendingReady) && In(s, i, PendingReady);
    }
  }

  lemma {:induction false} DrainPendingStep(k: Kernel)
    requires Core(k) && Roles(k)
    ensures var r := k.(s := DrainPending(k.s));
            && Core(r) && Roles(r) && Items(r.s, PendingReady) == []
            && Clk(r) == Cancel(Clk(k), PendingTasks(k.s))
            && r.s.priority == k.s.priority && ListOf(r.s, Termination) == ListOf(k.s, Termination)
    decreases |Items(k.s, PendingReady)|
  {
    hide Sound, DelayInv, CacheInv, Abs, MakeReady, PendingTasks, Cancel;
    if Items(k.s, PendingReady) == [] {
      NonePending(k);
    } else {
      PendingHead(k.s);
      PendingAfterHead(k.s);
      var t := Items(k.s, PendingReady)[0].task;
      ReadyCore(k, t);
      TaskFacts(k.s, t);
      MakeReadyFacts(k.s, t);
      var m := k.(s := MakeReady(k.s, t));
      DrainPendingStep(m);
      CancelBoth(Clk(k), {t}, PendingTasks(m.s));
    }
  }

  lemma NonePending(k: Kernel)
    requires Items(k.s, PendingReady) == []
    ensures Cancel(Clk(k), PendingTasks(k.s)) == Clk(k)
  {
    assert PendingTasks(k.s) == {};
    CancelNone(Clk(k));
  }

  lemma CancelBoth(c: Clock, a: set<Task>, b: set<Task>)
    ensures Cancel(Cancel(c, a), b) == Cancel(c, a + b)
  {
    assert (c.deadline - a) - b == c.deadline - (a + b);
  }

  /** xTaskResumeAll: on the last nesting level the pending tasks become ready first, then the
      missed ticks are processed one by one. */
  function ResumeAll(k: Kernel): (r: Kernel)
    requires Core(k) && Roles(k) && k.suspended > 0
  {
    var c := k.(suspended := k.suspended - 1);
    if c.suspended > 0 then c
    else
      SameCore(k, c);
      DrainPendingStep(c);
      Replay(c.(s := DrainPending(c.s))).(missedYield := false)
  }

  lemma ResumeAllStep(k: Kernel)
    requires Inv(k) && k.suspended > 0
    ensures Inv(ResumeAll(k)) && ResumeAll(k).suspended == k.suspended - 1
    ensures Clk(ResumeAll(k)) == if k.suspended > 1 then Clk(k)
                                 else ElapseBy(Cancel(Clk(k), PendingTasks(k.s)), k.missed)
  {
    hide Core, Clk, DrainPending, Replay, PendingTasks, Cancel, ElapseBy;
    var c := k.(suspended := k.suspended - 1);
    SameCore(k, c);
    CoreSound(c);
    if c.suspended == 0 {
      DrainPendingStep(c);
      var d := c.(s := DrainPending(c.s));
      ReplayStep(d);
      var p := Replay(d);
      SameCore(p, p.(missedYield := false));
    }
  }

  // ----- vTaskSwitchContext

  lemma IdleIsReady(k: Kernel)
    requires Core(k) && Roles(k)
    ensures SomeReady(k.s)
  {
    hide DelayInv, CacheInv;
    TaskFacts(k.s, k.idle);
    var p := Home(k.s, k.idle).level;
    assert Items(k.s, Ready(p)) != [];
  }

  /** No ready list above uxTopReadyPriority is populated, so the search stops; the task selected is
      ready and of maximal priority, and its priority is the highest bit of the port's bitmap. */
  lemma SwitchSelectsHighest(k: Kernel)
    requires Inv(k) && k.suspended == 0
    ensures SomeReady(k.s)
    ensures var r := Switch(k);
            && Inv(r) && Clk(r) == Clk(k)
            && Home(r.s, r.current) == Ready(Prio(r.s, r.current))
            && (forall t :: t in r.s.priority && Home(r.s, t).Ready? ==> Prio(r.s, t) <= Prio(r.s, r.current))
            && Prio(r.s, r.current) in r.s.bits && (forall p :: p in r.s.bits ==> p <= Prio(r.s, r.current))
            && r.s.priority == k.s.priority && r.base == k.base
            && (forall t :: Home(r.s, t) == Home(k.s, t))
            && (forall q :: ListOf(r.s, Event(q)) == ListOf(k.s, Event(q)))
  {
    hide DelayInv, CacheInv, ListSorted, Integrity, Placed;
    IdleIsReady(k);
    var r := Switch(k);
    var p := TopLevel(k.s, k.s.top);
    SwitchSound(k.s, p);
    SelectedTask(k.s, p);
    StillSelected(k, r);
    forall t | t in r.s.priority && Home(r.s, t).Ready? ensures Prio(r.s, t) <= p {
      TaskFacts(r.s, t);
      assert Items(r.s, Ready(Prio(r.s, t))) != [];
    }
    forall q | q in r.s.bits ensures q <= p { assert Items(r.s, Ready(q)) != []; }
  }

  lemma SwitchSound(s: Store, p: nat)
    requires Sound(s) && p <= s.top && Items(s, Ready(p)) != []
    requires forall q: nat :: p < q <= s.top ==> Items(s, Ready(q)) == []
    ensures Sound(s.(top := p, lists := s.lists[Ready(p) := Advance(ListOf(s, Ready(p)))]))
  {
    var r := s.(top := p, lists := s.lists[Ready(p) := Advance(ListOf(s, Ready(p)))]);
    assert forall id :: Items(r, id) == Items(s, id);
    assert forall i, id :: In(r, i, id) == In(s, i, id);
    forall u | u in r.priority ensures PlacedTask(r, u) { assert PlacedTask(s, u); }
  }

  lemma SelectedTask(s: Store, p: nat)
    requires Sound(s) && Items(s, Ready(p)) != []
    ensures var l := Advance(ListOf(s, Ready(p)));
            var i := l.items[l.cursor - 1];
            i.task in s.priority && Home(s, i.task) == Ready(p) && Prio(s, i.task) == p
  {
    var l := Advance(ListOf(s, Ready(p)));
    var i := l.items[l.cursor - 1];
    assert i in Items(s, Ready(p));
    assert In(s, i, Ready(p));
    assert PlacedTask(s, i.task);
  }

  lemma StillSelected(k: Kernel, r: Kernel)
    requires Inv(k) && Sound(r.s) && r.s.value == k.s.value && r.s.priority == k.s.priority
            && r.s.container == k.s.container
    requires forall id: ListId :: !id.Ready? ==> ListOf(r.s, id) == ListOf(k.s, id)
    requires r == k.(s := r.s, current := r.current) && r.current in r.s.priority
    ensures Inv(r) && Clk(r) == Clk(k)
  {
    hide Sound, DelayInv, CacheInv, ListSorted, Cancel;
    BothSorted(k);
    SortedAlike(k.s, r.s, Delayed1);
    SortedAlike(k.s, r.s, Delayed2);
    StillCore(k, r, {});
    CancelNone(Clk(k));
    assert Items(r.s, Termination) == Items(k.s, Termination) && Items(r.s, PendingReady) == Items(k.s, PendingReady);
  }

  lemma SwitchStep(k: Kernel)
    requires Inv(k)
    ensures SomeReady(k.s) && Inv(Switch(k)) && Clk(Switch(k)) == Clk(k)
  {
    hide Core, Clk;
    IdleIsReady(k);
    if k.suspended == 0 { SwitchSelectsHighest(k); } else { SameCore(k, k.(missedYield := true)); }
  }
}
