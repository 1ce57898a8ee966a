/** croutine.c: the co-routine scheduler, a second implementation of the delay and selection
    algorithms.  It scans the delayed list on every tick, without a cached unblock time, and catches
    up over several ticks in one call. */
module CoRoutines {
  import opened XLists
  import opened Stores
  import opened ReadyLists
  import opened DelayLists
  import opened TaskMoves
  import opened Kernels
  import opened KernelSteps
  import opened KernelRuns
  import opened KernelFairness

  function TurnBy(w: Wheel, n: nat): Wheel
    decreases n
  {
    if n == 0 then w else TurnBy(Turn(w), n - 1)
  }

  /** n ticks, each followed by a scan of the current delayed list. */
  function TickBy(s: Store, w: Wheel, n: nat): (r: Store)
    requires Sound(s) && DelayInv(s, w)
    decreases n
  {
    if n == 0 then s else TickRefines(s, w); TickBy(Tick(s, w), Turn(w), n - 1)
  }

  /** Catching up over n ticks is n ticks of the unbounded clock. */
  lemma {:induction false} CatchUpRefines(s: Store, w: Wheel, n: nat)
    requires Sound(s) && DelayInv(s, w)
    ensures var r, v := TickBy(s, w, n), TurnBy(w, n);
            && Sound(r) && DelayInv(r, v) && Abs(r, v) == ElapseBy(Abs(s, w), n)
            && r.priority == s.priority && Now(v) == Now(w) + n
    decreases n
  {
    hide Sound, DelayInv, Tick, Abs, Elapse;
    if n > 0 {
      WheelFacts(s, w);
      TickRefines(s, w);
      CatchUpRefines(Tick(s, w), Turn(w), n - 1);
    }
  }

  function ProcessTicks(k: Kernel, n: nat): (r: Kernel)
    requires Core(k)
    decreases n
  {
    if n == 0 then k else CachedAgrees(k); ProcessTicks(ProcessTick(k), n - 1)
  }

  /** The task kernel with its cached unblock time and the co-routine scheduler with its scan on every
      tick wake the same entries on the same ticks: from the same lists, any number of ticks leads to
      the same lists. */
  lemma {:induction false} CacheAgreesWithScan(k: Kernel, n: nat)
    requires Core(k)
    ensures ProcessTicks(k, n).s == TickBy(k.s, k.w, n) && ProcessTicks(k, n).w == TurnBy(k.w, n)
    decreases n
  {
    hide Sound, DelayInv, CacheInv, ProcessTick, Tick;
    if n > 0 {
      CachedAgrees(k);
      TickRefines(k.s, k.w);
      CacheAgreesWithScan(ProcessTick(k), n - 1);
    }
  }

  /** The unsigned 32-bit difference xTaskGetTickCount() - xLastTickCount. */
  function Passed(now: nat, last: nat): (n: nat)
    requires now < W && last < W
    ensures n < W
  {
    if now >= last then now - last else now + W - last
  }

  lemma {:induction false} TurnReaches(w: Wheel, n: nat)
    requires w.tick < W
    ensures TurnBy(w, n).tick < W && TurnBy(w, n).tick == (w.tick + n) % W
    decreases n
  {
    if n > 0 {
      TurnReaches(Turn(w), n - 1);
      if w.tick + 1 == W { Wrapped(n - 1); }
    }
  }

  lemma Wrapped(n: nat)
    ensures (W - 1 + (n + 1)) % W == n % W
  {
    assert (W - 1 + (n + 1)) == W + n;
  }

  // ----- Equal shares

  /** A selection moves the line of its priority on by one: the co-routine next in line is the one
      selected and goes to the end, everybody else comes one closer, and the other lines stand still. */
  ghost predicate LineMoves(s: Store, r: Store, chosen: Task) {
    forall t {:trigger Queued(s, t)} {:trigger Queued(r, t)} :: Queued(s, t) ==>
      && Prio(r, t) == Prio(s, t) && Queued(r, t)
      && |Items(r, Ready(Prio(r, t)))| == |Items(s, Ready(Prio(s, t)))|
      && (Prio(s, t) == Prio(s, chosen) ==> (t == chosen <==> Ahead(s, t) == 1))
      && Ahead(r, t) == if Prio(s, t) != Prio(s, chosen) then Ahead(s, t)
                        else if t == chosen then |Items(s, Ready(Prio(s, t)))| else Ahead(s, t) - 1
  }

  lemma SelectionMovesLine(s: Store, p: nat, top: nat)
    requires Sound(s) && Items(s, Ready(p)) != []
    ensures var l: Chain := Advance(ListOf(s, Ready(p)));
            LineMoves(s, s.(top := top, lists := s.lists[Ready(p) := l]), l.items[l.cursor - 1].task)
  {
    hide Sound, Distance, Queued, Valid;
    SelectedTask(s, p);
    var l: Chain := Advance(ListOf(s, Ready(p)));
    var r, x := s.(top := top, lists := s.lists[Ready(p) := l]), l.items[l.cursor - 1];
    forall t | Queued(s, t) && Prio(s, t) == p
      ensures Queued(r, t) && |l.items| == |Items(s, Ready(p))| && (t == x.task <==> Ahead(s, t) == 1)
      ensures Ahead(r, t) == if t == x.task then |l.items| else Ahead(s, t) - 1
    {
      LineMovesAt(s, r, p, t);
    }
    forall t | Queued(s, t) && Prio(s, t) != p ensures Queued(r, t) && Ahead(r, t) == Ahead(s, t) {
      StandsStill(s, r, t);
    }
  }

  lemma StandsStill(s: Store, r: Store, t: Task)
    requires Queued(s, t) && Prio(r, t) == Prio(s, t) && ListOf(r, Ready(Prio(s, t))) == ListOf(s, Ready(Prio(s, t)))
    ensures Queued(r, t) && Ahead(r, t) == Ahead(s, t)
  {
  }

  lemma LineMovesAt(s: Store, r: Store, p: nat, t: Task)
    requires Sound(s) && Queued(s, t) && Prio(s, t) == p && r.priority == s.priority
    requires ListOf(r, Ready(p)) == Advance(ListOf(s, Ready(p)))
    ensures var l := ListOf(r, Ready(p));
            var x := l.items[l.cursor - 1];
            && Queued(r, t) && |l.items| == |Items(s, Ready(p))| && (t == x.task <==> Ahead(s, t) == 1)
            && Ahead(r, t) == if t == x.task then |l.items| else Ahead(s, t) - 1
  {
    hide Integrity, ReadyRecorded, Placed;
    var l := ListOf(s, Ready(p));
    AdvanceApproaches(l, Gen(t));
    AdvanceDistance(l, Gen(t));
    GenericEntries(s, p);
    var m := Advance(l);
    assert m.items[m.cursor - 1] in m.items;
    if Distance(l, Gen(t)) == 1 { IndexUnique(m.items, m.cursor - 1); }
  }

  lemma GenericEntries(s: Store, p: nat)
    requires Sound(s)
    ensures forall i :: i in Items(s, Ready(p)) ==> i == Gen(i.task)
  {
    forall i | i in Items(s, Ready(p)) ensures i == Gen(i.task) {
      assert In(s, i, Ready(p));
      assert PlacedTask(s, i.task);
    }
  }

  /** Co-routines of one priority get an equal share: while selections follow each other at a priority
      with n ready co-routines, each of them is selected exactly once in n, in its turn. */
  lemma {:induction false} EqualShare(states: seq<Store>, chosen: seq<Task>, t: Task, k: nat)
    requires |states| == |chosen| + 1 && k < |chosen| && Queued(states[0], t)
    requires forall j :: 0 <= j < |chosen| ==> LineMoves(states[j], states[j + 1], chosen[j])
    requires forall j :: 0 <= j < |chosen| ==> Prio(states[j], chosen[j]) == Prio(states[0], t)
    ensures var n := |Items(states[0], Ready(Prio(states[0], t)))|;
            n > 0 && (chosen[k] == t <==> k % n == Ahead(states[0], t) - 1)
    decreases k
  {
    hide Queued, LineMoves;
    FirstMove(states[0], states[1], chosen[0], t);
    var n, a := |Items(states[0], Ready(Prio(states[0], t)))|, Ahead(states[0], t);
    if k == 0 {
      FirstTurn(n);
    } else {
      OneTurn(k, n, a);
      EqualShare(states[1..], chosen[1..], t, k - 1);
    }
  }

  lemma FirstTurn(n: nat)
    requires n > 0
    ensures 0 % n == 0
  {
  }

  lemma FirstMove(s: Store, r: Store, chosen: Task, t: Task)
    requires Queued(s, t) && LineMoves(s, r, chosen) && Prio(s, chosen) == Prio(s, t)
    ensures Prio(r, t) == Prio(s, t) && Queued(r, t)
    ensures var n := |Items(s, Ready(Prio(s, t)))|;
            && |Items(r, Ready(Prio(r, t)))| == n && 1 <= Ahead(s, t) <= n
            && (t == chosen <==> Ahead(s, t) == 1)
            && Ahead(r, t) == if Ahead(s, t) == 1 then n else Ahead(s, t) - 1
  {
  }

  lemma OneTurn(k: nat, n: nat, a: nat)
    requires k > 0 && 1 <= a <= n
    ensures (k - 1) % n == (if a == 1 then n else a - 1) - 1 <==> k % n == a - 1
  {
    var q, r := (k - 1) / n, (k - 1) % n;
    if r == n - 1 {
      Remainder(k, q + 1, n, 0) by { assert (q + 1) * n == q * n + n; }
    } else {
      Remainder(k, q, n, r + 1);
    }
  }

  lemma Remainder(k: int, q: int, n: nat, r: nat)
    requires r < n && k == q * n + r
    ensures k % n == r
  {
    SameRemainder(n, k / n, k % n, q, r);
  }

  lemma SameRemainder(n: nat, p: int, e: nat, q: int, r: nat)
    requires e < n && r < n && p * n + e == q * n + r
    ensures e == r
  {
    if p < q { Multiplied(n, q - p); }
    if q < p { Multiplied(n, p - q); }
    assert (q - p) * n == q * n - p * n;
  }

  lemma Multiplied(n: nat, d: int)
    requires d > 0
    ensures d * n >= n
  {
  }

  /** The pxEventList argument: NULL or the event list of a queue. */
  datatype EventList = NoList | OnList(q: nat)

  class CoRoutineScheduler {
    var s: Store
    var w: Wheel
    var lastTick: nat
    var current: Task

    ghost predicate Valid()
      reads this
    {
      Sound(s) && DelayInv(s, w) && lastTick == w.tick
    }

    /** vCoRoutineAddToDelayedList, with or without an event list.  The bitmap part of the store plays
        no role here and is kept as the set of populated levels. */
    method AddToDelayedList(ticks: nat, event: EventList)
      requires Valid() && current in s.priority && Home(s, current).Ready? && 0 < ticks < W
      modifies this`s
      ensures Valid() && Abs(s, w) == Schedule(old(Abs(s, w)), current, ticks)
      ensures s.priority == old(s).priority
      ensures if event.NoList? then Ev(current) !in s.container else In(s, Ev(current), Event(event.q))
    {
      hide Sound, DelayInv, SoundWithout, DetachRunning, Arm, Abs, DelayLists.Schedule, Insert;
      var wake := (w.tick + ticks) % W;
      WheelFacts(s, w);
      WakeTime(w, ticks);
      DetachedCurrent(s, w, current);
      var d := DetachRunning(s, current);
      ArmFacts(d, w, current, wake);
      ArmSchedules(d, w, current, ticks);
      s := Arm(d, w, current, wake);
      Armed(d, s, w, current, wake);
      if event.OnList? {
        JoinKeepsDelays(s, w, current, event.q);
        s := Insert(s, Event(event.q), Ev(current));
      }
    }

    /** prvCheckPendingReadyList. */
    method CheckPendingReadyList()
      requires Sound(s)
      modifies this`s
      ensures s == DrainPending(old(s))
    {
      hide Sound, MakeReady;
      while Items(s, PendingReady) != []
        invariant Sound(s) && DrainPending(s) == DrainPending(old(s))
        decreases |Items(s, PendingReady)|
      {
        PendingHead(s);
        s := MakeReady(s, Items(s, PendingReady)[0].task);
      }
    }

    /** prvCheckDelayedList: one iteration of the outer loop per tick passed since the last call, each
        scanning the current list. */
    method CheckDelayedList(now: nat)
      requires Valid() && now < W
      modifies this`s, this`w, this`lastTick
      ensures Valid() && w.tick == now
      ensures s == TickBy(old(s), old(w), Passed(now, old(lastTick)))
      ensures Abs(s, w) == ElapseBy(old(Abs(s, w)), Passed(now, old(lastTick)))
    {
      hide Sound, DelayInv, Tick, MakeReady, Drain;
      WheelFacts(s, w);
      var passed := Passed(now, lastTick);
      ghost var n := passed;
      while passed > 0
        invariant Sound(s) && DelayInv(s, w)
        invariant passed <= n
        invariant TickBy(s, w, passed) == TickBy(old(s), old(w), n)
        invariant TurnBy(w, passed) == TurnBy(old(w), n)
      {
        WheelFacts(s, w);
        TickRefines(s, w);
        TickIsDrain(s, w);
        w := if w.tick + 1 == W then Wheel(w.overflow, w.current, 0, w.wraps + 1) else w.(tick := w.tick + 1);
        ScanDelayed();
        passed := passed - 1;
      }
      CatchUpRefines(old(s), old(w), n);
      TurnReaches(old(w), n);
      Arrives(now, old(lastTick));
      lastTick := w.tick;
    }

    /** The inner loop: wake the head while it has expired. */
    method ScanDelayed()
      requires Sound(s) && (w.current.Delayed1? || w.current.Delayed2?)
      modifies this`s
      ensures s == Drain(old(s), w.current, w.tick)
    {
      hide Sound, MakeReady;
      while Items(s, w.current) != []
        invariant Sound(s) && Drain(s, w.current, w.tick) == Drain(old(s), w.current, w.tick)
        decreases |Items(s, w.current)|
      {
        var head := Items(s, w.current)[0];
        EntryFacts(s, w.current, head);
        if w.tick < Val(s, head) { break; }
        MakeReadyFacts(s, head.task);
        s := MakeReady(s, head.task);
      }
    }

    /** vCoRoutineSchedule: the pending co-routines become ready, the ticks passed are caught up with,
        and a ready co-routine of maximal priority is selected if there is any. */
    method ScheduleNext(now: nat) returns (found: bool)
      requires Valid() && now < W
      modifies this
      ensures Valid() && w.tick == now
      ensures Abs(s, w) == ElapseBy(Cancel(old(Abs(s, w)), PendingTasks(old(s))), Passed(now, old(lastTick)))
      ensures (PendingKeepsDelays(old(s), old(w));
               s.container == TickBy(DrainPending(old(s)), old(w), Passed(now, old(lastTick))).container)
      ensures found <==> exists t :: t in s.priority && Home(s, t).Ready?
      ensures found ==> current in s.priority && Home(s, current).Ready?
                        && forall t :: t in s.priority && Home(s, t).Ready? ==> Prio(s, t) <= Prio(s, current)
      ensures (PendingKeepsDelays(old(s), old(w));
               var caughtUp := TickBy(DrainPending(old(s)), old(w), Passed(now, old(lastTick)));
               if found then LineMoves(caughtUp, s, current) else s.lists == caughtUp.lists && current == old(current))
    {
      hide LineMoves, Sound, DelayInv, TickBy, DrainPending, Abs, Cancel, ElapseBy;
      PendingKeepsDelays(s, w);
      CheckPendingReadyList();
      CheckDelayedList(now);
      ghost var s1 := s;
      found := SelectNext();
      SameClock(s1, s, w);
    }

    /** The decrementing search of vCoRoutineSchedule and the next entry of the list found. */
    method SelectNext() returns (found: bool)
      requires Valid()
      modifies this`s, this`current
      ensures Valid()
      ensures s.container == old(s).container && s.value == old(s).value && s.priority == old(s).priority
      ensures found <==> exists t :: t in s.priority && Home(s, t).Ready?
      ensures found ==> current in s.priority && Home(s, current).Ready?
                        && forall t :: t in s.priority && Home(s, t).Ready? ==> Prio(s, t) <= Prio(s, current)
      ensures if found then LineMoves(old(s), s, current) else s.lists == old(s).lists && current == old(current)
    {
      hide Sound, DelayInv, LineMoves;
      ghost var s0 := s;
      while Items(s, Ready(s.top)) == []
        invariant s == s0.(top := s.top) && s.top <= s0.top && current == old(current)
        invariant forall q: nat :: s.top < q <= s0.top ==> Items(s0, Ready(q)) == []
        decreases s.top
      {
        if s.top == 0 {
          TopMoved(s0, 0);
          SameDelays(s0, s, w);
          NothingReady(s);
          return false;
        }
        s := s.(top := s.top - 1);
      }
      var p := s.top;
      var l: Chain := Advance(ListOf(s, Ready(p)));
      SwitchSound(s0, p);
      SelectedTask(s0, p);
      SelectionMovesLine(s0, p, p);
      s := s.(lists := s.lists[Ready(p) := l]);
      current := l.items[l.cursor - 1].task;
      SameDelays(s0, s, w);
      MaximalSelected(s, p);
      found := true;
    }
  }

  /** Where the current co-routine's items are once it is on a delayed list. */
  lemma Armed(d: Store, r: Store, w: Wheel, t: Task, wake: nat)
    requires SoundWithout(d, t) && DelayInv(r, w)
    requires r.container == d.container[Gen(t) := if wake < w.tick then w.overflow else w.current]
    ensures Parked(Home(r, t)) && Ev(t) !in r.container
  {
  }

  /** Joining an event list leaves the delayed lists alone. */
  lemma JoinKeepsDelays(s: Store, w: Wheel, t: Task, q: nat)
    requires Sound(s) && DelayInv(s, w) && t in s.priority && Parked(Home(s, t)) && Ev(t) !in s.container
    ensures var r := Insert(s, Event(q), Ev(t));
            && Sound(r) && DelayInv(r, w) && Abs(r, w) == Abs(s, w) && In(r, Ev(t), Event(q))
            && r.priority == s.priority
  {
    hide Sound, DelayInv, Insert, Abs, Cancel;
    JoinEventFacts(s, t, q);
    var r := Insert(s, Event(q), Ev(t));
    SameDelays(s, r, w);
    ClockMoves(s, r, w, {});
    CancelNone(Abs(s, w));
  }

  lemma DetachedCurrent(s: Store, w: Wheel, t: Task)
    requires Sound(s) && DelayInv(s, w) && t in s.priority && Home(s, t).Ready?
    ensures var d := DetachRunning(s, t);
            SoundWithout(d, t) && DelayInv(d, w) && Abs(d, w) == Abs(s, w) && d.priority == s.priority
  {
    hide Sound, SoundWithout, DelayInv, Detach, DetachRunning, Remove;
    TaskFacts(s, t);
    DetachFacts(s, t);
    DetachBoth(s, t);
    var d := Detach(s, t);
    RemoveAbsent(d, Ev(t));
    SameDelays(s, d, w);
    WheelFacts(s, w);
    UntimedRemoved(s, d, w, t);
  }

  lemma TickIsDrain(s: Store, w: Wheel)
    requires Sound(s) && DelayInv(s, w)
    ensures Tick(s, w) == Drain(s, Turn(w).current, Turn(w).tick)
  {
    hide Sound, DelayInv, Drain;
  }

  lemma Arrives(now: nat, last: nat)
    requires now < W && last < W
    ensures (last + Passed(now, last)) % W == now
  {
  }

  lemma SameClock(s: Store, r: Store, w: Wheel)
    requires r.container == s.container && r.value == s.value && r.priority == s.priority
    ensures Abs(r, w) == Abs(s, w)
  {
    assert forall t :: Home(r, t) == Home(s, t);
  }

  /** Draining the pending list cancels exactly the deadlines of the pending co-routines. */
  lemma {:induction false} PendingKeepsDelays(s: Store, w: Wheel)
    requires Sound(s) && DelayInv(s, w)
    ensures Sound(DrainPending(s)) && DelayInv(DrainPending(s), w)
    ensures Abs(DrainPending(s), w) == Cancel(Abs(s, w), PendingTasks(s))
    decreases |Items(s, PendingReady)|
  {
    hide Sound, DelayInv, MakeReady, Abs, Cancel, PendingTasks;
    if Items(s, PendingReady) == [] {
      NobodyPending(s, Abs(s, w));
    } else {
      PendingHead(s);
      PendingAfterHead(s);
      var t := Items(s, PendingReady)[0].task;
      ReadyKeepsDelays(s, w, t);
      PendingKeepsDelays(MakeReady(s, t), w);
      CancelBoth(Abs(s, w), {t}, PendingTasks(MakeReady(s, t)));
    }
  }

  lemma NobodyPending(s: Store, c: Clock)
    requires Items(s, PendingReady) == []
    ensures Cancel(c, PendingTasks(s)) == c
  {
    assert PendingTasks(s) == {};
    CancelNone(c);
  }

  lemma ReadyKeepsDelays(s: Store, w: Wheel, t: Task)
    requires Sound(s) && DelayInv(s, w) && t in s.priority && Parked(Home(s, t))
    ensures DelayInv(MakeReady(s, t), w) && Abs(MakeReady(s, t), w) == Cancel(Abs(s, w), {t})
  {
    hide Sound, ListSorted, MakeReady, Abs, Cancel;
    MakeReadyFacts(s, t);
    var r := MakeReady(s, t);
    StillDelayed(s, r, w, {t}, w.current);
    StillDelayed(s, r, w, {t}, w.overflow);
    ReadyCancels(s, w, t);
  }

  lemma ReadyCancels(s: Store, w: Wheel, t: Task)
    requires Sound(s) && t in s.priority && Parked(Home(s, t)) && !w.current.Ready? && !w.overflow.Ready?
    ensures Abs(MakeReady(s, t), w) == Cancel(Abs(s, w), {t})
  {
    hide Sound, MakeReady, Abs, Cancel;
    MakeReadyFacts(s, t);
    ClockMoves(s, MakeReady(s, t), w, {t});
  }

  lemma TopMoved(s: Store, p: nat)
    requires Sound(s) && p <= s.top && forall q: nat :: p < q <= s.top ==> Items(s, Ready(q)) == []
    ensures Sound(s.(top := p))
  {
    var r := s.(top := p);
    assert forall id :: Items(r, id) == Items(s, id);
    assert forall i, id :: In(r, i, id) == In(s, i, id);
    forall u | u in r.priority ensures PlacedTask(r, u) { assert PlacedTask(s, u); }
  }

  lemma ReadyListPopulated(s: Store, t: Task)
    requires Sound(s) && t in s.priority && Home(s, t).Ready?
    ensures Home(s, t) == Ready(Prio(s, t)) && Items(s, Ready(Prio(s, t))) != [] && Prio(s, t) <= s.top
  {
    TaskFacts(s, t);
  }

  lemma NothingReady(s: Store)
    requires Sound(s) && s.top == 0 && Items(s, Ready(0)) == []
    ensures forall t :: t in s.priority ==> !Home(s, t).Ready?
  {
    hide Sound;
    forall t | t in s.priority ensures !Home(s, t).Ready? {
      if Home(s, t).Ready? { ReadyListPopulated(s, t); }
    }
  }

  lemma MaximalSelected(s: Store, p: nat)
    requires Sound(s) && s.top == p
    ensures forall t :: t in s.priority && Home(s, t).Ready? ==> Prio(s, t) <= p
  {
    hide Sound;
    forall t | t in s.priority && Home(s, t).Ready? ensures Prio(s, t) <= p { ReadyListPopulated(s, t); }
  }
}
