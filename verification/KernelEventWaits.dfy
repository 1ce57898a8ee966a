/** The waiting order on event lists over whole runs: among equals, the longest waiting is woken first. */
module KernelEventWaits {
  import opened XLists
  import opened Stores
  import opened ReadyLists
  import opened DelayLists
  import opened TaskMoves
  import opened Kernels
  import opened KernelSteps
  import opened KernelRuns
  import opened KernelMachine
  import opened KernelEventOrder
  import opened KernelEventKeys

  // ----- Places on a list without duplicates

  lemma OneWay(s: Store, q: nat, i: Item, j: Item)
    requires NoDup(Items(s, Event(q))) && Precedes(s, q, i, j)
    ensures !Precedes(s, q, j, i) && i != j && i in Items(s, Event(q)) && j in Items(s, Event(q))
  {
  }

  lemma EitherWay(s: Store, q: nat, i: Item, j: Item)
    requires i in Items(s, Event(q)) && j in Items(s, Event(q)) && i != j
    ensures Precedes(s, q, i, j) || Precedes(s, q, j, i)
  {
    var a, b := IndexOf(Items(s, Event(q)), i), IndexOf(Items(s, Event(q)), j);
    assert Items(s, Event(q))[a] == i && Items(s, Event(q))[b] == j;
  }

  lemma NoDuplicates(k: Kernel, q: nat)
    requires Inv(k)
    ensures NoDup(Items(k.s, Event(q)))
    ensures forall i :: i in Items(k.s, Event(q)) <==> In(k.s, i, Event(q))
  {
    hide DelayInv, CacheInv, Placed, ReadyRecorded, NoDup;
  }

  // ----- Joining

  /** Leaving the ready list touches no event list. */
  lemma ParkingEvents(k: Kernel, ticks: nat, e: nat)
    requires Inv(k) && BlockingCall(k) && 0 < ticks < W
    ensures ListOf(Parking(k, ticks), Event(e)) == ListOf(k.s, Event(e))
  {
    hide Sound, DelayInv, CacheInv, SoundWithout, DetachRunning, Arm, Counters, Settled;
    var t := k.current;
    WheelFacts(k.s, k.w);
    WakeTime(k.w, ticks);
    DetachedRunning(k);
    if ticks != W - 1 { ArmFacts(DetachRunning(k.s, t), k.w, t, (k.w.tick + ticks) % W); }
  }

  /** Sorted insertion leaves the others in place and goes behind every value not larger. */
  lemma InsertPlaces(s: Store, q: nat, x: Item)
    requires ListSorted(s, Event(q)) && Val(s, x) < W - 1
    ensures var r := Insert(s, Event(q), x);
            && (forall i, j :: Precedes(s, q, i, j) ==> Precedes(r, q, i, j))
            && (forall i :: i in Items(s, Event(q)) ==>
                  if Val(s, i) <= Val(s, x) then Precedes(r, q, i, x) else Precedes(r, q, x, i))
  {
    hide Precedes, ListSorted, SortedPosition;
    var items, at := Items(s, Event(q)), InsertPosition(s, Event(q), x);
    var r := Insert(s, Event(q), x);
    assert Items(r, Event(q)) == Spliced(items, at, x);
    forall i, j | Precedes(s, q, i, j) ensures Precedes(r, q, i, j) { SplicedPlaces(s, r, q, at, x, i, j); }
    forall i | i in items ensures if Val(s, i) <= Val(s, x) then Precedes(r, q, i, x) else Precedes(r, q, x, i) {
      var n := IndexOf(items, i);
      SplitPosition(s, q, x, n);
      AroundNew(s, r, q, at, x, n);
    }
  }

  lemma SplicedPlaces(s: Store, r: Store, q: nat, at: nat, x: Item, i: Item, j: Item)
    requires at <= |Items(s, Event(q))| && Items(r, Event(q)) == Spliced(Items(s, Event(q)), at, x)
    requires Precedes(s, q, i, j)
    ensures Precedes(r, q, i, j)
  {
    var items, out := Items(s, Event(q)), Items(r, Event(q));
    var a, b :| 0 <= a < b < |items| && items[a] == i && items[b] == j;
    var c, d := if a < at then a else a + 1, if b < at then b else b + 1;
    assert out[c] == i && out[d] == j;
  }

  /** In a sorted list exactly the entries before the insertion point have values not larger. */
  lemma SplitPosition(s: Store, q: nat, x: Item, n: nat)
    requires ListSorted(s, Event(q)) && Val(s, x) < W - 1 && n < |Items(s, Event(q))|
    ensures Val(s, Items(s, Event(q))[n]) <= Val(s, x) <==> n < InsertPosition(s, Event(q), x)
  {
    var vs := ValuesOf(s, Items(s, Event(q)));
    var at := SortedPosition(vs, Val(s, x));
    assert at < |vs| && n >= at ==> vs[at] <= vs[n];
  }

  lemma AroundNew(s: Store, r: Store, q: nat, at: nat, x: Item, n: nat)
    requires n < |Items(s, Event(q))| && at <= |Items(s, Event(q))|
    requires Items(r, Event(q)) == Spliced(Items(s, Event(q)), at, x)
    ensures var i := Items(s, Event(q))[n]; if n < at then Precedes(r, q, i, x) else Precedes(r, q, x, i)
  {
    var items, out := Items(s, Event(q)), Items(r, Event(q));
    assert out[at] == x && out[if n < at then n else n + 1] == items[n];
  }

  /** A task that starts to wait goes behind every waiter at least as urgent as itself and in front of
      all others, who keep their places. */
  lemma WaitPlaces(k: Kernel, q: nat, ticks: nat)
    requires Inv(k) && EventInv(k) && Enabled(k, OpWait(q, ticks))
    ensures var r, c := Wait(k, q, ticks).s, Ev(k.current);
            && (forall e, i, j :: Precedes(k.s, e, i, j) ==> Precedes(r, e, i, j))
            && (forall i :: i in Items(k.s, Event(q)) ==>
                  if Val(k.s, i) <= Val(k.s, c) then Precedes(r, q, i, c) else Precedes(r, q, c, i))
  {
    hide Core, Counters, Settled, Parking, Insert, Wait, Precedes, ListSorted, Calm, Shrinks;
    var b, c := Parking(k, ticks), Ev(k.current);
    WaiterBound(k);
    WaitIsJoin(k, q, ticks);
    TidiedParking(k, ticks);
    TidyAfter(k.s, b);
    ParkedValues(k, b);
    OnlyEvents(b, q);
    OnlyEvents(k.s, q);
    ParkingEvents(k, ticks, q);
    InsertPlaces(b, q, c);
    forall e, i, j | Precedes(k.s, e, i, j) ensures Precedes(Wait(k, q, ticks).s, e, i, j) {
      ParkingEvents(k, ticks, e);
      SamePrecedence(k.s, b, e, i, j);
      if e != q {
        InsertElsewhere(b, q, e, c);
        SamePrecedence(b, Insert(b, Event(q), c), e, i, j);
      }
    }
  }

  lemma ParkedValues(k: Kernel, b: Store)
    requires Calm(k.s, b)
    ensures forall t {:trigger Ev(t)} :: Val(b, Ev(t)) == Val(k.s, Ev(t))
  {
  }

  lemma SamePrecedence(s: Store, r: Store, q: nat, i: Item, j: Item)
    requires Items(r, Event(q)) == Items(s, Event(q))
    ensures Precedes(r, q, i, j) == Precedes(s, q, i, j)
  {
  }

  lemma InsertElsewhere(s: Store, q: nat, e: nat, x: Item)
    requires e != q
    ensures Items(Insert(s, Event(q), x), Event(e)) == Items(s, Event(e))
  {
    hide InsertAt, InsertPosition;
  }

  // ----- Every step

  lemma StepShrinks(k: Kernel, op: Op)
    requires Inv(k) && k.levels > 0 && Enabled(k, op) && !op.OpWait?
    ensures Shrinks(k.s, Step(k, op).s)
  {
    hide Core, Calm, Shrinks, Counters, Settled, Roles, WithPriority, Retire, Reap, SetPriority, Create;
    SamePlaces(k.s, k.s);
    match op
    case OpCreate(t, p) => CreateShrinks(k, t, p);
    case OpDelete(t) => TidiedRetire(k.s, t, Termination);
    case OpReap => TidiedReap(k);
    case OpSetPriority(t, p) =>
      if BaseOf(k, t) == Capped(k, p) { Untouched(k, t, p); } else { SetPriorityWrites(k, t, p); }
    case OpInherit(t) => PriorityValues(k, t, Prio(k.s, k.current), Prio(k.s, k.current));
    case OpDisinherit(t) => PriorityValues(k, t, BaseOf(k, t), BaseOf(k, t));
    case _ => QuietOrder(k, op);
  }

  lemma CreateShrinks(k: Kernel, t: Task, p: nat)
    ensures Shrinks(k.s, Create(k, t, p).s)
  {
    hide Calm, Shrinks, AddReady;
    var q := Capped(k, p);
    var s := k.s.(value := k.s.value[Ev(t) := Max(k.levels, q) - q]);
    var m := s.(priority := s.priority[t := q]);
    SamePlaces(k.s, m);
    TidiedAddReady(m, t);
    ShrinksTrans(k.s, m, AddReady(m, t));
  }

  /** Two waiters that both stay on an event list never change places, whatever the step. */
  lemma StepKeepsPlaces(k: Kernel, op: Op, q: nat, i: Item, j: Item)
    requires Inv(k) && k.levels > 0 && Enabled(k, op) && Precedes(k.s, q, i, j)
    requires In(Step(k, op).s, i, Event(q)) && In(Step(k, op).s, j, Event(q))
    ensures Precedes(Step(k, op).s, q, i, j)
  {
    hide Core, Step, Precedes, Shrinks, Enabled;
    StepRefines(k, op);
    var r := Step(k, op);
    NoDuplicates(k, q);
    NoDuplicates(r, q);
    OneWay(k.s, q, i, j);
    if op.OpWait? {
      JoinKeepsPlaces(k, op.queue, op.ticks, q, i, j);
    } else {
      StepShrinks(k, op);
      EitherWay(r.s, q, i, j);
      Backwards(k.s, r.s, q, i, j);
    }
  }

  lemma Backwards(s: Store, r: Store, q: nat, i: Item, j: Item)
    requires Shrinks(s, r) && !Precedes(s, q, j, i)
    ensures !Precedes(r, q, j, i)
  {
  }

  lemma JoinKeepsPlaces(k: Kernel, q: nat, ticks: nat, e: nat, i: Item, j: Item)
    requires Inv(k) && k.levels > 0 && Enabled(k, OpWait(q, ticks)) && Precedes(k.s, e, i, j)
    ensures Precedes(Step(k, OpWait(q, ticks)).s, e, i, j)
  {
    hide Core, Counters, Settled, Parking, Insert, Wait, Precedes;
    var b, c := Parking(k, ticks), Ev(k.current);
    WaitIsJoin(k, q, ticks);
    ParkingEvents(k, ticks, e);
    SamePrecedence(k.s, b, e, i, j);
    if e == q {
      InsertSplices(b, q, c);
      SplicedPlaces(b, Insert(b, Event(q), c), q, InsertPosition(b, Event(q), c), c, i, j);
    } else {
      InsertElsewhere(b, q, e, c);
      SamePrecedence(b, Insert(b, Event(q), c), e, i, j);
    }
  }

  lemma InsertSplices(s: Store, q: nat, x: Item)
    ensures Items(Insert(s, Event(q), x), Event(q)) == Spliced(Items(s, Event(q)), InsertPosition(s, Event(q), x), x)
  {
  }

  // ----- Runs

  /** Both tasks stay on event list q throughout the run. */
  ghost predicate BothStay(k: Kernel, ops: seq<Op>, q: nat, u: Task, v: Task)
    requires Inv(k) && k.levels > 0 && Possible(k, ops)
    decreases |ops|
  {
    && In(k.s, Ev(u), Event(q)) && In(k.s, Ev(v), Event(q))
    && (ops == [] || (StepRefines(k, ops[0]); BothStay(Step(k, ops[0]), ops[1..], q, u, v)))
  }

  /** Over every run, priority changes included, two tasks waiting on one event list never swap. */
  lemma {:induction false} NeverOvertaken(k: Kernel, ops: seq<Op>, q: nat, u: Task, v: Task)
    requires Inv(k) && k.levels > 0 && Possible(k, ops) && BothStay(k, ops, q, u, v)
    requires Precedes(k.s, q, Ev(u), Ev(v))
    ensures Precedes(Run(k, ops).s, q, Ev(u), Ev(v))
    decreases |ops|
  {
    hide Inv, Step, Enabled, Precedes, In;
    if ops != [] {
      StepRefines(k, ops[0]);
      var r := Step(k, ops[0]);
      StillIn(r, ops[1..], q, u, v);
      StepKeepsPlaces(k, ops[0], q, Ev(u), Ev(v));
      NeverOvertaken(r, ops[1..], q, u, v);
    }
  }

  lemma StillIn(k: Kernel, ops: seq<Op>, q: nat, u: Task, v: Task)
    requires Inv(k) && k.levels > 0 && Possible(k, ops) && BothStay(k, ops, q, u, v)
    ensures In(k.s, Ev(u), Event(q)) && In(k.s, Ev(v), Event(q))
  {
    hide Inv, In;
  }

  /** A task that starts to wait where a task at least as urgent already waits is not the one woken
      next, after any run, until the other has left the list. */
  lemma LongestWaitingFirst(k: Kernel, q: nat, ticks: nat, ops: seq<Op>, v: Task)
    requires Inv(k) && EventInv(k) && ExactWaiters(k) && ExactOf(k, k.current)
    requires Possible(k, [OpWait(q, ticks)] + ops)
    requires In(k.s, Ev(v), Event(q)) && Prio(k.s, v) >= Prio(k.s, k.current)
    requires BothStayAfter(k, OpWait(q, ticks), ops, q, v, k.current)
    ensures var r := Run(k, [OpWait(q, ticks)] + ops);
            Items(r.s, Event(q)) != [] && Items(r.s, Event(q))[0] != Ev(k.current)
  {
    hide Inv, Wait, Precedes, In, ExactWaiters, ExactOf;
    var op, all := OpWait(q, ticks), [OpWait(q, ticks)] + ops;
    assert all[0] == op && all[1..] == ops;
    StepRefines(k, op);
    var m := Step(k, op);
    JoinsBehind(k, q, ticks, v);
    NeverOvertaken(m, ops, q, v, k.current);
    RunRefinesUnboundedTime(m, ops);
    var r := Run(m, ops);
    NotFirst(r, q, Ev(v), Ev(k.current));
  }

  /** After its first step the run keeps both tasks on the list. */
  ghost predicate BothStayAfter(k: Kernel, op: Op, ops: seq<Op>, q: nat, u: Task, v: Task)
    requires Inv(k) && k.levels > 0 && Possible(k, [op] + ops)
  {
    assert ([op] + ops)[0] == op && ([op] + ops)[1..] == ops;
    StepRefines(k, op);
    BothStay(Step(k, op), ops, q, u, v)
  }

  lemma JoinsBehind(k: Kernel, q: nat, ticks: nat, v: Task)
    requires Inv(k) && EventInv(k) && ExactWaiters(k) && ExactOf(k, k.current) && Enabled(k, OpWait(q, ticks))
    requires In(k.s, Ev(v), Event(q)) && Prio(k.s, v) >= Prio(k.s, k.current)
    ensures Precedes(Step(k, OpWait(q, ticks)).s, q, Ev(v), Ev(k.current))
  {
    hide Core, Counters, Settled, Wait, Precedes, Tidy, Key;
    NoDuplicates(k, q);
    WaitPlaces(k, q, ticks);
    Alive(k, v);
    assert OnEventList(k.s, v);
    KeysDiffer(k, Prio(k.s, v), Prio(k.s, k.current));
    assert Val(k.s, Ev(v)) <= Val(k.s, Ev(k.current));
  }

  lemma NotFirst(k: Kernel, q: nat, i: Item, j: Item)
    requires Inv(k) && Precedes(k.s, q, i, j)
    ensures Items(k.s, Event(q)) != [] && Items(k.s, Event(q))[0] != j
  {
    hide Inv;
    NoDuplicates(k, q);
  }
}
