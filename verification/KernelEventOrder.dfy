/** The event lists in the whole kernel: priority order over every run. */
module KernelEventOrder {
  import opened XLists
  import opened Stores
  import opened ReadyLists
  import opened DelayLists
  import opened TaskMoves
  import opened Kernels
  import opened KernelSteps
  import opened KernelRuns
  import opened KernelMachine
  import PI = PriorityInheritance

  /** An event list holds event items in the order of their values. */
  ghost predicate InOrder(s: Store, q: nat) {
    ListSorted(s, Event(q)) && forall i :: i in Items(s, Event(q)) ==> i.Ev?
  }

  ghost predicate Tidy(s: Store) { forall q: nat {:trigger Event(q)} :: InOrder(s, q) }

  /** Item i stands before item j on event list q. */
  ghost predicate Precedes(s: Store, q: nat, i: Item, j: Item) {
    exists a, b :: 0 <= a < b < |Items(s, Event(q))| && Items(s, Event(q))[a] == i && Items(s, Event(q))[b] == j
  }

  /** Event lists stay in order and no event item value changes. */
  ghost predicate Calm(s: Store, r: Store) {
    && (Tidy(s) ==> Tidy(r))
    && (forall t {:trigger Val(r, Ev(t))} :: Val(r, Ev(t)) == Val(s, Ev(t)))
  }

  /** Nobody joins an event list, and those who stay keep their places relative to each other. */
  ghost predicate Shrinks(s: Store, r: Store) {
    && (forall q, i {:trigger i in Items(r, Event(q))} :: i in Items(r, Event(q)) ==> i in Items(s, Event(q)))
    && (forall q, i, j {:trigger Precedes(r, q, i, j)} :: Precedes(r, q, i, j) ==> Precedes(s, q, i, j))
  }

  ghost predicate Tidied(s: Store, r: Store) { Calm(s, r) && Shrinks(s, r) }

  lemma TidiedTrans(a: Store, b: Store, c: Store)
    requires Tidied(a, b) && Tidied(b, c)
    ensures Tidied(a, c)
  {
    hide Calm, Precedes;
    CalmTrans(a, b, c);
  }

  lemma CalmTrans(a: Store, b: Store, c: Store)
    requires Calm(a, b) && Calm(b, c)
    ensures Calm(a, c)
  {
    hide Tidy;
    forall t ensures Val(c, Ev(t)) == Val(a, Ev(t)) { assert Val(b, Ev(t)) == Val(a, Ev(t)); }
  }

  lemma SameOrder(s: Store, r: Store, q: nat)
    requires InOrder(s, q) && Items(r, Event(q)) == Items(s, Event(q))
    requires forall i :: i in Items(s, Event(q)) ==> Val(r, i) == Val(s, i)
    ensures InOrder(r, q)
  {
    assert ValuesOf(r, Items(r, Event(q))) == ValuesOf(s, Items(s, Event(q)));
  }

  /** A change of other lists and of generic item values. */
  lemma TidiedElse(s: Store, r: Store)
    requires forall q: nat {:trigger Event(q)} :: Items(r, Event(q)) == Items(s, Event(q))
    requires forall t {:trigger Val(r, Ev(t))} :: Val(r, Ev(t)) == Val(s, Ev(t))
    ensures Tidied(s, r)
  {
    hide InOrder;
    if Tidy(s) {
      forall q: nat ensures InOrder(r, q) {
        assert Items(r, Event(q)) == Items(s, Event(q));
        OnlyEvents(s, q);
        SameOrder(s, r, q);
      }
    }
    SamePlaces(s, r);
  }

  lemma SamePlaces(s: Store, r: Store)
    requires forall q: nat {:trigger Event(q)} :: Items(r, Event(q)) == Items(s, Event(q))
    ensures Shrinks(s, r)
  {
    forall q: nat ensures Items(r, Event(q)) == Items(s, Event(q)) { assert Event(q) == Event(q); }
  }

  lemma OnlyEvents(s: Store, q: nat)
    requires Tidy(s)
    ensures InOrder(s, q) && forall i :: i in Items(s, Event(q)) ==> i == Ev(i.task)
  {
    assert Event(q) == Event(q);
  }

  lemma TidiedRemove(s: Store, i: Item)
    ensures Tidied(s, Remove(s, i))
  {
    hide ListSorted, Shrinks;
    var r := Remove(s, i);
    RemoveShrinks(s, i);
    if Tidy(s) {
      forall q: nat ensures InOrder(r, q) {
        OnlyEvents(s, q);
        if i in s.container && i in Items(s, s.container[i]) && s.container[i] == Event(q) {
          var k := IndexOf(Items(s, Event(q)), i);
          assert Items(r, Event(q)) == Cut(Items(s, Event(q)), k);
          RemoveKeepsSorted(s, r, Event(q), k);
        } else {
          SameOrder(s, r, q);
        }
      }
    }
  }

  lemma RemoveShrinks(s: Store, i: Item)
    ensures Shrinks(s, Remove(s, i))
  {
    hide IndexOf, Precedes;
    var r := Remove(s, i);
    forall q: nat
      ensures Items(r, Event(q)) == Items(s, Event(q))
              || exists k: nat :: k < |Items(s, Event(q))| && Items(r, Event(q)) == Cut(Items(s, Event(q)), k)
    {
      if i in s.container && i in Items(s, s.container[i]) && s.container[i] == Event(q) {
        var k := IndexOf(Items(s, Event(q)), i);
        assert Items(r, Event(q)) == Cut(Items(s, Event(q)), k);
      }
    }
    forall q: nat ensures forall x :: x in Items(r, Event(q)) ==> x in Items(s, Event(q)) {}
    forall q: nat, x, y | Precedes(r, q, x, y) ensures Precedes(s, q, x, y) { CutPrecedes(s, r, q, x, y); }
  }

  lemma CutPrecedes(s: Store, r: Store, q: nat, x: Item, y: Item)
    requires Precedes(r, q, x, y)
    requires Items(r, Event(q)) == Items(s, Event(q))
             || exists k: nat :: k < |Items(s, Event(q))| && Items(r, Event(q)) == Cut(Items(s, Event(q)), k)
    ensures Precedes(s, q, x, y)
  {
    var items, cut := Items(s, Event(q)), Items(r, Event(q));
    var a, b :| 0 <= a < b < |cut| && cut[a] == x && cut[b] == y;
    if cut != items {
      var k: nat :| k < |items| && cut == Cut(items, k);
      var c, d := if a < k then a else a + 1, if b < k then b else b + 1;
      assert items[c] == x && items[d] == y;
    }
  }

  lemma TidiedAppend(s: Store, id: ListId, i: Item)
    requires !id.Event?
    ensures Tidied(s, Append(s, id, i))
  {
    hide XLists.InsertEnd;
    TidiedElse(s, Append(s, id, i));
  }

  lemma TidiedInsertElsewhere(s: Store, id: ListId, i: Item)
    requires !id.Event?
    ensures Tidied(s, Insert(s, id, i))
  {
    hide InsertAt, InsertPosition;
    TidiedElse(s, Insert(s, id, i));
  }

  /** Joining an event list by sorted insertion. */
  lemma CalmJoin(s: Store, q: nat, t: Task)
    requires Val(s, Ev(t)) < W - 1
    ensures Calm(s, Insert(s, Event(q), Ev(t)))
  {
    hide ListSorted;
    var r := Insert(s, Event(q), Ev(t));
    if Tidy(s) {
      forall e: nat ensures InOrder(r, e) {
        OnlyEvents(s, e);
        if e == q {
          JoinedSorted(s, q, t);
        } else {
          SameOrder(s, r, e);
        }
      }
    }
  }

  lemma JoinedSorted(s: Store, q: nat, t: Task)
    requires InOrder(s, q) && Val(s, Ev(t)) < W - 1
    ensures InOrder(Insert(s, Event(q), Ev(t)), q)
  {
    hide Sorted, SortedPosition;
    var r, items, v := Insert(s, Event(q), Ev(t)), Items(s, Event(q)), Val(s, Ev(t));
    InsertionKeepsSorted(ValuesOf(s, items), v);
    var at := SortedPosition(ValuesOf(s, items), v);
    assert Items(r, Event(q)) == Spliced(items, at, Ev(t));
    assert ValuesOf(r, Spliced(items, at, Ev(t))) == Spliced(ValuesOf(s, items), at, v);
  }

  // ----- The moves

  lemma TidiedDetach(s: Store, u: Task)
    ensures Tidied(s, Detach(s, u)) && Tidied(s, DetachRunning(s, u))
  {
    hide Tidied, Remove;
    var d := Remove(s, Gen(u));
    var b := d.(bits := d.bits - {Prio(s, u)});
    TidiedRemove(s, Gen(u));
    TidiedElse(d, b);
    TidiedTrans(s, d, b);
  }

  lemma TidiedAddReady(s: Store, u: Task)
    ensures Tidied(s, AddReady(s, u))
  {
    hide Tidied, Append;
    var m := s.(top := Max(s.top, Prio(s, u)), bits := s.bits + {Prio(s, u)});
    TidiedElse(s, m);
    TidiedAppend(m, Ready(Prio(s, u)), Gen(u));
    TidiedTrans(s, m, AddReady(s, u));
  }

  lemma TidiedMakeReady(s: Store, u: Task)
    ensures Tidied(s, MakeReady(s, u))
  {
    hide Tidied, Remove, AddReady;
    var a := Remove(s, Gen(u));
    var b := Remove(a, Ev(u));
    TidiedRemove(s, Gen(u));
    TidiedRemove(a, Ev(u));
    TidiedAddReady(b, u);
    TidiedTrans(s, a, b);
    TidiedTrans(s, b, AddReady(b, u));
  }

  lemma TidiedRetire(s: Store, u: Task, id: ListId)
    requires !id.Event?
    ensures Tidied(s, Retire(s, u, id))
  {
    hide Tidied, Remove, Detach, Append;
    var a := Detach(s, u);
    var b := Remove(a, Ev(u));
    TidiedDetach(s, u);
    TidiedRemove(a, Ev(u));
    TidiedAppend(b, id, Gen(u));
    TidiedTrans(s, a, b);
    TidiedTrans(s, b, Append(b, id, Gen(u)));
  }

  lemma TidiedPend(s: Store, u: Task)
    ensures Tidied(s, Pend(s, u))
  {
    hide Tidied, Remove, Append;
    var a := Remove(s, Ev(u));
    TidiedRemove(s, Ev(u));
    TidiedAppend(a, PendingReady, Ev(u));
    TidiedTrans(s, a, Pend(s, u));
  }

  lemma TidiedReprioritise(s: Store, u: Task, p: nat)
    ensures Tidied(s, Reprioritise(s, u, p))
  {
    hide Tidied, Detach, AddReady;
    var d := if Home(s, u) == Ready(Prio(s, u)) then Detach(s, u) else s;
    var m := d.(priority := d.priority[u := p]);
    TidiedDetach(s, u);
    TidiedElse(d, m);
    TidiedElse(s, s);
    TidiedTrans(s, d, m);
    TidiedAddReady(m, u);
    TidiedTrans(s, m, AddReady(m, u));
  }

  lemma {:induction false} TidiedDrain(s: Store, id: ListId, tick: nat)
    requires Sound(s) && (id.Delayed1? || id.Delayed2?)
    ensures Tidied(s, Drain(s, id, tick))
    decreases |Items(s, id)|
  {
    hide Tidied, MakeReady, Sound;
    TidiedElse(s, s);
    if Items(s, id) != [] && Val(s, Items(s, id)[0]) <= tick {
      var u := Items(s, id)[0].task;
      EntryFacts(s, id, Items(s, id)[0]);
      MakeReadyFacts(s, u);
      TidiedMakeReady(s, u);
      TidiedDrain(MakeReady(s, u), id, tick);
      TidiedTrans(s, MakeReady(s, u), Drain(MakeReady(s, u), id, tick));
    }
  }

  lemma {:induction false} TidiedDrainPending(s: Store)
    requires Sound(s)
    ensures Tidied(s, DrainPending(s))
    decreases |Items(s, PendingReady)|
  {
    hide Tidied, MakeReady, Sound;
    TidiedElse(s, s);
    if Items(s, PendingReady) != [] {
      PendingHead(s);
      var u := Items(s, PendingReady)[0].task;
      TidiedMakeReady(s, u);
      TidiedDrainPending(MakeReady(s, u));
      TidiedTrans(s, MakeReady(s, u), DrainPending(MakeReady(s, u)));
    }
  }

  lemma TidiedTick(k: Kernel)
    requires Core(k)
    ensures Tidied(k.s, ProcessTick(k).s)
  {
    hide Sound, CacheInv, Tidied, Drain;
    WheelFacts(k.s, k.w);
    TidiedElse(k.s, k.s);
    TidiedDrain(k.s, Turn(k.w).current, Turn(k.w).tick);
  }

  lemma {:induction false} TidiedReplay(k: Kernel)
    requires Core(k)
    ensures Tidied(k.s, Replay(k).s)
    decreases k.missed
  {
    hide Core, ProcessTick, Tidied;
    TidiedElse(k.s, k.s);
    if k.missed > 0 {
      CachedAgrees(k);
      TidiedTick(k);
      var m := ProcessTick(k).(missed := k.missed - 1);
      SameCore(ProcessTick(k), m);
      TidiedReplay(m);
      TidiedTrans(k.s, m.s, Replay(m).s);
    }
  }

  lemma TidiedResumeAll(k: Kernel)
    requires Inv(k) && k.suspended > 0
    ensures Tidied(k.s, ResumeAll(k).s)
  {
    hide Core, Tidied, Replay, DrainPending;
    var c := k.(suspended := k.suspended - 1);
    SameCore(k, c);
    CoreSound(c);
    TidiedElse(k.s, k.s);
    if c.suspended == 0 {
      DrainPendingStep(c);
      TidiedDrainPending(c.s);
      var d := c.(s := DrainPending(c.s));
      TidiedReplay(d);
      TidiedTrans(k.s, d.s, Replay(d).s);
    }
  }

  lemma TidiedBlock(k: Kernel, wake: nat)
    requires Inv(k)
    ensures Tidied(k.s, BlockCurrent(k, wake).s)
  {
    hide Sound, CacheInv, Tidied, DetachRunning, Insert;
    WheelFacts(k.s, k.w);
    TidiedDetach(k.s, k.current);
    var d := DetachRunning(k.s, k.current);
    var m := d.(value := d.value[Gen(k.current) := wake]);
    TidiedElse(d, m);
    TidiedTrans(k.s, d, m);
    var id := if wake < k.w.tick then k.w.overflow else k.w.current;
    TidiedInsertElsewhere(m, id, Gen(k.current));
    TidiedTrans(k.s, m, Insert(m, id, Gen(k.current)));
  }

  /** The lists once the running task has left its ready list and before it joins an event list. */
  function Parking(k: Kernel, ticks: nat): Store {
    if ticks == W - 1 then Append(DetachRunning(k.s, k.current), Suspended, Gen(k.current)) else Delay(k, ticks).s
  }

  lemma WaitIsJoin(k: Kernel, q: nat, ticks: nat)
    ensures Wait(k, q, ticks).s == Insert(Parking(k, ticks), Event(q), Ev(k.current))
  {
    hide Append, Insert, DetachRunning, BlockCurrent;
  }

  lemma TidiedParking(k: Kernel, ticks: nat)
    requires Inv(k)
    ensures Tidied(k.s, Parking(k, ticks))
  {
    hide Core, DetachRunning, Append, BlockCurrent, Tidied;
    if ticks == W - 1 {
      var c, d := k.current, DetachRunning(k.s, k.current);
      TidiedDetach(k.s, c);
      TidiedAppend(d, Suspended, Gen(c));
      TidiedTrans(k.s, d, Append(d, Suspended, Gen(c)));
    } else {
      TidiedBlock(k, (k.w.tick + ticks) % W);
    }
  }

  lemma CalmWait(k: Kernel, q: nat, ticks: nat)
    requires Inv(k) && Val(k.s, Ev(k.current)) < W - 1
    ensures Calm(k.s, Wait(k, q, ticks).s)
  {
    hide Core, Parking, Insert, Wait, Tidy, Shrinks;
    var c, b := k.current, Parking(k, ticks);
    TidiedParking(k, ticks);
    WaitIsJoin(k, q, ticks);
    assert Val(b, Ev(c)) == Val(k.s, Ev(c));
    CalmJoin(b, q, c);
    CalmTrans(k.s, b, Insert(b, Event(q), Ev(c)));
  }

  // ----- Event item values

  /** The event item of t is on an event list. */
  predicate OnEventList(s: Store, t: Task) { Ev(t) in s.container && s.container[Ev(t)].Event? }

  /** The value an event item carries encodes the effective or the base priority of its task. */
  ghost predicate Keys(k: Kernel) {
    forall t {:trigger Val(k.s, Ev(t))} :: t in k.s.priority && t in k.base ==>
      Val(k.s, Ev(t)) == Max(k.levels, Prio(k.s, t)) - Prio(k.s, t)
      || Val(k.s, Ev(t)) == Max(k.levels, k.base[t]) - k.base[t]
  }

  /** Rewriting the value of an event item that is on no event list. */
  lemma Rekeyed(s: Store, t: Task, v: nat)
    requires Integrity(s) && !OnEventList(s, t) && Tidy(s)
    ensures Tidy(s.(value := s.value[Ev(t) := v]))
  {
    hide InOrder, Integrity;
    var r := s.(value := s.value[Ev(t) := v]);
    forall q: nat ensures InOrder(r, q) {
      OnlyEvents(s, q);
      NotThere(s, Ev(t), q);
      SameOrder(s, r, q);
    }
  }

  lemma NotThere(s: Store, i: Item, q: nat)
    requires Integrity(s) && !In(s, i, Event(q))
    ensures i !in Items(s, Event(q))
  {
  }

  lemma KeysKept(k: Kernel, r: Kernel)
    requires Keys(k) && Calm(k.s, r.s) && r.levels == k.levels
    requires forall t :: t in r.s.priority && t in r.base ==>
               t in k.s.priority && t in k.base && Prio(r.s, t) == Prio(k.s, t) && r.base[t] == k.base[t]
    ensures Keys(r)
  {
  }

  /** Every event list is in the order of its item values, and the values encode priorities. */
  ghost predicate EventInv(k: Kernel) { Tidy(k.s) && Keys(k) && 0 < k.levels < W - 1 }

  /** The step rewrites the event item value of a task that is waiting on an event list. */
  predicate Rekeys(k: Kernel, op: Op) {
    match op
    case OpSetPriority(t, p) => OnEventList(k.s, t) && BaseOf(k, t) != Capped(k, p)
    case OpInherit(t) => OnEventList(k.s, t) && Prio(k.s, t) < Prio(k.s, k.current)
    case _ => false
  }

  lemma RekeyedPriority(k: Kernel, t: Task, p: nat, key: nat)
    requires Sound(k.s) && Tidy(k.s) && !OnEventList(k.s, t)
    ensures var r := WithPriority(k, t, p, key).s;
            && Tidy(r) && Val(r, Ev(t)) == Max(k.levels, key) - key
            && (forall u {:trigger Val(r, Ev(u))} :: u != t ==> Val(r, Ev(u)) == Val(k.s, Ev(u)))
  {
    hide Tidy, Reprioritise, Shrinks;
    var v := Max(k.levels, key) - key;
    var s := k.s.(value := k.s.value[Ev(t) := v]);
    Rekeyed(k.s, t, v);
    TidiedReprioritise(s, t, p);
    PriorityValues(k, t, p, key);
  }

  /** A priority change rewrites the value of one event item and moves nobody on an event list. */
  lemma PriorityValues(k: Kernel, t: Task, p: nat, key: nat)
    ensures var r := WithPriority(k, t, p, key).s;
            && Val(r, Ev(t)) == Max(k.levels, key) - key
            && (forall u {:trigger Val(r, Ev(u))} :: u != t ==> Val(r, Ev(u)) == Val(k.s, Ev(u)))
            && Shrinks(k.s, r)
  {
    hide Tidy, Reprioritise, Shrinks;
    var s := k.s.(value := k.s.value[Ev(t) := Max(k.levels, key) - key]);
    var r := Reprioritise(s, t, p);
    TidiedReprioritise(s, t, p);
    forall u | u != t ensures Val(r, Ev(u)) == Val(k.s, Ev(u)) { assert Val(s, Ev(u)) == Val(k.s, Ev(u)); }
    assert Val(r, Ev(t)) == Val(s, Ev(t));
    SamePlaces(k.s, s);
    ShrinksTrans(k.s, s, r);
  }

  lemma ShrinksTrans(a: Store, b: Store, c: Store)
    requires Shrinks(a, b) && Shrinks(b, c)
    ensures Shrinks(a, c)
  {
    hide Precedes;
  }

  /** One task's priorities and event item value change together. */
  lemma KeysAfter(k: Kernel, r: Kernel, t: Task)
    requires Keys(k) && r.levels == k.levels
    requires forall u {:trigger Val(r.s, Ev(u))} :: u != t ==> Val(r.s, Ev(u)) == Val(k.s, Ev(u))
    requires forall u :: u != t ==> Prio(r.s, u) == Prio(k.s, u) && BaseOf(r, u) == BaseOf(k, u)
    requires forall u :: u != t && u in r.s.priority && u in r.base ==> u in k.s.priority && u in k.base
    requires Val(r.s, Ev(t)) == Max(r.levels, BaseOf(r, t)) - BaseOf(r, t)
            || Val(r.s, Ev(t)) == Max(r.levels, Prio(r.s, t)) - Prio(r.s, t)
    ensures Keys(r)
  {
  }

  lemma SetPriorityOrder(k: Kernel, t: Task, p: nat)
    requires Inv(k) && EventInv(k) && t in k.s.priority && !Rekeys(k, OpSetPriority(t, p))
    ensures EventInv(SetPriority(k, t, p))
  {
    hide Core, Tidy, Keys, SetPriority, Counters, Roles, Settled;
    CoreSound(k);
    SetPriorityStep(k, t, p);
    StepShape(k, OpSetPriority(t, p));
    if BaseOf(k, t) == Capped(k, p) {
      Untouched(k, t, p);
    } else {
      SetPriorityValues(k, t, p);
      KeysAfter(k, SetPriority(k, t, p), t);
    }
  }

  lemma Untouched(k: Kernel, t: Task, p: nat)
    requires BaseOf(k, t) == Capped(k, p)
    ensures SetPriority(k, t, p) == k
  {
  }

  lemma SetPriorityValues(k: Kernel, t: Task, p: nat)
    requires Sound(k.s) && Tidy(k.s) && !OnEventList(k.s, t) && BaseOf(k, t) != Capped(k, p)
    ensures var r, q := SetPriority(k, t, p), Capped(k, p);
            && Tidy(r.s) && Val(r.s, Ev(t)) == Max(k.levels, q) - q
            && (forall u {:trigger Val(r.s, Ev(u))} :: u != t ==> Val(r.s, Ev(u)) == Val(k.s, Ev(u)))
  {
    hide Sound, Tidy, WithPriority;
    var q := Capped(k, p);
    if BaseOf(k, t) == Prio(k.s, t) {
      RekeyedPriority(k.(base := k.base[t := q]), t, q, q);
    } else {
      SoundListed(k.s);
      Rekeyed(k.s, t, Max(k.levels, q) - q);
    }
  }

  lemma SoundListed(s: Store)
    requires Sound(s)
    ensures Integrity(s)
  {
    hide Integrity, Placed, ReadyRecorded;
  }

  lemma InheritOrder(k: Kernel, t: Task)
    requires Inv(k) && EventInv(k) && t in k.s.priority && !Rekeys(k, OpInherit(t))
    ensures EventInv(Inherit(k, t))
  {
    hide Core, Tidy, Keys, WithPriority, Counters, Roles, Settled;
    CoreSound(k);
    InheritStep(k, t);
    var p, r := Prio(k.s, k.current), Inherit(k, t);
    if Prio(k.s, t) < p {
      RekeyedPriority(k, t, p, p);
      RekeyedLevels(k, t, p, p);
      KeysAfter(k, r, t);
    }
  }

  lemma RekeyedLevels(k: Kernel, t: Task, p: nat, key: nat)
    ensures WithPriority(k, t, p, key).levels == k.levels
  {
  }

  lemma DisinheritOrder(k: Kernel, t: Task)
    requires Inv(k) && EventInv(k) && t in k.s.priority && Home(k.s, t).Ready?
    ensures EventInv(Disinherit(k, t))
  {
    hide Core, Tidy, Keys, WithPriority, Counters, Roles, Settled;
    CoreSound(k);
    DisinheritStep(k, t);
    var p, r := BaseOf(k, t), Disinherit(k, t);
    if Prio(k.s, t) != p {
      PI.RunningTask(k.s, t);
      RekeyedPriority(k, t, p, p);
      RekeyedLevels(k, t, p, p);
      KeysAfter(k, r, t);
    }
  }

  lemma CreateOrder(k: Kernel, t: Task, p: nat)
    requires Inv(k) && EventInv(k) && t !in k.s.priority
    ensures EventInv(Create(k, t, p))
  {
    hide Core, Tidy, Keys, Counters, Roles, Settled, AddReady;
    CoreSound(k);
    NewcomerListless(k.s, t);
    CreateStep(k, t, p);
    var q, r := Capped(k, p), Create(k, t, p);
    var v := Max(k.levels, q) - q;
    var s := k.s.(value := k.s.value[Ev(t) := v]);
    Rekeyed(k.s, t, v);
    var m := s.(priority := s.priority[t := q]);
    TidiedElse(s, m);
    TidiedAddReady(m, t);
    TidiedTrans(s, m, AddReady(m, t));
    forall u ensures Val(r.s, Ev(u)) == Val(s, Ev(u)) && (u != t ==> Val(s, Ev(u)) == Val(k.s, Ev(u))) {}
    KeysAfter(k, r, t);
  }

  lemma ReapOrder(k: Kernel)
    requires Inv(k) && EventInv(k) && Enabled(k, OpReap)
    ensures EventInv(Reap(k))
  {
    hide Core, Calm, Shrinks, Tidy, Counters, Roles, Settled, Bury;
    ReapStep(k);
    TidiedReap(k);
    TidyAfter(k.s, Reap(k).s);
    KeysKept(k, Reap(k));
  }

  lemma TidiedReap(k: Kernel)
    requires Items(k.s, Termination) != [] && k.numTasks > 0 && k.deleted > 0
    ensures Tidied(k.s, Reap(k).s)
  {
    hide Tidied, Remove;
    var t := Items(k.s, Termination)[0].task;
    var d := Remove(k.s, Gen(t));
    TidiedRemove(k.s, Gen(t));
    TidiedElse(d, Bury(k.s, t));
    TidiedTrans(k.s, d, Bury(k.s, t));
  }

  lemma TidyAfter(s: Store, r: Store)
    requires Calm(s, r) && Tidy(s)
    ensures Tidy(r)
  {
    hide Tidy;
  }

  /** The quiet services. */
  lemma QuietOrder(k: Kernel, op: Op)
    requires Inv(k) && k.levels > 0 && Enabled(k, op) && PI.Plain(op, {})
    requires !op.OpCreate? && !op.OpDelete? && !op.OpReap? && !op.OpWait?
    ensures Tidied(k.s, Step(k, op).s)
  {
    hide Core, Tidied, MakeReady, Pend, Retire, Replay, DrainPending, ProcessTick, BlockCurrent, TopLevel;
    TidiedElse(k.s, k.s);
    match op
    case OpSuspend(u) => TidiedRetire(k.s, u, Suspended);
    case OpResume(u) => TidiedMakeReady(k.s, u);
    case OpResumeFromISR(u) => TidiedMakeReady(k.s, u); TidiedPend(k.s, u);
    case OpSuspendAll =>
    case OpResumeAll => TidiedResumeAll(k);
    case OpTick =>
      var c := k.(interrupts := k.interrupts + 1);
      SameCore(k, c);
      TidiedTick(c);
    case OpSwitch => IdleIsReady(k); TidiedElse(k.s, Step(k, op).s);
    case OpDelay(n) => TidiedBlock(k, (k.w.tick + n) % W);
    case OpDelayUntil(previous, increment) => TidiedBlock(k, (previous + increment) % W);
    case OpWake(q) =>
      TidiedMakeReady(k.s, Items(k.s, Event(q))[0].task);
      TidiedPend(k.s, Items(k.s, Event(q))[0].task);
  }

  lemma WaitOrder(k: Kernel, q: nat, ticks: nat)
    requires Inv(k) && EventInv(k) && Enabled(k, OpWait(q, ticks))
    ensures EventInv(Wait(k, q, ticks))
  {
    hide Core, Calm, Shrinks, Tidy, Counters, Settled, Wait;
    var c := k.current;
    assert c in k.s.priority && c in k.base;
    assert Val(k.s, Ev(c)) <= k.levels;
    CalmWait(k, q, ticks);
    PI.WaitShape(k, q, ticks);
    TidyAfter(k.s, Wait(k, q, ticks).s);
    KeysKept(k, Wait(k, q, ticks));
  }

  /** Every service keeps the event lists in order, unless it rewrites the value of a waiting item. */
  lemma StepKeepsOrder(k: Kernel, op: Op)
    requires Inv(k) && EventInv(k) && Enabled(k, op) && !Rekeys(k, op)
    ensures EventInv(Step(k, op))
  {
    hide Core, Calm, Shrinks, Tidy, Keys, Counters, Settled, Roles, Rekeys, SetPriority, Inherit, Disinherit, Create;
    hide Reap, Wait, Retire;
    match op
    case OpCreate(t, p) => CreateOrder(k, t, p);
    case OpReap => ReapOrder(k);
    case OpDelete(t) =>
      TidiedRetire(k.s, t, Termination);
      DeleteStep(k, t);
      TidyAfter(k.s, Delete(k, t).s);
      KeysKept(k, Delete(k, t));
    case OpWait(q, n) => WaitOrder(k, q, n);
    case OpSetPriority(t, p) => SetPriorityOrder(k, t, p);
    case OpInherit(t) => InheritOrder(k, t);
    case OpDisinherit(t) => DisinheritOrder(k, t);
    case _ => QuietKeepsOrder(k, op);
  }

  lemma QuietKeepsOrder(k: Kernel, op: Op)
    requires Inv(k) && EventInv(k) && Enabled(k, op) && PI.Plain(op, {})
    requires !op.OpCreate? && !op.OpDelete? && !op.OpReap? && !op.OpWait?
    ensures EventInv(Step(k, op))
  {
    hide Core, Calm, Shrinks, Tidy, Keys, Counters, Settled, Roles, Step;
    QuietOrder(k, op);
    PI.QuietStep(k, op);
    StepShape(k, op);
    TidyAfter(k.s, Step(k, op).s);
    KeysKept(k, Step(k, op));
  }

  // ----- Runs

  ghost predicate NeverRekeys(k: Kernel, ops: seq<Op>)
    requires Inv(k) && k.levels > 0 && Possible(k, ops)
    decreases |ops|
  {
    ops == [] || (!Rekeys(k, ops[0]) && (StepRefines(k, ops[0]); NeverRekeys(Step(k, ops[0]), ops[1..])))
  }

  /** Over every run in which no waiting task's priority is changed, every event list stays in the
      order of its values, and every value encodes its task's effective or base priority. */
  lemma {:induction false} OrderOverRuns(k: Kernel, ops: seq<Op>)
    requires Inv(k) && EventInv(k) && Possible(k, ops) && NeverRekeys(k, ops)
    ensures EventInv(Run(k, ops))
    decreases |ops|
  {
    hide Inv, Step, Enabled, Rekeys, Tidy, Keys;
    if ops != [] {
      StepRefines(k, ops[0]);
      StepKeepsOrder(k, ops[0]);
      OrderOverRuns(Step(k, ops[0]), ops[1..]);
    }
  }

  lemma Alive(k: Kernel, v: Task)
    requires Inv(k) && Ev(v) in k.s.container
    ensures v in k.s.priority
  {
    hide DelayInv, CacheInv, Integrity, ReadyRecorded;
    assert Ev(v).task in k.s.priority;
  }

  /** The kernel starts with empty event lists. */
  lemma StartsInOrder(levels: nat, idle: Task)
    requires 0 < levels < W - 1
    ensures EventInv(Initial(levels, idle))
  {
    hide AddReady;
    var e := Store(map[], map[], map[Ev(idle) := levels], map[], 0, {});
    var m := e.(priority := e.priority[idle := 0]);
    TidiedElse(e, m);
    TidiedAddReady(m, idle);
    TidiedTrans(e, m, AddReady(m, idle));
    forall q: nat ensures InOrder(e, q) { assert Items(e, Event(q)) == []; }
    assert Val(AddReady(m, idle), Ev(idle)) == Val(e, Ev(idle));
  }
}
