/** Every kernel service keeps the invariant, and what it does to the unbounded clock. */
module KernelSteps {
  import opened XLists
  import opened Stores
  import opened ReadyLists
  import opened DelayLists
  import opened TaskMoves
  import opened Kernels

  // ----- Frame lemmas

  /** Tasks outside T keep their place and wake time; tasks in T end up untimed. */
  ghost predicate OnlyMoves(s: Store, r: Store, w: Wheel, T: set<Task>) {
    && (forall t :: t in r.priority && t !in T ==>
          t in s.priority && Home(r, t) == Home(s, t) && Val(r, Gen(t)) == Val(s, Gen(t)))
    && (forall t :: t in s.priority && t !in T && Timed(s, w, t) ==> t in r.priority)
    && (forall t :: t in T ==> !Timed(r, w, t))
  }

  lemma StillDelayed(s: Store, r: Store, w: Wheel, T: set<Task>, id: ListId)
    requires Sound(s) && Sound(r) && OnlyMoves(s, r, w, T) && (id == w.current || id == w.overflow) && Parked(id)
    ensures forall i :: i in Items(r, id) ==> i in Items(s, id) && Val(r, i) == Val(s, i)
  {
    hide Integrity, Placed, ReadyRecorded;
    forall i | i in Items(r, id) ensures i in Items(s, id) && Val(r, i) == Val(s, i) {
      EntryFacts(r, id, i);
      TaskFacts(s, i.task);
    }
  }

  /** On the unbounded clock such a move cancels the deadlines of T. */
  lemma ClockMoves(s: Store, r: Store, w: Wheel, T: set<Task>)
    requires OnlyMoves(s, r, w, T)
    ensures Abs(r, w) == Cancel(Abs(s, w), T)
  {
    hide Home, Val;
    assert Abs(r, w).deadline.Keys == Cancel(Abs(s, w), T).deadline.Keys;
    assert Abs(r, w).deadline == Cancel(Abs(s, w), T).deadline;
  }

  lemma StillCore(k: Kernel, r: Kernel, T: set<Task>)
    requires Core(k) && Sound(r.s) && r.w == k.w && r.nextUnblock == k.nextUnblock
    requires OnlyMoves(k.s, r.s, k.w, T) && ListSorted(r.s, Delayed1) && ListSorted(r.s, Delayed2)
    ensures Core(r) && Clk(r) == Cancel(Clk(k), T)
  {
    hide Sound, ListSorted, Abs, Cancel, OnlyMoves;
    StillDelayed(k.s, r.s, k.w, T, k.w.current);
    StillDelayed(k.s, r.s, k.w, T, k.w.overflow);
    ClockMoves(k.s, r.s, k.w, T);
  }

  lemma BothSorted(k: Kernel)
    requires Core(k)
    ensures ListSorted(k.s, Delayed1) && ListSorted(k.s, Delayed2)
    ensures (k.w.current == Delayed1 && k.w.overflow == Delayed2)
            || (k.w.current == Delayed2 && k.w.overflow == Delayed1)
  {
    hide Sound, CacheInv, ListSorted;
  }

  lemma CancelNone(c: Clock)
    ensures Cancel(c, {}) == c
  {
    assert c.deadline - {} == c.deadline;
  }

  /** The bookkeeping that a move without ticks, births or deaths keeps. */
  lemma StillBooked(k: Kernel, r: Kernel)
    requires Inv(k) && Core(r) && r.s.priority.Keys == k.s.priority.Keys && Priorities(r)
    requires r.w == k.w && r.missed == k.missed && r.suspended == k.suspended && r.interrupts == k.interrupts
    requires r.numTasks == k.numTasks && r.deleted == |Items(r.s, Termination)|
    requires r.current == k.current && r.idle == k.idle && Home(r.s, k.idle).Ready?
    requires k.suspended == 0 ==> Items(r.s, PendingReady) == []
    ensures Inv(r)
  {
    assert |r.s.priority.Keys| == |r.s.priority| && |k.s.priority.Keys| == |k.s.priority|;
  }

  lemma PendingStaysEmpty(s: Store, r: Store)
    requires Sound(s) && Sound(r) && Items(s, PendingReady) == []
    requires forall i :: In(r, i, PendingReady) ==> In(s, i, PendingReady)
    ensures Items(r, PendingReady) == []
  {
    if Items(r, PendingReady) != [] { HeadListed(s, r); }
  }

  lemma HeadListed(s: Store, r: Store)
    requires Sound(s) && Sound(r) && Items(r, PendingReady) != []
    requires forall i :: In(r, i, PendingReady) ==> In(s, i, PendingReady)
    ensures Items(s, PendingReady) != []
  {
    var i := Items(r, PendingReady)[0];
    assert i in Items(r, PendingReady);
    assert In(r, i, PendingReady);
    assert i in Items(s, PendingReady);
  }

  /** No task but t changes its state list or its event list. */
  ghost predicate OthersStay(s: Store, r: Store, t: Task) {
    && (forall u {:trigger Home(r, u)} {:trigger Home(s, u)} :: u != t ==> Home(r, u) == Home(s, u))
    && (forall u, id {:trigger In(r, Ev(u), id)} {:trigger In(s, Ev(u), id)} ::
          u != t ==> (In(r, Ev(u), id) <==> In(s, Ev(u), id)))
  }

  // ----- Retiring: vTaskSuspend and vTaskDelete

  lemma RetireStep(k: Kernel, t: Task, id: ListId)
    requires Inv(k) && t in k.s.priority && t != k.idle && (id == Suspended || id == Termination)
    ensures var r := k.(s := Retire(k.s, t, id), deleted := |Items(Retire(k.s, t, id), Termination)|);
            Inv(r) && Clk(r) == Cancel(Clk(k), {t})
  {
    hide Core, Sound, DelayInv, CacheInv, Clk, Retire, Cancel;
    var s := Retire(k.s, t, id);
    RetireCore(k, t, id);
    assert Sound(k.s) && Sound(s) by { CoreSound(k); CoreSound(k.(s := s)); }
    RetireFacts(k.s, t, id);
    var r := k.(s := s, deleted := |Items(s, Termination)|);
    SameCore(k.(s := s), r);
    if k.suspended == 0 { PendingStaysEmpty(k.s, s); }
    StillBooked(k, r);
  }

  lemma CoreSound(k: Kernel)
    requires Core(k)
    ensures Sound(k.s)
  {
    hide Sound;
  }

  lemma RetireCore(k: Kernel, t: Task, id: ListId)
    requires Core(k) && t in k.s.priority && (id == Suspended || id == Termination)
    ensures Core(k.(s := Retire(k.s, t, id))) && Clk(k.(s := Retire(k.s, t, id))) == Cancel(Clk(k), {t})
  {
    hide Sound, DelayInv, CacheInv, ListSorted, Clk, Retire, Cancel;
    BothSorted(k);
    RetireFacts(k.s, t, id);
    RetireKeepsSorted(k.s, t, id, Delayed1);
    RetireKeepsSorted(k.s, t, id, Delayed2);
    StillCore(k, k.(s := Retire(k.s, t, id)), {t});
  }

  lemma SuspendStep(k: Kernel, t: Task)
    requires Inv(k) && t in k.s.priority && t != k.idle && Home(k.s, t) != Termination
    ensures Inv(Suspend(k, t)) && Clk(Suspend(k, t)) == Cancel(Clk(k), {t})
    ensures Home(Suspend(k, t).s, t) == Suspended && Ev(t) !in Suspend(k, t).s.container
    ensures OthersStay(k.s, Suspend(k, t).s, t) && Suspend(k, t).s.priority == k.s.priority
  {
    hide Integrity, Placed, ReadyRecorded, Retire;
    TaskFacts(k.s, t);
    RetireFacts(k.s, t, Suspended);
    RetireStep(k, t, Suspended);
    assert ListOf(Suspend(k, t).s, Termination) == ListOf(k.s, Termination);
    assert Suspend(k, t)
        == k.(s := Retire(k.s, t, Suspended), deleted := |Items(Retire(k.s, t, Suspended), Termination)|);
  }

  lemma DeleteStep(k: Kernel, t: Task)
    requires Inv(k) && t in k.s.priority && t != k.idle && Home(k.s, t) != Termination
    ensures Inv(Delete(k, t)) && Clk(Delete(k, t)) == Cancel(Clk(k), {t})
    ensures Home(Delete(k, t).s, t) == Termination && Ev(t) !in Delete(k, t).s.container
    ensures OthersStay(k.s, Delete(k, t).s, t) && Delete(k, t).s.priority == k.s.priority
  {
    hide Integrity, Placed, ReadyRecorded, Retire;
    RetireFacts(k.s, t, Termination);
    RetireStep(k, t, Termination);
  }

  // ----- Readying: vTaskResume, xTaskResumeFromISR, xTaskRemoveFromEventList

  lemma ReadyStep(k: Kernel, t: Task)
    requires Inv(k) && t in k.s.priority && Parked(Home(k.s, t))
    ensures var r := k.(s := MakeReady(k.s, t));
            && Inv(r) && Clk(r) == Cancel(Clk(k), {t}) && Home(r.s, t) == Ready(Prio(k.s, t)) && Ev(t) !in r.s.container
            && OthersStay(k.s, r.s, t) && r.s.priority == k.s.priority
  {
    hide Core, Sound, DelayInv, CacheInv, Clk, MakeReady, Cancel;
    CoreSound(k);
    ReadyCore(k, t);
    var r := k.(s := MakeReady(k.s, t));
    CoreSound(r);
    TaskFacts(k.s, t);
    MakeReadyFacts(k.s, t);
    assert ListOf(r.s, Termination) == ListOf(k.s, Termination);
    if k.suspended == 0 { PendingStaysEmpty(k.s, r.s); }
    StillBooked(k, r);
  }

  lemma ReadyCore(k: Kernel, t: Task)
    requires Core(k) && t in k.s.priority && Parked(Home(k.s, t))
    ensures Core(k.(s := MakeReady(k.s, t))) && Clk(k.(s := MakeReady(k.s, t))) == Cancel(Clk(k), {t})
  {
    hide Sound, DelayInv, CacheInv, ListSorted, Clk, MakeReady, Cancel;
    BothSorted(k);
    MakeReadyFacts(k.s, t);
    StillCore(k, k.(s := MakeReady(k.s, t)), {t});
  }

  lemma PendMoves(s: Store, t: Task)
    requires Sound(s) && t in s.priority && Parked(Home(s, t)) && !In(s, Ev(t), PendingReady)
    ensures OthersStay(s, Pend(s, t), t) && Home(Pend(s, t), t) == Home(s, t)
  {
    hide Sound, Pend;
    PendFacts(s, t);
  }

  lemma PendStep(k: Kernel, t: Task)
    requires Inv(k) && t in k.s.priority && Parked(Home(k.s, t)) && !In(k.s, Ev(t), PendingReady) && k.suspended > 0
    ensures var r := k.(s := Pend(k.s, t));
            && Inv(r) && Clk(r) == Clk(k) && In(r.s, Ev(t), PendingReady)
            && OthersStay(k.s, r.s, t) && r.s.priority == k.s.priority && Home(r.s, t) == Home(k.s, t)
  {
    hide Core, Clk, Pend, OthersStay;
    CoreSound(k);
    PendFacts(k.s, t);
    PendMoves(k.s, t);
    PendCore(k, t);
    StillBooked(k, k.(s := Pend(k.s, t)));
  }

  lemma PendCore(k: Kernel, t: Task)
    requires Core(k) && t in k.s.priority && Parked(Home(k.s, t)) && !In(k.s, Ev(t), PendingReady)
    ensures Core(k.(s := Pend(k.s, t))) && Clk(k.(s := Pend(k.s, t))) == Clk(k)
  {
    hide Sound, DelayInv, CacheInv, ListSorted, Clk, Pend, Cancel;
    BothSorted(k);
    PendFacts(k.s, t);
    var r := k.(s := Pend(k.s, t));
    SortedAlike(k.s, r.s, Delayed1);
    SortedAlike(k.s, r.s, Delayed2);
    StillCore(k, r, {});
    CancelNone(Clk(k));
  }

  lemma NotTimed(k: Kernel, t: Task)
    requires Core(k) && t in k.s.priority && !(Home(k.s, t).Delayed1? || Home(k.s, t).Delayed2?)
    ensures Cancel(Clk(k), {t}) == Clk(k)
  {
    assert t !in Clk(k).deadline;
    assert Clk(k).deadline - {t} == Clk(k).deadline;
  }

  lemma ResumeStep(k: Kernel, t: Task)
    requires Inv(k) && t in k.s.priority
    ensures Inv(Resume(k, t)) && Clk(Resume(k, t)) == Clk(k)
    ensures var wakes := t != k.current && Home(k.s, t) == Suspended && Ev(t) !in k.s.container;
            && Home(Resume(k, t).s, t) == (if wakes then Ready(Prio(k.s, t)) else Home(k.s, t))
            && OthersStay(k.s, Resume(k, t).s, t) && Resume(k, t).s.priority == k.s.priority
  {
    hide Integrity, Placed, ReadyRecorded, ListSorted, MakeReady;
    if t != k.current && IsSuspended(k, t) { ReadyStep(k, t); NotTimed(k, t); }
  }

  lemma ResumeFromISRStep(k: Kernel, t: Task)
    requires Inv(k) && t in k.s.priority
    ensures Inv(ResumeFromISR(k, t)) && Clk(ResumeFromISR(k, t)) == Clk(k)
    ensures var r, wakes := ResumeFromISR(k, t), Home(k.s, t) == Suspended && Ev(t) !in k.s.container;
            && Home(r.s, t) == (if wakes && k.suspended == 0 then Ready(Prio(k.s, t)) else Home(k.s, t))
            && (In(r.s, Ev(t), PendingReady) <==> In(k.s, Ev(t), PendingReady) || (wakes && k.suspended > 0))
            && OthersStay(k.s, r.s, t) && r.s.priority == k.s.priority
  {
    hide Integrity, Placed, ReadyRecorded, ListSorted, MakeReady, Pend;
    if IsSuspended(k, t) {
      if k.suspended == 0 { ReadyStep(k, t); NotTimed(k, t); } else { PendStep(k, t); }
    }
  }

  lemma EventHead(s: Store, q: nat)
    requires Sound(s) && Items(s, Event(q)) != []
    ensures var i := Items(s, Event(q))[0];
            i == Ev(i.task) && i.task in s.priority && Parked(Home(s, i.task)) && In(s, i, Event(q))
  {
    var i := Items(s, Event(q))[0];
    assert i in Items(s, Event(q));
    assert In(s, i, Event(q));
    assert PlacedTask(s, i.task);
  }

  lemma WakeStep(k: Kernel, q: nat)
    requires Inv(k) && Items(k.s, Event(q)) != []
    ensures var t := Items(k.s, Event(q))[0].task;
            && Inv(Wake(k, q)) && t in k.s.priority
            && (k.suspended == 0 ==> Home(Wake(k, q).s, t) == Ready(Prio(k.s, t)) && Ev(t) !in Wake(k, q).s.container)
            && (k.suspended > 0 ==> Home(Wake(k, q).s, t) == Home(k.s, t) && In(Wake(k, q).s, Ev(t), PendingReady))
            && OthersStay(k.s, Wake(k, q).s, t) && Wake(k, q).s.priority == k.s.priority
            && Clk(Wake(k, q)) == if k.suspended == 0 then Cancel(Clk(k), {t}) else Clk(k)
  {
    hide Integrity, Placed, ReadyRecorded, ListSorted, MakeReady, Pend;
    EventHead(k.s, q);
    var t := Items(k.s, Event(q))[0].task;
    if k.suspended == 0 { ReadyStep(k, t); } else { PendStep(k, t); }
  }

  // ----- Birth and death

  lemma ValuesAside(s: Store, value: map<Item, nat>)
    requires Sound(s)
    ensures Sound(s.(value := value))
  {
    var m := s.(value := value);
    assert forall id :: ListOf(m, id) == ListOf(s, id) && Items(m, id) == Items(s, id);
    assert forall i, id :: In(m, i, id) == In(s, i, id);
    forall u | u in m.priority ensures PlacedTask(m, u) { assert PlacedTask(s, u); }
  }

  /** Rewriting the value of an event item disturbs no delayed list. */
  lemma EventValueAside(k: Kernel, t: Task, v: nat)
    requires Inv(k)
    ensures var r := k.(s := k.s.(value := k.s.value[Ev(t) := v]));
            Inv(r) && Clk(r) == Clk(k)
  {
    hide Integrity, Placed, ReadyRecorded;
    var r := k.(s := k.s.(value := k.s.value[Ev(t) := v]));
    ValuesAside(k.s, r.s.value);
    assert forall i: Item :: i.Gen? ==> Val(r.s, i) == Val(k.s, i);
    DelayedValuesAlike(k.s, r.s, Delayed1);
    DelayedValuesAlike(k.s, r.s, Delayed2);
    hide ListSorted;
    StillCore(k, r, {});
    CancelNone(Clk(k));
    StillBooked(k, r);
  }

  lemma DelayedValuesAlike(s: Store, r: Store, id: ListId)
    requires Sound(s) && Parked(id) && Items(r, id) == Items(s, id) && ListSorted(s, id)
    requires forall i: Item :: i.Gen? ==> Val(r, i) == Val(s, i)
    ensures ListSorted(r, id)
  {
    hide Integrity, Placed, ReadyRecorded;
    forall j | 0 <= j < |Items(s, id)| ensures Val(r, Items(r, id)[j]) == Val(s, Items(s, id)[j]) {
      EntryFacts(s, id, Items(s, id)[j]);
    }
    assert ValuesOf(r, Items(r, id)) == ValuesOf(s, Items(s, id));
  }

  lemma CreateStep(k: Kernel, t: Task, p: nat)
    requires Inv(k) && t !in k.s.priority && k.levels > 0
    ensures Inv(Create(k, t, p)) && Clk(Create(k, t, p)) == Clk(k)
    ensures var r, q := Create(k, t, p), if p < k.levels then p else k.levels - 1;
            && r.s.priority == k.s.priority[t := q] && r.base == k.base[t := q]
            && Home(r.s, t) == Ready(q) && Ev(t) !in r.s.container && OthersStay(k.s, r.s, t)
  {
    hide Core, Clk, Birth, OthersStay, Priorities, Counters, Roles, Settled;
    var q := Capped(k, p);
    var v := Max(k.levels, q) - q;
    EventValueAside(k, t, v);
    var m := k.(s := k.s.(value := k.s.value[Ev(t) := v]));
    BornCore(m, t, q);
    CoreSound(m);
    BirthFacts(m.s, t, q);
    var r := Create(k, t, p);
    SameCore(m.(s := Birth(m.s, t, q)), r);
    CoreSound(k);
    NewcomerListless(k.s, t);
    BirthMoves(k.s, r.s, t, q);
    BornBooked(m, r, t, q);
  }

  /** The bookkeeping after a birth. */
  lemma BornBooked(m: Kernel, r: Kernel, t: Task, q: nat)
    requires Inv(m) && Core(r) && t !in m.s.priority && q < m.levels
    requires r == m.(s := r.s, base := m.base[t := q], numTasks := m.numTasks + 1)
    requires r.s.priority == m.s.priority[t := q] && r.s.container == m.s.container[Gen(t) := Ready(q)]
    requires forall d: ListId :: !d.Ready? ==> ListOf(r.s, d) == ListOf(m.s, d)
    ensures Inv(r)
  {
    hide Core;
    GrowsByOne(m.s.priority, t, q);
    assert ListOf(r.s, Termination) == ListOf(m.s, Termination)
        && ListOf(r.s, PendingReady) == ListOf(m.s, PendingReady);
  }

  lemma BirthMoves(s: Store, r: Store, t: Task, q: nat)
    requires r.container == s.container[Gen(t) := Ready(q)]
    ensures OthersStay(s, r, t) && Home(r, t) == Ready(q)
  {
  }

  lemma NewcomerListless(s: Store, t: Task)
    requires Sound(s) && t !in s.priority
    ensures Ev(t) !in s.container && Gen(t) !in s.container
  {
  }

  lemma BornCore(k: Kernel, t: Task, q: nat)
    requires Core(k) && t !in k.s.priority
    ensures Core(k.(s := Birth(k.s, t, q))) && Clk(k.(s := Birth(k.s, t, q))) == Clk(k)
  {
    hide Sound, DelayInv, CacheInv, ListSorted, Clk, Birth, Cancel;
    var r := k.(s := Birth(k.s, t, q));
    BothSorted(k);
    BirthFacts(k.s, t, q);
    SortedAlike(k.s, r.s, Delayed1);
    SortedAlike(k.s, r.s, Delayed2);
    Unscheduled(k, t);
    StillCore(k, r, {t});
  }

  lemma SameCore(k: Kernel, r: Kernel)
    requires Core(k) && r.s == k.s && r.w == k.w && r.nextUnblock == k.nextUnblock
    ensures Core(r) && Clk(r) == Clk(k)
  {
    hide Sound, DelayInv;
  }

  lemma Unscheduled(k: Kernel, t: Task)
    requires t !in k.s.priority
    ensures Cancel(Clk(k), {t}) == Clk(k)
  {
    assert Clk(k).deadline - {t} == Clk(k).deadline;
  }

  lemma GrowsByOne(m: map<Task, nat>, t: Task, v: nat)
    requires t !in m
    ensures |m[t := v]| == |m| + 1
  {
    assert m[t := v].Keys == m.Keys + {t};
    assert |m[t := v].Keys| == |m[t := v]| && |m.Keys| == |m|;
  }

  lemma ReapStep(k: Kernel)
    requires Inv(k) && k.current == k.idle && Items(k.s, Termination) != []
    ensures k.numTasks > 0 && k.deleted > 0 && Inv(Reap(k)) && Clk(Reap(k)) == Clk(k)
    ensures var t := Items(k.s, Termination)[0].task;
            && t in k.s.priority && Home(k.s, t) == Termination
            && Reap(k).s.priority == k.s.priority - {t} && OthersStay(k.s, Reap(k).s, t)
  {
    hide Core, Sound, Clk, Bury;
    CoreSound(k);
    var t := Items(k.s, Termination)[0].task;
    TerminatedHead(k.s);
    ShrinksByOne(k.s.priority, t);
    BuryFacts(k.s, t);
    BuryCore(k, t);
    var r := Reap(k);
    SameCore(k.(s := Bury(k.s, t)), r);
    assert ListOf(r.s, PendingReady) == ListOf(k.s, PendingReady);
  }

  lemma BuryCore(k: Kernel, t: Task)
    requires Core(k) && t in k.s.priority && Home(k.s, t) == Termination
    ensures Core(k.(s := Bury(k.s, t))) && Clk(k.(s := Bury(k.s, t))) == Clk(k)
  {
    hide Sound, DelayInv, CacheInv, ListSorted, Clk, Bury, Cancel;
    BothSorted(k);
    BuryFacts(k.s, t);
    var r := k.(s := Bury(k.s, t));
    SortedAlike(k.s, r.s, Delayed1);
    SortedAlike(k.s, r.s, Delayed2);
    StillCore(k, r, {});
    CancelNone(Clk(k));
  }

  lemma ShrinksByOne(m: map<Task, nat>, t: Task)
    requires t in m
    ensures |m - {t}| == |m| - 1
  {
    assert m.Keys == (m - {t}).Keys + {t};
    assert |(m - {t}).Keys| == |m - {t}| && |m.Keys| == |m|;
  }

  lemma TerminatedHead(s: Store)
    requires Sound(s) && Items(s, Termination) != []
    ensures var i := Items(s, Termination)[0];
            i == Gen(i.task) && i.task in s.priority && Home(s, i.task) == Termination
  {
    var i := Items(s, Termination)[0];
    assert i in Items(s, Termination);
    assert In(s, i, Termination);
    assert PlacedTask(s, i.task);
  }

  // ----- Priorities

  lemma WithPriorityStep(k: Kernel, t: Task, p: nat, key: nat)
    requires Inv(k) && t in k.s.priority && p < k.levels
    ensures var r := WithPriority(k, t, p, key);
            && Inv(r) && Clk(r) == Clk(k) && Prio(r.s, t) == p
            && r.s.priority == k.s.priority[t := p] && r.base == k.base && r.current == k.current
            && (Home(k.s, t).Ready? ==> Home(r.s, t) == Ready(p))
            && (!Home(k.s, t).Ready? ==> Home(r.s, t) == Home(k.s, t))
            && (forall q :: ListOf(r.s, Event(q)) == ListOf(k.s, Event(q)))
  {
    hide Core, Clk, Reprioritise;
    var v := Max(k.levels, key) - key;
    EventValueAside(k, t, v);
    var m := k.(s := k.s.(value := k.s.value[Ev(t) := v]));
    var r := WithPriority(k, t, p, key);
    assert r.s == Reprioritise(m.s, t, p);
    CoreSound(m);
    ReprioritiseFacts(m.s, t, p);
    ReprioritiseCore(m, t, p);
    StillBooked(m, r);
  }

  lemma ReprioritiseCore(k: Kernel, t: Task, p: nat)
    requires Core(k) && t in k.s.priority
    ensures var r := k.(s := Reprioritise(k.s, t, p));
            && Core(r) && Clk(r) == Clk(k)
            && (Home(k.s, t).Ready? ==> Home(r.s, t) == Ready(p))
            && (!Home(k.s, t).Ready? ==> Home(r.s, t) == Home(k.s, t))
  {
    hide Sound, DelayInv, CacheInv, ListSorted, Clk, Reprioritise;
    var r := k.(s := Reprioritise(k.s, t, p));
    BothSorted(k);
    ReprioritiseFacts(k.s, t, p);
    SortedAlike(k.s, r.s, Delayed1);
    SortedAlike(k.s, r.s, Delayed2);
    TaskFacts(k.s, t);
    StillReadyMoves(k, r, t);
  }

  /** A task that is on a ready list before and after a move leaves the clock alone. */
  lemma StillReadyMoves(k: Kernel, r: Kernel, t: Task)
    requires Core(k) && Sound(r.s) && r.w == k.w && r.nextUnblock == k.nextUnblock && t in k.s.priority
    requires r.s.priority.Keys == k.s.priority.Keys && r.s.value == k.s.value
    requires forall u :: u in k.s.priority && u != t ==> Home(r.s, u) == Home(k.s, u)
    requires Home(r.s, t) == Home(k.s, t) || (Home(r.s, t).Ready? && Home(k.s, t).Ready?)
    requires ListSorted(r.s, Delayed1) && ListSorted(r.s, Delayed2)
    ensures Core(r) && Clk(r) == Clk(k)
  {
    hide Integrity, Placed, ReadyRecorded, ListSorted;
    if Home(k.s, t).Ready? {
      StillCore(k, r, {t});
      NotTimed(k, t);
    } else {
      StillCore(k, r, {});
      CancelNone(Clk(k));
    }
  }

  lemma SetPriorityStep(k: Kernel, t: Task, p: nat)
    requires Inv(k) && t in k.s.priority && k.levels > 0
    ensures Inv(SetPriority(k, t, p)) && Clk(SetPriority(k, t, p)) == Clk(k)
    ensures var r, q := SetPriority(k, t, p), if p < k.levels then p else k.levels - 1;
            && r.base == k.base[t := q]
            && r.s.priority == k.s.priority[t := if k.base[t] == k.s.priority[t] then q else k.s.priority[t]]
            && (forall e :: ListOf(r.s, Event(e)) == ListOf(k.s, Event(e)))
  {
    hide Core, Counters, Roles, Settled, WithPriority, Clk;
    var q := Capped(k, p);
    if BaseOf(k, t) == q {
      assert k.base[t := q] == k.base && k.s.priority[t := k.s.priority[t]] == k.s.priority;
    } else {
      var m := k.(base := k.base[t := q]);
      RebaseStep(k, t, q);
      if BaseOf(k, t) == Prio(k.s, t) {
        WithPriorityStep(m, t, q, q);
      } else {
        EventValueAside(m, t, Max(k.levels, q) - q);
        assert k.s.priority[t := k.s.priority[t]] == k.s.priority;
      }
    }
  }

  /** vTaskPrioritySet leaves the effective priority at or above the base priority if and only if no
      inherited priority is in use or the new base does not exceed it. */
  lemma SetPriorityBoundIff(k: Kernel, t: Task, p: nat)
    requires Inv(k) && t in k.s.priority && k.levels > 0 && t in k.base && k.s.priority[t] >= k.base[t]
    ensures var r, q := SetPriority(k, t, p), if p < k.levels then p else k.levels - 1;
            && t in r.base
            && (Prio(r.s, t) >= r.base[t] <==> k.s.priority[t] == k.base[t] || q <= k.s.priority[t])
  {
    hide Core, Counters, Roles, Settled, SetPriority;
    SetPriorityStep(k, t, p);
  }

  lemma RebaseStep(k: Kernel, t: Task, q: nat)
    requires Inv(k) && t in k.s.priority && q < k.levels
    ensures Inv(k.(base := k.base[t := q])) && Clk(k.(base := k.base[t := q])) == Clk(k)
  {
    hide Sound;
  }

  lemma InheritStep(k: Kernel, holder: Task)
    requires Inv(k) && holder in k.s.priority
    ensures var r := Inherit(k, holder);
            && Inv(r) && Clk(r) == Clk(k) && r.base == k.base && r.current == k.current
            && r.s.priority == k.s.priority[holder := Max(Prio(k.s, holder), Prio(k.s, k.current))]
            && (Home(k.s, holder).Ready? ==> Home(r.s, holder) == Ready(Prio(r.s, holder)))
            && (!Home(k.s, holder).Ready? ==> Home(r.s, holder) == Home(k.s, holder))
            && (forall q :: ListOf(r.s, Event(q)) == ListOf(k.s, Event(q)))
  {
    hide Integrity, ReadyRecorded, WithPriority;
    var p := Prio(k.s, k.current);
    TaskFacts(k.s, holder);
    if Prio(k.s, holder) < p { WithPriorityStep(k, holder, p, p); }
    else { assert k.s.priority[holder := Prio(k.s, holder)] == k.s.priority; }
  }

  lemma DisinheritStep(k: Kernel, holder: Task)
    requires Inv(k) && holder in k.s.priority && Home(k.s, holder).Ready?
    ensures var r := Disinherit(k, holder);
            && Inv(r) && Clk(r) == Clk(k) && r.base == k.base && r.current == k.current
            && r.s.priority == k.s.priority[holder := k.base[holder]]
            && Home(r.s, holder) == Ready(k.base[holder])
            && (forall q :: ListOf(r.s, Event(q)) == ListOf(k.s, Event(q)))
  {
    hide Integrity, ReadyRecorded, WithPriority;
    var p := BaseOf(k, holder);
    TaskFacts(k.s, holder);
    if Prio(k.s, holder) != p { WithPriorityStep(k, holder, p, p); }
    else { assert k.s.priority[holder := p] == k.s.priority; }
  }
}
