/** The two delayed lists swapped when the 32-bit tick wraps, and the unbounded clock they implement. */
module DelayLists {
  import opened XLists
  import opened Stores
  import opened ReadyLists

  // ----- The reference: an unbounded clock with one absolute deadline per timed-blocked task

  datatype Clock = Clock(now: nat, deadline: map<Task, nat>)

  function Elapse(c: Clock): Clock {
    Clock(c.now + 1, map t | t in c.deadline && c.deadline[t] != c.now + 1 :: c.deadline[t])
  }

  function ElapseBy(c: Clock, n: nat): Clock
    decreases n
  {
    if n == 0 then c else ElapseBy(Elapse(c), n - 1)
  }

  function Schedule(c: Clock, t: Task, ticks: nat): Clock {
    c.(deadline := c.deadline[t := c.now + ticks])
  }

  function Cancel(c: Clock, ts: set<Task>): Clock {
    c.(deadline := c.deadline - ts)
  }

  // ----- The implementation state

  /** Which list is current and which holds the wrapped wake times, the tick and its wrap count. */
  datatype Wheel = Wheel(current: ListId, overflow: ListId, tick: nat, wraps: nat)

  ghost predicate DelayInv(s: Store, w: Wheel) {
    && ((w.current == Delayed1 && w.overflow == Delayed2) || (w.current == Delayed2 && w.overflow == Delayed1))
    && w.tick < W
    && (forall i :: i in Items(s, w.current) ==> w.tick < Val(s, i) < W)
    && (forall i :: i in Items(s, w.overflow) ==> Val(s, i) < w.tick)
    && ListSorted(s, w.current) && ListSorted(s, w.overflow)
  }

  predicate Timed(s: Store, w: Wheel, t: Task) {
    Home(s, t) == w.current || Home(s, t) == w.overflow
  }

  /** The start of a wrap period on the unbounded clock. */
  function Epoch(wraps: nat): nat { wraps * 0x1_0000_0000 }

  function DeadlineOf(s: Store, w: Wheel, t: Task): nat {
    Epoch(if Home(s, t) == w.current then w.wraps else w.wraps + 1) + Val(s, Gen(t))
  }

  function Now(w: Wheel): nat { Epoch(w.wraps) + w.tick }

  function Abs(s: Store, w: Wheel): Clock {
    Clock(Now(w), map t | t in s.priority && Timed(s, w, t) :: DeadlineOf(s, w, t))
  }

  // ----- Waking the expired prefix of a delayed list

  /** The loop of prvCheckDelayedTasks and of prvCheckDelayedList: while the head has expired,
      detach it from the delayed list and any event list and make it ready. */
  function Drain(s: Store, id: ListId, tick: nat): (r: Store)
    requires Sound(s) && (id.Delayed1? || id.Delayed2?)
    decreases |Items(s, id)|
  {
    if Items(s, id) == [] || Val(s, Items(s, id)[0]) > tick then s
    else
      EntryFacts(s, id, Items(s, id)[0]);
      MakeReadyFacts(s, Items(s, id)[0].task);
      Drain(MakeReady(s, Items(s, id)[0].task), id, tick)
  }

  predicate Expired(s: Store, id: ListId, tick: nat, t: Task) {
    Home(s, t) == id && Val(s, Gen(t)) <= tick
  }

  /** Draining readies exactly the expired tasks of the list, detaches exactly their event items and
      moves nothing else. */
  lemma {:induction false} DrainFacts(s: Store, id: ListId, tick: nat)
    requires Sound(s) && (id.Delayed1? || id.Delayed2?) && ListSorted(s, id)
    ensures var r := Drain(s, id, tick);
            && Sound(r) && r.value == s.value && r.priority == s.priority && ListSorted(r, id)
            && (forall t :: t in s.priority ==>
                  Home(r, t) == if Expired(s, id, tick, t) then Ready(Prio(s, t)) else Home(s, t))
            && (forall t :: t in s.priority ==>
                  (Ev(t) in r.container <==> Ev(t) in s.container && !Expired(s, id, tick, t)))
            && (forall t :: Ev(t) in r.container ==> Ev(t) in s.container && r.container[Ev(t)] == s.container[Ev(t)])
            && (forall id' :: (Parked(id') || id' == Termination) && id' != id ==> ListOf(r, id') == ListOf(s, id'))
    decreases |Items(s, id)|
  {
    hide Sound, ListSorted, MakeReady, Expired, Home;
    if Items(s, id) == [] || Val(s, Items(s, id)[0]) > tick {
      NothingExpired(s, id, tick);
    } else {
      var u := Items(s, id)[0].task;
      EntryFacts(s, id, Items(s, id)[0]);
      MakeReadyFacts(s, u);
      DrainFacts(MakeReady(s, u), id, tick);
      HeadReadied(s, MakeReady(s, u), id, tick, u);
      HeadAside(s, u);
    }
  }

  /** The items of a delayed task are on no other state list. */
  lemma HeadAside(s: Store, u: Task)
    requires Sound(s) && u in s.priority
    ensures forall id :: (Parked(id) || id == Termination) && id != Home(s, u) ==>
              !In(s, Gen(u), id) && !In(s, Ev(u), id)
  {
    hide Integrity, ReadyRecorded;
    assert PlacedTask(s, u);
  }

  /** Readying the expired head leaves the others as expired as they were. */
  lemma HeadReadied(s: Store, m: Store, id: ListId, tick: nat, u: Task)
    requires Home(s, u) == id && Val(s, Gen(u)) <= tick && !id.Ready? && m.value == s.value
    requires m.container == (s.container - {Ev(u)})[Gen(u) := Ready(Prio(s, u))]
    ensures Expired(s, id, tick, u)
    ensures forall t :: Expired(m, id, tick, t) <==> Expired(s, id, tick, t) && t != u
    ensures forall t :: Home(m, t) == if t == u then Ready(Prio(s, u)) else Home(s, t)
  {
  }

  /** In a sorted list no entry has expired unless the head has. */
  lemma NothingExpired(s: Store, id: ListId, tick: nat)
    requires Sound(s) && ListSorted(s, id)
    requires Items(s, id) == [] || Val(s, Items(s, id)[0]) > tick
    ensures forall t :: t in s.priority ==> !Expired(s, id, tick, t)
  {
    hide Integrity, Placed, ReadyRecorded;
    forall t | t in s.priority ensures !Expired(s, id, tick, t) {
      TaskFacts(s, t);
      if Home(s, t) == id {
        var k := IndexOf(Items(s, id), Gen(t));
        assert ValuesOf(s, Items(s, id))[0] <= ValuesOf(s, Items(s, id))[k];
      }
    }
  }

  // ----- Arming a deadline (prvAddCurrentTaskToDelayedList)

  /** The task's generic item, on no list, is stored under its wake time: on the overflow list
      exactly when the wake time has wrapped. */
  function Arm(s: Store, w: Wheel, t: Task, wake: nat): (r: Store) {
    var m := s.(value := s.value[Gen(t) := wake]);
    Insert(m, if wake < w.tick then w.overflow else w.current, Gen(t))
  }

  lemma ArmFacts(s: Store, w: Wheel, t: Task, wake: nat)
    requires SoundWithout(s, t) && DelayInv(s, w) && wake < W && wake != w.tick
    ensures var r := Arm(s, w, t, wake);
            && Sound(r) && DelayInv(r, w)
            && r.container == s.container[Gen(t) := if wake < w.tick then w.overflow else w.current]
            && r.value == s.value[Gen(t) := wake] && r.priority == s.priority
            && r.top == s.top && r.bits == s.bits
            && (forall id :: id != w.current && id != w.overflow ==> ListOf(r, id) == ListOf(s, id))
  {
    hide Placed, ReadyRecorded;
    var m := s.(value := s.value[Gen(t) := wake]);
    var id, other := if wake < w.tick then w.overflow else w.current, if wake < w.tick then w.current else w.overflow;
    var r := Arm(s, w, t, wake);
    ValuesIrrelevant(s, t, m.value);
    assert forall d :: ListOf(m, d) == ListOf(s, d) && Items(m, d) == Items(s, d);
    InsertFacts(m, id, Gen(t));
    ParkFacts(m, r, t, id);
    ArmKeepsDelayInv(s, w, t, wake);
  }

  lemma ArmKeepsDelayInv(s: Store, w: Wheel, t: Task, wake: nat)
    requires SoundWithout(s, t) && DelayInv(s, w) && wake < W && wake != w.tick
    ensures DelayInv(Arm(s, w, t, wake), w)
  {
    hide Integrity, Placed, ReadyRecorded, ListSorted, Insert;
    var m := s.(value := s.value[Gen(t) := wake]);
    var id, other := if wake < w.tick then w.overflow else w.current, if wake < w.tick then w.current else w.overflow;
    NotListed(s, t, id);
    NotListed(s, t, other);
    ValuesIrrelevant(s, t, m.value);
    InsertFacts(m, id, Gen(t));
    var r := Insert(m, id, Gen(t));
    SortedUnder(s, m, id, t);
    SortedUnder(s, m, other, t);
    InsertSorted(m, id, Gen(t));
    SortedAlike(m, r, other);
  }

  lemma NotListed(s: Store, t: Task, id: ListId)
    requires SoundWithout(s, t)
    ensures Gen(t) !in Items(s, id)
  {
    assert !In(s, Gen(t), id);
  }

  lemma SortedUnder(s: Store, m: Store, id: ListId, t: Task)
    requires Items(m, id) == Items(s, id) && ListSorted(s, id) && Gen(t) !in Items(s, id)
    requires forall i :: i != Gen(t) ==> Val(m, i) == Val(s, i)
    ensures ListSorted(m, id)
  {
    assert ValuesOf(m, Items(m, id)) == ValuesOf(s, Items(s, id));
  }

  /** A wait of 1 to 2^32-1 ticks, its wake time computed modulo 2^32, is the absolute deadline
      `now + ticks`, whether or not the tick wraps in between. */
  lemma ArmSchedules(s: Store, w: Wheel, t: Task, ticks: nat)
    requires SoundWithout(s, t) && DelayInv(s, w) && 0 < ticks < W
    ensures var wake := (w.tick + ticks) % W;
            && wake != w.tick
            && Abs(Arm(s, w, t, wake), w) == Schedule(Abs(s, w), t, ticks)
  {
    WakeTime(w, ticks);
    ArmAbs(s, w, t, (w.tick + ticks) % W, ticks);
  }

  lemma WheelFacts(s: Store, w: Wheel)
    requires DelayInv(s, w)
    ensures w.tick < W && w.current != w.overflow
    ensures w.current == Delayed1 || w.current == Delayed2
    ensures w.overflow == Delayed1 || w.overflow == Delayed2
  {
  }

  lemma ArmAbs(s: Store, w: Wheel, t: Task, wake: nat, ticks: nat)
    requires SoundWithout(s, t) && DelayInv(s, w) && 0 < ticks < W
    requires wake == if w.tick + ticks < W then w.tick + ticks else w.tick + ticks - W
    ensures Abs(Arm(s, w, t, wake), w) == Schedule(Abs(s, w), t, ticks)
  {
    hide Integrity, Placed, ReadyRecorded, DelayInv, Arm, Timed, DeadlineOf, Home;
    WheelFacts(s, w);
    ArmFacts(s, w, t, wake);
    var r := Arm(s, w, t, wake);
    ArmedDeadline(s, w, r, t, wake, ticks);
    forall u | u != t ensures Timed(r, w, u) == Timed(s, w, u) && DeadlineOf(r, w, u) == DeadlineOf(s, w, u) {
      OthersArmed(s, w, r, t, wake, u);
    }
    assert Abs(r, w).deadline == Schedule(Abs(s, w), t, ticks).deadline;
  }

  lemma ArmedDeadline(s: Store, w: Wheel, r: Store, t: Task, wake: nat, ticks: nat)
    requires w.tick < W && w.current != w.overflow && 0 < ticks < W
    requires wake == if w.tick + ticks < W then w.tick + ticks else w.tick + ticks - W
    requires r.container == s.container[Gen(t) := if wake < w.tick then w.overflow else w.current]
    requires r.value == s.value[Gen(t) := wake]
    ensures Timed(r, w, t) && DeadlineOf(r, w, t) == Now(w) + ticks
  {
  }

  lemma OthersArmed(s: Store, w: Wheel, r: Store, t: Task, wake: nat, u: Task)
    requires u != t && r.value == s.value[Gen(t) := wake]
    requires r.container == s.container[Gen(t) := if wake < w.tick then w.overflow else w.current]
    ensures Timed(r, w, u) == Timed(s, w, u) && DeadlineOf(r, w, u) == DeadlineOf(s, w, u)
  {
  }

  lemma WakeTime(w: Wheel, ticks: nat)
    requires w.tick < W && 0 < ticks < W
    ensures (w.tick + ticks) % W == if w.tick + ticks < W then w.tick + ticks else w.tick + ticks - W
  {
  }

  /** Every armed deadline is in the future and less than 2^32 ticks away. */
  lemma DeadlinesAhead(s: Store, w: Wheel, t: Task)
    requires Sound(s) && DelayInv(s, w) && t in Abs(s, w).deadline
    ensures Now(w) < Abs(s, w).deadline[t] < Now(w) + W
  {
    hide Integrity, Placed, ReadyRecorded, ListSorted;
    TaskFacts(s, t);
  }

  // ----- One processed tick

  function Turn(w: Wheel): Wheel {
    if w.tick + 1 == W then Wheel(w.overflow, w.current, 0, w.wraps + 1) else w.(tick := w.tick + 1)
  }

  /** The plain form: turn the wheel, then scan the current list. */
  function Tick(s: Store, w: Wheel): (r: Store)
    requires Sound(s) && DelayInv(s, w)
  {
    Drain(s, Turn(w).current, Turn(w).tick)
  }

  lemma NotAtWrap(s: Store, w: Wheel)
    requires DelayInv(s, w) && Items(s, w.current) != []
    ensures w.tick < W - 1
  {
    assert Items(s, w.current)[0] in Items(s, w.current);
  }

  /** The current list is empty at every wrap (the configASSERT of vTaskIncrementTick). */
  lemma EmptyAtWrap(s: Store, w: Wheel)
    requires DelayInv(s, w) && w.tick == W - 1
    ensures Items(s, w.current) == []
  {
    if Items(s, w.current) != [] { NotAtWrap(s, w); }
  }

  /** One tick of the two-list machine is one tick of the unbounded clock, and the tasks made ready
      are exactly those whose deadline is this tick. */
  lemma TickRefines(s: Store, w: Wheel)
    requires Sound(s) && DelayInv(s, w)
    ensures var r, w', c := Tick(s, w), Turn(w), Abs(s, w);
            && Sound(r) && DelayInv(r, w') && Abs(r, w') == Elapse(c)
            && r.value == s.value && r.priority == s.priority
            && (forall t :: t in s.priority ==>
                  Home(r, t) == if t in c.deadline && c.deadline[t] == c.now + 1 then Ready(Prio(s, t)) else Home(s, t))
            && (forall t :: Ev(t) in r.container ==> Ev(t) in s.container && r.container[Ev(t)] == s.container[Ev(t)])
            && ListOf(r, Suspended) == ListOf(s, Suspended) && ListOf(r, Termination) == ListOf(s, Termination)
  {
    hide Sound, DelayInv, ListSorted, Drain, Expired, Abs, Home;
    TurnSorted(s, w);
    DrainFacts(s, Turn(w).current, Turn(w).tick);
    TickKeepsDelayInv(s, w);
    forall t | t in s.priority
      ensures var c := Abs(s, w);
              Expired(s, Turn(w).current, Turn(w).tick, t) <==> t in c.deadline && c.deadline[t] == c.now + 1
    {
      TickExpires(s, w, t);
    }
    TickAbs(s, w, Tick(s, w));
  }

  lemma TurnSorted(s: Store, w: Wheel)
    requires DelayInv(s, w)
    ensures var id := Turn(w).current; (id.Delayed1? || id.Delayed2?) && ListSorted(s, id)
  {
    hide ListSorted;
  }

  /** The tasks a scan after the tick finds expired are those whose deadline the tick reaches. */
  lemma TickExpires(s: Store, w: Wheel, t: Task)
    requires Sound(s) && DelayInv(s, w) && t in s.priority
    ensures var c := Abs(s, w);
            Expired(s, Turn(w).current, Turn(w).tick, t) <==> t in c.deadline && c.deadline[t] == c.now + 1
  {
    hide Integrity, Placed, ReadyRecorded, ListSorted;
    if w.tick + 1 == W { EmptyAtWrap(s, w); }
    TaskFacts(s, t);
    if Timed(s, w, t) { DeadlinesAhead(s, w, t); }
  }

  /** A task that did not expire keeps its deadline across the tick. */
  lemma TickKeeps(s: Store, w: Wheel, r: Store, t: Task)
    requires Sound(s) && DelayInv(s, w) && t in s.priority && r.value == s.value
    requires Home(r, t) == if Expired(s, Turn(w).current, Turn(w).tick, t) then Ready(Prio(s, t)) else Home(s, t)
    ensures var c := Abs(s, w);
            && (Timed(r, Turn(w), t) <==> t in c.deadline && c.deadline[t] != c.now + 1)
            && (Timed(r, Turn(w), t) ==> DeadlineOf(r, Turn(w), t) == c.deadline[t])
  {
    hide Integrity, Placed, ReadyRecorded, ListSorted;
    if w.tick + 1 == W { EmptyAtWrap(s, w); }
    TaskFacts(s, t);
    if Timed(s, w, t) { DeadlinesAhead(s, w, t); }
  }

  lemma TickAbs(s: Store, w: Wheel, r: Store)
    requires Sound(s) && DelayInv(s, w) && r.value == s.value && r.priority == s.priority
    requires forall t :: t in s.priority ==>
               Home(r, t) == if Expired(s, Turn(w).current, Turn(w).tick, t) then Ready(Prio(s, t)) else Home(s, t)
    ensures Abs(r, Turn(w)) == Elapse(Abs(s, w))
  {
    hide Sound, DelayInv, Expired, Timed, DeadlineOf, Home;
    forall t | t in s.priority
      ensures var c := Abs(s, w);
              && (Timed(r, Turn(w), t) <==> t in c.deadline && c.deadline[t] != c.now + 1)
              && (Timed(r, Turn(w), t) ==> DeadlineOf(r, Turn(w), t) == c.deadline[t])
    {
      TickKeeps(s, w, r, t);
    }
    NowTurns(w) by { WheelFacts(s, w); }
    assert Abs(r, Turn(w)).deadline == Elapse(Abs(s, w)).deadline;
  }

  lemma NowTurns(w: Wheel)
    requires w.tick < W
    ensures Now(Turn(w)) == Now(w) + 1
  {
  }

  lemma TickKeepsDelayInv(s: Store, w: Wheel)
    requires Sound(s) && DelayInv(s, w)
    ensures DelayInv(Tick(s, w), Turn(w))
  {
    hide Integrity, Placed, ReadyRecorded, ListSorted, Drain;
    var w', r := Turn(w), Tick(s, w);
    if w.tick + 1 == W { EmptyAtWrap(s, w); }
    DrainFacts(s, w'.current, w'.tick);
    assert Items(r, w'.overflow) == Items(s, w'.overflow);
    SortedAlike(s, r, w'.overflow);
    forall i | i in Items(r, w'.current) ensures w'.tick < Val(r, i) < W {
      EntryFacts(r, w'.current, i);
      TaskFacts(s, i.task);
    }
  }
}
