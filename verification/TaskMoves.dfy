/** The composite moves of tasks between lists that the kernel services are made of. */
module TaskMoves {
  import opened XLists
  import opened Stores
  import opened ReadyLists

  /** Both items detached, the generic item placed on the suspended or termination list
      (vTaskSuspend, vTaskDelete). */
  function Retire(s: Store, t: Task, id: ListId): (r: Store) {
    Append(Remove(Detach(s, t), Ev(t)), id, Gen(t))
  }

  lemma RetireFacts(s: Store, t: Task, id: ListId)
    requires Sound(s) && t in s.priority && (id.Suspended? || id.Termination?)
    ensures var r := Retire(s, t, id);
            && Sound(r) && r.priority == s.priority && r.value == s.value
            && r.container == (s.container - {Ev(t)})[Gen(t) := id]
            && (forall d :: d != id && !In(s, Gen(t), d) && !In(s, Ev(t), d) ==> ListOf(r, d) == ListOf(s, d))
            && |Items(r, id)| == |Items(s, id)| + (if Home(s, t) == id then 0 else 1)
  {
    hide Integrity, Placed, ReadyRecorded, Detach, Remove, Append;
    TaskFacts(s, t);
    DetachBoth(s, t);
    var m := Remove(Detach(s, t), Ev(t));
    AppendFacts(m, id, Gen(t));
    var r := Append(m, id, Gen(t));
    AppendShape(m, id, Gen(t));
    ParkFacts(m, r, t, id);
    assert r.container == (s.container - {Ev(t)})[Gen(t) := id];
    assert Home(s, t) != id ==> ListOf(m, id) == ListOf(s, id);
  }

  lemma AppendShape(s: Store, id: ListId, i: Item)
    ensures var r := Append(s, id, i);
            && r.container == s.container[i := id] && r.value == s.value && r.priority == s.priority
            && r.top == s.top && r.bits == s.bits
  {
  }

  lemma RetireKeepsSorted(s: Store, t: Task, id: ListId, d: ListId)
    requires Sound(s) && t in s.priority && (id.Suspended? || id.Termination?)
    requires (d.Delayed1? || d.Delayed2?) && ListSorted(s, d)
    ensures ListSorted(Retire(s, t, id), d)
  {
    hide Integrity, Placed, ReadyRecorded, Detach, Remove, Append, ListSorted;
    DetachBoth(s, t);
    DetachBothSorted(s, t, d);
    var m := Remove(Detach(s, t), Ev(t));
    AppendFacts(m, id, Gen(t));
    AppendShape(m, id, Gen(t));
    SortedAlike(m, Append(m, id, Gen(t)), d);
  }

  /** The event item of a blocked task goes onto an event list or the pending list. */
  lemma EventPlaced(s: Store, r: Store, t: Task, id: ListId)
    requires Sound(s) && t in s.priority && Parked(Home(s, t)) && (id.PendingReady? || id.Event?)
    requires Integrity(r) && r.container == s.container[Ev(t) := id]
    requires r.priority == s.priority && r.bits == s.bits && r.top == s.top
    requires forall p: nat :: ListOf(r, Ready(p)) == ListOf(s, Ready(p))
    ensures Sound(r)
  {
    forall u | u in r.priority ensures PlacedTask(r, u) { assert PlacedTask(s, u); }
    assert forall p: nat :: Items(r, Ready(p)) == Items(s, Ready(p));
  }

  lemma JoinEventFacts(s: Store, t: Task, q: nat)
    requires Sound(s) && t in s.priority && Parked(Home(s, t)) && Ev(t) !in s.container
    ensures var r := Insert(s, Event(q), Ev(t));
            && Sound(r) && r.priority == s.priority && r.value == s.value
            && r.container == s.container[Ev(t) := Event(q)]
            && (forall d :: d != Event(q) ==> ListOf(r, d) == ListOf(s, d))
  {
    hide Placed, ReadyRecorded, Insert;
    InsertFacts(s, Event(q), Ev(t));
    EventPlaced(s, Insert(s, Event(q), Ev(t)), t, Event(q));
  }

  /** The event item moves to the pending ready list, from an event list or from nowhere. */
  function Pend(s: Store, t: Task): (r: Store) {
    Append(Remove(s, Ev(t)), PendingReady, Ev(t))
  }

  lemma PendFacts(s: Store, t: Task)
    requires Sound(s) && t in s.priority && Parked(Home(s, t)) && !In(s, Ev(t), PendingReady)
    ensures var r := Pend(s, t);
            && Sound(r) && r.priority == s.priority && r.value == s.value
            && r.container == s.container[Ev(t) := PendingReady]
            && (forall d: ListId :: !d.PendingReady? && !d.Event? ==> ListOf(r, d) == ListOf(s, d))
  {
    hide Placed, ReadyRecorded, Remove, Append;
    TaskFacts(s, t);
    var m := Remove(s, Ev(t));
    if Ev(t) in s.container { RemoveFacts(s, Ev(t)); } else { RemoveAbsent(s, Ev(t)); }
    AppendFacts(m, PendingReady, Ev(t));
    AppendShape(m, PendingReady, Ev(t));
    var r := Pend(s, t);
    assert r.container == s.container[Ev(t) := PendingReady];
    EventPlaced(s, r, t, PendingReady);
  }

  /** A change of effective priority moves a ready task to the ready list of its new priority. */
  function Reprioritise(s: Store, t: Task, p: nat): (r: Store) {
    if Home(s, t) == Ready(Prio(s, t)) then
      var d := Detach(s, t);
      AddReady(d.(priority := d.priority[t := p]), t)
    else
      s.(priority := s.priority[t := p])
  }

  lemma ReprioritiseFacts(s: Store, t: Task, p: nat)
    requires Sound(s) && t in s.priority
    ensures var r := Reprioritise(s, t, p);
            && Sound(r) && r.priority == s.priority[t := p] && r.value == s.value
            && r.container == (if Home(s, t).Ready? then s.container[Gen(t) := Ready(p)] else s.container)
            && (forall d: ListId :: !d.Ready? ==> ListOf(r, d) == ListOf(s, d))
  {
    hide Sound, Detach, AddReady;
    TaskFacts(s, t);
    if Home(s, t) == Ready(Prio(s, t)) {
      OnReadyPriority(s, t, p);
    } else {
      OffReadyPriority(s, t, p);
    }
  }

  lemma OnReadyPriority(s: Store, t: Task, p: nat)
    requires Sound(s) && t in s.priority && Home(s, t).Ready? && Ev(t) !in s.container
    ensures var d := Detach(s, t);
            var r := AddReady(d.(priority := d.priority[t := p]), t);
            && Sound(r) && r.priority == s.priority[t := p] && r.value == s.value
            && r.container == s.container[Gen(t) := Ready(p)]
            && (forall e: ListId :: !e.Ready? ==> ListOf(r, e) == ListOf(s, e))
  {
    hide Sound, SoundWithout, Detach, Remove, AddReady;
    DetachBoth(s, t);
    DetachFacts(s, t);
    RemoveAbsent(Detach(s, t), Ev(t));
    var d := Detach(s, t);
    PriorityIrrelevant(d, t, p);
    AddReadyFacts(d.(priority := d.priority[t := p]), t);
  }

  lemma PriorityIrrelevant(s: Store, t: Task, p: nat)
    requires SoundWithout(s, t)
    ensures SoundWithout(s.(priority := s.priority[t := p]), t)
  {
    var m := s.(priority := s.priority[t := p]);
    assert forall id :: ListOf(m, id) == ListOf(s, id) && Items(m, id) == Items(s, id);
    assert forall i, id :: In(m, i, id) == In(s, i, id);
    forall u | u in m.priority && u != t ensures PlacedTask(m, u) { assert PlacedTask(s, u); }
  }

  lemma OffReadyPriority(s: Store, t: Task, p: nat)
    requires Sound(s) && t in s.priority && !Home(s, t).Ready?
    ensures Sound(s.(priority := s.priority[t := p]))
    ensures forall d :: ListOf(s.(priority := s.priority[t := p]), d) == ListOf(s, d)
  {
    var m := s.(priority := s.priority[t := p]);
    assert forall id :: ListOf(m, id) == ListOf(s, id) && Items(m, id) == Items(s, id);
    assert forall i, id :: In(m, i, id) == In(s, i, id);
    forall u | u in m.priority ensures PlacedTask(m, u) { assert PlacedTask(s, u); }
  }

  /** A new task enters its ready list (xTaskGenericCreate). */
  function Birth(s: Store, t: Task, p: nat): (r: Store) {
    AddReady(s.(priority := s.priority[t := p]), t)
  }

  lemma BirthFacts(s: Store, t: Task, p: nat)
    requires Sound(s) && t !in s.priority
    ensures var r := Birth(s, t, p);
            && Sound(r) && r.priority == s.priority[t := p] && r.value == s.value
            && r.container == s.container[Gen(t) := Ready(p)]
            && (forall d: ListId :: !d.Ready? ==> ListOf(r, d) == ListOf(s, d))
  {
    var m := s.(priority := s.priority[t := p]);
    assert forall id :: ListOf(m, id) == ListOf(s, id) && Items(m, id) == Items(s, id);
    assert forall i, id :: In(m, i, id) == In(s, i, id);
    forall u | u in m.priority && u != t ensures PlacedTask(m, u) { assert PlacedTask(s, u); }
    assert Gen(t) !in s.container && Ev(t) !in s.container;
    AddReadyFacts(m, t);
  }

  /** The idle task forgets a deleted task (prvCheckTasksWaitingTermination). */
  function Bury(s: Store, t: Task): (r: Store) {
    var d := Remove(s, Gen(t));
    d.(priority := d.priority - {t})
  }

  lemma BuryFacts(s: Store, t: Task)
    requires Sound(s) && t in s.priority && Home(s, t) == Termination
    ensures var r := Bury(s, t);
            && Sound(r) && r.priority == s.priority - {t} && r.value == s.value
            && r.container == s.container - {Gen(t)}
            && (forall d: ListId :: !d.Termination? ==> ListOf(r, d) == ListOf(s, d))
            && |Items(r, Termination)| == |Items(s, Termination)| - 1
  {
    hide Remove;
    TaskFacts(s, t);
    RemoveFacts(s, Gen(t));
    var d, r := Remove(s, Gen(t)), Bury(s, t);
    assert forall id :: ListOf(r, id) == ListOf(d, id) && Items(r, id) == Items(d, id);
    assert forall i, id :: In(r, i, id) == In(d, i, id);
    forall u | u in r.priority ensures PlacedTask(r, u) { assert PlacedTask(s, u); }
    assert forall i :: i in r.container ==> i.task != t;
  }
}
