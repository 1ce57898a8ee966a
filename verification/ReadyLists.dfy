/** Moving tasks between the ready lists and the lists they wait on. */
module ReadyLists {
  import opened XLists
  import opened Stores

  function Max(a: nat, b: nat): nat { if a > b then a else b }

  /** prvAddTaskToReadyQueue, recording the priority in both forms. */
  function AddReady(s: Store, t: Task): (r: Store) {
    var p := Prio(s, t);
    Append(s.(top := Max(s.top, p), bits := s.bits + {p}), Ready(p), Gen(t))
  }

  /** Detaching both items of a task and making it ready. */
  function MakeReady(s: Store, t: Task): (r: Store) {
    AddReady(Remove(Remove(s, Gen(t)), Ev(t)), t)
  }

  /** uxListRemove of the generic item followed by taskRESET_READY_PRIORITY when the list the item
      was on became empty: the bit is cleared only if the ready list itself is empty. */
  function Detach(s: Store, t: Task): (r: Store) {
    var d := Remove(s, Gen(t));
    if Gen(t) in s.container && Items(d, Home(s, t)) == [] && Items(d, Ready(Prio(s, t))) == []
    then d.(bits := d.bits - {Prio(s, t)}) else d
  }

  /** The same for a task known to be on its ready list: portRESET_READY_PRIORITY directly. */
  function DetachRunning(s: Store, t: Task): (r: Store) {
    var d := Remove(s, Gen(t));
    if Gen(t) in s.container && Items(d, Home(s, t)) == []
    then d.(bits := d.bits - {Prio(s, t)}) else d
  }

  /** Everything in Sound except that the generic item of t is on no list. */
  ghost predicate SoundWithout(s: Store, t: Task) {
    && Integrity(s) && ReadyRecorded(s) && t in s.priority
    && Gen(t) !in s.container && Ev(t) !in s.container
    && (forall u {:trigger PlacedTask(s, u)} :: u in s.priority && u != t ==> PlacedTask(s, u))
    && (forall i :: i in s.container ==> i.task in s.priority)
  }

  lemma DetachFacts(s: Store, t: Task)
    requires Sound(s) && t in s.priority
    ensures var r := Detach(s, t);
            && Integrity(r) && ReadyRecorded(r) && r.container == s.container - {Gen(t)}
            && r.value == s.value && r.priority == s.priority && r.top == s.top
            && (forall id :: id != Home(s, t) ==> ListOf(r, id) == ListOf(s, id))
            && |Items(r, Home(s, t))| == |Items(s, Home(s, t))| - 1
            && (ListSorted(s, Home(s, t)) ==> ListSorted(r, Home(s, t)))
            && (Home(s, t).Ready? ==> r == DetachRunning(s, t))
  {
    assert PlacedTask(s, t);
    RemoveFacts(s, Gen(t));
    var d, r := Remove(s, Gen(t)), Detach(s, t);
    forall id ensures ListOf(r, id) == ListOf(d, id) && Items(r, id) == Items(d, id) {}
    assert forall i, id :: In(r, i, id) == In(d, i, id);
  }

  /** Detaching both items of a live task. */
  lemma DetachBoth(s: Store, t: Task)
    requires Sound(s) && t in s.priority
    ensures var r := Remove(Detach(s, t), Ev(t));
            && SoundWithout(r, t) && r.container == s.container - {Gen(t), Ev(t)}
            && r.value == s.value && r.priority == s.priority
            && (forall id :: !In(s, Gen(t), id) && !In(s, Ev(t), id) ==> ListOf(r, id) == ListOf(s, id))
            && |Items(r, Home(s, t))| == |Items(s, Home(s, t))| - 1
  {
    hide ListSorted, Detach, Remove;
    assert PlacedTask(s, t);
    DetachFacts(s, t);
    var d := Detach(s, t);
    var r := Remove(d, Ev(t));
    if Ev(t) in d.container { RemoveFacts(d, Ev(t)); } else { RemoveAbsent(d, Ev(t)); }
    assert r.container == s.container - {Gen(t), Ev(t)};
    OthersPlaced(s, r, t);
    assert forall p: nat :: Items(r, Ready(p)) == Items(d, Ready(p));
  }

  lemma OthersPlaced(s: Store, r: Store, t: Task)
    requires Sound(s) && r.container == s.container - {Gen(t), Ev(t)} && r.priority == s.priority
    ensures forall u {:trigger PlacedTask(r, u)} :: u in r.priority && u != t ==> PlacedTask(r, u)
  {
    forall u | u in r.priority && u != t ensures PlacedTask(r, u) { assert PlacedTask(s, u); }
  }

  lemma RemoveAbsent(s: Store, i: Item)
    requires i !in s.container
    ensures Remove(s, i) == s
  {
  }

  lemma DetachBothSorted(s: Store, t: Task, id: ListId)
    requires Sound(s) && t in s.priority && Parked(id) && ListSorted(s, id)
    ensures ListSorted(Remove(Detach(s, t), Ev(t)), id)
  {
    assert PlacedTask(s, t);
    DetachFacts(s, t);
    var d := Detach(s, t);
    var r := Remove(d, Ev(t));
    if Ev(t) in d.container { RemoveFacts(d, Ev(t)); }
    if id != Home(s, t) { SortedAlike(s, d, id); }
    SortedAlike(d, r, id);
  }

  lemma AddReadyFacts(s: Store, t: Task)
    requires SoundWithout(s, t)
    ensures var r := AddReady(s, t);
            && Sound(r) && r.container == s.container[Gen(t) := Ready(Prio(s, t))]
            && r.value == s.value && r.priority == s.priority
            && (forall id :: id != Ready(Prio(s, t)) ==> ListOf(r, id) == ListOf(s, id))
  {
    var p := Prio(s, t);
    var m := s.(top := Max(s.top, p), bits := s.bits + {p});
    assert forall id :: ListOf(m, id) == ListOf(s, id) && Items(m, id) == Items(s, id);
    assert forall i, id :: In(m, i, id) == In(s, i, id);
    AppendFacts(m, Ready(p), Gen(t));
    var r := AddReady(s, t);
    forall u | u in r.priority ensures PlacedTask(r, u) {
      if u != t { assert PlacedTask(s, u); }
    }
    forall q: nat ensures q in r.bits <==> Items(r, Ready(q)) != []
                  ensures Items(r, Ready(q)) != [] ==> q <= r.top {
      if q != p { assert Items(r, Ready(q)) == Items(s, Ready(q)); }
    }
  }

  /** Item values play no part in soundness. */
  lemma ValuesIrrelevant(s: Store, t: Task, value: map<Item, nat>)
    requires SoundWithout(s, t)
    ensures SoundWithout(s.(value := value), t)
  {
    var m := s.(value := value);
    assert forall id :: ListOf(m, id) == ListOf(s, id) && Items(m, id) == Items(s, id);
    assert forall i, id :: In(m, i, id) == In(s, i, id);
    forall u | u in m.priority && u != t ensures PlacedTask(m, u) { assert PlacedTask(s, u); }
  }

  /** A detached task goes onto a delayed, the suspended or the termination list. */
  lemma ParkFacts(s: Store, r: Store, t: Task, id: ListId)
    requires SoundWithout(s, t) && (Parked(id) || id.Termination?) && Integrity(r)
    requires r.container == s.container[Gen(t) := id]
    requires r.priority == s.priority && r.bits == s.bits && r.top == s.top
    requires forall id' :: id' != id ==> ListOf(r, id') == ListOf(s, id')
    ensures Sound(r)
  {
    forall u | u in r.priority ensures PlacedTask(r, u) {
      if u != t { assert PlacedTask(s, u); }
    }
    assert forall p: nat :: Items(r, Ready(p)) == Items(s, Ready(p));
  }

  /** A blocked or suspended task becomes ready and everything stays sound. */
  lemma MakeReadyFacts(s: Store, t: Task)
    requires Sound(s) && t in s.priority && !Home(s, t).Ready?
    ensures var r := MakeReady(s, t);
            && Sound(r)
            && r.container == (s.container - {Ev(t)})[Gen(t) := Ready(Prio(s, t))]
            && r.value == s.value && r.priority == s.priority
            && (forall id: ListId ::
                  !id.Ready? && !In(s, Gen(t), id) && !In(s, Ev(t), id) ==> ListOf(r, id) == ListOf(s, id))
            && (forall id :: Parked(id) && ListSorted(s, id) ==> ListSorted(r, id))
            && |Items(r, Home(s, t))| == |Items(s, Home(s, t))| - 1
  {
    assert PlacedTask(s, t);
    DetachBoth(s, t);
    DetachIsRemove(s, t);
    AddReadyFacts(Remove(Detach(s, t), Ev(t)), t);
    var m, r := Remove(Detach(s, t), Ev(t)), MakeReady(s, t);
    assert r.container == (s.container - {Ev(t)})[Gen(t) := Ready(Prio(s, t))];
    forall id | Parked(id) && ListSorted(s, id) ensures ListSorted(r, id) {
      DetachBothSorted(s, t, id);
      SortedAlike(m, r, id);
    }
  }

  /** Off the ready lists, removal clears no bit. */
  lemma DetachIsRemove(s: Store, t: Task)
    requires Sound(s) && t in s.priority && !Home(s, t).Ready?
    ensures Detach(s, t) == Remove(s, Gen(t))
  {
    assert PlacedTask(s, t);
    RemoveFacts(s, Gen(t));
    var p := Prio(s, t);
    var d := Remove(s, Gen(t));
    assert Items(d, Ready(p)) == Items(s, Ready(p));
    if p !in s.bits { assert d.bits - {p} == d.bits; }
  }

  /** The two items of a task are on different lists, so the order of detaching is immaterial. */
  lemma RemovalsCommute(s: Store, t: Task)
    requires Sound(s) && t in s.priority
    ensures Remove(Remove(s, Gen(t)), Ev(t)) == Remove(Remove(s, Ev(t)), Gen(t))
  {
    assert PlacedTask(s, t);
    RemoveFacts(s, Gen(t));
    if Ev(t) in s.container {
      RemoveFacts(s, Ev(t));
      var a, b := Remove(s, Gen(t)), Remove(s, Ev(t));
      var g, e := Home(s, t), s.container[Ev(t)];
      assert ListOf(a, e) == ListOf(s, e) && ListOf(b, g) == ListOf(s, g);
      assert Gen(t) in Items(s, g) && Ev(t) in Items(s, e);
      var x, y := Remove(a, Ev(t)), Remove(b, Gen(t));
      assert Items(a, e) == Items(s, e) && Items(b, g) == Items(s, g);
      assert x.container == y.container;
      assert x.lists == y.lists;
    }
  }

  /** The event list of the task readied loses exactly one entry. */
  lemma MakeReadyTakesEvent(s: Store, t: Task)
    requires Sound(s) && t in s.priority && !Home(s, t).Ready? && Ev(t) in s.container
    ensures |Items(MakeReady(s, t), s.container[Ev(t)])| == |Items(s, s.container[Ev(t)])| - 1
  {
    hide Remove, AddReady;
    TaskFacts(s, t);
    RemoveFacts(s, Gen(t));
    var m := Remove(s, Gen(t));
    RemoveFacts(m, Ev(t));
    DetachBoth(s, t);
    DetachIsRemove(s, t);
    AddReadyFacts(Remove(m, Ev(t)), t);
  }
}
