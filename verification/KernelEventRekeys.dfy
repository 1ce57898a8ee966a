/** Exactly when changing the priority of a waiting task keeps its event list in order: the code
    rewrites the value of the event item and does not move it. */
module KernelEventRekeys {
  import opened XLists
  import opened Stores
  import opened ReadyLists
  import opened DelayLists
  import opened TaskMoves
  import opened Kernels
  import opened KernelSteps
  import opened KernelRuns
  import opened KernelMachine
  import opened KernelEventOrder
  import opened KernelEventKeys

  /** Value v lies between the values of the neighbours of t on the event list it waits on. */
  ghost predicate Between(s: Store, t: Task, v: nat) {
    OnEventList(s, t) ==>
      var items := Items(s, s.container[Ev(t)]);
      Ev(t) in items ==>
        var n := IndexOf(items, Ev(t));
        && (n == 0 || Val(s, items[n - 1]) <= v)
        && (n + 1 == |items| || v <= Val(s, items[n + 1]))
  }

  lemma RewritingKeepsOrderIff(s: Store, q: nat, n: nat, v: nat)
    requires InOrder(s, q) && NoDup(Items(s, Event(q))) && n < |Items(s, Event(q))|
    ensures var items := Items(s, Event(q));
            InOrder(s.(value := s.value[items[n] := v]), q)
            <==> (n == 0 || Val(s, items[n - 1]) <= v) && (n + 1 == |items| || v <= Val(s, items[n + 1]))
  {
    var items := Items(s, Event(q));
    var r := s.(value := s.value[items[n] := v]);
    var vs, ws := ValuesOf(s, items), ValuesOf(r, items);
    assert Items(r, Event(q)) == items;
    assert forall j :: 0 <= j < |items| ==> ws[j] == if j == n then v else vs[j];
    if Sorted(ws) {
      assert n > 0 ==> ws[n - 1] <= ws[n];
      assert n + 1 < |items| ==> ws[n] <= ws[n + 1];
    }
  }

  /** Rewriting one waiting item's value decides the order of its list and of no other. */
  lemma TidyIffBetween(s: Store, t: Task, v: nat)
    requires Integrity(s) && Tidy(s) && OnEventList(s, t)
    ensures Tidy(s.(value := s.value[Ev(t) := v])) <==> Between(s, t, v)
  {
    hide InOrder, Integrity;
    var r, q := s.(value := s.value[Ev(t) := v]), s.container[Ev(t)].queue;
    Listed(s, t, q);
    OnlyEvents(s, q);
    RewritingKeepsOrderIff(s, q, IndexOf(Items(s, Event(q)), Ev(t)), v);
    forall e: nat | e != q ensures InOrder(r, e) {
      OnlyEvents(s, e);
      NotThere(s, Ev(t), e);
      SameOrder(s, r, e);
    }
    TidyIff(r, q);
  }

  lemma TidyIff(r: Store, q: nat)
    requires forall e: nat :: e != q ==> InOrder(r, e)
    ensures Tidy(r) <==> InOrder(r, q)
  {
    assert Event(q) == Event(q);
  }

  lemma Listed(s: Store, t: Task, q: nat)
    requires Integrity(s) && In(s, Ev(t), Event(q))
    ensures Ev(t) in Items(s, Event(q)) && NoDup(Items(s, Event(q)))
  {
  }

  lemma WaiterIsParked(s: Store, t: Task)
    requires Sound(s) && t in s.priority && OnEventList(s, t)
    ensures !Home(s, t).Ready? && Integrity(s)
  {
    hide Integrity, ReadyRecorded;
    assert PlacedTask(s, t);
  }

  /** The lists and values after a waiting task's priority changed. */
  lemma RekeyedInPlace(k: Kernel, t: Task, p: nat, key: nat)
    requires !Home(k.s, t).Ready?
    ensures var r, s := WithPriority(k, t, p, key).s, k.s.(value := k.s.value[Ev(t) := Key(k, key)]);
            r.lists == s.lists && r.value == s.value
  {
  }

  lemma TidyAlike(s: Store, r: Store)
    requires r.lists == s.lists && r.value == s.value
    ensures Tidy(r) <==> Tidy(s)
  {
    hide Precedes;
    forall q: nat ensures Items(r, Event(q)) == Items(s, Event(q)) {}
    TidiedElse(s, r);
    TidiedElse(r, s);
  }

  lemma SetPriorityInPlace(k: Kernel, t: Task, p: nat)
    requires !Home(k.s, t).Ready? && BaseOf(k, t) != Capped(k, p)
    ensures var r, s := SetPriority(k, t, p).s, k.s.(value := k.s.value[Ev(t) := Key(k, Capped(k, p))]);
            r.lists == s.lists && r.value == s.value
  {
    hide WithPriority;
    var q := Capped(k, p);
    RekeyedInPlace(k.(base := k.base[t := q]), t, q, q);
  }

  /** vTaskPrioritySet keeps every event list in order if and only if the task waits on none, or its
      base priority does not change, or its new value lies between those of its neighbours. */
  lemma SetPriorityOrderIff(k: Kernel, t: Task, p: nat)
    requires Inv(k) && EventInv(k) && Enabled(k, OpSetPriority(t, p))
    ensures EventInv(Step(k, OpSetPriority(t, p)))
            <==> !Rekeys(k, OpSetPriority(t, p)) || Between(k.s, t, Key(k, Capped(k, p)))
  {
    hide Core, Tidy, Keys, Counters, Roles, Settled, SetPriority, Between, Key;
    if !Rekeys(k, OpSetPriority(t, p)) {
      SetPriorityOrder(k, t, p);
    } else {
      var r, v := SetPriority(k, t, p), Key(k, Capped(k, p));
      CoreSound(k);
      WaiterIsParked(k.s, t);
      SetPriorityInPlace(k, t, p);
      TidyAlike(k.s.(value := k.s.value[Ev(t) := v]), r.s);
      TidyIffBetween(k.s, t, v);
      SetPriorityStep(k, t, p);
      StepShape(k, OpSetPriority(t, p));
      SetPriorityWrites(k, t, p);
      KeyIs(k, Capped(k, p));
      KeysAfter(k, r, t);
    }
  }

  lemma KeyIs(k: Kernel, p: nat)
    ensures Key(k, p) == Max(k.levels, p) - p
  {
  }

  /** vTaskPriorityInherit keeps every event list in order if and only if the holder waits on none, or
      is not raised, or its new value lies between those of its neighbours. */
  lemma InheritOrderIff(k: Kernel, t: Task)
    requires Inv(k) && EventInv(k) && Enabled(k, OpInherit(t))
    ensures EventInv(Step(k, OpInherit(t)))
            <==> !Rekeys(k, OpInherit(t)) || Between(k.s, t, Key(k, Prio(k.s, k.current)))
  {
    hide Core, Tidy, Keys, Counters, Roles, Settled, WithPriority, Between, Key;
    if !Rekeys(k, OpInherit(t)) {
      InheritOrder(k, t);
    } else {
      var p, r := Prio(k.s, k.current), Inherit(k, t);
      CoreSound(k);
      WaiterIsParked(k.s, t);
      RekeyedInPlace(k, t, p, p);
      TidyAlike(k.s.(value := k.s.value[Ev(t) := Key(k, p)]), r.s);
      TidyIffBetween(k.s, t, Key(k, p));
      InheritStep(k, t);
      PriorityValues(k, t, p, p);
      RekeyedLevels(k, t, p, p);
      KeyIs(k, p);
      KeysAfter(k, r, t);
    }
  }
}
