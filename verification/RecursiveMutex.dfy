/** xQueueTakeMutexRecursive and xQueueGiveMutexRecursive, interleaved at every access to the shared
    fields.  Only the take and the return of the underlying mutex are critical sections; the holder
    test and the call count are read and written without any lock. */
module RecursiveMutex {

  type Task = nat

  datatype Holder = None | Held(task: Task)

  datatype Pc =
    | Idle
    | TestingTake | Taking | LoadingUp | StoringUp(seen: int)
    | TestingGive | LoadingDown | StoringDown(seen: int) | Returning

  datatype Event = Took(t: Task) | Gave(t: Task)

  /** `log` is a history variable: the calls that returned pdPASS, in order. */
  datatype Mutex = Mutex(messages: nat, holder: Holder, count: int, pc: map<Task, Pc>, log: seq<Event>)

  function PcOf(m: Mutex, t: Task): Pc { if t in m.pc then m.pc[t] else Idle }

  function Goto(m: Mutex, t: Task, pc: Pc): Mutex { m.(pc := m.pc[t := pc]) }

  datatype Step =
    | CallTake(t: Task) | TestTake(t: Task) | TakeOk(t: Task) | TakeFail(t: Task) | LoadUp(t: Task) | StoreUp(t: Task)
    | CallGive(t: Task) | TestGive(t: Task) | LoadDown(t: Task) | StoreDown(t: Task) | Return(t: Task)

  predicate Enabled(m: Mutex, s: Step) {
    var pc := PcOf(m, s.t);
    match s
    case CallTake(_) => pc.Idle?
    case TestTake(_) => pc.TestingTake?
    case TakeOk(_) => pc.Taking? && m.messages > 0
    case TakeFail(_) => pc.Taking?
    case LoadUp(_) => pc.LoadingUp?
    case StoreUp(_) => pc.StoringUp?
    case CallGive(_) => pc.Idle?
    case TestGive(_) => pc.TestingGive?
    case LoadDown(_) => pc.LoadingDown?
    case StoreDown(_) => pc.StoringDown?
    case Return(_) => pc.Returning?
  }

  function Next(m: Mutex, s: Step): (r: Mutex)
    requires Enabled(m, s)
  {
    var pc := PcOf(m, s.t);
    match s
    case CallTake(t) => Goto(m, t, TestingTake)
    case TestTake(t) => Goto(m, t, if m.holder == Held(t) then LoadingUp else Taking)
    case TakeOk(t) => Goto(m, t, LoadingUp).(messages := m.messages - 1, holder := Held(t))
    case TakeFail(t) => Goto(m, t, Idle)
    case LoadUp(t) => Goto(m, t, StoringUp(m.count))
    case StoreUp(t) => Goto(m, t, Idle).(count := pc.seen + 1, log := m.log + [Took(t)])
    case CallGive(t) => Goto(m, t, TestingGive)
    case TestGive(t) => Goto(m, t, if m.holder == Held(t) then LoadingDown else Idle)
    case LoadDown(t) => Goto(m, t, StoringDown(m.count))
    case StoreDown(t) =>
      if pc.seen - 1 == 0 then Goto(m, t, Returning).(count := 0)
      else Goto(m, t, Idle).(count := pc.seen - 1, log := m.log + [Gave(t)])
    case Return(t) =>
      // xQueueGenericSend: the mutex is released if it has room.
      if m.messages < 1 then Goto(m, t, Idle).(messages := m.messages + 1, holder := None, log := m.log + [Gave(t)])
      else Goto(m, t, Idle).(log := m.log + [Gave(t)])
  }

  function Change(e: Event, t: Task): int {
    match e
    case Took(u) => if u == t then 1 else 0
    case Gave(u) => if u == t then -1 else 0
  }

  /** Successful takes minus successful gives of t. */
  function Depth(log: seq<Event>, t: Task): int {
    if log == [] then 0 else Depth(log[..|log| - 1], t) + Change(log[|log| - 1], t)
  }

  lemma DepthAppend(log: seq<Event>, e: Event, t: Task)
    ensures Depth(log + [e], t) == Depth(log, t) + Change(e, t)
  {
    assert (log + [e])[..|log|] == log;
  }

  /** A task past the holder test of a give, or about to record a take. */
  predicate Inside(pc: Pc) {
    pc.LoadingUp? || pc.StoringUp? || pc.LoadingDown? || pc.StoringDown? || pc.Returning?
  }

  ghost predicate Inv(m: Mutex) {
    && m.messages <= 1 && (m.messages == 1 <==> m.holder == None)
    && (m.holder == None ==> m.count == 0)
    && (forall t :: m.holder != Held(t) ==> !Inside(PcOf(m, t)) && Depth(m.log, t) == 0)
    && (m.holder.Held? ==> HolderInv(m, m.holder.task))
  }

  ghost predicate HolderInv(m: Mutex, h: Task) {
    var pc, d := PcOf(m, h), Depth(m.log, h);
    && !pc.Taking?
    && (pc.Returning? ==> m.count == 0 && d == 1)
    && (!pc.Returning? ==> m.count == d)
    && (pc.LoadingUp? || pc.StoringUp? ==> d >= 0)
    && (!pc.LoadingUp? && !pc.StoringUp? ==> d >= 1)
    && (pc.StoringUp? || pc.StoringDown? ==> pc.seen == m.count)
  }

  lemma StepKeepsInv(m: Mutex, s: Step)
    requires Inv(m) && Enabled(m, s)
    ensures Inv(Next(m, s))
  {
    hide Inv;
    if s.StoreUp? || s.StoreDown? || s.Return? { ReturnKeepsInv(m, s); } else { InnerKeepsInv(m, s); }
  }

  /** The steps that log an event. */
  lemma ReturnKeepsInv(m: Mutex, s: Step)
    requires Inv(m) && Enabled(m, s) && (s.StoreUp? || s.StoreDown? || s.Return?)
    ensures Inv(Next(m, s))
  {
    hide Depth;
    forall u
      ensures Depth(m.log + [Took(s.t)], u) == Depth(m.log, u) + Change(Took(s.t), u)
      ensures Depth(m.log + [Gave(s.t)], u) == Depth(m.log, u) + Change(Gave(s.t), u)
    {
      DepthAppend(m.log, Took(s.t), u);
      DepthAppend(m.log, Gave(s.t), u);
    }
  }

  lemma InnerKeepsInv(m: Mutex, s: Step)
    requires Inv(m) && Enabled(m, s) && !s.StoreUp? && !s.StoreDown? && !s.Return?
    ensures Inv(Next(m, s))
  {
    hide Depth;
  }

  function Fresh(): Mutex { Mutex(1, None, 0, map[], []) }

  ghost predicate Possible(m: Mutex, steps: seq<Step>)
    decreases |steps|
  {
    steps == [] || (Enabled(m, steps[0]) && Possible(Next(m, steps[0]), steps[1..]))
  }

  function Run(m: Mutex, steps: seq<Step>): (r: Mutex)
    requires Possible(m, steps)
    decreases |steps|
  {
    if steps == [] then m else Run(Next(m, steps[0]), steps[1..])
  }

  /** At every moment recorded in the log at most one task is inside, and no depth is negative. */
  ghost predicate Exclusive(log: seq<Event>) {
    forall n: nat, t, u {:trigger Depth(log[..n], t), Depth(log[..n], u)} :: n <= |log| ==>
      Depth(log[..n], t) >= 0 && (t != u ==> !(Depth(log[..n], t) > 0 && Depth(log[..n], u) > 0))
  }

  lemma ExclusiveNow(m: Mutex, t: Task, u: Task)
    requires Inv(m)
    ensures Depth(m.log, t) >= 0 && (t != u ==> !(Depth(m.log, t) > 0 && Depth(m.log, u) > 0))
  {
    hide Depth;
  }

  lemma ExclusiveGrows(m: Mutex, s: Step)
    requires Inv(m) && Enabled(m, s) && Exclusive(m.log)
    ensures Exclusive(Next(m, s).log)
  {
    hide Depth;
    var r := Next(m, s);
    StepKeepsInv(m, s);
    forall n: nat, t, u | n <= |r.log|
      ensures Depth(r.log[..n], t) >= 0 && (t != u ==> !(Depth(r.log[..n], t) > 0 && Depth(r.log[..n], u) > 0))
    {
      if n <= |m.log| { assert r.log[..n] == m.log[..n]; }
      else { assert r.log[..n] == r.log; ExclusiveNow(r, t, u); }
    }
  }

  /** In every interleaving: once a task's take has succeeded no other task's take succeeds until it
      has given as often as it took, the call count never drops below zero, and the mutex holds a
      message exactly when it has no holder. */
  lemma {:induction false} MutualExclusion(m: Mutex, steps: seq<Step>)
    requires Inv(m) && Exclusive(m.log) && Possible(m, steps)
    ensures var r := Run(m, steps);
            && Inv(r) && Exclusive(r.log) && r.count >= 0
            && (r.messages == 1 <==> r.holder == None) && r.messages <= 1
    decreases |steps|
  {
    hide Depth, Exclusive, Enabled, Next;
    if steps != [] {
      StepKeepsInv(m, steps[0]);
      ExclusiveGrows(m, steps[0]);
      MutualExclusion(Next(m, steps[0]), steps[1..]);
    }
  }

  lemma FreshMutex()
    ensures Inv(Fresh()) && Exclusive(Fresh().log)
  {
    assert forall n: nat :: n <= 0 ==> Fresh().log[..n] == [];
  }

  /** Seen from one moment: while t is inside, the next recorded take is t's own. */
  lemma NobodyElseTakes(log: seq<Event>, n: nat, t: Task, u: Task)
    requires Exclusive(log) && n < |log| && Depth(log[..n], t) > 0 && log[n] == Took(u)
    ensures u == t
  {
    assert log[..n + 1] == log[..n] + [log[n]];
    DepthAppend(log[..n], log[n], t);
    DepthAppend(log[..n], log[n], u);
    assert Depth(log[..n], u) >= 0 && Depth(log[..n + 1], u) > 0;
    assert Depth(log[..n + 1], t) > 0;
  }

  // ----- Calls succeed and fail as they should

  /** Inside a call to take, inside a call to give. */
  predicate InTake(pc: Pc) { pc.TestingTake? || pc.Taking? || pc.LoadingUp? || pc.StoringUp? }
  predicate InGive(pc: Pc) { pc.TestingGive? || pc.LoadingDown? || pc.StoringDown? || pc.Returning? }

  /** How many more steps of its own a call takes at most. */
  function Left(pc: Pc): nat {
    match pc
    case Idle => 0
    case TestingTake => 4
    case Taking => 3
    case LoadingUp => 2
    case StoringUp(_) => 1
    case TestingGive => 4
    case LoadingDown => 3
    case StoringDown(_) => 2
    case Returning => 1
  }

  /** A call in progress can always go on, and every step of its own brings it closer to its end. */
  lemma CallsEnd(m: Mutex, s: Step)
    requires Enabled(m, s) && PcOf(m, s.t) != Idle
    ensures Left(PcOf(Next(m, s), s.t)) < Left(PcOf(m, s.t))
    ensures InTake(PcOf(m, s.t)) ==> !InGive(PcOf(Next(m, s), s.t))
    ensures InGive(PcOf(m, s.t)) ==> !InTake(PcOf(Next(m, s), s.t))
  {
  }

  lemma CallsGoOn(m: Mutex, t: Task)
    requires PcOf(m, t) != Idle
    ensures exists s: Step :: s.t == t && Enabled(m, s)
  {
    var s := match PcOf(m, t)
      case TestingTake => TestTake(t)
      case Taking => TakeFail(t)
      case LoadingUp => LoadUp(t)
      case StoringUp(_) => StoreUp(t)
      case TestingGive => TestGive(t)
      case LoadingDown => LoadDown(t)
      case StoringDown(_) => StoreDown(t)
      case _ => Return(t);
    assert s.t == t && Enabled(m, s);
  }

  /** A task that finds the mutex free can take it, and only then. */
  lemma TakenWhenFree(m: Mutex, t: Task)
    requires Inv(m) && PcOf(m, t).Taking?
    ensures Enabled(m, TakeOk(t)) <==> m.holder == None
    ensures m.holder == None ==> Next(m, TakeOk(t)).holder == Held(t) && Next(m, TakeOk(t)).messages == 0
  {
    hide Depth;
  }

  /** A step of one task leaves alone what another task sees of its own call. */
  lemma OthersApart(m: Mutex, s: Step, t: Task)
    requires Inv(m) && Enabled(m, s) && s.t != t
    ensures PcOf(Next(m, s), t) == PcOf(m, t) && Depth(Next(m, s).log, t) == Depth(m.log, t)
    ensures m.holder == Held(t) ==> Next(m, s).holder == Held(t)
    ensures Next(m, s).holder == Held(t) ==> m.holder == Held(t)
  {
    hide Depth;
    DepthAppend(m.log, Took(s.t), t);
    DepthAppend(m.log, Gave(s.t), t);
  }

  /** A step inside the holder's call goes on with the call or ends it with success; the mutex gets
      free exactly when the last of its takes is given. */
  lemma HolderGoesOn(m: Mutex, s: Step)
    requires Inv(m) && Enabled(m, s) && m.holder == Held(s.t) && PcOf(m, s.t) != Idle
    ensures var r := Next(m, s);
            if PcOf(r, s.t) == Idle
            then && Depth(r.log, s.t) == Depth(m.log, s.t) + (if InTake(PcOf(m, s.t)) then 1 else -1)
                 && r.holder == (if Depth(r.log, s.t) > 0 then Held(s.t) else None)
            else Depth(r.log, s.t) == Depth(m.log, s.t) && r.holder == Held(s.t)
  {
    hide Depth;
    DepthAppend(m.log, Took(s.t), s.t);
    DepthAppend(m.log, Gave(s.t), s.t);
  }

  predicate StartsCall(s: Step, t: Task) { s == CallTake(t) || s == CallGive(t) }

  /** Between its calls a task's depth stays. */
  lemma {:induction false} DepthStays(m: Mutex, steps: seq<Step>, t: Task)
    requires Inv(m) && Possible(m, steps) && PcOf(m, t) == Idle && forall s :: s in steps ==> !StartsCall(s, t)
    ensures Depth(Run(m, steps).log, t) == Depth(m.log, t) && PcOf(Run(m, steps), t) == Idle
    decreases |steps|
  {
    hide Inv, Depth, Next;
    if steps != [] {
      assert steps[0] in steps;
      OthersApart(m, steps[0], t);
      StepKeepsInv(m, steps[0]);
      DepthStays(Next(m, steps[0]), steps[1..], t);
    }
  }

  /** In every interleaving, a call the holder is in ends with success: a take adds one to its depth,
      a give takes one off, whatever the other tasks do meanwhile. */
  lemma {:induction false} HoldersCallSucceeds(m: Mutex, steps: seq<Step>, t: Task)
    requires Inv(m) && Possible(m, steps) && m.holder == Held(t) && PcOf(m, t) != Idle
    requires forall s :: s in steps ==> !StartsCall(s, t)
    requires PcOf(Run(m, steps), t) == Idle
    ensures Depth(Run(m, steps).log, t) == Depth(m.log, t) + (if InTake(PcOf(m, t)) then 1 else -1)
    decreases |steps|
  {
    hide Inv, Depth, Next;
    if steps != [] {
      var s, r := steps[0], Next(m, steps[0]);
      assert s in steps;
      StepKeepsInv(m, s);
      if s.t == t {
        HolderGoesOn(m, s);
        CallsEnd(m, s);
        SideOf(PcOf(m, t));
        SideOf(PcOf(r, t));
        if PcOf(r, t) == Idle { DepthStays(r, steps[1..], t); } else { HoldersCallSucceeds(r, steps[1..], t); }
      } else {
        OthersApart(m, s, t);
        HoldersCallSucceeds(r, steps[1..], t);
      }
    }
  }

  /** From the call itself: the holder's next take or give succeeds in every interleaving. */
  lemma HolderNeverRefused(m: Mutex, call: Step, steps: seq<Step>)
    requires Inv(m) && Enabled(m, call) && StartsCall(call, call.t) && m.holder == Held(call.t)
    requires Possible(Next(m, call), steps) && forall s :: s in steps ==> !StartsCall(s, call.t)
    requires PcOf(Run(Next(m, call), steps), call.t) == Idle
    ensures Depth(Run(Next(m, call), steps).log, call.t) == Depth(m.log, call.t) + (if call.CallTake? then 1 else -1)
  {
    hide Depth;
    StepKeepsInv(m, call);
    HoldersCallSucceeds(Next(m, call), steps, call.t);
  }

  lemma SideOf(pc: Pc)
    ensures pc == Idle || (InTake(pc) <==> !InGive(pc))
  {
  }

  /** In every interleaving, a give by a task that is not the holder fails and changes nothing. */
  lemma {:induction false} OthersGiveFails(m: Mutex, steps: seq<Step>, t: Task)
    requires Inv(m) && Possible(m, steps) && m.holder != Held(t) && PcOf(m, t).TestingGive?
    requires forall s :: s in steps ==> !StartsCall(s, t)
    ensures Depth(Run(m, steps).log, t) == 0 && (PcOf(Run(m, steps), t) == Idle || PcOf(Run(m, steps), t).TestingGive?)
    ensures forall s :: s in steps && s.t == t ==> s == TestGive(t)
    decreases |steps|
  {
    hide Depth, Next;
    if steps != [] {
      var s, r := steps[0], Next(m, steps[0]);
      assert s in steps;
      StepKeepsInv(m, s);
      if s.t == t {
        TestFails(m, t);
        DepthStays(r, steps[1..], t);
        NothingOwn(r, steps[1..], t);
      } else {
        OthersApart(m, s, t);
        OthersGiveFails(r, steps[1..], t);
      }
    }
  }

  lemma TestFails(m: Mutex, t: Task)
    requires PcOf(m, t).TestingGive? && m.holder != Held(t)
    ensures var r := Next(m, TestGive(t));
            && PcOf(r, t) == Idle && r.log == m.log
            && r.holder == m.holder && r.count == m.count && r.messages == m.messages
  {
  }

  /** Between its calls a task makes no steps. */
  lemma {:induction false} NothingOwn(m: Mutex, steps: seq<Step>, t: Task)
    requires Inv(m) && Possible(m, steps) && PcOf(m, t) == Idle && forall s :: s in steps ==> !StartsCall(s, t)
    ensures forall s :: s in steps ==> s.t != t
    decreases |steps|
  {
    hide Inv, Depth, Next;
    if steps != [] {
      assert steps[0] in steps;
      OthersApart(m, steps[0], t);
      StepKeepsInv(m, steps[0]);
      NothingOwn(Next(m, steps[0]), steps[1..], t);
    }
  }
}
