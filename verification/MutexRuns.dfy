/** Who holds a mutex and who is woken, over whole runs of mutexes with priority inheritance. */
module MutexRuns {
  import opened XLists
  import opened Stores
  import opened ReadyLists
  import opened DelayLists
  import opened TaskMoves
  import opened Kernels
  import opened KernelSteps
  import opened PriorityInheritance
  import KernelMachine
  import KernelRuns

  // ----- The holder is the last taker

  datatype Taker = Nobody | By(t: Task)

  function HolderOf(y: System, m: nat): Taker { if m in y.holder then By(y.holder[m]) else Nobody }

  /** The task that was running at the last Take of m, or Nobody if it was given since; `before` is who
      had taken it when the run began.  The field pxMutexHolder plays no role here. */
  ghost function LastTaker(y: System, acts: seq<Action>, m: nat, before: Taker): Taker
    requires SysInv(y) && Possible(y, acts)
    decreases |acts|
  {
    if acts == [] then before
    else
      ActKeeps(y, acts[0]);
      var now := if acts[0] == Take(m) then By(y.k.current) else if acts[0] == Give(m) then Nobody else before;
      LastTaker(Act(y, acts[0]), acts[1..], m, now)
  }

  lemma ActMovesHolder(y: System, a: Action, m: nat)
    requires SysInv(y) && Allowed(y, a)
    ensures HolderOf(Act(y, a), m)
         == if a == Take(m) then By(y.k.current) else if a == Give(m) then Nobody else HolderOf(y, m)
    ensures a == Take(m) ==> m !in y.holder
    ensures a == Give(m) ==> m in y.holder && y.holder[m] == y.k.current
  {
    hide Inv, Donated, Boosted, KernelMachine.Step, Wait, Inherit, Disinherit, Wake, Holds;
  }

  /** Over every run the holder of a mutex is the task that was running when it was last taken, and it
      has no holder exactly when it was given since or never taken. */
  lemma {:induction false} HolderIsLastTaker(y: System, acts: seq<Action>, m: nat)
    requires SysInv(y) && Possible(y, acts)
    ensures HolderOf(Run(y, acts), m) == LastTaker(y, acts, m, HolderOf(y, m))
    decreases |acts|
  {
    hide Inv, Donated, Boosted, Act, Allowed;
    if acts != [] {
      ActKeeps(y, acts[0]);
      ActMovesHolder(y, acts[0], m);
      HolderIsLastTaker(Act(y, acts[0]), acts[1..], m);
    }
  }

  /** A held mutex is given before it is taken again. */
  lemma {:induction false} GivenBeforeTaken(y: System, acts: seq<Action>, m: nat, j: nat)
    requires SysInv(y) && Possible(y, acts) && m in y.holder && j < |acts| && acts[j] == Take(m)
    ensures Give(m) in acts[..j]
    decreases |acts|
  {
    hide Inv, Donated, Boosted, Act, Allowed;
    ActMovesHolder(y, acts[0], m);
    if acts[0] != Give(m) {
      ActKeeps(y, acts[0]);
      GivenBeforeTaken(Act(y, acts[0]), acts[1..], m, j - 1);
      assert acts[..j][1..] == acts[1..][..j - 1];
    }
  }

  /** Mutual exclusion over every run: between two takes of a mutex it is given. */
  lemma {:induction false} TakesAlternate(y: System, acts: seq<Action>, m: nat, i: nat, j: nat)
    requires SysInv(y) && Possible(y, acts) && i < j < |acts| && acts[i] == Take(m) && acts[j] == Take(m)
    ensures Give(m) in acts[i + 1..j]
    decreases |acts|
  {
    hide Inv, Donated, Boosted, Act, Allowed;
    ActKeeps(y, acts[0]);
    if i == 0 {
      ActMovesHolder(y, acts[0], m);
      GivenBeforeTaken(Act(y, acts[0]), acts[1..], m, j - 1);
      assert acts[1..][..j - 1] == acts[1..j];
    } else {
      TakesAlternate(Act(y, acts[0]), acts[1..], m, i - 1, j - 1);
      assert acts[1..][i..j - 1] == acts[i + 1..j];
    }
  }

  /** From the start with free mutexes: a mutex has a holder exactly when it was taken and not given
      since, and the holder is the task that took it. */
  lemma HolderFromStart(levels: nat, idle: Task, mutexes: set<nat>, acts: seq<Action>, m: nat)
    requires levels > 0
    requires (StartsFree(levels, idle, mutexes);
              Possible(System(KernelMachine.Initial(levels, idle), mutexes, map[], map[], map[]), acts))
    ensures (StartsFree(levels, idle, mutexes);
             var y := System(KernelMachine.Initial(levels, idle), mutexes, map[], map[], map[]);
             HolderOf(Run(y, acts), m) == LastTaker(y, acts, m, Nobody))
  {
    hide Inv, Donated, Boosted, Act, Allowed;
    StartsFree(levels, idle, mutexes);
    HolderIsLastTaker(System(KernelMachine.Initial(levels, idle), mutexes, map[], map[], map[]), acts, m);
  }

  // ----- Giving wakes the first waiter

  /** The first waiter of a mutex that is given leaves the event list: it becomes ready at its priority,
      or pending while the scheduler is suspended.  Nobody else joins or leaves an event list, and if
      nobody waits nobody is woken. */
  lemma GiveWakesFirst(y: System, m: nat)
    requires SysInv(y) && Allowed(y, Give(m))
    ensures var s, r := y.k.s, Act(y, Give(m)).k.s;
            if Items(s, Event(m)) == [] then
              forall t, e {:trigger In(r, Ev(t), Event(e))} :: In(r, Ev(t), Event(e)) <==> In(s, Ev(t), Event(e))
            else
              var w := Items(s, Event(m))[0].task;
              && w in r.priority && Prio(r, w) == Prio(s, w) && w != y.k.current
              && (y.k.suspended == 0 ==> Home(r, w) == Ready(Prio(s, w)) && Ev(w) !in r.container)
              && (y.k.suspended > 0 ==> In(r, Ev(w), PendingReady))
              && (forall t, e {:trigger In(r, Ev(t), Event(e))} ::
                    t != w ==> (In(r, Ev(t), Event(e)) <==> In(s, Ev(t), Event(e))))
  {
    hide Core, Priorities, Counters, Roles, Settled, Disinherit, Wake, Donated, Boosted;
    var h := y.k.current;
    CurrentAlive(y.k);
    DisinheritStep(y.k, h);
    DisinheritKeepsHomes(y.k, h);
    var d := Disinherit(y.k, h);
    assert Items(d.s, Event(m)) == Items(y.k.s, Event(m));
    if Items(d.s, Event(m)) != [] {
      WakeStep(d, m);
      FirstWaits(y.k, m);
      EventsApart(d.s, Wake(d, m).s, Items(d.s, Event(m))[0].task);
    }
  }

  lemma EventsApart(s: Store, r: Store, w: Task)
    requires OthersStay(s, r, w)
    ensures forall t, e {:trigger In(r, Ev(t), Event(e))} ::
              t != w ==> (In(r, Ev(t), Event(e)) <==> In(s, Ev(t), Event(e)))
  {
  }

  /** The head of an event list is not the running task. */
  lemma FirstWaits(k: Kernel, q: nat)
    requires Inv(k) && Items(k.s, Event(q)) != [] && Home(k.s, k.current).Ready?
    ensures Items(k.s, Event(q))[0].task != k.current
  {
    hide Core, Priorities, Counters, Roles, Settled, Sound;
    CoreSound(k);
    EventHead(k.s, q);
  }

  /** Blocking on a mutex puts the caller on its event list with the time limit given. */
  lemma BlockingWaits(y: System, m: nat, ticks: nat)
    requires SysInv(y) && Allowed(y, BlockOn(m, ticks))
    ensures var r, c := Act(y, BlockOn(m, ticks)), y.k.current;
            && In(r.k.s, Ev(c), Event(m)) && HolderOf(r, m) == HolderOf(y, m)
            && Clk(r.k) == if ticks == W - 1 then Clk(y.k) else Schedule(Clk(y.k), c, ticks)
  {
    hide Core, Priorities, Counters, Settled, Inherit, Wait, Donated, Boosted, Clk, Schedule, Holds;
    var h := y.holder[m];
    HolderHolds(y, m);
    HolderAlive(y, m);
    InheritStep(y.k, h);
    InheritKeepsHomes(y.k, h);
    KernelRuns.WaitStep(Inherit(y.k, h), m, ticks);
  }

  lemma HolderAlive(y: System, m: nat)
    requires Donated(y) && m in y.holder
    ensures y.holder[m] in y.k.s.priority
  {
  }
}
