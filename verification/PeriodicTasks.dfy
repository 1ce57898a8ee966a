/** A task that calls vTaskDelayUntil in a loop, over whole runs of the kernel. */
module PeriodicTasks {
  import opened Stores
  import opened DelayLists
  import opened Kernels
  import opened KernelRuns
  import opened KernelMachine

  /** The step is a call of vTaskDelayUntil by task t. */
  predicate IsCall(k: Kernel, op: Op, t: Task) { op.OpDelayUntil? && k.current == t }

  /** What a call did: the time it was made, and the deadline it set unless it returned at once. */
  datatype Call = Blocked(at: nat, deadline: nat) | Returned(at: nat)

  ghost function Outcome(k: Kernel, op: Op, t: Task): Call
    requires Inv(k) && k.levels > 0 && Enabled(k, op)
  {
    var c := Clk(Step(k, op));
    if t in c.deadline then Blocked(Now(k.w), c.deadline[t]) else Returned(Now(k.w))
  }

  /** The calls of t in a run. */
  ghost function Calls(k: Kernel, ops: seq<Op>, t: Task): (cs: seq<Call>)
    requires Inv(k) && k.levels > 0 && Possible(k, ops)
    decreases |ops|
  {
    if ops == [] then []
    else
      StepRefines(k, ops[0]);
      (if IsCall(k, ops[0], t) then [Outcome(k, ops[0], t)] else []) + Calls(Step(k, ops[0]), ops[1..], t)
  }

  /** Each call of t passes the increment and the 32-bit value the call before it stored, and is made
      not before the wake-up it counts from and under 2^32 ticks after it.  Between its calls t may
      block, be woken, be suspended or anything else. */
  ghost predicate Periodic(k: Kernel, ops: seq<Op>, t: Task, previous: nat, P: nat, increment: nat)
    requires Inv(k) && k.levels > 0 && Possible(k, ops)
    decreases |ops|
  {
    ops == [] ||
    (StepRefines(k, ops[0]);
     if IsCall(k, ops[0], t) then
       && ops[0] == OpDelayUntil(previous, increment)
       && P <= Now(k.w) < P + W
       && Periodic(Step(k, ops[0]), ops[1..], t, (previous + increment) % W, P + increment, increment)
     else Periodic(Step(k, ops[0]), ops[1..], t, previous, P, increment))
  }

  /** The same with the lower half of the window left to the kernel: until wake-up P has come, no other
      step acts on the deadline of t; from then on any step may. */
  ghost predicate Undisturbed(k: Kernel, ops: seq<Op>, t: Task, previous: nat, P: nat, increment: nat)
    requires Inv(k) && k.levels > 0 && Possible(k, ops)
    decreases |ops|
  {
    ops == [] ||
    (StepRefines(k, ops[0]);
     if IsCall(k, ops[0], t) then
       && ops[0] == OpDelayUntil(previous, increment)
       && Now(k.w) < P + W
       && Undisturbed(Step(k, ops[0]), ops[1..], t, (previous + increment) % W, P + increment, increment)
     else
       && (P <= Now(k.w) || !Touches(EffectOf(k, ops[0]), t))
       && Undisturbed(Step(k, ops[0]), ops[1..], t, previous, P, increment))
  }

  /** Wake-up P of task t has passed, or it is the deadline the task is blocked for. */
  ghost predicate Due(k: Kernel, t: Task, P: nat) {
    P <= Now(k.w) || (t in Clk(k).deadline && Clk(k).deadline[t] == P)
  }

  function Target(P: nat, increment: nat, n: nat): nat { P + n * increment }

  /** The call set its target as deadline, or returned because the target had passed. */
  ghost predicate OnSchedule(c: Call, target: nat) {
    match c
    case Blocked(at, deadline) => at < target && deadline == target
    case Returned(at) => target <= at
  }

  /** A task that may call is not delayed, so its last wake-up is past. */
  lemma CallerIsAwake(k: Kernel, t: Task, P: nat)
    requires Inv(k) && Due(k, t, P) && k.current == t && BlockingCall(k)
    ensures P <= Now(k.w)
  {
    hide Sound, CacheInv, Counters, Settled;
    WheelFacts(k.s, k.w);
    assert !Timed(k.s, k.w, t);
  }

  /** Other steps leave a wake-up due. */
  lemma StaysDue(k: Kernel, op: Op, t: Task, P: nat)
    requires Inv(k) && k.levels > 0 && Enabled(k, op) && Due(k, t, P)
    requires P <= Now(k.w) || !Touches(EffectOf(k, op), t)
    ensures Due(Step(k, op), t, P)
  {
    hide Core, Step, EffectOf, Enabled, Clk, Now;
    TimeMovesOn(k, op);
    if P > Now(k.w) {
      StepRefines(k, op);
      ClockAhead(k, t);
      var e := EffectOf(k, op);
      UntouchedDeadline(Clk(k), [e], t);
      OneEffect(Clk(k), e);
      ClockNow(k);
      ClockNow(Step(k, op));
    }
  }

  lemma OneEffect(c: Clock, e: Effect)
    ensures ApplyAll(c, [e]) == Apply(c, e)
  {
    assert ApplyAll(Apply(c, e), [e][1..]) == Apply(c, e);
  }

  lemma ClockAhead(k: Kernel, t: Task)
    requires Inv(k)
    ensures t in Clk(k).deadline ==> Clk(k).deadline[t] > Clk(k).now
  {
    hide Sound, CacheInv, Counters, Settled;
    if t in Clk(k).deadline { DeadlinesAhead(k.s, k.w, t); }
  }

  /** A call in its window meets its target, and leaves that target due. */
  lemma CallMeetsTarget(k: Kernel, t: Task, P: nat, increment: nat)
    requires Inv(k) && k.levels > 0 && Enabled(k, OpDelayUntil(P % W, increment)) && k.current == t
    requires P <= Now(k.w) < P + W
    ensures var op := OpDelayUntil(P % W, increment);
            OnSchedule(Outcome(k, op, t), P + increment) && Due(Step(k, op), t, P + increment)
  {
    hide Core, DelayUntil, Clk, Now;
    var op := OpDelayUntil(P % W, increment);
    DelayUntilArms(k, P, increment);
    CallerNotTimed(k);
    ClockNow(k);
    ClockNow(Step(k, op));
  }

  /** Over every run, across any number of wraps and suspensions of the scheduler, whatever the task
      does between its calls and however late they are: the n-th call of a task that counts from time P
      sets the deadline exactly P + n * increment, or returns at once if that time has passed. */
  lemma {:induction false} NoDrift(k: Kernel, ops: seq<Op>, t: Task, P: nat, increment: nat)
    requires Inv(k) && k.levels > 0 && Possible(k, ops) && Periodic(k, ops, t, P % W, P, increment)
    ensures var cs := Calls(k, ops, t);
            forall n :: 0 <= n < |cs| ==> OnSchedule(cs[n], Target(P, increment, n + 1))
    decreases |ops|
  {
    hide Inv, Step, Enabled, Outcome, OnSchedule, Due, Target;
    if ops != [] {
      StepRefines(k, ops[0]);
      var r, rest := Step(k, ops[0]), ops[1..];
      if IsCall(k, ops[0], t) {
        CallMeetsTarget(k, t, P, increment);
        Wrap(P, increment) by { IncrementSmall(k, P % W, increment); }
        NoDrift(r, rest, t, P + increment, increment);
        var cs, ds := Calls(k, ops, t), Calls(r, rest, t);
        forall n | 0 <= n < |cs| ensures OnSchedule(cs[n], Target(P, increment, n + 1)) {
          NextTarget(P, increment, n);
          if n > 0 { assert cs[n] == ds[n - 1]; }
        }
      } else {
        NoDrift(r, rest, t, P, increment);
        assert Calls(k, ops, t) == Calls(r, rest, t);
      }
    }
  }

  /** A task that nothing disturbs while it is blocked for its next wake-up never calls before it, so
      it keeps its schedule as long as no call is 2^32 ticks late. */
  lemma {:induction false} UndisturbedKeepsTime(k: Kernel, ops: seq<Op>, t: Task, P: nat, increment: nat)
    requires Inv(k) && k.levels > 0 && Possible(k, ops) && Due(k, t, P)
    requires Undisturbed(k, ops, t, P % W, P, increment)
    ensures Periodic(k, ops, t, P % W, P, increment)
    decreases |ops|
  {
    hide Inv, Step, Outcome, OnSchedule, Due, Touches, EffectOf;
    if ops != [] {
      StepRefines(k, ops[0]);
      var r, rest := Step(k, ops[0]), ops[1..];
      if IsCall(k, ops[0], t) {
        CallerIsAwake(k, t, P);
        CallMeetsTarget(k, t, P, increment);
        Wrap(P, increment) by { IncrementSmall(k, P % W, increment); }
        UndisturbedKeepsTime(r, rest, t, P + increment, increment);
      } else {
        StaysDue(k, ops[0], t, P);
        UndisturbedKeepsTime(r, rest, t, P, increment);
      }
    }
  }

  lemma IncrementSmall(k: Kernel, previous: nat, increment: nat)
    requires Enabled(k, OpDelayUntil(previous, increment))
    ensures increment < W
  {
  }

  lemma NextTarget(P: nat, increment: nat, n: nat)
    ensures Target(P + increment, increment, n) == Target(P, increment, n + 1)
    ensures Target(P, increment, 1) == P + increment
  {
  }
}
