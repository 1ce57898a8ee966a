/** The timed waits of one blocking queue call, over whole runs of the kernel: each time the call
    checks its timeout and waits again, the wait ends at the deadline the call started with. */
module TimedWaits {
  import opened XLists
  import opened Stores
  import opened ReadyLists
  import opened DelayLists
  import opened Kernels
  import opened KernelRuns
  import opened KernelMachine
  import opened Timeouts

  /** After a check that leaves some time, waiting for that time sets the deadline of the whole call. */
  lemma WaitKeepsDeadline(k: Kernel, q: nat, since: nat, wait: nat)
    requires Inv(k) && BlockingCall(k) && since <= Now(k.w) <= since + W && wait < W - 1
    requires Check(Now(k.w), SetTimeOut(since), wait).Remaining?
    ensures var left := Check(Now(k.w), SetTimeOut(since), wait).wait;
            && 0 < left < W - 1
            && Clk(Wait(k, q, left)) == Clk(k).(deadline := Clk(k).deadline[k.current := since + wait])
  {
    hide Core, Priorities, Counters, Settled, Wait, Clk, Schedule, Check, Now;
    DeadlinePreserved(since, Now(k.w), wait);
    var left := Check(Now(k.w), SetTimeOut(since), wait).wait;
    WaitStep(k, q, left);
    ScheduledAt(k, k.current, left);
  }

  /** The step is a wait of task t. */
  predicate IsWait(k: Kernel, op: Op, t: Task) { op.OpWait? && k.current == t }

  /** The timeout of the call after its last check, made at time `last`. */
  datatype Progress = Progress(since: TimeOut, left: nat, last: nat)

  /** A check that leaves some time, at most 2^32 ticks after the one before it. */
  predicate Goes(c: Progress, now: nat) {
    c.since.entered < W && c.left < W && now <= c.last + W && Check(now, c.since, c.left).Remaining?
  }

  function Checked(c: Progress, now: nat): Progress
    requires Goes(c, now)
  {
    var v := Check(now, c.since, c.left);
    Progress(v.since, v.wait, now)
  }

  /** The call of t in the run: `checks` marks the steps before which t checks its timeout.  Whenever t
      waits it has just done so, and it waits for exactly the time left; a check need not lead to a wait. */
  ghost predicate Retrying(k: Kernel, ops: seq<Op>, checks: seq<bool>, t: Task, c: Progress)
    requires Inv(k) && k.levels > 0 && Possible(k, ops) && |checks| == |ops|
    decreases |ops|
  {
    ops == [] ||
    (StepRefines(k, ops[0]);
     && (IsWait(k, ops[0], t) ==> checks[0])
     && (checks[0] ==> Goes(c, Now(k.w)))
     && var d := if checks[0] then Checked(c, Now(k.w)) else c;
     && (IsWait(k, ops[0], t) ==> ops[0].ticks == d.left)
     && Retrying(Step(k, ops[0]), ops[1..], checks[1..], t, d))
  }

  datatype Arming = Until(deadline: nat) | Forever

  /** What each wait of t in the run sets. */
  ghost function Armings(k: Kernel, ops: seq<Op>, t: Task): (a: seq<Arming>)
    requires Inv(k) && k.levels > 0 && Possible(k, ops)
    decreases |ops|
  {
    if ops == [] then []
    else
      StepRefines(k, ops[0]);
      var c := Clk(Step(k, ops[0]));
      (if !IsWait(k, ops[0], t) then [] else if t in c.deadline then [Until(c.deadline[t])] else [Forever])
      + Armings(Step(k, ops[0]), ops[1..], t)
  }

  /** The call is on course for the deadline: its timeout was taken at `last` and leaves the rest. */
  ghost predicate OnCourse(c: Progress, deadline: nat) {
    c.since == SetTimeOut(c.last) && 0 < c.left < W - 1 && c.last + c.left == deadline
  }

  /** A check keeps the call on course. */
  lemma CheckKeepsCourse(c: Progress, now: nat, deadline: nat)
    requires OnCourse(c, deadline) && c.last <= now && Goes(c, now)
    ensures OnCourse(Checked(c, now), deadline)
  {
    hide Check;
    DeadlinePreserved(c.last, now, c.left);
  }

  /** One wait of the call, for the time its check has left. */
  lemma WaitOnCourse(k: Kernel, op: Op, t: Task, c: Progress, deadline: nat)
    requires Inv(k) && k.levels > 0 && Enabled(k, op) && IsWait(k, op, t)
    requires OnCourse(c, deadline) && c.last <= Now(k.w) && Goes(c, Now(k.w)) && op.ticks == Checked(c, Now(k.w)).left
    ensures var d := Clk(Step(k, op)).deadline; t in d && d[t] == deadline
  {
    hide Inv, Wait, Check, Clk, Now;
    WaitKeepsDeadline(k, op.queue, c.last, c.left);
  }

  /** Over every run, however often the task is woken, checks its timeout and waits again, across any
      number of tick wraps and suspensions of the scheduler: every wait of the call ends at exactly the
      deadline the call is on course for. */
  lemma {:induction false} WaitsStayOnCourse(k: Kernel, ops: seq<Op>, checks: seq<bool>, t: Task, c: Progress,
                                             deadline: nat)
    requires Inv(k) && k.levels > 0 && Possible(k, ops) && |checks| == |ops| && Retrying(k, ops, checks, t, c)
    requires OnCourse(c, deadline) && c.last <= Now(k.w)
    ensures var a := Armings(k, ops, t);
            forall n :: 0 <= n < |a| ==> a[n] == Until(deadline)
    decreases |ops|
  {
    hide Inv, Step, Enabled, Check, Clk, Now, OnCourse, Goes, Checked;
    if ops != [] {
      StepRefines(k, ops[0]);
      TimeMovesOn(k, ops[0]);
      var r, rest, d := Step(k, ops[0]), ops[1..], c;
      if checks[0] {
        CheckKeepsCourse(c, Now(k.w), deadline);
        d := Checked(c, Now(k.w));
        CheckedNow(c, Now(k.w));
      }
      WaitsStayOnCourse(r, rest, checks[1..], t, d, deadline);
      if IsWait(k, ops[0], t) {
        WaitOnCourse(k, ops[0], t, c, deadline);
        assert Armings(k, ops, t) == [Until(deadline)] + Armings(r, rest, t);
      } else {
        assert Armings(k, ops, t) == Armings(r, rest, t);
      }
    }
  }

  lemma CheckedNow(c: Progress, now: nat)
    requires Goes(c, now)
    ensures Checked(c, now).last == now
  {
  }

  /** A call that begins at time `entry` with block time `wait` waits until exactly entry + wait, so
      retrying neither lengthens nor shortens the block time. */
  lemma BlockTimeIsExact(k: Kernel, ops: seq<Op>, checks: seq<bool>, t: Task, entry: nat, wait: nat)
    requires Inv(k) && k.levels > 0 && Possible(k, ops) && |checks| == |ops|
    requires entry <= Now(k.w) && 0 < wait < W - 1
    requires Retrying(k, ops, checks, t, Progress(SetTimeOut(entry), wait, entry))
    ensures var a := Armings(k, ops, t);
            forall n :: 0 <= n < |a| ==> a[n] == Until(entry + wait)
  {
    hide Inv, Retrying, Armings;
    WaitsStayOnCourse(k, ops, checks, t, Progress(SetTimeOut(entry), wait, entry), entry + wait);
  }

  // ----- Waits of portMAX_DELAY

  /** The call of t in the run as the code makes it: at each marked step t checks its timeout, goes on
      if the check leaves some time and gives up otherwise; when it waits, it has just checked and waits
      for what the check left. */
  ghost predicate Calling(k: Kernel, ops: seq<Op>, checks: seq<bool>, t: Task, since: TimeOut, left: nat)
    requires Inv(k) && k.levels > 0 && Possible(k, ops) && |checks| == |ops|
    requires since.entered < W && left < W
    decreases |ops|
  {
    ops == [] ||
    (StepRefines(k, ops[0]);
     if !checks[0] then
       !IsWait(k, ops[0], t) && Calling(Step(k, ops[0]), ops[1..], checks[1..], t, since, left)
     else
       match Check(Now(k.w), since, left)
       case Expired => !IsWait(k, ops[0], t)
       case Remaining(s, l) =>
         && s.entered < W && l < W && (IsWait(k, ops[0], t) ==> ops[0].ticks == l)
         && Calling(Step(k, ops[0]), ops[1..], checks[1..], t, s, l))
  }

  /** Some check of the run makes the call give up. */
  ghost predicate GivesUp(k: Kernel, ops: seq<Op>, checks: seq<bool>, since: TimeOut, left: nat)
    requires Inv(k) && k.levels > 0 && Possible(k, ops) && |checks| == |ops|
    requires since.entered < W && left < W
    decreases |ops|
  {
    ops != [] &&
    (StepRefines(k, ops[0]);
     if !checks[0] then GivesUp(Step(k, ops[0]), ops[1..], checks[1..], since, left)
     else
       match Check(Now(k.w), since, left)
       case Expired => true
       case Remaining(s, l) => s.entered < W && l < W && GivesUp(Step(k, ops[0]), ops[1..], checks[1..], s, l))
  }

  /** A wait of portMAX_DELAY sets no deadline: the task goes to the suspended list and the event list. */
  lemma WaitForever(k: Kernel, q: nat)
    requires Inv(k) && k.levels > 0 && Enabled(k, OpWait(q, W - 1))
    ensures var r := Step(k, OpWait(q, W - 1));
            && k.current !in Clk(r).deadline && Clk(r) == Clk(k)
            && Home(r.s, k.current) == Suspended && In(r.s, Ev(k.current), Event(q))
  {
    hide Core, Priorities, Counters, Settled, Wait, Clk;
    CallerNotTimed(k);
    WaitStep(k, q, W - 1);
    ForeverIsSuspended(k, q);
  }

  lemma ForeverIsSuspended(k: Kernel, q: nat)
    ensures Home(Wait(k, q, W - 1).s, k.current) == Suspended
  {
    hide InsertAt, InsertPosition, DetachRunning, InsertEnd;
  }

  /** A check of such a call leaves everything as it was. */
  lemma CallGoesOn(k: Kernel, ops: seq<Op>, checks: seq<bool>, t: Task, since: TimeOut)
    requires Inv(k) && k.levels > 0 && Possible(k, ops) && |checks| == |ops| && since.entered < W
    requires ops != [] && Calling(k, ops, checks, t, since, W - 1)
    ensures IsWait(k, ops[0], t) ==> ops[0].ticks == W - 1
    ensures (StepRefines(k, ops[0]);
             var r := Step(k, ops[0]);
             && Calling(r, ops[1..], checks[1..], t, since, W - 1)
             && (GivesUp(k, ops, checks, since, W - 1) ==> GivesUp(r, ops[1..], checks[1..], since, W - 1)))
  {
    hide Inv, Step, Enabled, Check, Clk, Now;
    StepRefines(k, ops[0]);
    ForeverNeverExpires(Now(k.w), since);
  }

  /** Over every run, whenever and however often it is woken and checks again: a call with a block time
      of portMAX_DELAY never gives up, and every wait of it is unlimited. */
  lemma {:induction false} ForeverNeverGivesUp(k: Kernel, ops: seq<Op>, checks: seq<bool>, t: Task, since: TimeOut)
    requires Inv(k) && k.levels > 0 && Possible(k, ops) && |checks| == |ops| && since.entered < W
    requires Calling(k, ops, checks, t, since, W - 1)
    ensures !GivesUp(k, ops, checks, since, W - 1)
    ensures var a := Armings(k, ops, t);
            forall n :: 0 <= n < |a| ==> a[n] == Forever
    decreases |ops|
  {
    hide Inv, Step, Enabled, Check, Clk, Now, Calling;
    if ops != [] {
      StepRefines(k, ops[0]);
      CallGoesOn(k, ops, checks, t, since);
      var r, rest := Step(k, ops[0]), ops[1..];
      ForeverNeverGivesUp(r, rest, checks[1..], t, since);
      if IsWait(k, ops[0], t) {
        WaitForever(k, ops[0].queue);
        assert Armings(k, ops, t) == [Forever] + Armings(r, rest, t);
      } else {
        assert Armings(k, ops, t) == Armings(r, rest, t);
      }
    }
  }
}
