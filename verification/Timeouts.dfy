/** vTaskSetTimeOutState and xTaskCheckForTimeOut against an unbounded clock. */
module Timeouts {
  import opened Stores

  /** xTimeOutType: xNumOfOverflows and xTickCount when the wait began. */
  datatype TimeOut = TimeOut(overflows: nat, entered: nat)

  datatype Verdict = Expired | Remaining(since: TimeOut, wait: nat)

  /** vTaskSetTimeOutState at unbounded time `now`. */
  function SetTimeOut(now: nat): TimeOut { TimeOut(now / W, now % W) }

  /** xTaskCheckForTimeOut at unbounded time `now`, on the 32-bit tick and the overflow count. */
  function Check(now: nat, since: TimeOut, wait: nat): (v: Verdict)
    requires since.entered < W && wait < W
  {
    var tick := now % W;
    if wait == W - 1 then Remaining(since, wait)
    else if now / W != since.overflows && tick >= since.entered then Expired
    else if Elapsed(tick, since.entered) < wait then
      Remaining(SetTimeOut(now), wait - Elapsed(tick, since.entered))
    else Expired
  }

  /** The unsigned 32-bit difference. */
  function Elapsed(tick: nat, entered: nat): nat
    requires tick < W && entered < W
  {
    if tick >= entered then tick - entered else tick + W - entered
  }

  lemma ElapsedIsModular(e: nat, now: nat)
    requires e <= now
    ensures Elapsed(now % W, e % W) == (now - e) % W
    ensures now - e < W ==> Elapsed(now % W, e % W) == now - e
    ensures now - e < W && now / W != e / W ==> now % W < e % W
    ensures now - e >= W ==> now / W != e / W
    ensures now - e == W ==> now % W == e % W
  {
    var a, b := now / W, e / W;
    var x, y := now % W, e % W;
    assert now == W * a + x && e == W * b + y;
    if x >= y {
      assert now - e == W * (a - b) + (x - y);
      Remainder(now - e, a - b, x - y);
    } else {
      assert now - e == W * (a - b - 1) + (x + W - y);
      Remainder(now - e, a - b - 1, x + W - y);
    }
  }

  lemma Remainder(n: int, q: int, r: int)
    requires n == W * q + r && 0 <= r < W && n >= 0
    ensures n % W == r && (n < W ==> q == 0) && (n >= W ==> q >= 1) && (n == W ==> r == 0)
  {
  }

  /** A finite wait begun at time e is reported correctly exactly when at most 2^32 ticks have passed,
      or the tick is not below the entry tick, or the ticks since the last full period already exceed
      the wait; otherwise a wait that ended a whole period ago is reported as still running. */
  lemma VerdictExact(e: nat, now: nat, wait: nat)
    requires e <= now && wait < W - 1
    ensures var v := Check(now, SetTimeOut(e), wait);
            (v.Expired? <==> now - e >= wait)
            <==> (now - e <= W || now % W >= e % W || (now - e) % W >= wait)
  {
    ElapsedIsModular(e, now);
  }

  /** While the verdict is exact, an unexpired check keeps the absolute deadline and leaves a positive
      wait, which is what vTaskPlaceOnEventList relies on. */
  lemma DeadlinePreserved(e: nat, now: nat, wait: nat)
    requires e <= now <= e + W && wait < W - 1
    ensures match Check(now, SetTimeOut(e), wait)
            case Expired => now >= e + wait
            case Remaining(since, left) => since == SetTimeOut(now) && 0 < left && now + left == e + wait
  {
    ElapsedIsModular(e, now);
  }

  /** A wait of portMAX_DELAY never expires, however late it is checked, and stays one. */
  lemma ForeverNeverExpires(now: nat, since: TimeOut)
    requires since.entered < W
    ensures Check(now, since, W - 1) == Remaining(since, W - 1)
  {
  }

  /** A concrete wait that is misreported after more than 2^32 ticks. */
  lemma MisreportedAfterTwoWraps()
    ensures var e, now, wait := 10, 2 * W + 5, W - 2;
            now - e >= wait && Check(now, SetTimeOut(e), wait).Remaining?
  {
    assert (2 * W + 5) % W == 5 && (2 * W + 5) / W == 2;
  }

  /** The time of the check before check i, or of the entry. */
  function Before(entry: nat, checks: seq<nat>, i: nat): nat
    requires i <= |checks|
  {
    if i == 0 then entry else checks[i - 1]
  }

  /** The retry loop of xQueueGenericSend and xQueueGenericReceive: a task woken at the given times,
      rightly or spuriously, re-checks its timeout each time.  A finite wait gives up at exactly the
      first check not before its original deadline, a wait of portMAX_DELAY at none. */
  method RetryUntilTimeout(entry: nat, wait: nat, checks: seq<nat>) returns (k: nat)
    requires 0 < wait < W
    requires wait < W - 1 ==>
               forall i :: 0 <= i < |checks| ==> Before(entry, checks, i) <= checks[i] <= Before(entry, checks, i) + W
    ensures k <= |checks| && (wait == W - 1 ==> k == |checks|)
    ensures wait < W - 1 ==> forall i :: 0 <= i < k ==> checks[i] < entry + wait
    ensures wait < W - 1 && k < |checks| ==> checks[k] >= entry + wait
  {
    var since, left := SetTimeOut(entry), wait;
    ghost var last: nat := entry;
    k := 0;
    while k < |checks|
      invariant k <= |checks| && since.entered < W
      invariant if wait == W - 1 then left == wait
                else since == SetTimeOut(last) && 0 < left < W - 1 && last + left == entry + wait
      invariant last == Before(entry, checks, k)
      invariant wait < W - 1 ==> forall i :: 0 <= i < k ==> checks[i] < entry + wait
    {
      if wait == W - 1 { ForeverNeverExpires(checks[k], since); } else { DeadlinePreserved(last, checks[k], left); }
      match Check(checks[k], since, left) {
        case Expired => return;
        case Remaining(s, l) => since, left := s, l;
      }
      last := checks[k];
      k := k + 1;
    }
  }
}
