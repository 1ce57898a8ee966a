/** What happens to the messages of a queue over whole runs of the blocking protocol. */
module QueueDelivery {
  import opened QueueCores
  import opened QueueProtocol

  /** The message a step puts into the queue, if any. */
  function AcceptedBy(p: System, s: Step): seq<Msg> {
    match s
    case Attempt(t, m, _, _) =>
      if PcOf(p, t).Attempting? && PcOf(p, t).side.Tx? && |p.q.items| < p.q.length then [m] else []
    case PostFromISR(m, _) => if |p.q.items| < p.q.length then [m] else []
    case _ => []
  }

  /** The messages a step takes out of the queue: one for a receive, none for a peek, all for a reset. */
  function RemovedBy(p: System, s: Step): seq<Msg> {
    match s
    case Attempt(t, _, _, _) =>
      var pc := PcOf(p, t);
      if pc.Attempting? && pc.side.Rx? && !pc.side.peek && p.q.items != [] then [p.q.items[0]] else []
    case ReadFromISR => if p.q.items != [] then [p.q.items[0]] else []
    case ResetQueue => p.q.items
    case _ => []
  }

  function Accepted(p: System, steps: seq<Step>): (ms: seq<Msg>)
    requires Possible(p, steps)
    decreases |steps|
  {
    if steps == [] then [] else AcceptedBy(p, steps[0]) + Accepted(Next(p, steps[0]), steps[1..])
  }

  function Removed(p: System, steps: seq<Step>): (ms: seq<Msg>)
    requires Possible(p, steps)
    decreases |steps|
  {
    if steps == [] then [] else RemovedBy(p, steps[0]) + Removed(Next(p, steps[0]), steps[1..])
  }

  predicate ToBack(s: Step) {
    match s
    case Attempt(_, _, front, _) => !front
    case PostFromISR(_, front) => !front
    case _ => true
  }

  /** A step takes a prefix out, or puts one message in at an end, or leaves the messages alone. */
  lemma ItemsAfter(p: System, s: Step)
    requires Enabled(p, s)
    ensures var acc, rem, items := AcceptedBy(p, s), RemovedBy(p, s), Next(p, s).q.items;
            && rem <= p.q.items && (rem == [] || acc == [])
            && items == if acc == [] then p.q.items[|rem|..] else if ToBack(s) then p.q.items + acc else acc + p.q.items
  {
    hide UnlockTx, UnlockRx, Without, WakeReceiver, WakeSender, InRegion;
    var q := p.q;
    match s
    case Attempt(t, m, front, _) =>
      var c := q.(wokenR := q.wokenR - {t});
      SenderAside(c);
      if q.items != [] { SenderAside(Drop(c)); }
      SenderAside(Put(q.(wokenS := q.wokenS - {t}), m, front));
    case UnlockTxStep(_) => OtherSide(q);
    case UnlockRxStep(_) => OtherSide(q);
    case PostFromISR(m, front) => SenderAside(Put(q, m, front));
    case ReadFromISR => if q.items != [] { SenderAside(Drop(q)); }
    case ResetQueue => SenderAside(q.(items := [], txLock := UNLOCKED, rxLock := UNLOCKED));
    case _ =>
  }

  lemma StepDelivers(p: System, s: Step)
    requires Enabled(p, s)
    ensures var items := Next(p, s).q.items;
            && (ToBack(s) ==> p.q.items + AcceptedBy(p, s) == RemovedBy(p, s) + items)
            && multiset(p.q.items) + multiset(AcceptedBy(p, s)) == multiset(RemovedBy(p, s)) + multiset(items)
  {
    hide AcceptedBy, RemovedBy, Next, Enabled, ToBack;
    ItemsAfter(p, s);
    var acc, rem, items := AcceptedBy(p, s), RemovedBy(p, s), p.q.items;
    assert items == rem + items[|rem|..];
    if acc == [] {
      assert items[|rem|..] == Next(p, s).q.items;
      assert multiset(items) == multiset(rem + items[|rem|..]);
    } else {
      assert multiset(items + acc) == multiset(acc + items);
      assert rem == [];
    }
  }

  /** Every message accepted over a run is taken out exactly once or still queued, and nothing else
      comes out. */
  lemma {:induction false} NothingLostNothingInvented(p: System, steps: seq<Step>)
    requires Possible(p, steps)
    ensures multiset(p.q.items) + multiset(Accepted(p, steps))
            == multiset(Removed(p, steps)) + multiset(Run(p, steps).q.items)
    decreases |steps|
  {
    hide Next, Enabled, AcceptedBy, RemovedBy;
    if steps != [] {
      var n, rest := Next(p, steps[0]), steps[1..];
      StepDelivers(p, steps[0]);
      NothingLostNothingInvented(n, rest);
      calc {
        multiset(p.q.items) + multiset(Accepted(p, steps));
        (multiset(p.q.items) + multiset(AcceptedBy(p, steps[0]))) + multiset(Accepted(n, rest));
        multiset(RemovedBy(p, steps[0])) + (multiset(n.q.items) + multiset(Accepted(n, rest)));
        multiset(Removed(p, steps)) + multiset(Run(p, steps).q.items);
      }
    }
  }

  /** Without sends to the front, messages leave in exactly the order in which they were accepted,
      whichever tasks and interrupts send and receive them and however they block. */
  lemma {:induction false} FirstInFirstOut(p: System, steps: seq<Step>)
    requires Possible(p, steps) && forall s :: s in steps ==> ToBack(s)
    ensures p.q.items + Accepted(p, steps) == Removed(p, steps) + Run(p, steps).q.items
    decreases |steps|
  {
    hide Next, Enabled, AcceptedBy, RemovedBy, ToBack;
    if steps != [] {
      var n, rest := Next(p, steps[0]), steps[1..];
      assert steps[0] in steps;
      StepDelivers(p, steps[0]);
      FirstInFirstOut(n, rest);
      calc {
        p.q.items + Accepted(p, steps);
        (p.q.items + AcceptedBy(p, steps[0])) + Accepted(n, rest);
        RemovedBy(p, steps[0]) + (n.q.items + Accepted(n, rest));
        Removed(p, steps) + Run(p, steps).q.items;
      }
    }
  }
}
