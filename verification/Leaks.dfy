/** What survives queue promotion: nothing leaks, and capacity is never exceeded. */
module Leaks {
  import opened Wrappers
  import opened Decimal
  import opened Types
  import opened Selection
  import opened Totals
  import opened Machine
  import opened FirstSteps
  import opened Ledger
  import opened Preemption

  // The one-sided ledger

  /** Each GPU has booked at most its initial surplus plus what the running tasks that name it account for. */
  ghost predicate NoLeak(s0: State, s: State) {
    && s.gpus.Keys == s0.gpus.Keys
    && forall g | g in s0.gpus ::
         Gap(Mem, s, g) <= NonNegative(Gap(Mem, s0, g)) && Gap(Count, s, g) <= NonNegative(Gap(Count, s0, g))
  }

  /** A clean step, except that promotions are free to happen and the monitor may lower a counter. */
  predicate LeakFree(s: State, e: Event)
    requires Enabled(s, e)
  {
    match e
    case Submit(task, order, winner, _) => CleanSubmit(s, task, order, winner)
    case Finish(id) => CleanRelease(s, id)
    case Monitor(id, usedMB, _, count) => id in s.gpus ==> usedMB <= s.gpus[id].usedMB && count <= s.gpus[id].running
    case _ => true
  }

  lemma RaisedByPlacement(s: State, s1: State, s2: State)
    requires SameGap(Count, s, s1) && s2.gpus.Keys == s.gpus.Keys
    requires exists g :: g in s1.gpus && g in s2.gpus && Gap(Count, s2, g) > Gap(Count, s1, g)
    ensures Raises(s, s2)
  {
    var g :| g in s1.gpus && g in s2.gpus && Gap(Count, s2, g) > Gap(Count, s1, g);
    assert g in s.gpus && Gap(Count, s1, g) == Gap(Count, s, g);
  }

  lemma RaisedByKills(s: State, s1: State, s2: State)
    requires !SameGap(Mem, s, s1) && s1.gpus.Keys == s2.gpus.Keys == s.gpus.Keys
    requires forall g | g in s.gpus :: Gap(Mem, s2, g) == Gap(Mem, s1, g) >= Gap(Mem, s, g)
    ensures Raises(s, s2)
  {
    var g :| g in s.gpus && Gap(Mem, s1, g) != Gap(Mem, s, g);
    assert Gap(Mem, s2, g) > Gap(Mem, s, g);
  }

  lemma KillAndSettleRaisesIff(s: State, t: Task, ids: seq<string>, winner: Option<string>, started: bool)
    requires Among(ids, s.running) && (winner.Some? ==> winner.value in s.gpus)
    ensures KilledAll(s, t, ids).gpus.Keys == s.gpus.Keys
    ensures Raises(s, Settled(KilledAll(s, t, ids), t, winner, started)) <==>
              !((forall i | 0 <= i < |ids| :: CleanKill(s, ids[i]))
                && (winner.Some? ==> CleanPlacement(KilledAll(s, t, ids), t, winner.value)))
  {
    var s1 := KilledAll(s, t, ids);
    KilledAllLedgerIff(s, t, ids);
    KillAndSettleIff(s, t, ids, winner, started);
    var s2 := Settled(s1, t, winner, started);
    if winner.Some? {
      PlacedLedgerIff(s1, t, winner.value, started);
    }
    if LedgerKept(s, s2) {
      assert !Raises(s, s2);
    } else if winner.Some? && !CleanPlacement(s1, t, winner.value) {
      RaisedByPlacement(s, s1, s2);
    } else {
      RaisedByKills(s, s1, s2);
    }
  }

  /** In any state, a submission makes some GPU book more than its running tasks account for, compared with before,
      exactly if it is not clean: an unsized victim with a GPU in the books, or a placement that loses its GPU. */
  lemma SubmitRaisesIff(s: State, task: Task, order: seq<string>, winner: Option<string>, started: bool)
    requires SubmitShape(s, task, order, winner)
    ensures Raises(s, AfterSubmit(s, task, order, winner, started)) <==> !CleanSubmit(s, task, order, winner)
  {
    var t := Admitted(s, task);
    var s1 := Counted(s, task);
    MakeRoomFrame(s1, t, Charge(t), order);
    KillAndSettleRaisesIff(s1, t, KilledBy(s, task, order), winner, started);
    assert forall q, g | g in s.gpus :: Gap(q, s1, g) == Gap(q, s, g);
    assert forall k :: CleanKill(s1, k) <==> CleanKill(s, k);
  }

  /** A step without the drain that may follow it. */
  function BeforeDrain(s: State, e: Event): State
    requires Enabled(s, e)
  {
    if e.Finish? && e.id in s.running then Retired(s, e.id) else Next(s, e)
  }

  /** A release balances on the task's GPU before the drain: the size is not negative, and the counters cover it, so
      that no clamp fires. */
  predicate ReleaseBooked(s: State, id: string) {
    id in s.running && Hosted(s, s.running[id]) ==>
      var t := s.running[id];
      var g := s.gpus[Host(t)];
      t.vramMB >= 0 && g.usedMB >= Charge(t) && g.running >= 1
  }

  /** In any state a release (before its drain) raises a surplus exactly if the size is negative or a clamp fires. */
  lemma RetiredRaisesIff(s: State, id: string)
    requires id in s.running
    ensures Raises(s, Retired(s, id)) <==> !ReleaseBooked(s, id)
  {
    var r, t := Retired(s, id), s.running[id];
    forall q, g | g in s.gpus && q != Raw
      ensures Gap(q, r, g) - Gap(q, s, g) == ExcessOn(q, s, id, g)
    {
      RetiredGap(q, s, id, g);
    }
    if !ReleaseBooked(s, id) {
      assert Gap(Mem, r, Host(t)) > Gap(Mem, s, Host(t)) || Gap(Count, r, Host(t)) > Gap(Count, s, Host(t));
    }
  }

  /** The drain itself never raises a surplus, and changes none if nothing hosted is promoted. */
  lemma DrainRaisesNothing(s: State, e: Event)
    requires Enabled(s, e) && Separate(s)
    ensures Raises(s, Next(s, e)) ==> Raises(s, BeforeDrain(s, e))
    ensures (e.Finish? ==> CleanDrain(s, e.id)) ==> (Raises(s, Next(s, e)) <==> Raises(s, BeforeDrain(s, e)))
  {
    if e.Finish? && e.id in s.running {
      var r := Retired(s, e.id);
      forall q, g | g in s.gpus && q != Raw
        ensures Gap(q, Drained(r), g) <= Gap(q, r, g)
        ensures CleanDrain(s, e.id) ==> Gap(q, Drained(r), g) == Gap(q, r, g)
      {
        DrainedGap(q, r, g);
      }
    }
  }

  /** What a release leaves booked too much on the task's GPU is more than its drain adds there. */
  predicate FinishRaises(s: State, id: string) {
    id in s.running && Hosted(s, s.running[id])
    && var g := Host(s.running[id]);
       Excess(Mem, s, id) > Arrivals(Mem, s, id, g) || Excess(Count, s, id) > Arrivals(Count, s, id, g)
  }

  lemma FinishRaisesIff(s: State, id: string)
    requires Separate(s)
    ensures Raises(s, AfterFinish(s, id)) <==> FinishRaises(s, id)
  {
    if id in s.running {
      var s' := AfterFinish(s, id);
      forall q, g | g in s.gpus && q != Raw
        ensures Gap(q, s', g) == Gap(q, s, g) + ExcessOn(q, s, id, g) - Arrivals(q, s, id, g)
        ensures Arrivals(q, s, id, g) >= 0
      {
        FinishGap(q, s, id, g);
        QueueTotalSign(q, g, s.pending);
      }
      if FinishRaises(s, id) {
        var g := Host(s.running[id]);
        assert Gap(Mem, s', g) > Gap(Mem, s, g) || Gap(Count, s', g) > Gap(Count, s, g);
      }
    }
  }

  predicate StepRaises(s: State, e: Event)
    requires Enabled(s, e)
  {
    match e
    case Submit(task, order, winner, _) => !CleanSubmit(s, task, order, winner)
    case Finish(id) => FinishRaises(s, id)
    case Monitor(id, usedMB, _, count) => id in s.gpus && (usedMB > s.gpus[id].usedMB || count > s.gpus[id].running)
    case _ => false
  }

  /** In any state, which steps make some GPU book more than before beyond its running tasks. */
  lemma StepRaisesIff(s: State, e: Event)
    requires Enabled(s, e) && Separate(s)
    ensures Raises(s, Next(s, e)) <==> StepRaises(s, e)
  {
    match e
    case Submit(task, order, winner, started) => SubmitRaisesIff(s, task, order, winner, started);
    case Finish(id) => FinishRaisesIff(s, id);
    case Monitor(id, usedMB, util, count) =>
      if id in s.gpus {
        var s' := Next(s, e);
        assert Gap(Mem, s', id) - Gap(Mem, s, id) == usedMB - s.gpus[id].usedMB;
        assert Gap(Count, s', id) - Gap(Count, s, id) == count - s.gpus[id].running;
        assert forall q, g | g in s.gpus && g != id :: Gap(q, s', g) == Gap(q, s, g);
      }
    case _ =>
  }

  lemma RetiredGapBound(q: Measure, s: State, id: string, g: string)
    requires id in s.running && CleanRelease(s, id) && g in s.gpus && q != Raw
    ensures Gap(q, Retired(s, id), g) <= NonNegative(Gap(q, s, g))
  {
    TotalWithout(q, g, s.running, id);
    TotalNonNegative(q, g, s.running - {id});
  }

  lemma FinishNoLeak(s0: State, s: State, id: string)
    requires NoLeak(s0, s) && Separate(s) && id in s.running && CleanRelease(s, id)
    ensures NoLeak(s0, AfterFinish(s, id))
  {
    var r := Retired(s, id);
    forall q, g | g in s.gpus && q != Raw
      ensures Gap(q, Drained(r), g) <= NonNegative(Gap(q, s, g))
    {
      RetiredGapBound(q, s, id, g);
      DrainedGap(q, r, g);
    }
  }

  lemma StepNoLeak(s0: State, s: State, e: Event)
    requires NoLeak(s0, s) && Separate(s) && Enabled(s, e) && LeakFree(s, e)
    ensures NoLeak(s0, Next(s, e))
  {
    match e
    case Submit(task, order, winner, started) =>
      SubmitLedgerIff(s, task, order, winner, started);
      KeptLedgerLeaksNothing(s0, s, Next(s, e));
    case Finish(id) =>
      if id in s.running {
        FinishNoLeak(s0, s, id);
      }
    case Monitor(id, usedMB, util, count) =>
      assert forall q, g | g in s.gpus :: q != Raw ==> Gap(q, Next(s, e), g) <= Gap(q, s, g);
    case _ =>
      KeptLedgerLeaksNothing(s0, s, Next(s, e));
  }

  lemma KeptLedgerLeaksNothing(s0: State, s: State, s': State)
    requires NoLeak(s0, s) && LedgerKept(s, s')
    ensures NoLeak(s0, s')
  {
  }

  predicate LeakFreeRun(s: State, es: seq<Event>)
    decreases |es|
  {
    es == [] ||
    (Enabled(s, es[0]) && Fresh(s, es[0]) && LeakFree(s, es[0]) && LeakFreeRun(Next(s, es[0]), es[1..]))
  }

  /** No leak over every run, queue promotion included. */
  lemma {:induction false} NoLeakEver(s0: State, s: State, es: seq<Event>)
    requires NoLeak(s0, s) && Separate(s) && LeakFreeRun(s, es)
    ensures Legal(s, es) && NoLeak(s0, Run(s, es)) && Separate(Run(s, es))
    decreases |es|
  {
    if es == [] {
    } else {
      StepNoLeak(s0, s, es[0]);
      StaysSeparate(s, es[0]);
      NoLeakEver(s0, Next(s, es[0]), es[1..]);
    }
  }

  /** Once nothing runs any more, every GPU is back to at most what it had booked before. */
  lemma IdleMeansReturned(s: State, es: seq<Event>, g: string)
    requires s.running == map[] && s.pending == [] && g in s.gpus
    requires forall k | k in s.gpus :: s.gpus[k].usedMB >= 0 && s.gpus[k].running >= 0
    requires LeakFreeRun(s, es)
    ensures Legal(s, es) && g in Run(s, es).gpus
    ensures Run(s, es).running == map[] ==>
              Run(s, es).gpus[g].usedMB <= s.gpus[g].usedMB && Run(s, es).gpus[g].running <= s.gpus[g].running
  {
    NoLeakEver(s, s, es);
    var s' := Run(s, es);
    assert Gap(Mem, s', g) <= NonNegative(Gap(Mem, s, g)) && Gap(Count, s', g) <= NonNegative(Gap(Count, s, g));
  }

  // Capacity

  predicate Roomy(gpus: Pool) {
    forall g | g in gpus :: gpus[g].usedMB <= gpus[g].vramMB
  }

  predicate SizesAtLeast(s: State, n: int) {
    && (forall k | k in s.running :: s.running[k].vramMB >= n)
    && (forall i | 0 <= i < |s.pending| :: s.pending[i].vramMB >= n)
  }

  /** No task in the books has a negative size. */
  predicate SizesOk(s: State) {
    SizesAtLeast(s, 0)
  }

  predicate InRange(s: State, e: Event) {
    match e
    case Submit(task, _, _, _) => task.vramMB >= 0
    case Monitor(id, usedMB, _, _) => id in s.gpus ==> usedMB <= s.gpus[id].vramMB
    case _ => true
  }

  /** A release keeps every pool within capacity exactly if the task's size is not negative. */
  lemma RefundKeepsCapacityIff(t: Task)
    ensures (forall gpus: Pool :: Roomy(gpus) ==> Roomy(Freed(gpus, t))) <==> t.vramMB >= 0
  {
    if t.vramMB < 0 {
      var gpus: Pool := map[Host(t) := GpuRecord(Host(t), Unset, 1, 1, 0.0, 0)];
      assert Roomy(gpus);
      assert Host(t) in Freed(gpus, t) && Freed(gpus, t)[Host(t)].usedMB > 1;
      assert !Roomy(Freed(gpus, t));
    }
  }

  // Sizes

  lemma SubmitSizes(s: State, e: Event, n: int)
    requires SizesAtLeast(s, n) && e.Submit? && Enabled(s, e) && e.task.vramMB >= n
    ensures SizesAtLeast(Next(s, e), n)
  {
    MakeRoomFrame(Counted(s, e.task), Admitted(s, e.task), Charge(e.task), e.order);
  }

  lemma FinishSizes(s: State, id: string, n: int)
    requires SizesAtLeast(s, n)
    ensures SizesAtLeast(AfterFinish(s, id), n)
  {
    if id in s.running {
      var r := Retired(s, id);
      DrainAllOrNone(r.pending, r.gpus, r.running);
      forall k | k in Drained(r).running
        ensures Drained(r).running[k].vramMB >= n
      {
        PromotedValue(r.pending, r.gpus, r.running, k);
      }
    }
  }

  lemma CancelSizes(s: State, id: string, n: int)
    requires SizesAtLeast(s, n)
    ensures SizesAtLeast(s.(pending := WithoutFirst(s.pending, id)), n)
  {
    var i := WithoutFirstIsPart(s.pending, id);
  }

  /** Every lower bound on the submitted sizes stays one on the sizes in the books. */
  lemma StepSizes(s: State, e: Event, n: int)
    requires SizesAtLeast(s, n) && Enabled(s, e) && (e.Submit? ==> e.task.vramMB >= n)
    ensures SizesAtLeast(Next(s, e), n)
  {
    match e
    case Submit(_, _, _, _) => SubmitSizes(s, e, n);
    case Finish(id) => FinishSizes(s, id, n);
    case Cancel(id) => CancelSizes(s, id, n);
    case _ =>
  }

  // Steps and runs within capacity

  lemma {:induction false} KilledAllCapacity(s: State, t: Task, ids: seq<string>)
    requires Among(ids, s.running) && Roomy(s.gpus) && SizesOk(s)
    ensures Roomy(KilledAll(s, t, ids).gpus)
    decreases |ids|
  {
    if ids == [] {
    } else {
      KilledAllCapacity(KillOne(s, t, ids[0]), t, ids[1..]);
    }
  }

  lemma SubmitCapacity(s: State, task: Task, order: seq<string>, winner: Option<string>, started: bool)
    requires Roomy(s.gpus) && SizesOk(s) && SubmitEnabled(s, task, order, winner)
    ensures Roomy(AfterSubmit(s, task, order, winner, started).gpus)
  {
    var t := Admitted(s, task);
    MakeRoomFrame(Counted(s, task), t, Charge(t), order);
    KilledAllCapacity(Counted(s, task), t, KilledBy(s, task, order));
    SettledCapacity(MadeRoom(s, task, order).st, t, winner, started);
  }

  lemma SettledCapacity(s: State, t: Task, winner: Option<string>, started: bool)
    requires Roomy(s.gpus)
    requires winner.Some? ==> winner.value in s.gpus && Eligible(s.gpus[winner.value], Charge(t))
    ensures Roomy(Settled(s, t, winner, started).gpus)
  {
  }

  lemma StepCapacity(s: State, e: Event)
    requires Roomy(s.gpus) && SizesOk(s) && Enabled(s, e) && InRange(s, e)
    ensures Roomy(Next(s, e).gpus) && SizesOk(Next(s, e))
  {
    StepSizes(s, e, 0);
    match e
    case Submit(task, order, winner, started) => SubmitCapacity(s, task, order, winner, started);
    case _ =>
  }

  /** The exact condition on a step: raw refunds of negative size, clamped refunds of negative size, and monitor reports
      stay within the GPU. */
  ghost predicate StaysRoomy(s: State, e: Event)
    requires Enabled(s, e)
  {
    match e
    case Submit(task, order, _, _) =>
      forall g | g in s.gpus ::
        s.gpus[g].usedMB - Total(Raw, g, Only(s.running, (set k | k in KilledBy(s, task, order)))) <= s.gpus[g].vramMB
    case Finish(id) =>
      id in s.running && Hosted(s, s.running[id]) ==>
        NonNegative(s.gpus[Host(s.running[id])].usedMB - ReleaseRefund(s.running[id]))
        <= s.gpus[Host(s.running[id])].vramMB
    case Monitor(id, usedMB, _, _) => id in s.gpus ==> usedMB <= s.gpus[id].vramMB
    case _ => true
  }

  /** Placement never exceeds a GPU, whatever the sizes: a submission stays within capacity exactly if its kills do. */
  lemma SubmitCapacityIff(s: State, task: Task, order: seq<string>, winner: Option<string>, started: bool)
    requires SubmitEnabled(s, task, order, winner)
    ensures Roomy(AfterSubmit(s, task, order, winner, started).gpus) <==>
              forall g | g in s.gpus ::
                s.gpus[g].usedMB - Total(Raw, g, Only(s.running, (set k | k in KilledBy(s, task, order))))
                <= s.gpus[g].vramMB
  {
    var t, s1 := Admitted(s, task), Counted(s, task);
    var made := MadeRoom(s, task, order).st;
    var ids := KilledBy(s, task, order);
    MakeRoomFrame(s1, t, Charge(t), order);
    forall g | g in s.gpus
      ensures g in made.gpus
      ensures made.gpus[g].FreeVRAM()
           == s.gpus[g].FreeVRAM() + Total(Raw, g, Only(s.running, (set k | k in ids)))
    {
      FreeAfterKills(s1, t, ids, g);
    }
    SettledCapacityIff(made, t, winner, started);
  }

  lemma SettledCapacityIff(s: State, t: Task, winner: Option<string>, started: bool)
    requires winner.Some? ==> winner.value in s.gpus && Eligible(s.gpus[winner.value], Charge(t))
    ensures Roomy(Settled(s, t, winner, started).gpus) <==> forall g | g in s.gpus :: s.gpus[g].FreeVRAM() >= 0
  {
    var gpus := Settled(s, t, winner, started).gpus;
    assert gpus.Keys == s.gpus.Keys;
    forall g | g in s.gpus
      ensures gpus[g].usedMB <= gpus[g].vramMB <==> s.gpus[g].FreeVRAM() >= 0
    {
    }
  }

  lemma FinishCapacityIff(s: State, id: string)
    requires Roomy(s.gpus)
    ensures Roomy(AfterFinish(s, id).gpus) <==> StaysRoomy(s, Finish(id))
  {
    if id in s.running && Hosted(s, s.running[id]) {
      var gpus, h := AfterFinish(s, id).gpus, Host(s.running[id]);
      assert gpus.Keys == s.gpus.Keys && forall g | g in s.gpus && g != h :: gpus[g] == s.gpus[g];
      assert gpus[h].usedMB == NonNegative(s.gpus[h].usedMB - ReleaseRefund(s.running[id]));
    }
  }

  lemma MonitorCapacityIff(s: State, e: Event)
    requires Roomy(s.gpus) && e.Monitor?
    ensures Roomy(Next(s, e).gpus) <==> StaysRoomy(s, e)
  {
    if e.id in s.gpus {
      var gpus := Next(s, e).gpus;
      assert gpus.Keys == s.gpus.Keys && forall g | g in s.gpus && g != e.id :: gpus[g] == s.gpus[g];
      assert gpus[e.id].usedMB == e.usedMB && gpus[e.id].vramMB == s.gpus[e.id].vramMB;
    }
  }

  /** A step from within capacity stays there exactly under that condition, for all sizes. */
  lemma StepCapacityIff(s: State, e: Event)
    requires Roomy(s.gpus) && Enabled(s, e)
    ensures Roomy(Next(s, e).gpus) <==> StaysRoomy(s, e)
  {
    match e
    case Submit(task, order, winner, started) => SubmitCapacityIff(s, task, order, winner, started);
    case Finish(id) => FinishCapacityIff(s, id);
    case Monitor(_, _, _, _) => MonitorCapacityIff(s, e);
    case _ =>
  }

  predicate InRangeRun(s: State, es: seq<Event>)
    decreases |es|
  {
    es == [] || (Enabled(s, es[0]) && InRange(s, es[0]) && InRangeRun(Next(s, es[0]), es[1..]))
  }

  /** Booked memory stays within capacity over every interleaving of all steps, monitor updates included. */
  lemma {:induction false} CapacityEver(s: State, es: seq<Event>)
    requires Roomy(s.gpus) && SizesOk(s) && InRangeRun(s, es)
    ensures Legal(s, es) && Roomy(Run(s, es).gpus)
    decreases |es|
  {
    if es == [] {
    } else {
      StepCapacity(s, es[0]);
      CapacityEver(Next(s, es[0]), es[1..]);
    }
  }

  /** No GPU is over capacity in any state of the run. */
  predicate RoomyThroughout(s: State, es: seq<Event>)
    requires Legal(s, es)
    decreases |es|
  {
    Roomy(s.gpus) && (es == [] || RoomyThroughout(Next(s, es[0]), es[1..]))
  }

  ghost predicate AllStayRoomy(s: State, es: seq<Event>)
    requires Legal(s, es)
    decreases |es|
  {
    es == [] || (StaysRoomy(s, es[0]) && AllStayRoomy(Next(s, es[0]), es[1..]))
  }

  /** Over every run, for all sizes and all monitor reports, the step condition is exact. */
  lemma {:induction false} CapacityThroughoutIff(s: State, es: seq<Event>)
    requires Roomy(s.gpus) && Legal(s, es)
    ensures RoomyThroughout(s, es) <==> AllStayRoomy(s, es)
    decreases |es|
  {
    if es == [] {
    } else {
      StepCapacityIff(s, es[0]);
      if Roomy(Next(s, es[0]).gpus) {
        CapacityThroughoutIff(Next(s, es[0]), es[1..]);
      }
    }
  }

  /** With the exact ledger, the tasks placed on a GPU never need more than it has. */
  lemma NeverOvercommitted(s: State, es: seq<Event>, g: string)
    requires s.running == map[] && s.pending == [] && g in s.gpus && Roomy(s.gpus)
    requires forall k | k in s.gpus :: s.gpus[k].usedMB >= 0 && s.gpus[k].running >= 0
    requires CleanRun(s, es) && InRangeRun(s, es)
    ensures Legal(s, es) && g in Run(s, es).gpus
    ensures Total(Mem, g, Run(s, es).running) <= Run(s, es).gpus[g].vramMB
  {
    BookedIsInitialPlusRunning(s, es, g);
    CapacityEver(s, es);
  }

  // Runs through the API, which never sets a task ID

  /** Every known ID came from the counter, and every GPU can be found again by its ID. */
  predicate ApiState(s: State) {
    && (forall k | k in s.running :: Issued(s, k))
    && (forall i | 0 <= i < |s.pending| :: Issued(s, s.pending[i].id))
    && (forall g | g in s.gpus :: Canonical(g))
  }

  /** A call of the API, which leaves task IDs to the counter. The monitor reports that the server makes on its own are
      not among them: they overwrite the counters with whatever they see. */
  predicate ApiEvent(e: Event) {
    (e.Submit? ==> e.task.id == "") && !e.Monitor?
  }

  /** No booked task that was submitted without a size is killed: its default charge would not come back. */
  predicate KillsSized(s: State, e: Event)
    requires Enabled(s, e)
  {
    e.Submit? ==> forall k | k in KilledBy(s, e.task, e.order) :: CleanKill(s, k)
  }

  lemma ApiSubmitIsFresh(s: State, e: Event)
    requires ApiState(s) && ApiEvent(e)
    ensures Fresh(s, e)
  {
    NextNameIsNew(s);
  }

  lemma ApiSubmitStays(s: State, task: Task, order: seq<string>, winner: Option<string>, started: bool)
    requires ApiState(s) && SubmitShape(s, task, order, winner) && task.id == ""
    ensures ApiState(AfterSubmit(s, task, order, winner, started))
  {
    var t := Admitted(s, task);
    MakeRoomFrame(Counted(s, task), t, Charge(t), order);
    var s' := AfterSubmit(s, task, order, winner, started);
    forall id | Issued(s, id)
      ensures Issued(s', id)
    {
      StaysIssued(s, s', id);
    }
    assert Issued(s', t.id);
  }

  lemma ApiFinishStays(s: State, id: string)
    requires ApiState(s)
    ensures ApiState(AfterFinish(s, id))
  {
    if id in s.running {
      var r := Retired(s, id);
      DrainAllOrNone(r.pending, r.gpus, r.running);
      forall k | k in Drained(r).running
        ensures Issued(s, k)
      {
        PromotedValue(r.pending, r.gpus, r.running, k);
      }
    }
  }

  lemma ApiCancelStays(s: State, id: string)
    requires ApiState(s)
    ensures ApiState(s.(pending := WithoutFirst(s.pending, id)))
  {
    var rest := WithoutFirst(s.pending, id);
    WithoutFirstMembers(s.pending, id);
    SameCounterSameIssued(s, s.(pending := rest));
    forall j | 0 <= j < |rest|
      ensures Issued(s, rest[j].id)
    {
      assert rest[j] in rest;
    }
  }

  lemma SameCounterSameIssued(s: State, s': State)
    requires s'.counter == s.counter
    ensures forall k :: Issued(s, k) <==> Issued(s', k)
  {
    forall k
      ensures Issued(s, k) <==> Issued(s', k)
    {
      if Issued(s, k) {
        StaysIssued(s, s', k);
      }
      if Issued(s', k) {
        StaysIssued(s', s, k);
      }
    }
  }

  lemma ApiStays(s: State, e: Event)
    requires ApiState(s) && ApiEvent(e) && Enabled(s, e)
    ensures ApiState(Next(s, e))
  {
    match e
    case Submit(task, order, winner, started) => ApiSubmitStays(s, task, order, winner, started);
    case Finish(id) => ApiFinishStays(s, id);
    case Cancel(id) => ApiCancelStays(s, id);
    case _ =>
  }

  /** The task that ends was not submitted with a negative size, or its GPU is unknown. */
  predicate ReleasesSized(s: State, e: Event) {
    e.Finish? ==> CleanRelease(s, e.id)
  }

  /** An API submission never loses its GPU, so it is clean exactly if its victims are. */
  lemma ApiSubmitCleanIff(s: State, e: Event)
    requires ApiState(s) && ApiEvent(e) && e.Submit? && Enabled(s, e) && Fresh(s, e)
    ensures CleanSubmit(s, e.task, e.order, e.winner) <==> KillsSized(s, e)
  {
    ApiPlacementIsClean(s, e.task, e.order, e.winner);
    var ids := KilledBy(s, e.task, e.order);
    assert (forall k | k in ids :: CleanKill(s, k)) <==> (forall i | 0 <= i < |ids| :: CleanKill(s, ids[i]));
  }

  lemma ApiPlacementIsClean(s: State, task: Task, order: seq<string>, winner: Option<string>)
    requires ApiState(s) && SubmitShape(s, task, order, winner) && Admitted(s, task).id !in s.running
    ensures winner.Some? ==> CleanPlacement(MadeRoom(s, task, order).st, Admitted(s, task), winner.value)
  {
    MakeRoomFrame(Counted(s, task), Admitted(s, task), Charge(task), order);
  }

  /** Through the API a step is leak-free exactly if it kills no unsized task and releases none of a negative size; to
      be clean its drain must be, too. */
  lemma ApiStepLeaksIff(s: State, e: Event)
    requires ApiState(s) && Separate(s) && ApiEvent(e) && Enabled(s, e)
    ensures Fresh(s, e)
    ensures LeakFree(s, e) <==> KillsSized(s, e) && ReleasesSized(s, e)
    ensures Clean(s, e) <==> KillsSized(s, e) && ReleasesSized(s, e) && (e.Finish? ==> CleanDrain(s, e.id))
  {
    ApiSubmitIsFresh(s, e);
    if e.Submit? {
      ApiSubmitCleanIff(s, e);
    }
  }

  /** In any state that API calls lead to, exactly two kinds of step make some GPU book more than before beyond its
      running tasks: the kill of a task without a size, and a release whose size rule or clamps leave more booked than
      the drain adds; without the drain, a release of a negative size or one that the counters do not cover. */
  lemma ApiStepRaisesIff(s: State, e: Event)
    requires ApiState(s) && Separate(s) && ApiEvent(e) && Enabled(s, e)
    ensures Raises(s, Next(s, e)) <==> !KillsSized(s, e) || (e.Finish? && FinishRaises(s, e.id))
    ensures Raises(s, BeforeDrain(s, e)) <==> !KillsSized(s, e) || (e.Finish? && !ReleaseBooked(s, e.id))
  {
    StepRaisesIff(s, e);
    if e.Submit? {
      ApiSubmitIsFresh(s, e);
      ApiSubmitCleanIff(s, e);
    } else if e.Finish? && e.id in s.running {
      RetiredRaisesIff(s, e.id);
    }
  }

  /** Where the books cover the running tasks, no clamp fires, so that only negative sizes remain. */
  lemma BackedReleaseBookedIff(s: State, id: string)
    requires Backed(s)
    ensures ReleaseBooked(s, id) <==> CleanRelease(s, id)
  {
    if id in s.running && Hosted(s, s.running[id]) {
      TotalCovers(Mem, Host(s.running[id]), s.running, id);
      TotalCovers(Count, Host(s.running[id]), s.running, id);
    }
  }

  predicate ApiRun(s: State, es: seq<Event>)
    decreases |es|
  {
    es == [] ||
    (ApiEvent(es[0]) && Enabled(s, es[0]) && KillsSized(s, es[0]) && ReleasesSized(s, es[0])
     && ApiRun(Next(s, es[0]), es[1..]))
  }

  lemma {:induction false} ApiRunIsLeakFree(s: State, es: seq<Event>)
    requires ApiState(s) && Separate(s) && ApiRun(s, es)
    ensures LeakFreeRun(s, es)
    decreases |es|
  {
    if es == [] {
    } else {
      ApiStepLeaksIff(s, es[0]);
      ApiStays(s, es[0]);
      StaysSeparate(s, es[0]);
      ApiRunIsLeakFree(Next(s, es[0]), es[1..]);
    }
  }

  /** From the start, over every API run that kills no unsized task and releases none of a negative size, a GPU never
      has booked more than its running tasks ask. */
  lemma ApiNeverLeaks(es: seq<Event>, g: string)
    requires ApiRun(INITIAL, es) && g in INITIAL.gpus
    ensures Legal(INITIAL, es) && g in Run(INITIAL, es).gpus
    ensures Run(INITIAL, es).gpus[g].usedMB <= Total(Mem, g, Run(INITIAL, es).running)
    ensures Run(INITIAL, es).gpus[g].running <= Total(Count, g, Run(INITIAL, es).running)
  {
    InitialIsApiState();
    ApiRunIsLeakFree(INITIAL, es);
    NoLeakEver(INITIAL, INITIAL, es);
    var s := Run(INITIAL, es);
    assert Gap(Mem, s, g) <= NonNegative(Gap(Mem, INITIAL, g));
    assert Gap(Count, s, g) <= NonNegative(Gap(Count, INITIAL, g));
  }

  /** Without those conditions it does: a task of negative size, placed on GPU "0" of the scheduler as it starts and
      then completed, kills nobody and leaves its default charge and its size booked with nothing running. From -12289
      MB on that is more than the GPU has. */
  lemma NegativeSizeLeaks(task: Task, es: seq<Event>)
    requires task.id == "" && task.kind == OtherKind && task.vramMB < 0
    requires es == [Submit(task, [], Some("0"), true), Finish("task-1")]
    ensures Enabled(INITIAL, es[0]) && Enabled(Next(INITIAL, es[0]), es[1])
    ensures Legal(INITIAL, es) && Run(INITIAL, es).running == map[]
    ensures "0" in Run(INITIAL, es).gpus && Run(INITIAL, es).gpus["0"].usedMB == 4096 - task.vramMB
    ensures Roomy(Run(INITIAL, es).gpus) <==> task.vramMB >= -12288
    ensures ApiEvent(es[0]) && ApiEvent(es[1]) && KillsSized(INITIAL, es[0])
    ensures !ReleasesSized(Next(INITIAL, es[0]), es[1])
  {
    FirstNames();
    FirstOnNvidia(es[0]);
    var s1 := Next(INITIAL, es[0]);
    RunOfTwo(INITIAL, es[0], es[1]);
    NegativeSizeReturned(s1, task);
  }

  lemma NegativeSizeReturned(s: State, task: Task)
    requires s.gpus == INITIAL.gpus["0" := GpuRecord("0", Nvidia, 16384, 4096, 0.0, 1)] && s.pending == []
    requires s.running == map["task-1" := task.(id := "task-1", gpuReq := 0, status := Status.Running)]
    requires task.vramMB < 0
    ensures var s' := Next(s, Finish("task-1"));
            && s'.running == map[]
            && s'.gpus == INITIAL.gpus["0" := GpuRecord("0", Nvidia, 16384, 4096 - task.vramMB, 0.0, 0)]
    ensures !ReleasesSized(s, Finish("task-1"))
  {
    FirstNames();
    var r := Retired(s, "task-1");
    assert r.running == map[];
    assert Drained(r) == r;
  }

  /** So does killing a task without a size: its default charge of 4096 MB stays booked on GPU "1", although nothing
      runs any more and the preemptor waits. */
  lemma UnsizedVictimLeaks(a: Task, b: Task, es: seq<Event>)
    requires a == Task("", OtherKind, 1, 0, 0, Pending) && b == Task("", OtherKind, 10, 0, 24576, Pending)
    requires es == [Submit(a, [], Some("1"), true), Submit(b, ["task-1"], None, false)]
    ensures Enabled(INITIAL, es[0]) && Enabled(Next(INITIAL, es[0]), es[1])
    ensures Legal(INITIAL, es) && Run(INITIAL, es).running == map[]
    ensures "1" in Run(INITIAL, es).gpus && Run(INITIAL, es).gpus["1"].usedMB == 4096
    ensures ApiEvent(es[0]) && ApiEvent(es[1]) && !KillsSized(Next(INITIAL, es[0]), es[1])
  {
    FirstOnAmd(es[0]);
    var s1 := Next(INITIAL, es[0]);
    var v := a.(id := "task-1", gpuReq := 1, status := Status.Running);
    HostedOnAmd(v);
    KilledInVain(s1, b, "task-1", false);
    RunOfTwo(INITIAL, es[0], es[1]);
    assert KilledBy(s1, b, ["task-1"])[0] == "task-1";
  }

  // A condition on the submissions alone

  /** Every submission of the run names a size. */
  predicate SizedSubmissions(es: seq<Event>) {
    forall i | 0 <= i < |es| :: ApiEvent(es[i]) && (es[i].Submit? ==> es[i].task.vramMB > 0)
  }

  lemma {:induction false} SizedRunIsApiRun(s: State, es: seq<Event>)
    requires SizesAtLeast(s, 1) && Legal(s, es) && SizedSubmissions(es)
    ensures ApiRun(s, es)
    decreases |es|
  {
    if es == [] {
    } else {
      StepSizes(s, es[0], 1);
      SizedRunIsApiRun(Next(s, es[0]), es[1..]);
    }
  }

  /** Every API run whose submissions all name a size leaks nothing, whatever it kills, promotes or completes. */
  lemma SizedTasksNeverLeak(es: seq<Event>, g: string)
    requires Legal(INITIAL, es) && SizedSubmissions(es) && g in INITIAL.gpus
    ensures g in Run(INITIAL, es).gpus
    ensures Run(INITIAL, es).gpus[g].usedMB <= Total(Mem, g, Run(INITIAL, es).running)
    ensures Run(INITIAL, es).gpus[g].running <= Total(Count, g, Run(INITIAL, es).running)
  {
    SizedRunIsApiRun(INITIAL, es);
    ApiNeverLeaks(es, g);
  }

  /** The queue names no GPU, so promotion adds nothing to the running tasks of any. */
  predicate QueueUnhosted(s: State) {
    forall t | t in s.pending :: !Hosted(s, t)
  }

  /** Every submission names a size, and a number of GPUs that is the ID of none. */
  predicate PlainSubmissions(es: seq<Event>, ids: set<string>) {
    SizedSubmissions(es) && forall i | 0 <= i < |es| :: es[i].Submit? ==> Itoa(es[i].task.gpuReq) !in ids
  }

  lemma StaysUnhosted(s: State, e: Event)
    requires QueueUnhosted(s) && Enabled(s, e) && (e.Submit? ==> Itoa(e.task.gpuReq) !in s.gpus)
    ensures QueueUnhosted(Next(s, e)) && Next(s, e).gpus.Keys == s.gpus.Keys
  {
    match e
    case Submit(task, order, winner, started) => SubmitStaysUnhosted(s, task, order, winner, started);
    case Finish(id) =>
      if id in s.running {
        var r := Retired(s, id);
        DrainAllOrNone(r.pending, r.gpus, r.running);
      }
    case Cancel(id) => WithoutFirstMembers(s.pending, id);
    case _ =>
  }

  lemma SubmitStaysUnhosted(s: State, task: Task, order: seq<string>, winner: Option<string>, started: bool)
    requires QueueUnhosted(s) && SubmitShape(s, task, order, winner) && Itoa(task.gpuReq) !in s.gpus
    ensures var s' := AfterSubmit(s, task, order, winner, started); QueueUnhosted(s') && s'.gpus.Keys == s.gpus.Keys
  {
    MakeRoomFrame(Counted(s, task), Admitted(s, task), Charge(task), order);
  }

  lemma PlainStepIsClean(s: State, e: Event)
    requires ApiState(s) && Separate(s) && SizesAtLeast(s, 1) && QueueUnhosted(s) && ApiEvent(e) && Enabled(s, e)
    ensures Fresh(s, e) && Clean(s, e)
  {
    ApiStepLeaksIff(s, e);
    if e.Finish? {
      assert forall i | 0 <= i < |s.pending| :: s.pending[i] in s.pending;
    }
  }

  lemma {:induction false} PlainRunIsClean(s: State, es: seq<Event>)
    requires ApiState(s) && Separate(s) && SizesAtLeast(s, 1) && QueueUnhosted(s)
    requires Legal(s, es) && PlainSubmissions(es, s.gpus.Keys)
    ensures CleanRun(s, es)
    decreases |es|
  {
    if es == [] {
    } else {
      PlainStepIsClean(s, es[0]);
      StaysSeparate(s, es[0]);
      ApiStays(s, es[0]);
      StepSizes(s, es[0], 1);
      StaysUnhosted(s, es[0]);
      PlainRunIsClean(Next(s, es[0]), es[1..]);
    }
  }

  lemma InitialIsApiState()
    ensures ApiState(INITIAL)
  {
    FirstNames();
    CanonicalIff("0");
    CanonicalIff("1");
  }

  /** From the start, over every API run whose submissions all name a positive size and ask for a number of GPUs other
      than 0 and 1, both counters of every GPU are exactly those of the running tasks placed on it. */
  lemma PlainTasksKeepTheLedger(es: seq<Event>, g: string)
    requires Legal(INITIAL, es) && PlainSubmissions(es, {"0", "1"}) && g in INITIAL.gpus
    ensures g in Run(INITIAL, es).gpus
    ensures Run(INITIAL, es).gpus[g].usedMB == Total(Mem, g, Run(INITIAL, es).running)
    ensures Run(INITIAL, es).gpus[g].running == Total(Count, g, Run(INITIAL, es).running)
  {
    InitialIsApiState();
    assert INITIAL.gpus.Keys == {"0", "1"};
    PlainRunIsClean(INITIAL, es);
    BookedIsInitialPlusRunning(INITIAL, es, g);
    assert INITIAL.gpus[g].usedMB == 0 && INITIAL.gpus[g].running == 0;
  }

  // Submit then release

  /** With an empty queue, placing a task and finishing it restores the running map; it restores the GPUs exactly if
      the task's size is not negative. */
  lemma SubmitThenFinishIff(s: State, task: Task, w: string, started: bool)
    requires s.pending == [] && SubmitEnabled(s, task, [], Some(w)) && Fits(s.gpus, Charge(task))
    requires Canonical(w) && Admitted(s, task).id !in s.running
    requires w in s.gpus && s.gpus[w].usedMB >= 0 && s.gpus[w].running >= 0
    ensures var s' := AfterFinish(AfterSubmit(s, task, [], Some(w), started), Admitted(s, task).id);
            && s'.running == s.running && s'.pending == [] && s'.history == s.history
            && (s'.gpus == s.gpus <==> task.vramMB >= 0)
  {
    var t := Admitted(s, task);
    var s1 := AfterSubmit(s, task, [], Some(w), started);
    var s2 := Retired(s1, t.id);
    PlacedHostIff(w, t.gpuReq);
    assert Host(s1.running[t.id]) == w;
    assert s2.running == s.running;
    assert s2.gpus[w].usedMB == NonNegative(s.gpus[w].usedMB + Charge(t) - ReleaseRefund(t));
    assert s2.gpus == s.gpus[w := s.gpus[w].(usedMB := s2.gpus[w].usedMB)];
    if task.vramMB < 0 {
      assert s2.gpus[w] != s.gpus[w];
    }
  }
}
