/**
  The resource ledger: what each GPU has booked against what its running tasks account for. Each step keeps the exact
  ledger if and only if it `Balances`, a condition on the state and the call.
*/
module Ledger {
  import opened Wrappers
  import opened Decimal
  import opened Types
  import opened Selection
  import opened Totals
  import opened Machine
  import opened FirstSteps

  function Booked(q: Measure, g: Gpu): int {
    if q == Count then g.running else g.usedMB
  }

  /** What is booked beyond the running tasks. */
  ghost function Gap(q: Measure, s: State, g: string): int
    requires g in s.gpus
  {
    Booked(q, s.gpus[g]) - Total(q, g, s.running)
  }

  ghost predicate SameGap(q: Measure, s: State, s': State) {
    s'.gpus.Keys == s.gpus.Keys && forall g | g in s.gpus :: Gap(q, s', g) == Gap(q, s, g)
  }

  /** The exact ledger: memory and task count move with the running map. */
  ghost predicate LedgerKept(s: State, s': State) {
    SameGap(Mem, s, s') && SameGap(Count, s, s')
  }

  /** Some GPU has booked more, compared with its running tasks, than before. */
  ghost predicate Raises(s: State, s': State) {
    exists q, g :: q != Raw && g in s.gpus && g in s'.gpus && Gap(q, s', g) > Gap(q, s, g)
  }

  /** Every GPU has booked at least what its running tasks were charged. */
  ghost predicate Backed(s: State) {
    forall g | g in s.gpus :: Gap(Mem, s, g) >= 0 && Gap(Count, s, g) >= 0
  }

  /** A task ID names one task among the queued and running ones. */
  predicate Separate(s: State) {
    Disjoint(s.pending, s.running)
  }

  predicate Disjoint(queue: seq<Task>, m: Running) {
    && (forall i, j | 0 <= i < j < |queue| :: queue[i].id != queue[j].id)
    && (forall i | 0 <= i < |queue| :: queue[i].id !in m)
  }

  predicate InQueue(queue: seq<Task>, id: string) {
    exists i :: 0 <= i < |queue| && queue[i].id == id
  }

  predicate Fresh(s: State, e: Event) {
    e.Submit? ==> Admitted(s, e.task).id !in s.running && !InQueue(s.pending, Admitted(s, e.task).id)
  }

  /** The task's GPU is in the books. */
  predicate Hosted(s: State, t: Task) {
    Host(t) in s.gpus
  }

  predicate CleanPlacement(s: State, t: Task, w: string) {
    Canonical(w) && !(t.id in s.running && Hosted(s, s.running[t.id]))
  }

  predicate CleanKill(s: State, k: string) {
    k in s.running ==> s.running[k].vramMB > 0 || !Hosted(s, s.running[k])
  }

  predicate CleanSubmit(s: State, task: Task, order: seq<string>, winner: Option<string>)
    requires SubmitShape(s, task, order, winner)
  {
    && (forall i | 0 <= i < |KilledBy(s, task, order)| :: CleanKill(s, KilledBy(s, task, order)[i]))
    && (winner.Some? ==> CleanPlacement(MadeRoom(s, task, order).st, Admitted(s, task), winner.value))
  }

  predicate CleanRelease(s: State, id: string) {
    id in s.running ==> s.running[id].vramMB >= 0 || !Hosted(s, s.running[id])
  }

  /** Nothing is promoted onto a GPU in the books: promoted tasks are not charged. */
  predicate CleanDrain(s: State, id: string) {
    id in s.running && Fits(Freed(s.gpus, s.running[id]), DEFAULT_VRAM) ==>
      forall i | 0 <= i < |s.pending| :: !Hosted(s, s.pending[i])
  }

  /** What a release leaves booked on the task's GPU beyond its place in the running map: the size rules differ, and the
      clamps may fire. */
  function Excess(q: Measure, s: State, id: string): int
    requires id in s.running && Hosted(s, s.running[id])
  {
    var t := s.running[id];
    var g := s.gpus[Host(t)];
    if q == Count then NonNegative(g.running - 1) - (g.running - 1)
    else NonNegative(g.usedMB - ReleaseRefund(t)) - (g.usedMB - Charge(t))
  }

  function ExcessOn(q: Measure, s: State, id: string, g: string): int
    requires id in s.running && g in s.gpus
  {
    if Host(s.running[id]) == g then Excess(q, s, id) else 0
  }

  function QueueTotal(q: Measure, g: string, queue: seq<Task>): int {
    if queue == [] then 0 else Weight(q, g, queue[0]) + QueueTotal(q, g, queue[1..])
  }

  /** What the drain after a release adds to the running tasks of a GPU without a charge. */
  function Arrivals(q: Measure, s: State, id: string, g: string): int
    requires id in s.running
  {
    if Fits(Freed(s.gpus, s.running[id]), DEFAULT_VRAM) then QueueTotal(q, g, s.pending) else 0
  }

  /** What a release leaves booked too much is what the drain adds, on every GPU. */
  predicate FinishBalances(s: State, id: string) {
    id in s.running ==>
      forall g | g in s.gpus ::
        && ExcessOn(Mem, s, id, g) == Arrivals(Mem, s, id, g)
        && ExcessOn(Count, s, id, g) == Arrivals(Count, s, id, g)
  }

  /** The exact condition for keeping the ledger in any state. */
  predicate Balances(s: State, e: Event)
    requires Enabled(s, e)
  {
    match e
    case Submit(task, order, winner, _) => CleanSubmit(s, task, order, winner)
    case Finish(id) => FinishBalances(s, id)
    case Monitor(id, usedMB, _, count) => id in s.gpus ==> s.gpus[id].usedMB == usedMB && s.gpus[id].running == count
    case _ => true
  }

  /** What it comes to where the books cover the running tasks. */
  predicate Clean(s: State, e: Event)
    requires Enabled(s, e)
  {
    match e
    case Submit(task, order, winner, _) => CleanSubmit(s, task, order, winner)
    case Finish(id) => CleanRelease(s, id) && CleanDrain(s, id)
    case Monitor(id, usedMB, _, count) => id in s.gpus ==> s.gpus[id].usedMB == usedMB && s.gpus[id].running == count
    case _ => true
  }

  // Refunds

  /** Release gives back the charge exactly for sizes that are not negative, preemption exactly for positive ones. */
  lemma RefundsMatchChargeIff(t: Task)
    ensures ReleaseRefund(t) == Charge(t) <==> t.vramMB >= 0
    ensures KillRefund(t) == Charge(t) <==> t.vramMB > 0
    ensures ReleaseRefund(t) <= Charge(t) || t.vramMB >= 0
    ensures KillRefund(t) <= Charge(t)
  {
  }

  lemma PlacedHostIff(w: string, gpuReq: Int64)
    ensures Itoa(ParsedHost(w, gpuReq)) == w <==> Canonical(w)
  {
    CanonicalIff(w);
    AtoiItoa(gpuReq);
  }

  // Kill preemption

  lemma KillOneGap(q: Measure, s: State, t: Task, k: string, g: string)
    requires k in s.running && g in s.gpus
    ensures KillOne(s, t, k).gpus.Keys == s.gpus.Keys
    ensures Gap(q, KillOne(s, t, k), g) - Gap(q, s, g)
         == if q == Mem && Host(s.running[k]) == g then Charge(s.running[k]) - KillRefund(s.running[k]) else 0
  {
    TotalWithout(q, g, s.running, k);
  }

  /** Each kill opens the memory ledger by what the refund falls short of the charge, and nothing else. */
  function Shortfall(g: string, m: Running, ids: seq<string>): int
    requires Among(ids, m)
  {
    if ids == [] then 0
    else
      var v := m[ids[0]];
      (if Host(v) == g then Charge(v) - KillRefund(v) else 0) + Shortfall(g, m, ids[1..])
  }

  lemma {:induction false} ShortfallFrame(g: string, m: Running, k: string, ids: seq<string>)
    requires Among(ids, m) && k !in ids
    ensures Shortfall(g, m - {k}, ids) == Shortfall(g, m, ids)
    decreases |ids|
  {
    if ids == [] {
    } else {
      ShortfallFrame(g, m, k, ids[1..]);
    }
  }

  lemma {:induction false} ShortfallSign(g: string, m: Running, ids: seq<string>)
    requires Among(ids, m)
    ensures Shortfall(g, m, ids) >= 0
    ensures Shortfall(g, m, ids) == 0 <==> forall i | 0 <= i < |ids| :: Host(m[ids[i]]) == g ==> m[ids[i]].vramMB > 0
    decreases |ids|
  {
    if ids == [] {
    } else {
      ShortfallSign(g, m, ids[1..]);
      assert forall i | 0 < i < |ids| :: ids[i] == ids[1..][i - 1];
    }
  }

  lemma {:induction false} KilledAllGap(q: Measure, s: State, t: Task, ids: seq<string>, g: string)
    requires Among(ids, s.running) && g in s.gpus
    ensures g in KilledAll(s, t, ids).gpus
    ensures Gap(q, KilledAll(s, t, ids), g) == Gap(q, s, g) + if q == Mem then Shortfall(g, s.running, ids) else 0
    decreases |ids|
  {
    if ids == [] {
    } else {
      var s' := KillOne(s, t, ids[0]);
      KillOneGap(q, s, t, ids[0], g);
      KilledAllGap(q, s', t, ids[1..], g);
      ShortfallFrame(g, s.running, ids[0], ids[1..]);
    }
  }

  /** Kill preemption keeps the task counts; it keeps the memory ledger exactly if every hosted victim has a size. */
  lemma KilledAllLedgerIff(s: State, t: Task, ids: seq<string>)
    requires Among(ids, s.running)
    ensures SameGap(Count, s, KilledAll(s, t, ids))
    ensures forall g | g in s.gpus :: Gap(Mem, KilledAll(s, t, ids), g) >= Gap(Mem, s, g)
    ensures SameGap(Mem, s, KilledAll(s, t, ids)) <==> forall i | 0 <= i < |ids| :: CleanKill(s, ids[i])
  {
    KilledAllFrame(s, t, ids);
    forall g | g in s.gpus
      ensures Gap(Count, KilledAll(s, t, ids), g) == Gap(Count, s, g)
      ensures Gap(Mem, KilledAll(s, t, ids), g) >= Gap(Mem, s, g)
      ensures Gap(Mem, KilledAll(s, t, ids), g) == Gap(Mem, s, g) <==>
                forall i | 0 <= i < |ids| :: Host(s.running[ids[i]]) == g ==> s.running[ids[i]].vramMB > 0
    {
      KilledAllGap(Count, s, t, ids, g);
      KilledAllGap(Mem, s, t, ids, g);
      ShortfallSign(g, s.running, ids);
    }
  }

  // Placement

  function Amount(q: Measure, t: Task): int {
    match q
    case Mem => Charge(t)
    case Raw => KillRefund(t)
    case Count => 1
  }

  lemma PlacedGap(q: Measure, s: State, t: Task, w: string, started: bool, g: string)
    requires w in s.gpus && g in s.gpus && q != Raw
    ensures Gap(q, Placed(s, t, w, started), g) - Gap(q, s, g)
         == (if g == w then Amount(q, t) else 0)
            - (if g == Itoa(ParsedHost(w, t.gpuReq)) then Amount(q, t) else 0)
            + (if t.id in s.running then Weight(q, g, s.running[t.id]) else 0)
  {
    var s' := Placed(s, t, w, started);
    TotalPut(q, g, s.running, t.id, s'.running[t.id]);
  }

  /** Placing a task books what the running map gains exactly when the GPU's ID survives parsing and the task's ID
      does not push a booked task out of the map. */
  lemma PlacedLedgerIff(s: State, t: Task, w: string, started: bool)
    requires w in s.gpus
    ensures LedgerKept(s, Placed(s, t, w, started)) <==> CleanPlacement(s, t, w)
    ensures forall g | g in s.gpus && CleanPlacement(s, t, w) :: Gap(Mem, Placed(s, t, w, started), g) == Gap(Mem, s, g)
    ensures !CleanPlacement(s, t, w) ==>
              exists g :: g in s.gpus && Gap(Count, Placed(s, t, w, started), g) > Gap(Count, s, g)
  {
    var s' := Placed(s, t, w, started);
    PlacedHostIff(w, t.gpuReq);
    forall q, g | g in s.gpus && q != Raw
      ensures Gap(q, s', g) - Gap(q, s, g)
           == (if g == w then Amount(q, t) else 0)
              - (if g == Itoa(ParsedHost(w, t.gpuReq)) then Amount(q, t) else 0)
              + (if t.id in s.running then Weight(q, g, s.running[t.id]) else 0)
    {
      PlacedGap(q, s, t, w, started, g);
    }
    if !Canonical(w) {
      assert Gap(Count, s', w) > Gap(Count, s, w);
    } else if t.id in s.running && Hosted(s, s.running[t.id]) {
      assert Gap(Count, s', Host(s.running[t.id])) > Gap(Count, s, Host(s.running[t.id]));
    }
  }

  /** Two moves that never close a memory gap keep the ledger together exactly if each keeps it. */
  lemma LedgerComposes(s: State, s1: State, s2: State)
    requires SameGap(Count, s, s1) && s2.gpus.Keys == s1.gpus.Keys
    requires forall g | g in s.gpus :: Gap(Mem, s1, g) >= Gap(Mem, s, g)
    requires LedgerKept(s1, s2) || !SameGap(Count, s1, s2)
    ensures LedgerKept(s, s2) <==> SameGap(Mem, s, s1) && LedgerKept(s1, s2)
  {
  }

  lemma KillAndSettleIff(s: State, t: Task, ids: seq<string>, winner: Option<string>, started: bool)
    requires Among(ids, s.running) && (winner.Some? ==> winner.value in s.gpus)
    ensures KilledAll(s, t, ids).gpus.Keys == s.gpus.Keys
    ensures LedgerKept(s, Settled(KilledAll(s, t, ids), t, winner, started)) <==>
              && (forall i | 0 <= i < |ids| :: CleanKill(s, ids[i]))
              && (winner.Some? ==> CleanPlacement(KilledAll(s, t, ids), t, winner.value))
  {
    var s1 := KilledAll(s, t, ids);
    KilledAllFrame(s, t, ids);
    KilledAllLedgerIff(s, t, ids);
    match winner
    case Some(w) =>
      PlacedLedgerIff(s1, t, w, started);
      LedgerComposes(s, s1, Placed(s1, t, w, started));
    case None =>
      LedgerComposes(s, s1, Settled(s1, t, winner, started));
  }

  lemma IssuingIdsBooksNothing(s: State, task: Task, s': State)
    ensures LedgerKept(Counted(s, task), s') <==> LedgerKept(s, s')
  {
    assert forall q, g | g in s.gpus :: Gap(q, Counted(s, task), g) == Gap(q, s, g);
  }

  lemma SubmitLedgerIff(s: State, task: Task, order: seq<string>, winner: Option<string>, started: bool)
    requires SubmitShape(s, task, order, winner)
    ensures LedgerKept(s, AfterSubmit(s, task, order, winner, started)) <==> CleanSubmit(s, task, order, winner)
  {
    var t := Admitted(s, task);
    var s1 := Counted(s, task);
    var ids := KilledBy(s, task, order);
    MakeRoomFrame(s1, t, Charge(t), order);
    KillAndSettleIff(s1, t, ids, winner, started);
    IssuingIdsBooksNothing(s, task, AfterSubmit(s, task, order, winner, started));
    assert forall k :: CleanKill(s1, k) <==> CleanKill(s, k);
  }

  // Release

  /** In a backed state the clamps of a release never fire for a task whose size is not negative. */
  lemma ClampsNeverFire(s: State, id: string)
    requires Backed(s) && id in s.running && Hosted(s, s.running[id])
    ensures var g := s.gpus[Host(s.running[id])];
            g.usedMB >= ReleaseRefund(s.running[id]) && g.running >= 1
  {
    var t := s.running[id];
    TotalCovers(Mem, Host(t), s.running, id);
    TotalCovers(Count, Host(t), s.running, id);
  }

  lemma RetiredGap(q: Measure, s: State, id: string, g: string)
    requires id in s.running && g in s.gpus && q != Raw
    ensures Gap(q, Retired(s, id), g) - Gap(q, s, g) == ExcessOn(q, s, id, g)
  {
    TotalWithout(q, g, s.running, id);
  }

  lemma BackedExcess(s: State, id: string)
    requires Backed(s) && id in s.running && Hosted(s, s.running[id])
    ensures Excess(Mem, s, id) == Charge(s.running[id]) - ReleaseRefund(s.running[id])
    ensures Excess(Count, s, id) == 0
  {
    ClampsNeverFire(s, id);
  }

  // Promotion

  /** As the GPUs do not change during the pass, it promotes the whole queue, losing nobody, or none of it, keeping the
      order. */
  lemma {:induction false} DrainAllOrNone(queue: seq<Task>, gpus: Pool, m: Running)
    ensures StillPending(queue, gpus) == if Fits(gpus, DEFAULT_VRAM) then [] else queue
    ensures !Fits(gpus, DEFAULT_VRAM) ==> Promoted(queue, gpus, m) == m
    ensures Fits(gpus, DEFAULT_VRAM) ==>
              forall k :: k in Promoted(queue, gpus, m) <==> k in m || InQueue(queue, k)
    decreases |queue|
  {
    if queue == [] {
    } else {
      var t := queue[0];
      DrainAllOrNone(queue[1..], gpus, m);
      DrainAllOrNone(queue[1..], gpus, m[t.id := t.(status := Status.Running)]);
      assert queue == [t] + queue[1..];
      forall k
        ensures InQueue(queue, k) <==> t.id == k || InQueue(queue[1..], k)
      {
        if i :| 0 <= i < |queue[1..]| && queue[1..][i].id == k {
          assert queue[i + 1].id == k;
        }
        if i :| 0 <= i < |queue| && queue[i].id == k && i > 0 {
          assert queue[1..][i - 1].id == k;
        }
      }
    }
  }

  /** A task the pass leaves in the map was there before or comes from the queue, unchanged but for its status. */
  lemma {:induction false} PromotedValue(queue: seq<Task>, gpus: Pool, m: Running, k: string)
    requires k in Promoted(queue, gpus, m)
    ensures (k in m && Promoted(queue, gpus, m)[k] == m[k])
         || exists i :: 0 <= i < |queue| && queue[i].id == k
                        && Promoted(queue, gpus, m)[k] == queue[i].(status := Status.Running)
    decreases |queue|
  {
    if queue == [] {
    } else {
      var t := queue[0];
      var m' := if Fits(gpus, DEFAULT_VRAM) then m[t.id := t.(status := Status.Running)] else m;
      PromotedValue(queue[1..], gpus, m', k);
      if !(k in m' && Promoted(queue, gpus, m)[k] == m'[k]) {
        var i :| 0 <= i < |queue[1..]| && queue[1..][i].id == k
                 && Promoted(queue, gpus, m)[k] == queue[1..][i].(status := Status.Running);
        assert queue[i + 1] == queue[1..][i];
      }
    }
  }

  /** A promotion pass adds the whole queue to the totals, without a charge. */
  lemma {:induction false} PromotedTotals(q: Measure, g: string, queue: seq<Task>, gpus: Pool, m: Running)
    requires Disjoint(queue, m) && Fits(gpus, DEFAULT_VRAM)
    ensures Total(q, g, Promoted(queue, gpus, m)) == Total(q, g, m) + QueueTotal(q, g, queue)
    decreases |queue|
  {
    if queue == [] {
    } else {
      var t := queue[0];
      var m' := m[t.id := t.(status := Status.Running)];
      TotalPut(q, g, m, t.id, m'[t.id]);
      PromotedTotals(q, g, queue[1..], gpus, m');
    }
  }

  lemma {:induction false} QueueTotalSign(q: Measure, g: string, queue: seq<Task>)
    requires q != Raw
    ensures QueueTotal(q, g, queue) >= 0
    ensures QueueTotal(q, g, queue) == 0 <==> forall i | 0 <= i < |queue| :: Host(queue[i]) != g
  {
    if queue == [] {
    } else {
      QueueTotalSign(q, g, queue[1..]);
      assert forall i | 0 < i < |queue| :: queue[i] == queue[1..][i - 1];
    }
  }

  lemma DrainedGapExact(q: Measure, s: State, g: string)
    requires Separate(s) && g in s.gpus
    ensures Gap(q, Drained(s), g)
         == Gap(q, s, g) - if Fits(s.gpus, DEFAULT_VRAM) then QueueTotal(q, g, s.pending) else 0
  {
    DrainAllOrNone(s.pending, s.gpus, s.running);
    if Fits(s.gpus, DEFAULT_VRAM) {
      PromotedTotals(q, g, s.pending, s.gpus, s.running);
    }
  }

  /** The drain pass books nothing: each gap falls, unless nothing hosted there was promoted. */
  lemma DrainedGap(q: Measure, s: State, g: string)
    requires Separate(s) && g in s.gpus && q != Raw
    ensures Gap(q, Drained(s), g) <= Gap(q, s, g)
    ensures Gap(q, Drained(s), g) == Gap(q, s, g) <==>
              !Fits(s.gpus, DEFAULT_VRAM) || forall i | 0 <= i < |s.pending| :: Host(s.pending[i]) != g
  {
    DrainedGapExact(q, s, g);
    QueueTotalSign(q, g, s.pending);
  }

  /** In any state, what a release and its drain do to the surplus of a GPU. */
  lemma FinishGap(q: Measure, s: State, id: string, g: string)
    requires Separate(s) && id in s.running && g in s.gpus && q != Raw
    ensures Gap(q, AfterFinish(s, id), g) == Gap(q, s, g) + ExcessOn(q, s, id, g) - Arrivals(q, s, id, g)
  {
    RetiredGap(q, s, id, g);
    DrainedGapExact(q, Retired(s, id), g);
  }

  /** In any state a release keeps the ledger exactly if what it leaves booked too much is what its drain adds. Where
      the books cover the running tasks that means a size that is not negative and nothing promoted onto a known GPU. */
  lemma FinishLedgerIff(s: State, id: string)
    requires Separate(s)
    ensures LedgerKept(s, AfterFinish(s, id)) <==> FinishBalances(s, id)
    ensures Backed(s) ==> (FinishBalances(s, id) <==> CleanRelease(s, id) && CleanDrain(s, id))
  {
    if id in s.running {
      forall q, g | g in s.gpus && q != Raw
        ensures Gap(q, AfterFinish(s, id), g) == Gap(q, s, g) + ExcessOn(q, s, id, g) - Arrivals(q, s, id, g)
      {
        FinishGap(q, s, id, g);
      }
      if Backed(s) {
        BackedFinishBalancesIff(s, id);
      }
    }
  }

  lemma BackedFinishBalancesIff(s: State, id: string)
    requires Backed(s) && id in s.running
    ensures FinishBalances(s, id) <==> CleanRelease(s, id) && CleanDrain(s, id)
  {
    var t := s.running[id];
    if Hosted(s, t) {
      BackedExcess(s, id);
    }
    forall q, g | q != Raw
      ensures Arrivals(q, s, id, g) >= 0
      ensures Arrivals(q, s, id, g) == 0 <==>
                !Fits(Freed(s.gpus, t), DEFAULT_VRAM) || forall i | 0 <= i < |s.pending| :: Host(s.pending[i]) != g
    {
      QueueTotalSign(q, g, s.pending);
    }
    if !CleanDrain(s, id) {
      var i :| 0 <= i < |s.pending| && Hosted(s, s.pending[i]);
      var g := Host(s.pending[i]);
      assert ExcessOn(Count, s, id, g) != Arrivals(Count, s, id, g);
    } else if !CleanRelease(s, id) {
      assert ExcessOn(Mem, s, id, Host(t)) != Arrivals(Mem, s, id, Host(t));
    }
  }

  // Steps and runs

  /** In any state one step keeps the exact ledger if and only if it balances; where the books cover the running tasks
      that is, if and only if it is clean. */
  lemma StepLedgerIff(s: State, e: Event)
    requires Enabled(s, e) && Separate(s)
    ensures LedgerKept(s, Next(s, e)) <==> Balances(s, e)
    ensures Backed(s) ==> (Balances(s, e) <==> Clean(s, e))
  {
    match e
    case Submit(task, order, winner, started) =>
      SubmitLedgerIff(s, task, order, winner, started);
    case Finish(id) =>
      FinishLedgerIff(s, id);
    case Monitor(id, usedMB, util, count) =>
      if id in s.gpus {
        var s' := Next(s, e);
        assert Gap(Mem, s', id) - Gap(Mem, s, id) == usedMB - s.gpus[id].usedMB;
        assert Gap(Count, s', id) - Gap(Count, s, id) == count - s.gpus[id].running;
      }
    case _ =>
  }

  lemma WithoutFirstIsPart(queue: seq<Task>, id: string) returns (i: nat)
    ensures i <= |queue|
    ensures WithoutFirst(queue, id) == if i < |queue| then queue[..i] + queue[i + 1..] else queue
    ensures if i < |queue| then queue[i].id == id else !InQueue(queue, id)
  {
    i := 0;
    while i < |queue| && queue[i].id != id
      invariant i <= |queue| && forall j | 0 <= j < i :: queue[j].id != id
    {
      i := i + 1;
    }
    WithoutFirstAt(queue, id, i);
  }

  lemma {:induction false} WithoutFirstMembers(queue: seq<Task>, id: string)
    ensures forall t | t in WithoutFirst(queue, id) :: t in queue
    ensures forall t | t in queue && t.id != id :: t in WithoutFirst(queue, id)
  {
    if queue == [] || queue[0].id == id {
    } else {
      WithoutFirstMembers(queue[1..], id);
    }
  }

  /** Fresh submissions keep task IDs unique. */
  lemma StaysSeparate(s: State, e: Event)
    requires Enabled(s, e) && Separate(s) && Fresh(s, e)
    ensures Separate(Next(s, e))
  {
    match e
    case Submit(task, order, winner, started) =>
      var t := Admitted(s, task);
      MakeRoomFrame(Counted(s, task), t, Charge(task), order);
      SettledStaysSeparate(MadeRoom(s, task, order).st, t, winner, started);
    case Finish(id) =>
      if id in s.running {
        var r := Retired(s, id);
        DrainAllOrNone(r.pending, r.gpus, r.running);
      }
    case Cancel(id) =>
      CancelStaysSeparate(s, id);
    case _ =>
  }

  lemma SettledStaysSeparate(s: State, t: Task, winner: Option<string>, started: bool)
    requires Separate(s) && t.id !in s.running && !InQueue(s.pending, t.id)
    requires winner.Some? ==> winner.value in s.gpus
    ensures Separate(Settled(s, t, winner, started))
  {
  }

  lemma RemovalKeepsDisjoint(queue: seq<Task>, i: nat, m: Running)
    requires i < |queue| && Disjoint(queue, m)
    ensures Disjoint(queue[..i] + queue[i + 1..], m)
  {
    var rest := queue[..i] + queue[i + 1..];
    assert forall j | 0 <= j < |rest| :: rest[j] == queue[if j < i then j else j + 1];
  }

  lemma CancelStaysSeparate(s: State, id: string)
    requires Separate(s)
    ensures Separate(s.(pending := WithoutFirst(s.pending, id)))
  {
    var i := WithoutFirstIsPart(s.pending, id);
    if i < |s.pending| {
      RemovalKeepsDisjoint(s.pending, i, s.running);
    }
  }

  /** A 4096 MB task on GPU "0" of the scheduler as it starts, and a task that fits nowhere, queued with a request for
      one GPU. */
  lemma OneRunsOneWaits(r: Task, t: Task)
    requires r == Task("", OtherKind, 5, 0, 4096, Pending) && t == Task("", OtherKind, 5, 1, 30000, Pending)
    ensures var e1, e2 := Submit(r, [], Some("0"), true), Submit(t, [], None, false);
            && Enabled(INITIAL, e1) && Enabled(Next(INITIAL, e1), e2)
            && var s := Next(Next(INITIAL, e1), e2);
               && s.gpus == INITIAL.gpus["0" := GpuRecord("0", Nvidia, 16384, 4096, 0.0, 1)]
               && s.running == map["task-1" := Task("task-1", OtherKind, 5, 0, 4096, Status.Running)]
               && s.pending == [Task("task-2", OtherKind, 5, 1, 30000, Pending)]
               && s == INITIAL.(gpus := s.gpus, running := s.running, pending := s.pending, counter := 2)
  {
    FirstNames();
    FirstOnNvidia(Submit(r, [], Some("0"), true));
    var s1 := Next(INITIAL, Submit(r, [], Some("0"), true));
    assert Admitted(s1, t) == Task("task-2", OtherKind, 5, 1, 30000, Pending);
    QueuedAtOnce(s1, t, false);
  }

  /** A run from the start that breaks the ledger: when the only running task ends, the queued one is promoted without a
      charge, and from then on GPU "1" has booked one task less than name it. */
  lemma PromotionBreaksTheLedger(r: Task, t: Task, es: seq<Event>)
    requires r == Task("", OtherKind, 5, 0, 4096, Pending) && t == Task("", OtherKind, 5, 1, 30000, Pending)
    requires es == [Submit(r, [], Some("0"), true), Submit(t, [], None, false), Finish("task-1")]
    ensures Legal(INITIAL, es) && "1" in Run(INITIAL, es).gpus
    ensures Gap(Count, INITIAL, "1") == 0 && Gap(Count, Run(INITIAL, es), "1") == -1
  {
    OneRunsOneWaits(r, t);
    RunOfThree(INITIAL, es[0], es[1], es[2]);
    var s := Next(Next(INITIAL, es[0]), es[1]);
    TaskOneEnds(s);
    var m := Run(INITIAL, es).running;
    TotalWithout(Count, "1", m, "task-2");
    assert m - {"task-2"} == map[];
  }

  lemma TaskOneEnds(s: State)
    requires s.gpus == INITIAL.gpus["0" := GpuRecord("0", Nvidia, 16384, 4096, 0.0, 1)]
    requires s.running == map["task-1" := Task("task-1", OtherKind, 5, 0, 4096, Status.Running)]
    requires s.pending == [Task("task-2", OtherKind, 5, 1, 30000, Pending)]
    ensures var s' := Next(s, Finish("task-1"));
            && s'.running == map["task-2" := s.pending[0].(status := Status.Running)]
            && "1" in s'.gpus && s'.gpus["1"].running == 0 && Host(s'.running["task-2"]) == "1"
  {
    FirstNames();
    var r := Retired(s, "task-1");
    assert r.running == map[];
    assert Eligible(r.gpus["1"], DEFAULT_VRAM) && Fits(r.gpus, DEFAULT_VRAM);
    var m := r.running["task-2" := s.pending[0].(status := Status.Running)];
    assert Promoted(s.pending, r.gpus, r.running) == Promoted([], r.gpus, m);
  }

  predicate CleanRun(s: State, es: seq<Event>)
    decreases |es|
  {
    es == [] ||
    (Enabled(s, es[0]) && Fresh(s, es[0]) && Clean(s, es[0]) && CleanRun(Next(s, es[0]), es[1..]))
  }

  /** The exact ledger over every clean run of submissions, releases, cancellations and preemptions. */
  lemma {:induction false} ExactLedger(s: State, es: seq<Event>)
    requires Backed(s) && Separate(s) && CleanRun(s, es)
    ensures Legal(s, es) && LedgerKept(s, Run(s, es)) && Backed(Run(s, es)) && Separate(Run(s, es))
    decreases |es|
  {
    if es == [] {
    } else {
      StepLedgerIff(s, es[0]);
      StaysSeparate(s, es[0]);
      ExactLedger(Next(s, es[0]), es[1..]);
    }
  }

  /** From an idle scheduler: each counter is its initial value plus the running tasks placed on the GPU. */
  lemma BookedIsInitialPlusRunning(s: State, es: seq<Event>, g: string)
    requires s.running == map[] && s.pending == [] && g in s.gpus
    requires forall k | k in s.gpus :: s.gpus[k].usedMB >= 0 && s.gpus[k].running >= 0
    requires CleanRun(s, es)
    ensures Legal(s, es) && g in Run(s, es).gpus
    ensures Run(s, es).gpus[g].usedMB == s.gpus[g].usedMB + Total(Mem, g, Run(s, es).running)
    ensures Run(s, es).gpus[g].running == s.gpus[g].running + Total(Count, g, Run(s, es).running)
  {
    assert Backed(s);
    ExactLedger(s, es);
    var s' := Run(s, es);
    assert Gap(Mem, s', g) == Gap(Mem, s, g) && Gap(Count, s', g) == Gap(Count, s, g);
  }
}
