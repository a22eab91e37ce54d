/** Where every accepted task is: a journal kept beside the scheduler, and what no run can change about it. */
module Conservation {
  import opened Wrappers
  import opened Types
  import opened Selection
  import opened Totals
  import opened Machine
  import opened Ledger
  import opened Preemption

  /** Accepted IDs with their priorities, finished tasks in finish order, cancelled tasks. */
  datatype Journal = Journal(accepted: map<string, int>, finished: seq<Task>, cancelled: seq<Task>)

  function Noted(j: Journal, s: State, e: Event): Journal {
    match e
    case Submit(task, _, _, _) =>
      var t := Admitted(s, task);
      j.(accepted := j.accepted[t.id := t.priority])
    case Finish(id) => if id in s.running then j.(finished := j.finished + [s.running[id]]) else j
    case Cancel(id) => j.(cancelled := j.cancelled + FirstWith(s.pending, id))
    case _ => j
  }

  function FirstWith(queue: seq<Task>, id: string): seq<Task> {
    if queue == [] then [] else if queue[0].id == id then [queue[0]] else FirstWith(queue[1..], id)
  }

  function Times(ts: seq<Task>, id: string): nat {
    if ts == [] then 0 else (if ts[0].id == id then 1 else 0) + Times(ts[1..], id)
  }

  function TimesKilled(history: seq<Record>, id: string): nat {
    if history == [] then 0
    else TimesKilled(history[..|history| - 1], id) + if history[|history| - 1].victim.id == id then 1 else 0
  }

  function TimesRunning(s: State, id: string): nat {
    if id in s.running then 1 else 0
  }

  /** How often the scheduler itself knows an ID. */
  function Held(s: State, id: string): nat {
    Times(s.pending, id) + TimesRunning(s, id) + TimesKilled(s.history, id)
  }

  /** In how many places a task is. */
  function Places(j: Journal, s: State, id: string): nat {
    Held(s, id) + Times(j.finished, id) + Times(j.cancelled, id)
  }

  predicate InOnePlace(j: Journal, s: State, id: string) {
    Places(j, s, id) == if id in j.accepted then 1 else 0
  }

  /** Every accepted task is pending, running, finished, cancelled or preempted, in exactly one of them. */
  ghost predicate Accounted(j: Journal, s: State) {
    forall id: string :: InOnePlace(j, s, id)
  }

  lemma {:induction false} TimesOf(a: seq<Task>, b: seq<Task>, id: string)
    ensures Times(a + b, id) == Times(a, id) + Times(b, id)
  {
    if a == [] {
      assert a + b == b;
    } else {
      assert (a + b)[0] == a[0] && (a + b)[1..] == a[1..] + b;
      TimesOf(a[1..], b, id);
    }
  }

  lemma {:induction false} TimesOnce(ts: seq<Task>, i: nat)
    requires i < |ts|
    ensures Times(ts, ts[i].id) >= 1
  {
    if i == 0 {
    } else {
      TimesOnce(ts[1..], i - 1);
    }
  }

  lemma {:induction false} TimesTwice(ts: seq<Task>, i: nat, k: nat)
    requires i < k < |ts| && ts[i].id == ts[k].id
    ensures Times(ts, ts[i].id) >= 2
  {
    if i == 0 {
      TimesOnce(ts[1..], k - 1);
    } else {
      TimesTwice(ts[1..], i - 1, k - 1);
    }
  }

  /** As the books name each task once, a queued or running task is never mistaken for another. */
  lemma AccountedIsSeparate(j: Journal, s: State)
    requires Accounted(j, s)
    ensures Separate(s)
    ensures forall k | k in s.running :: k in j.accepted
    ensures forall i | 0 <= i < |s.pending| :: s.pending[i].id in j.accepted
  {
    forall i | 0 <= i < |s.pending|
      ensures s.pending[i].id in j.accepted && s.pending[i].id !in s.running
    {
      TimesOnce(s.pending, i);
      assert InOnePlace(j, s, s.pending[i].id);
    }
    forall i, k | 0 <= i < k < |s.pending|
      ensures s.pending[i].id != s.pending[k].id
    {
      assert InOnePlace(j, s, s.pending[i].id);
      if s.pending[i].id == s.pending[k].id {
        TimesTwice(s.pending, i, k);
      }
    }
    forall k | k in s.running
      ensures k in j.accepted
    {
      assert InOnePlace(j, s, k);
    }
  }

  /** The task may be told from every task accepted before. */
  predicate Unused(j: Journal, s: State, e: Event) {
    e.Submit? ==> Admitted(s, e.task).id !in j.accepted
  }

  // Each step keeps the books

  lemma {:induction false} KilledAllHeld(s: State, t: Task, ids: seq<string>, id: string)
    requires Among(ids, s.running) && WellKeyed(s)
    ensures Held(KilledAll(s, t, ids), id) == Held(s, id)
    decreases |ids|
  {
    if ids == [] {
    } else {
      var s' := KillOne(s, t, ids[0]);
      assert s'.history[..|s.history|] == s.history;
      KilledAllHeld(s', t, ids[1..], id);
    }
  }

  lemma SettledHeld(s: State, t: Task, winner: Option<string>, started: bool, id: string)
    requires t.id !in s.running && (winner.Some? ==> winner.value in s.gpus)
    ensures Held(Settled(s, t, winner, started), id) == Held(s, id) + if id == t.id then 1 else 0
  {
    TimesOf(s.pending, [t], id);
  }

  lemma SubmitHeld(s: State, e: Event, id: string)
    requires WellKeyed(s) && e.Submit? && Enabled(s, e) && Admitted(s, e.task).id !in s.running
    ensures Held(Next(s, e), id) == Held(s, id) + if id == Admitted(s, e.task).id then 1 else 0
  {
    var t := Admitted(s, e.task);
    var s1 := Counted(s, e.task);
    MakeRoomFrame(s1, t, Charge(t), e.order);
    KilledAllHeld(s1, t, KilledBy(s, e.task, e.order), id);
    SettledHeld(MadeRoom(s, e.task, e.order).st, t, e.winner, e.started, id);
  }

  lemma {:induction false} PromotedRunning(queue: seq<Task>, gpus: Pool, m: Running, id: string)
    requires Disjoint(queue, m) && Fits(gpus, DEFAULT_VRAM)
    ensures (if id in Promoted(queue, gpus, m) then 1 else 0) == (if id in m then 1 else 0) + Times(queue, id)
    decreases |queue|
  {
    if queue == [] {
    } else {
      var t := queue[0];
      PromotedRunning(queue[1..], gpus, m[t.id := t.(status := Status.Running)], id);
    }
  }

  lemma DrainedHeld(s: State, id: string)
    requires Separate(s)
    ensures Held(Drained(s), id) == Held(s, id)
  {
    DrainAllOrNone(s.pending, s.gpus, s.running);
    if Fits(s.gpus, DEFAULT_VRAM) {
      PromotedRunning(s.pending, s.gpus, s.running, id);
    }
  }

  lemma FinishPlaces(j: Journal, s: State, e: Event, id: string)
    requires e.Finish? && WellKeyed(s) && Separate(s)
    ensures Places(Noted(j, s, e), Next(s, e), id) == Places(j, s, id)
  {
    if e.id in s.running {
      TimesOf(j.finished, [s.running[e.id]], id);
      DrainedHeld(Retired(s, e.id), id);
    }
  }

  lemma {:induction false} CancelTimes(queue: seq<Task>, cancelled: string, id: string)
    ensures Times(WithoutFirst(queue, cancelled), id) + Times(FirstWith(queue, cancelled), id) == Times(queue, id)
  {
    if queue == [] || queue[0].id == cancelled {
    } else {
      CancelTimes(queue[1..], cancelled, id);
      assert WithoutFirst(queue, cancelled)[1..] == WithoutFirst(queue[1..], cancelled);
    }
  }

  lemma StepAccounted(j: Journal, s: State, e: Event)
    requires Accounted(j, s) && WellKeyed(s) && Enabled(s, e) && Unused(j, s, e)
    ensures Accounted(Noted(j, s, e), Next(s, e))
  {
    AccountedIsSeparate(j, s);
    forall id: string
      ensures InOnePlace(Noted(j, s, e), Next(s, e), id)
    {
      assert InOnePlace(j, s, id);
      match e
      case Submit(_, _, _, _) => SubmitHeld(s, e, id);
      case Finish(_) => FinishPlaces(j, s, e, id);
      case Cancel(cancelled) =>
        CancelTimes(s.pending, cancelled, id);
        TimesOf(j.cancelled, FirstWith(s.pending, cancelled), id);
      case _ =>
    }
  }

  /** The completed list is the last 100 of all finished tasks, in finish order. */
  lemma WindowSlides(done: seq<Task>, t: Task)
    ensures Window(Window(done) + [t]) == Window(done + [t])
  {
  }

  lemma StepWindow(j: Journal, s: State, e: Event)
    requires Enabled(s, e) && s.completed == Window(j.finished)
    ensures Next(s, e).completed == Window(Noted(j, s, e).finished)
  {
    match e
    case Submit(task, order, _, _) => MakeRoomFrame(Counted(s, task), Admitted(s, task), Charge(task), order);
    case Finish(id) =>
      if id in s.running {
        WindowSlides(j.finished, s.running[id]);
      }
    case _ =>
  }

  ghost predicate Kept(j: Journal, s: State) {
    WellKeyed(s) && Accounted(j, s) && s.completed == Window(j.finished)
  }

  predicate UnusedRun(j: Journal, s: State, es: seq<Event>)
    decreases |es|
  {
    es == [] ||
    (Enabled(s, es[0]) && Unused(j, s, es[0]) && UnusedRun(Noted(j, s, es[0]), Next(s, es[0]), es[1..]))
  }

  function NotedRun(j: Journal, s: State, es: seq<Event>): Journal
    requires UnusedRun(j, s, es)
    decreases |es|
  {
    if es == [] then j else NotedRun(Noted(j, s, es[0]), Next(s, es[0]), es[1..])
  }

  const BLANK := Journal(map[], [], [])

  /** Conservation over every run: no step loses a task, duplicates one, or reorders the completed window. */
  lemma {:induction false} KeptEver(j: Journal, s: State, es: seq<Event>)
    requires Kept(j, s) && UnusedRun(j, s, es)
    ensures Legal(s, es) && Kept(NotedRun(j, s, es), Run(s, es))
    decreases |es|
  {
    if es == [] {
    } else {
      StaysKeyed(s, es[0]);
      StepAccounted(j, s, es[0]);
      StepWindow(j, s, es[0]);
      KeptEver(Noted(j, s, es[0]), Next(s, es[0]), es[1..]);
    }
  }

  /** From the start, each accepted task is in exactly one place and is given back by at most one release or kill. */
  lemma OnePlaceEach(es: seq<Event>, id: string)
    requires UnusedRun(BLANK, INITIAL, es)
    ensures Legal(INITIAL, es)
    ensures var j, s := NotedRun(BLANK, INITIAL, es), Run(INITIAL, es);
            && Times(s.pending, id) + TimesRunning(s, id) + Times(j.finished, id) + Times(j.cancelled, id)
               + TimesKilled(s.history, id) == (if id in j.accepted then 1 else 0)
            && Times(j.finished, id) + TimesKilled(s.history, id) <= 1
            && s.completed == Window(j.finished)
  {
    assert forall k: string :: InOnePlace(BLANK, INITIAL, k);
    KeptEver(BLANK, INITIAL, es);
    assert InOnePlace(NotedRun(BLANK, INITIAL, es), Run(INITIAL, es), id);
  }

  /** No submission brings an ID of its own, as none through the API does. */
  predicate AllCounted(es: seq<Event>) {
    forall i | 0 <= i < |es| :: es[i].Submit? ==> es[i].task.id == ""
  }

  lemma CounterOnlyGrows(s: State, e: Event)
    requires Enabled(s, e)
    ensures Next(s, e).counter == s.counter + if e.Submit? && e.task.id == "" then 1 else 0
  {
    if e.Submit? {
      MakeRoomFrame(Counted(s, e.task), Admitted(s, e.task), Charge(e.task), e.order);
    }
  }

  predicate AllIssued(j: Journal, s: State) {
    forall id | id in j.accepted :: Issued(s, id)
  }

  lemma StepAllIssued(j: Journal, s: State, e: Event)
    requires AllIssued(j, s) && Enabled(s, e) && (e.Submit? ==> e.task.id == "")
    ensures Unused(j, s, e) && AllIssued(Noted(j, s, e), Next(s, e))
  {
    CounterOnlyGrows(s, e);
    NextNameIsNew(s);
    forall id | id in Noted(j, s, e).accepted
      ensures Issued(Next(s, e), id)
    {
      if id in j.accepted {
        StaysIssued(s, Next(s, e), id);
      } else {
        assert id == TaskName(Next(s, e).counter);
      }
    }
  }

  /** IDs from the counter are never used twice, not even after their tasks have finished, or were cancelled or
      preempted. */
  lemma {:induction false} CountedIdsAreUnused(j: Journal, s: State, es: seq<Event>)
    requires AllIssued(j, s) && Legal(s, es) && AllCounted(es)
    ensures UnusedRun(j, s, es)
    decreases |es|
  {
    if es == [] {
    } else {
      StepAllIssued(j, s, es[0]);
      CountedIdsAreUnused(Noted(j, s, es[0]), Next(s, es[0]), es[1..]);
    }
  }

  // Chains of preemptions

  predicate Known(j: Journal, t: Task) {
    t.id in j.accepted && j.accepted[t.id] == t.priority
  }

  /** Every task the scheduler knows carries the priority it was accepted with. */
  predicate Faithful(j: Journal, s: State) {
    && (forall k | k in s.running :: Known(j, s.running[k]))
    && (forall i | 0 <= i < |s.pending| :: Known(j, s.pending[i]))
    && (forall i | 0 <= i < |s.history| :: Known(j, s.history[i].preemptor) && Known(j, s.history[i].victim))
  }

  lemma {:induction false} KilledAllFaithful(j: Journal, s: State, t: Task, ids: seq<string>)
    requires Among(ids, s.running) && Faithful(j, s) && Known(j, t)
    ensures Faithful(j, KilledAll(s, t, ids))
    decreases |ids|
  {
    if ids == [] {
    } else {
      KilledAllFaithful(j, KillOne(s, t, ids[0]), t, ids[1..]);
    }
  }

  lemma NotedKeepsKnown(j: Journal, s: State, e: Event)
    requires Faithful(j, s) && Unused(j, s, e)
    ensures Faithful(Noted(j, s, e), s)
    ensures e.Submit? ==> Known(Noted(j, s, e), Admitted(s, e.task))
  {
  }

  lemma SettledFaithful(j: Journal, s: State, t: Task, winner: Option<string>, started: bool)
    requires Faithful(j, s) && Known(j, t) && (winner.Some? ==> winner.value in s.gpus)
    ensures Faithful(j, Settled(s, t, winner, started))
  {
  }

  lemma FinishFaithful(j: Journal, s: State, id: string)
    requires Faithful(j, s)
    ensures Faithful(j, AfterFinish(s, id))
  {
    if id in s.running {
      var r := Retired(s, id);
      DrainAllOrNone(r.pending, r.gpus, r.running);
      forall k | k in Drained(r).running
        ensures Known(j, Drained(r).running[k])
      {
        PromotedValue(r.pending, r.gpus, r.running, k);
      }
    }
  }

  lemma StepFaithful(j: Journal, s: State, e: Event)
    requires Faithful(j, s) && Enabled(s, e) && Unused(j, s, e)
    ensures Faithful(Noted(j, s, e), Next(s, e))
  {
    NotedKeepsKnown(j, s, e);
    var j' := Noted(j, s, e);
    match e
    case Submit(task, order, winner, started) =>
      var t := Admitted(s, task);
      var s1 := Counted(s, task);
      MakeRoomFrame(s1, t, Charge(t), order);
      KilledAllFaithful(j', s1, t, KilledBy(s, task, order));
      SettledFaithful(j', MadeRoom(s, task, order).st, t, winner, started);
    case Finish(id) => FinishFaithful(j', s, id);
    case Cancel(id) => var i := WithoutFirstIsPart(s.pending, id);
    case _ =>
  }

  lemma {:induction false} FaithfulEver(j: Journal, s: State, es: seq<Event>)
    requires Faithful(j, s) && UnusedRun(j, s, es)
    ensures Legal(s, es) && Faithful(NotedRun(j, s, es), Run(s, es))
    decreases |es|
  {
    if es == [] {
    } else {
      StepFaithful(j, s, es[0]);
      FaithfulEver(Noted(j, s, es[0]), Next(s, es[0]), es[1..]);
    }
  }

  /** Records in which each preemptor is the next victim. */
  predicate Chain(c: seq<Record>, history: seq<Record>) {
    && (forall i | 0 <= i < |c| :: c[i] in history)
    && (forall i | 0 <= i < |c| - 1 :: c[i].preemptor.id == c[i + 1].victim.id)
  }

  lemma {:induction false} ChainClimbs(j: Journal, s: State, c: seq<Record>)
    requires Faithful(j, s) && Outranked(s.history) && Chain(c, s.history) && c != []
    ensures Known(j, c[0].victim) && Known(j, c[|c| - 1].preemptor)
    ensures c[|c| - 1].preemptor.priority >= c[0].victim.priority + 2 * |c|
    decreases |c|
  {
    var last := |c| - 1;
    assert c[last] in s.history;
    var i :| 0 <= i < |s.history| && s.history[i] == c[last];
    assert Outranks(s.history[i]);
    if last > 0 {
      var shorter := c[..last];
      assert forall k | 0 <= k < |shorter| :: shorter[k] == c[k];
      ChainClimbs(j, s, shorter);
      assert c[last - 1].preemptor.id == c[last].victim.id;
    }
  }

  /** Over every run and every change of configuration, "was preempted by" has no cycle, and with priorities from 1 to
      10 no chain is longer than 4. */
  lemma PreemptionChainsEnd(es: seq<Event>, c: seq<Record>)
    requires UnusedRun(BLANK, INITIAL, es) && Legal(INITIAL, es) && Chain(c, Run(INITIAL, es).history) && c != []
    ensures c[|c| - 1].preemptor.id != c[0].victim.id
    ensures (forall id | id in NotedRun(BLANK, INITIAL, es).accepted ::
               1 <= NotedRun(BLANK, INITIAL, es).accepted[id] <= 10) ==> |c| <= 4
  {
    FaithfulEver(BLANK, INITIAL, es);
    RunHistory(INITIAL, es);
    ChainClimbs(NotedRun(BLANK, INITIAL, es), Run(INITIAL, es), c);
  }

  // The documented thresholds

  predicate WithinThresholds(history: seq<Record>, config: Config) {
    forall i | 0 <= i < |history| ::
      history[i].preemptor.priority >= config.minPriority && history[i].victim.priority <= config.maxVictimPriority
  }

  lemma {:induction false} KilledAllThresholds(s: State, t: Task, ids: seq<string>, config: Config)
    requires Among(ids, s.running) && WithinThresholds(s.history, config)
    requires ids != [] ==> t.priority >= config.minPriority
    requires forall i | 0 <= i < |ids| :: s.running[ids[i]].priority <= config.maxVictimPriority
    ensures WithinThresholds(KilledAll(s, t, ids).history, config)
    decreases |ids|
  {
    if ids == [] {
    } else {
      KilledAllThresholds(KillOne(s, t, ids[0]), t, ids[1..], config);
    }
  }

  lemma StepThresholds(s: State, e: Event)
    requires Enabled(s, e) && !e.SetConfig? && WithinThresholds(s.history, s.config)
    ensures Next(s, e).config == s.config && WithinThresholds(Next(s, e).history, s.config)
  {
    if e.Submit? {
      var t := Admitted(s, e.task);
      var s1 := Counted(s, e.task);
      var ids := KilledBy(s, e.task, e.order);
      MakeRoomFrame(s1, t, Charge(t), e.order);
      forall i | 0 <= i < |ids|
        ensures s.running[ids[i]].priority <= s.config.maxVictimPriority
      {
        assert ids[i] == e.order[i] && ids[i] in Victims(s1, t);
      }
      KilledAllThresholds(s1, t, ids, s.config);
    }
  }

  lemma {:induction false} ThresholdsEver(s: State, es: seq<Event>)
    requires Legal(s, es) && WithinThresholds(s.history, s.config)
    requires forall i | 0 <= i < |es| :: !es[i].SetConfig?
    ensures Run(s, es).config == s.config && WithinThresholds(Run(s, es).history, s.config)
    decreases |es|
  {
    if es == [] {
    } else {
      StepThresholds(s, es[0]);
      ThresholdsEver(Next(s, es[0]), es[1..]);
    }
  }

  /** Under the settings the scheduler starts with, only tasks of priority 7 or more preempt, only tasks of priority 5
      or less are preempted, and so no preemptor is ever preempted. */
  lemma DefaultPreemptorsAreSafe(es: seq<Event>)
    requires UnusedRun(BLANK, INITIAL, es) && Legal(INITIAL, es) && forall i | 0 <= i < |es| :: !es[i].SetConfig?
    ensures forall r | r in Run(INITIAL, es).history :: r.preemptor.priority >= 7 && r.victim.priority <= 5
    ensures forall a, b | a in Run(INITIAL, es).history && b in Run(INITIAL, es).history ::
              a.preemptor.id != b.victim.id
  {
    ThresholdsEver(INITIAL, es);
    FaithfulEver(BLANK, INITIAL, es);
    var j, h := NotedRun(BLANK, INITIAL, es), Run(INITIAL, es).history;
    forall a, b | a in h && b in h
      ensures a.preemptor.id != b.victim.id
    {
      var i :| 0 <= i < |h| && h[i] == a;
      var k :| 0 <= k < |h| && h[k] == b;
      assert Known(j, h[i].preemptor) && Known(j, h[k].victim);
    }
  }
}
