/**
  The scheduler as a state machine. Every mutex-protected method is one event; an event carries the choices the program
  leaves open: the order in which equal-priority victims are tried, which of several best GPUs wins, whether the
  process starts.
*/
module Machine {
  import opened Wrappers
  import opened Decimal
  import opened Types
  import opened Selection
  import opened Totals

  datatype State = State(
    pending: seq<Task>, running: Running, completed: seq<Task>, gpuCount: Pos, gpus: Pool, policy: Policy,
    counter: nat, config: Config, history: seq<Record>)

  datatype Event =
    | Submit(task: Task, order: seq<string>, winner: Option<string>, started: bool)
    | Finish(id: string)
    | Cancel(id: string)
    | Monitor(id: string, usedMB: int, util: real, count: int)
    | SetPolicy(policy: Policy)
    | SetConfig(config: Config)

  predicate WellKeyed(s: State) {
    Keyed(s.gpus) && forall k | k in s.running :: s.running[k].id == k
  }

  // Admission

  function TaskName(n: nat): string {
    "task-" + Itoa(n)
  }

  /** The ID came from the counter. */
  predicate Issued(s: State, id: string) {
    exists n: nat :: 1 <= n <= s.counter && id == TaskName(n)
  }

  lemma TaskNameInjective(m: nat, n: nat)
    requires TaskName(m) == TaskName(n)
    ensures m == n
  {
    assert Digits(m) == TaskName(m)[5..] && Digits(n) == TaskName(n)[5..];
    ValueOfDigits(m);
    ValueOfDigits(n);
  }

  lemma NextNameIsNew(s: State)
    ensures !Issued(s, TaskName(s.counter + 1))
  {
    if n: nat :| 1 <= n <= s.counter && TaskName(s.counter + 1) == TaskName(n) {
      TaskNameInjective(n, s.counter + 1);
    }
  }

  lemma StaysIssued(s: State, s': State, id: string)
    requires Issued(s, id) && s.counter <= s'.counter
    ensures Issued(s', id)
  {
    var n: nat :| 1 <= n <= s.counter && id == TaskName(n);
    assert n <= s'.counter;
  }

  function Counted(s: State, task: Task): State {
    if task.id == "" then s.(counter := s.counter + 1) else s
  }

  function Admitted(s: State, task: Task): Task {
    task.(id := if task.id == "" then TaskName(s.counter + 1) else task.id, status := Pending)
  }

  function Wanted(s: State, t: Task): Criteria {
    Criteria(Charge(t), Unset, t.kind, t.priority, s.policy)
  }

  // Preemption

  predicate MayPreempt(s: State, t: Task, victim: Task) {
    victim.priority <= s.config.maxVictimPriority && t.priority - victim.priority >= 2
  }

  function Victims(s: State, t: Task): set<string> {
    set k | k in s.running && MayPreempt(s, t, s.running[k])
  }

  predicate Triggers(s: State, t: Task) {
    s.config.enabled && t.priority >= s.config.minPriority && Victims(s, t) != {}
  }

  predicate Distinct(ids: seq<string>) {
    forall i, j | 0 <= i < j < |ids| :: ids[i] != ids[j]
  }

  predicate Among(ids: seq<string>, m: Running) {
    Distinct(ids) && forall i | 0 <= i < |ids| :: ids[i] in m
  }

  /** One of the orders in which the sorted victims may come: ascending priority, ties in any order. */
  predicate KillOrder(s: State, t: Task, order: seq<string>) {
    && Among(order, s.running)
    && (set k | k in order) == Victims(s, t)
    && forall i, j | 0 <= i < j < |order| :: s.running[order[i]].priority <= s.running[order[j]].priority
  }

  function KillFreed(gpus: Pool, v: Task): Pool {
    if Host(v) in gpus then
      var g := gpus[Host(v)];
      gpus[Host(v) := g.(running := g.running - 1, usedMB := g.usedMB - KillRefund(v))]
    else gpus
  }

  function KillOne(s: State, t: Task, k: string): State
    requires k in s.running
  {
    var v := s.running[k];
    s.(gpus := KillFreed(s.gpus, v),
       running := s.running - {k},
       history := s.history + [Record(t, v.(status := Killed), Host(v))])
  }

  /** Killing exactly these tasks, in this order. */
  function KilledAll(s: State, t: Task, ids: seq<string>): State
    requires Among(ids, s.running)
    decreases |ids|
  {
    if ids == [] then s else KilledAll(KillOne(s, t, ids[0]), t, ids[1..])
  }

  datatype Outcome = Outcome(st: State, killed: nat, room: bool)

  /** The loop of `tryPreempt` over the sorted victims. */
  function KillLoop(s: State, t: Task, need: int, order: seq<string>): (o: Outcome)
    requires Among(order, s.running)
    ensures o.killed <= |order|
    decreases |order|
  {
    if order == [] then Outcome(s, 0, false)
    else
      match s.config.policy
      case Kill =>
        var s' := KillOne(s, t, order[0]);
        if HasRoom(s'.gpus, need) then Outcome(s', 1, true)
        else
          var o := KillLoop(s', t, need, order[1..]);
          o.(killed := o.killed + 1)
      case Wait => KillLoop(s, t, need, order[1..])
      case Checkpoint =>
        if HasRoom(s.gpus, need) then Outcome(s, 0, true) else KillLoop(s, t, need, order[1..])
  }

  /** Preemption runs only after a failed attempt and only when the task may preempt somebody. */
  predicate LegalOrder(s: State, t: Task, need: int, order: seq<string>) {
    if Fits(s.gpus, need) || !Triggers(s, t) then order == [] else KillOrder(s, t, order)
  }

  function MakeRoom(s: State, t: Task, need: int, order: seq<string>): (o: Outcome)
    requires Among(order, s.running)
    ensures o.killed <= |order|
  {
    if Fits(s.gpus, need) then Outcome(s, 0, true) else KillLoop(s, t, need, order)
  }

  /** Whatever the policy, the loop kills a prefix of the order and does nothing else. */
  lemma {:induction false} KillLoopIsPrefix(s: State, t: Task, need: int, order: seq<string>)
    requires Among(order, s.running)
    ensures var o := KillLoop(s, t, need, order);
            o.st == KilledAll(s, t, order[..o.killed]) && (o.killed > 0 ==> s.config.policy == Kill)
    decreases |order|
  {
    var o := KillLoop(s, t, need, order);
    if order == [] {
    } else {
      if s.config.policy == Kill {
        var s' := KillOne(s, t, order[0]);
        KillLoopIsPrefix(s', t, need, order[1..]);
        assert order[..o.killed][0] == order[0] && order[..o.killed][1..] == order[1..][..o.killed - 1];
      } else {
        KillLoopIsPrefix(s, t, need, order[1..]);
        assert order[..o.killed] == order[1..][..o.killed];
      }
    }
  }

  lemma {:induction false} KilledAllFrame(s: State, t: Task, ids: seq<string>)
    requires Among(ids, s.running)
    ensures var s' := KilledAll(s, t, ids);
            && s'.gpus.Keys == s.gpus.Keys
            && s'.running == s.running - (set k | k in ids)
            && s' == s.(gpus := s'.gpus, running := s'.running, history := s'.history)
    decreases |ids|
  {
    if ids == [] {
    } else {
      KilledAllFrame(KillOne(s, t, ids[0]), t, ids[1..]);
      assert (set k | k in ids) == {ids[0]} + (set k | k in ids[1..]);
    }
  }

  // Placement

  function ParsedHost(w: string, gpuReq: Int64): Int64 {
    Atoi(w).GetOr(gpuReq)
  }

  function Placed(s: State, t: Task, w: string, started: bool): State
    requires w in s.gpus
  {
    var g := s.gpus[w];
    var t' := t.(gpuReq := ParsedHost(w, t.gpuReq), status := if started then Status.Running else Failed);
    s.(running := s.running[t.id := t'],
       gpus := s.gpus[w := g.(usedMB := g.usedMB + Charge(t), running := g.running + 1)])
  }

  function Settled(s: State, t: Task, winner: Option<string>, started: bool): State
    requires winner.Some? ==> winner.value in s.gpus
  {
    match winner
    case Some(w) => Placed(s, t, w, started)
    case None => s.(pending := s.pending + [t])
  }

  /** The room a submission finds or makes, after its ID was issued. */
  function MadeRoom(s: State, task: Task, order: seq<string>): Outcome
    requires Among(order, s.running)
  {
    MakeRoom(Counted(s, task), Admitted(s, task), Charge(task), order)
  }

  /** The victims a submission kills. */
  function KilledBy(s: State, task: Task, order: seq<string>): seq<string>
    requires Among(order, s.running)
  {
    order[..MadeRoom(s, task, order).killed]
  }

  /** The choices of a submission name running victims and a GPU. */
  predicate SubmitShape(s: State, task: Task, order: seq<string>, winner: Option<string>) {
    Among(order, s.running) && (winner.Some? ==> winner.value in MadeRoom(s, task, order).st.gpus)
  }

  predicate SubmitEnabled(s: State, task: Task, order: seq<string>, winner: Option<string>) {
    var t := Admitted(s, task);
    var c := Wanted(s, t);
    && SubmitShape(s, task, order, winner)
    && LegalOrder(Counted(s, task), t, c.need, order)
    && var o := MadeRoom(s, task, order);
       if o.room && Fits(o.st.gpus, c.need)
       then winner.Some? && IsWinner(o.st.gpus, c, s.gpuCount, winner.value)
       else winner.None?
  }

  function AfterSubmit(s: State, task: Task, order: seq<string>, winner: Option<string>, started: bool): State
    requires SubmitShape(s, task, order, winner)
  {
    Settled(MadeRoom(s, task, order).st, Admitted(s, task), winner, started)
  }

  // Release

  function NonNegative(n: int): int {
    if n < 0 then 0 else n
  }

  function Freed(gpus: Pool, t: Task): Pool {
    if Host(t) in gpus then
      var g := gpus[Host(t)];
      gpus[Host(t) := g.(usedMB := NonNegative(g.usedMB - ReleaseRefund(t)), running := NonNegative(g.running - 1))]
    else gpus
  }

  function Window(done: seq<Task>): seq<Task> {
    if |done| > WINDOW then done[|done| - WINDOW..] else done
  }

  /** What the drain pass leaves queued. Each turn asks for the default size, whatever the task's own size. */
  function StillPending(queue: seq<Task>, gpus: Pool): seq<Task> {
    if queue == [] then []
    else if Fits(gpus, DEFAULT_VRAM) then StillPending(queue[1..], gpus)
    else [queue[0]] + StillPending(queue[1..], gpus)
  }

  /** What the drain pass marks as running. Nothing is charged and no GPU is recorded. */
  function Promoted(queue: seq<Task>, gpus: Pool, running: Running): Running {
    if queue == [] then running
    else if Fits(gpus, DEFAULT_VRAM) then
      Promoted(queue[1..], gpus, running[queue[0].id := queue[0].(status := Status.Running)])
    else Promoted(queue[1..], gpus, running)
  }

  function Drained(s: State): State {
    s.(pending := StillPending(s.pending, s.gpus), running := Promoted(s.pending, s.gpus, s.running))
  }

  function Retired(s: State, id: string): State
    requires id in s.running
  {
    s.(gpus := Freed(s.gpus, s.running[id]),
       running := s.running - {id},
       completed := Window(s.completed + [s.running[id]]))
  }

  function AfterFinish(s: State, id: string): State {
    if id in s.running then Drained(Retired(s, id)) else s
  }

  // The other steps

  function WithoutFirst(queue: seq<Task>, id: string): seq<Task> {
    if queue == [] then []
    else if queue[0].id == id then queue[1..]
    else [queue[0]] + WithoutFirst(queue[1..], id)
  }

  function AfterMonitor(s: State, id: string, usedMB: int, util: real, count: int): State {
    if id in s.gpus
    then s.(gpus := s.gpus[id := s.gpus[id].(usedMB := usedMB, util := util, running := count)])
    else s
  }

  // Runs

  predicate Enabled(s: State, e: Event) {
    e.Submit? ==> SubmitEnabled(s, e.task, e.order, e.winner)
  }

  function Next(s: State, e: Event): State
    requires Enabled(s, e)
  {
    match e
    case Submit(task, order, winner, started) => AfterSubmit(s, task, order, winner, started)
    case Finish(id) => AfterFinish(s, id)
    case Cancel(id) => s.(pending := WithoutFirst(s.pending, id))
    case Monitor(id, usedMB, util, count) => AfterMonitor(s, id, usedMB, util, count)
    case SetPolicy(policy) => s.(policy := policy)
    case SetConfig(config) => s.(config := config)
  }

  predicate Legal(s: State, es: seq<Event>)
    decreases |es|
  {
    es == [] || (Enabled(s, es[0]) && Legal(Next(s, es[0]), es[1..]))
  }

  function Run(s: State, es: seq<Event>): State
    requires Legal(s, es)
    decreases |es|
  {
    if es == [] then s else Run(Next(s, es[0]), es[1..])
  }

  lemma RunOfOne(s: State, a: Event)
    requires Enabled(s, a)
    ensures Legal(s, [a]) && Run(s, [a]) == Next(s, a)
  {
    var s' := Next(s, a);
    assert [a][1..] == [];
    assert Legal(s', []) && Run(s', []) == s';
  }

  lemma RunOfTwo(s: State, a: Event, b: Event)
    requires Enabled(s, a) && Enabled(Next(s, a), b)
    ensures Legal(s, [a, b]) && Run(s, [a, b]) == Next(Next(s, a), b)
  {
    RunOfOne(Next(s, a), b);
    assert [a, b][1..] == [b];
  }

  lemma RunOfThree(s: State, a: Event, b: Event, c: Event)
    requires Enabled(s, a) && Enabled(Next(s, a), b) && Enabled(Next(Next(s, a), b), c)
    ensures Legal(s, [a, b, c]) && Run(s, [a, b, c]) == Next(Next(Next(s, a), b), c)
  {
    RunOfTwo(Next(s, a), b, c);
    assert [a, b, c][1..] == [b, c];
  }

  // Framing

  /** Removing the first match is removing one index; without a match nothing changes. */
  lemma {:induction false} WithoutFirstAt(queue: seq<Task>, id: string, i: nat)
    requires i <= |queue| && forall j | 0 <= j < i :: queue[j].id != id
    ensures i < |queue| && queue[i].id == id ==> WithoutFirst(queue, id) == queue[..i] + queue[i + 1..]
    ensures i == |queue| ==> WithoutFirst(queue, id) == queue
  {
    if i == 0 {
    } else {
      WithoutFirstAt(queue[1..], id, i - 1);
      assert queue == [queue[0]] + queue[1..];
      if i < |queue| {
        assert queue[..i] == [queue[0]] + queue[1..][..i - 1];
        assert queue[i + 1..] == queue[1..][i..];
      }
    }
  }

  lemma {:induction false} KilledAllStaysKeyed(s: State, t: Task, ids: seq<string>)
    requires WellKeyed(s) && Among(ids, s.running)
    ensures WellKeyed(KilledAll(s, t, ids))
    decreases |ids|
  {
    if ids == [] {
    } else {
      KilledAllStaysKeyed(KillOne(s, t, ids[0]), t, ids[1..]);
    }
  }

  /** Everything a caller needs to know about making room: some victims were killed, or nothing happened. */
  lemma MakeRoomFrame(s: State, t: Task, need: int, order: seq<string>)
    requires Among(order, s.running)
    ensures var o := MakeRoom(s, t, need, order);
            && o.st == KilledAll(s, t, order[..o.killed])
            && o.st.gpus.Keys == s.gpus.Keys
            && o.st.running == s.running - (set k | k in order[..o.killed])
            && o.st == s.(gpus := o.st.gpus, running := o.st.running, history := o.st.history)
            && (WellKeyed(s) ==> WellKeyed(o.st))
  {
    var o := MakeRoom(s, t, need, order);
    KillLoopIsPrefix(s, t, need, order);
    assert order[..0] == [];
    KilledAllFrame(s, t, order[..o.killed]);
    if WellKeyed(s) {
      KilledAllStaysKeyed(s, t, order[..o.killed]);
    }
  }

  lemma {:induction false} PromotedStaysKeyed(queue: seq<Task>, gpus: Pool, running: Running)
    requires forall k | k in running :: running[k].id == k
    ensures forall k | k in Promoted(queue, gpus, running) :: Promoted(queue, gpus, running)[k].id == k
    decreases |queue|
  {
    if queue == [] {
    } else {
      PromotedStaysKeyed(queue[1..], gpus, running);
      PromotedStaysKeyed(queue[1..], gpus, running[queue[0].id := queue[0].(status := Status.Running)]);
    }
  }

  /** Map keys stay the IDs of what they hold. */
  lemma StaysKeyed(s: State, e: Event)
    requires WellKeyed(s) && Enabled(s, e)
    ensures WellKeyed(Next(s, e))
  {
    match e
    case Submit(task, order, winner, started) =>
      MakeRoomFrame(Counted(s, task), Admitted(s, task), Charge(task), order);
    case Finish(id) =>
      if id in s.running {
        var r := Retired(s, id);
        PromotedStaysKeyed(r.pending, r.gpus, r.running);
      }
    case _ =>
  }

  /** The state `NewScheduler` builds. */
  const INITIAL := State(
    [], map[], [], 2,
    map["0" := GpuRecord("0", Nvidia, 16384, 0, 0.0, 0), "1" := GpuRecord("1", Amd, 24576, 0, 0.0, 0)],
    Binpack, 0, Config(true, 7, 5, Kill), [])
}
