/** Whether the memory of every live process is booked: what the running map does not tell. */
module Coverage {
  import opened Wrappers
  import opened Decimal
  import opened Types
  import opened Selection
  import opened Totals
  import opened Machine
  import opened FirstSteps
  import opened Ledger
  import opened Preemption
  import opened Leaks
  import opened Execution
  import opened System

  function LiveIds(x: Exec): set<string> {
    set id | id in x.monitors && Live(x, id)
  }

  /** What the tasks with a live process on a GPU were charged. */
  ghost function LiveTotal(y: Sys, g: string): int {
    Total(Mem, g, Only(y.sched.running, LiveIds(y.exec)))
  }

  /** Every live process is known, and every GPU has booked at least what its live tasks were charged. */
  ghost predicate Covered(y: Sys) {
    LiveKnown(y) && forall g | g in y.sched.gpus :: LiveTotal(y, g) <= y.sched.gpus[g].usedMB
  }

  // The exact step condition

  function IdsOf(ids: seq<string>): set<string> {
    set k | k in ids
  }

  /** The raw refunds of the victims leave enough for the live tasks that survive and the one that starts. */
  ghost predicate SubmitCovers(y: Sys, task: Task, order: seq<string>, winner: Option<string>, started: bool, g: string)
    requires SubmitShape(y.sched, task, order, winner) && g in y.sched.gpus
  {
    var s := y.sched;
    var killed := IdsOf(KilledBy(s, task, order));
    Total(Mem, g, Only(s.running, LiveIds(y.exec) - killed))
    + (if winner.Some? && started && Itoa(ParsedHost(winner.value, task.gpuReq)) == g then Charge(task) else 0)
    <= s.gpus[g].usedMB - Total(Raw, g, Only(s.running, killed)) + (if winner == Some(g) then Charge(task) else 0)
  }

  /** The refund leaves enough for the other live tasks of the GPU. */
  ghost predicate ReleaseCovers(y: Sys, id: string) {
    id in y.sched.running && Hosted(y.sched, y.sched.running[id]) ==>
      var t := y.sched.running[id];
      Total(Mem, Host(t), Only(y.sched.running, LiveIds(y.exec) - {id}))
      <= NonNegative(y.sched.gpus[Host(t)].usedMB - ReleaseRefund(t))
  }

  ghost predicate StillCovers(y: Sys, a: SysEvent)
    requires SysEnabled(y, a)
  {
    match a
    case Act(Submit(task, order, winner, started), _) =>
      forall g | g in y.sched.gpus :: SubmitCovers(y, task, order, winner, started, g)
    case Act(Finish(id), _) => ReleaseCovers(y, id)
    case Act(Monitor(id, usedMB, _, _), _) => id in y.sched.gpus ==> LiveTotal(y, id) <= usedMB
    case Exits(id, _) => ReleaseCovers(y, id)
    case _ => true
  }

  lemma FewerLiveTasks(g: string, m: Running, few: set<string>, many: set<string>)
    requires few <= many <= m.Keys
    ensures Total(Mem, g, Only(m, few)) <= Total(Mem, g, Only(m, many))
  {
    TotalSplit(Mem, g, Only(m, many), few);
    assert Only(Only(m, many), few) == Only(m, few);
    TotalNonNegative(Mem, g, Only(m, many) - few);
  }

  lemma FinishKeepsTask(s: State, finished: string, k: string)
    requires Separate(s) && k in s.running && k != finished
    ensures k in AfterFinish(s, finished).running && AfterFinish(s, finished).running[k] == s.running[k]
  {
    if finished in s.running {
      var r := Retired(s, finished);
      DrainAllOrNone(r.pending, r.gpus, r.running);
      PromotedValue(r.pending, r.gpus, r.running, k);
    }
  }

  lemma LiveTasksAfterFinish(s: State, live: set<string>, id: string)
    requires Separate(s) && live <= s.running.Keys
    ensures Only(AfterFinish(s, id).running, live - {id}) == Only(s.running, live - {id})
  {
    forall k | k in live - {id}
      ensures k in AfterFinish(s, id).running && AfterFinish(s, id).running[k] == s.running[k]
    {
      FinishKeepsTask(s, id, k);
    }
  }

  lemma UsedAfterFinish(s: State, id: string, g: string)
    requires g in s.gpus
    ensures g in AfterFinish(s, id).gpus
    ensures AfterFinish(s, id).gpus[g].usedMB
         == if id in s.running && Host(s.running[id]) == g
            then NonNegative(s.gpus[g].usedMB - ReleaseRefund(s.running[id])) else s.gpus[g].usedMB
  {
  }

  /** The end of a task that leaves the live processes other than its own alone. */
  lemma FinishCoveredIff(y: Sys, y': Sys, id: string)
    requires Covered(y) && Separate(y.sched) && y'.sched == AfterFinish(y.sched, id)
    requires LiveIds(y'.exec) == LiveIds(y.exec) - {id} && LiveKnown(y')
    ensures Covered(y') <==> ReleaseCovers(y, id)
  {
    var s, live := y.sched, LiveIds(y.exec);
    assert LiveIds(y.exec) <= y.sched.running.Keys;
    LiveTasksAfterFinish(s, live, id);
    forall g | g in s.gpus
      ensures g in y'.sched.gpus
      ensures LiveTotal(y', g) == Total(Mem, g, Only(s.running, live - {id})) <= LiveTotal(y, g)
      ensures y'.sched.gpus[g].usedMB
           == if id in s.running && Host(s.running[id]) == g
              then NonNegative(s.gpus[g].usedMB - ReleaseRefund(s.running[id])) else s.gpus[g].usedMB
    {
      UsedAfterFinish(s, id, g);
      FewerLiveTasks(g, s.running, live - {id}, live);
    }
    assert AfterFinish(s, id).gpus.Keys == s.gpus.Keys;
  }

  // Submissions

  lemma LiveIdsAfterSubmit(y: Sys, a: SysEvent)
    requires LiveKnown(y) && SysEnabled(y, a) && a.Act? && a.e.Submit? && Fresh(y.sched, a.e)
    requires LiveKnown(SysNext(y, a))
    ensures LiveIds(SysNext(y, a).exec)
         == LiveIds(y.exec) - IdsOf(KilledBy(y.sched, a.e.task, a.e.order))
            + if a.e.started then {Admitted(y.sched, a.e.task).id} else {}
  {
    var y', t := SysNext(y, a), Admitted(y.sched, a.e.task);
    forall k
      ensures k in LiveIds(y'.exec) <==>
                (k in LiveIds(y.exec) && k !in KilledBy(y.sched, a.e.task, a.e.order)) || (a.e.started && k == t.id)
    {
      SubmitLive(y, a, k);
    }
  }

  lemma RunningAfterSubmit(s: State, task: Task, order: seq<string>, winner: Option<string>, started: bool)
    requires SubmitShape(s, task, order, winner)
    ensures var s', t, rest := AfterSubmit(s, task, order, winner, started), Admitted(s, task),
                               s.running - IdsOf(KilledBy(s, task, order));
            if winner.Some? then t.id in s'.running && s'.running == rest[t.id := s'.running[t.id]]
            else s'.running == rest
  {
    MakeRoomFrame(Counted(s, task), Admitted(s, task), Charge(task), order);
  }

  lemma OnlyAfterPut(m: Running, live: set<string>, killed: set<string>, id: string, t: Task)
    requires live <= m.Keys && id !in m
    ensures Only((m - killed)[id := t], live - killed + {id}) == Only(m, live - killed)[id := t]
    ensures Only((m - killed)[id := t], live - killed) == Only(m, live - killed) == Only(m - killed, live - killed)
  {
  }

  lemma LiveTasksAfterSubmit(y: Sys, a: SysEvent)
    requires LiveKnown(y) && SysEnabled(y, a) && a.Act? && a.e.Submit? && Fresh(y.sched, a.e)
    requires LiveKnown(SysNext(y, a))
    ensures var y', t := SysNext(y, a), Admitted(y.sched, a.e.task);
            var killed := IdsOf(KilledBy(y.sched, a.e.task, a.e.order));
            var rest := Only(y.sched.running, LiveIds(y.exec) - killed);
            && t.id !in rest
            && (a.e.started ==> a.e.winner.Some? && t.id in y'.sched.running)
            && Only(y'.sched.running, LiveIds(y'.exec))
               == if a.e.started then rest[t.id := y'.sched.running[t.id]] else rest
  {
    var y', t, e := SysNext(y, a), Admitted(y.sched, a.e.task), a.e;
    assert LiveIds(y.exec) <= y.sched.running.Keys;
    LiveIdsAfterSubmit(y, a);
    RunningAfterSubmit(y.sched, e.task, e.order, e.winner, e.started);
    var v := if e.winner.Some? then y'.sched.running[t.id] else t;
    OnlyAfterPut(y.sched.running, LiveIds(y.exec), IdsOf(KilledBy(y.sched, e.task, e.order)), t.id, v);
  }

  lemma UsedAfterSubmit(s: State, task: Task, order: seq<string>, winner: Option<string>, started: bool, g: string)
    requires SubmitShape(s, task, order, winner) && g in s.gpus
    ensures var s' := AfterSubmit(s, task, order, winner, started);
            && s'.gpus.Keys == s.gpus.Keys
            && s'.gpus[g].usedMB
               == s.gpus[g].usedMB - Total(Raw, g, Only(s.running, IdsOf(KilledBy(s, task, order))))
                  + if winner == Some(g) then Charge(task) else 0
  {
    var t, s1 := Admitted(s, task), Counted(s, task);
    MakeRoomFrame(s1, t, Charge(t), order);
    FreeAfterKills(s1, t, KilledBy(s, task, order), g);
    KilledAllHardware(s1, t, KilledBy(s, task, order), g);
  }

  lemma StartedHost(s: State, task: Task, order: seq<string>, w: string, started: bool)
    requires SubmitShape(s, task, order, Some(w))
    ensures var s', t := AfterSubmit(s, task, order, Some(w), started), Admitted(s, task);
            && t.id in s'.running && Host(s'.running[t.id]) == Itoa(ParsedHost(w, task.gpuReq))
            && Charge(s'.running[t.id]) == Charge(task)
  {
  }

  lemma LiveTotalAfterSubmit(y: Sys, a: SysEvent, g: string)
    requires LiveKnown(y) && SysEnabled(y, a) && a.Act? && a.e.Submit? && Fresh(y.sched, a.e)
    requires LiveKnown(SysNext(y, a))
    ensures LiveTotal(SysNext(y, a), g)
         == Total(Mem, g, Only(y.sched.running, LiveIds(y.exec) - IdsOf(KilledBy(y.sched, a.e.task, a.e.order))))
            + if a.e.winner.Some? && a.e.started && Itoa(ParsedHost(a.e.winner.value, a.e.task.gpuReq)) == g
              then Charge(a.e.task) else 0
  {
    var y', t := SysNext(y, a), Admitted(y.sched, a.e.task);
    var rest := Only(y.sched.running, LiveIds(y.exec) - IdsOf(KilledBy(y.sched, a.e.task, a.e.order)));
    LiveTasksAfterSubmit(y, a);
    if a.e.started {
      StartedHost(y.sched, a.e.task, a.e.order, a.e.winner.value, a.e.started);
      TotalPut(Mem, g, rest, t.id, y'.sched.running[t.id]);
    }
  }

  lemma SubmitCoveredIff(y: Sys, a: SysEvent)
    requires Covered(y) && SysEnabled(y, a) && a.Act? && a.e.Submit? && Fresh(y.sched, a.e)
    requires LiveKnown(SysNext(y, a))
    ensures Covered(SysNext(y, a)) <==> StillCovers(y, a)
  {
    var y', s, e := SysNext(y, a), y.sched, a.e;
    MakeRoomFrame(Counted(s, e.task), Admitted(s, e.task), Charge(e.task), e.order);
    forall g | g in s.gpus
      ensures g in y'.sched.gpus
      ensures LiveTotal(y', g) <= y'.sched.gpus[g].usedMB <==>
                SubmitCovers(y, e.task, e.order, e.winner, e.started, g)
    {
      UsedAfterSubmit(s, e.task, e.order, e.winner, e.started, g);
      LiveTotalAfterSubmit(y, a, g);
    }
  }

  // Every step

  lemma StopCovers(y: Sys, id: string, killOk: bool)
    requires Covered(y)
    ensures Covered(SysNext(y, Stop(id, killOk)))
  {
    var y' := SysNext(y, Stop(id, killOk));
    assert LiveIds(y.exec) <= y.sched.running.Keys;
    forall g | g in y.sched.gpus
      ensures LiveTotal(y', g) <= LiveTotal(y, g)
    {
      FewerLiveTasks(g, y.sched.running, LiveIds(y'.exec), LiveIds(y.exec));
    }
  }

  lemma EndCoveredIff(y: Sys, a: SysEvent)
    requires Covered(y) && Separate(y.sched) && SysEnabled(y, a) && LiveKnown(SysNext(y, a))
    requires a.Exits? || (a.Act? && a.e.Finish? && !Live(y.exec, a.e.id))
    ensures Covered(SysNext(y, a)) <==> StillCovers(y, a)
  {
    var id := if a.Exits? then a.id else a.e.id;
    assert LiveIds(SysNext(y, a).exec) == LiveIds(y.exec) - {id};
    FinishCoveredIff(y, SysNext(y, a), id);
  }

  lemma MonitorCoveredIff(y: Sys, a: SysEvent)
    requires Covered(y) && SysEnabled(y, a) && a.Act? && a.e.Monitor? && LiveKnown(SysNext(y, a))
    ensures Covered(SysNext(y, a)) <==> StillCovers(y, a)
  {
    var y' := SysNext(y, a);
    assert forall g :: LiveTotal(y', g) == LiveTotal(y, g);
    assert y'.sched.gpus.Keys == y.sched.gpus.Keys;
    assert forall g | g in y.sched.gpus && g != a.e.id :: y'.sched.gpus[g] == y.sched.gpus[g];
    assert a.e.id in y.sched.gpus ==> y'.sched.gpus[a.e.id].usedMB == a.e.usedMB;
  }

  /** A step keeps the memory of every live process booked exactly if it orphans none, its refunds leave what the other
      live tasks were charged, and no monitor report is below that. */
  lemma StepCoveredIff(y: Sys, a: SysEvent)
    requires Covered(y) && Separate(y.sched) && SysEnabled(y, a) && (a.Act? ==> Fresh(y.sched, a.e))
    ensures Covered(SysNext(y, a)) <==> (forall id | id in y.exec.monitors :: !Orphans(y, a, id)) && StillCovers(y, a)
  {
    StepLiveKnownIff(y, a);
    if LiveKnown(SysNext(y, a)) {
      match a
      case Act(Submit(_, _, _, _), _) => SubmitCoveredIff(y, a);
      case Act(Finish(id), _) =>
        assert !Live(y.exec, id);
        EndCoveredIff(y, a);
      case Act(Monitor(_, _, _, _), _) => MonitorCoveredIff(y, a);
      case Exits(_, _) => EndCoveredIff(y, a);
      case Stop(id, killOk) => StopCovers(y, id, killOk);
      case _ =>
    }
  }

  // Runs

  ghost predicate AllStillCover(y: Sys, acts: seq<SysEvent>)
    decreases |acts|
  {
    acts == [] ||
    (SysEnabled(y, acts[0]) && (acts[0].Act? ==> Fresh(y.sched, acts[0].e)) && StillCovers(y, acts[0])
     && (forall id | id in y.exec.monitors :: !Orphans(y, acts[0], id))
     && AllStillCover(SysNext(y, acts[0]), acts[1..]))
  }

  /** Over every run of such steps the memory of every live process is booked. */
  lemma {:induction false} CoveredEver(y: Sys, acts: seq<SysEvent>)
    requires Covered(y) && Separate(y.sched) && AllStillCover(y, acts)
    ensures SysLegal(y, acts) && Covered(SysRun(y, acts))
    decreases |acts|
  {
    if acts == [] {
    } else {
      StepCoveredIff(y, acts[0]);
      StepStaysSeparate(y, acts[0]);
      CoveredEver(SysNext(y, acts[0]), acts[1..]);
    }
  }

  lemma {:induction false} PlainRunIsInRange(s: State, es: seq<Event>, ids: set<string>)
    requires Legal(s, es) && PlainSubmissions(es, ids)
    ensures InRangeRun(s, es)
    decreases |es|
  {
    if es == [] {
    } else {
      PlainRunIsInRange(Next(s, es[0]), es[1..], ids);
    }
  }

  /** From the start, over every interleaving that orphans nobody and whose submissions all name a positive size and ask
      for a number of GPUs other than 0 and 1: what the live processes of a GPU were charged is booked, and the GPU has
      the memory. */
  lemma LiveCoveredEver(acts: seq<SysEvent>, g: string)
    requires OrphansNobody(BOOT, acts) && PlainSubmissions(Share(acts), {"0", "1"}) && g in INITIAL.gpus
    ensures SysLegal(BOOT, acts)
    ensures var y := SysRun(BOOT, acts);
            g in y.sched.gpus && LiveTotal(y, g) <= y.sched.gpus[g].usedMB <= y.sched.gpus[g].vramMB
  {
    LiveKnownEver(BOOT, acts);
    SystemRefinesScheduler(BOOT, acts);
    PlainTasksKeepTheLedger(Share(acts), g);
    PlainRunIsInRange(INITIAL, Share(acts), {"0", "1"});
    CapacityEver(INITIAL, Share(acts));
    var y := SysRun(BOOT, acts);
    assert LiveIds(y.exec) <= y.sched.running.Keys;
    FewerLiveTasks(g, y.sched.running, LiveIds(y.exec), y.sched.running.Keys);
    assert Only(y.sched.running, y.sched.running.Keys) == y.sched.running;
  }

  // Runs that take a live process off the books

  /** A monitor report may be below what is running. */
  lemma MonitorTakesTheBooks(t: Task, a: SysEvent, b: SysEvent)
    requires t == Task("", OtherKind, 1, 0, 20000, Pending)
    requires a == Act(Event.Submit(t, [], Some("1"), true), {}) && b == Act(Monitor("1", 0, 0.0, 0), {})
    ensures SysLegal(BOOT, [a, b]) && OrphansNobody(BOOT, [a, b])
    ensures var y := SysRun(BOOT, [a, b]);
            && Live(y.exec, "task-1") && LiveTotal(y, "1") == 20000
            && y.sched.gpus == INITIAL.gpus
  {
    FirstTask(t, true);
    var y := SysNext(BOOT, a);
    RunOfTwoActs(BOOT, a, b);
    HostedOnAmd(y.sched.running["task-1"]);
    var live := Only(y.sched.running, LiveIds(y.exec));
    assert LiveIds(y.exec) == {"task-1"};
    TotalWithout(Mem, "1", live, "task-1");
    assert live - {"task-1"} == map[];
    assert SysNext(y, b).sched.gpus["1"] == INITIAL.gpus["1"];
    assert OrphansNobody(y, [b]) by {
      assert [b][1..] == [];
    }
    assert [a, b][1..] == [b];
  }

  /** A run is a first step and the rest. */
  lemma StepThenRun(y: Sys, a: SysEvent, rest: seq<SysEvent>)
    requires SysEnabled(y, a) && (a.Act? ==> Fresh(y.sched, a.e))
    requires forall id | id in y.exec.monitors :: !Orphans(y, a, id)
    requires OrphansNobody(SysNext(y, a), rest) && SysLegal(SysNext(y, a), rest)
    ensures OrphansNobody(y, [a] + rest) && SysLegal(y, [a] + rest)
    ensures SysRun(y, [a] + rest) == SysRun(SysNext(y, a), rest)
  {
    assert ([a] + rest)[1..] == rest;
  }

  predicate LiveOffTheBooks(y: Sys) {
    && Live(y.exec, "task-3") && "task-3" in y.sched.running
    && y.sched.running["task-3"] == Task("task-3", OtherKind, 5, 1, 20000, Status.Running)
    && y.sched.gpus == INITIAL.gpus
  }

  /** A task of 4096 MB runs on GPU "0" and one of 20000 MB on GPU "1"; one of 30000 MB, which asks for one GPU,
      waits. */
  predicate TwoRunOneWaits(y: Sys) {
    && y.sched.gpus.Keys == {"0", "1"} && y.sched.running.Keys == {"task-1", "task-3"}
    && y.sched.gpus["0"] == GpuRecord("0", Nvidia, 16384, 4096, 0.0, 1)
    && y.sched.gpus["1"] == GpuRecord("1", Amd, 24576, 20000, 0.0, 1)
    && y.sched.running["task-1"] == Task("task-1", OtherKind, 5, 0, 4096, Status.Running)
    && y.sched.running["task-3"] == Task("task-3", OtherKind, 5, 1, 20000, Status.Running)
    && y.sched.pending == [Task("task-2", OtherKind, 5, 1, 30000, Pending)]
    && y.exec.monitors == y.exec.running.Keys == {"task-1", "task-3"} && Live(y.exec, "task-3")
  }

  /** The end of the first task promotes the waiting one. */
  predicate PromotedRuns(y: Sys) {
    && y.sched.gpus == INITIAL.gpus["1" := GpuRecord("1", Amd, 24576, 20000, 0.0, 1)] && y.sched.pending == []
    && y.sched.running.Keys == {"task-2", "task-3"}
    && y.sched.running["task-2"] == Task("task-2", OtherKind, 5, 1, 30000, Status.Running)
    && y.sched.running["task-3"] == Task("task-3", OtherKind, 5, 1, 20000, Status.Running)
    && y.exec.running.Keys == {"task-1", "task-3"} && y.exec.monitors == {"task-3"} && Live(y.exec, "task-3")
  }

  lemma FirstEnds(y: Sys, a: SysEvent)
    requires TwoRunOneWaits(y) && a == Exits("task-1", Succeeded(0))
    ensures SysEnabled(y, a) && PromotedRuns(SysNext(y, a))
  {
    FirstNames();
    var s := y.sched;
    var r := Retired(s, "task-1");
    assert Host(s.running["task-1"]) == "0";
    assert r.gpus == INITIAL.gpus["1" := GpuRecord("1", Amd, 24576, 20000, 0.0, 1)];
    assert Eligible(r.gpus["1"], DEFAULT_VRAM);
    DrainAllOrNone(s.pending, r.gpus, r.running);
    var m := r.running["task-2" := s.pending[0].(status := Status.Running)];
    assert Promoted(s.pending, r.gpus, r.running) == Promoted([], r.gpus, m);
  }

  lemma PromotedEnds(y: Sys, a: SysEvent)
    requires PromotedRuns(y) && a == Act(Finish("task-2"), {})
    ensures SysEnabled(y, a) && LiveOffTheBooks(SysNext(y, a))
    ensures forall id | id in y.exec.monitors :: !Orphans(y, a, id)
  {
    HostedOnAmd(y.sched.running["task-2"]);
    var r := Retired(y.sched, "task-2");
    assert r.gpus["1"] == INITIAL.gpus["1"];
    assert Drained(r) == r;
  }

  /** A promoted task has no process and no charge, but its end gives back its size: that takes the memory of the task
      that runs there off the books. */
  lemma PromotedTakesTheBooks(y: Sys, a: SysEvent, b: SysEvent)
    requires TwoRunOneWaits(y) && a == Exits("task-1", Succeeded(0)) && b == Act(Finish("task-2"), {})
    ensures SysLegal(y, [a, b]) && OrphansNobody(y, [a, b]) && LiveOffTheBooks(SysRun(y, [a, b]))
  {
    FirstEnds(y, a);
    var y1 := SysNext(y, a);
    PromotedEnds(y1, b);
    StepThenRun(y1, b, []);
    assert [b] + [] == [b];
    StepThenRun(y, a, [b]);
    assert [a] + [b] == [a, b];
  }

  lemma ThirdOnAmd(s: State, e: Event)
    requires s.gpus == INITIAL.gpus["0" := GpuRecord("0", Nvidia, 16384, 4096, 0.0, 1)]
    requires s.running == map["task-1" := Task("task-1", OtherKind, 5, 0, 4096, Status.Running)]
    requires s.pending == [Task("task-2", OtherKind, 5, 1, 30000, Pending)]
    requires s == INITIAL.(gpus := s.gpus, running := s.running, pending := s.pending, counter := 2)
    requires e == Event.Submit(Task("", OtherKind, 5, 0, 20000, Pending), [], Some("1"), true)
    ensures Admitted(s, e.task) == Task("task-3", OtherKind, 5, 0, 20000, Pending)
    ensures Enabled(s, e)
    ensures Next(s, e) == Placed(Counted(s, e.task), Admitted(s, e.task), "1", true) && ParsedHost("1", 0) == 1
  {
    FirstNames();
    assert Eligible(s.gpus["1"], 20000) && !Eligible(s.gpus["0"], 20000);
    assert IsWinner(s.gpus, Wanted(s, Admitted(s, e.task)), s.gpuCount, "1");
    PlacedAtOnce(s, e, "1");
  }

  lemma StartsWithoutKills(y: Sys, a: SysEvent)
    requires SysEnabled(y, a) && a.Act? && a.e.Submit? && a.e.order == []
    ensures forall id | id in y.exec.monitors :: !Orphans(y, a, id)
    ensures SysNext(y, a).exec
         == if a.e.winner.Some? then Started(y.exec, Admitted(y.sched, a.e.task).id, a.e.winner.value, a.e.started)
            else y.exec
  {
  }

  lemma TwoStepsThenRun(y: Sys, a: SysEvent, b: SysEvent, rest: seq<SysEvent>)
    requires SysEnabled(y, a) && (a.Act? ==> Fresh(y.sched, a.e))
    requires forall id | id in y.exec.monitors :: !Orphans(y, a, id)
    requires var y1 := SysNext(y, a);
             && SysEnabled(y1, b) && (b.Act? ==> Fresh(y1.sched, b.e))
             && (forall id | id in y1.exec.monitors :: !Orphans(y1, b, id))
             && OrphansNobody(SysNext(y1, b), rest) && SysLegal(SysNext(y1, b), rest)
    ensures OrphansNobody(y, [a, b] + rest) && SysLegal(y, [a, b] + rest)
    ensures SysRun(y, [a, b] + rest) == SysRun(SysNext(SysNext(y, a), b), rest)
  {
    var y1 := SysNext(y, a);
    StepThenRun(y1, b, rest);
    StepThenRun(y, a, [b] + rest);
    assert [a] + ([b] + rest) == [a, b] + rest;
  }

  /** Two submissions of the run: the scheduler is as `OneRunsOneWaits` leaves it, and the first task has a process. */
  predicate OneRunsHere(y: Sys) {
    && y.sched.gpus == INITIAL.gpus["0" := GpuRecord("0", Nvidia, 16384, 4096, 0.0, 1)]
    && y.sched.running == map["task-1" := Task("task-1", OtherKind, 5, 0, 4096, Status.Running)]
    && y.sched.pending == [Task("task-2", OtherKind, 5, 1, 30000, Pending)]
    && y.sched == INITIAL.(gpus := y.sched.gpus, running := y.sched.running, pending := y.sched.pending, counter := 2)
    && y.exec.monitors == y.exec.running.Keys == {"task-1"}
  }

  lemma ThirdStarts(y: Sys, c: SysEvent)
    requires OneRunsHere(y)
    requires c == Act(Event.Submit(Task("", OtherKind, 5, 0, 20000, Pending), [], Some("1"), true), {})
    ensures SysEnabled(y, c) && Fresh(y.sched, c.e) && TwoRunOneWaits(SysNext(y, c))
    ensures forall id | id in y.exec.monitors :: !Orphans(y, c, id)
  {
    ThirdOnAmd(y.sched, c.e);
    assert Starts(y.exec, "task-3", true);
    StartsWithoutKills(y, c);
  }

  lemma ThirdStartsThenRun(y: Sys, c: SysEvent, d: SysEvent, e: SysEvent)
    requires OneRunsHere(y)
    requires c == Act(Event.Submit(Task("", OtherKind, 5, 0, 20000, Pending), [], Some("1"), true), {})
    requires d == Exits("task-1", Succeeded(0)) && e == Act(Finish("task-2"), {})
    ensures SysLegal(y, [c, d, e]) && OrphansNobody(y, [c, d, e]) && LiveOffTheBooks(SysRun(y, [c, d, e]))
  {
    ThirdStarts(y, c);
    PromotedTakesTheBooks(SysNext(y, c), d, e);
    StepThenRun(y, c, [d, e]);
    assert [c] + [d, e] == [c, d, e];
  }

  lemma TwoStepsThenThree(y: Sys, a: SysEvent, b: SysEvent, c: SysEvent, d: SysEvent, e: SysEvent)
    requires SysEnabled(y, a) && (a.Act? ==> Fresh(y.sched, a.e))
    requires forall id | id in y.exec.monitors :: !Orphans(y, a, id)
    requires var y1 := SysNext(y, a);
             && SysEnabled(y1, b) && (b.Act? ==> Fresh(y1.sched, b.e)) && OneRunsHere(SysNext(y1, b))
             && (forall id | id in y1.exec.monitors :: !Orphans(y1, b, id))
    requires c == Act(Event.Submit(Task("", OtherKind, 5, 0, 20000, Pending), [], Some("1"), true), {})
    requires d == Exits("task-1", Succeeded(0)) && e == Act(Finish("task-2"), {})
    ensures SysLegal(y, [a, b, c, d, e]) && OrphansNobody(y, [a, b, c, d, e])
    ensures LiveOffTheBooks(SysRun(y, [a, b, c, d, e]))
  {
    ThirdStartsThenRun(SysNext(SysNext(y, a), b), c, d, e);
    TwoStepsThenRun(y, a, b, [c, d, e]);
    assert [a, b] + [c, d, e] == [a, b, c, d, e];
  }

  lemma TwoSubmitted(a: SysEvent, b: SysEvent)
    requires a == Act(Event.Submit(Task("", OtherKind, 5, 0, 4096, Pending), [], Some("0"), true), {})
    requires b == Act(Event.Submit(Task("", OtherKind, 5, 1, 30000, Pending), [], None, false), {})
    ensures SysEnabled(BOOT, a) && Fresh(BOOT.sched, a.e)
    ensures var y := SysNext(BOOT, a);
            && SysEnabled(y, b) && Fresh(y.sched, b.e) && OneRunsHere(SysNext(y, b))
            && (forall id | id in y.exec.monitors :: !Orphans(y, b, id))
  {
    FirstNames();
    OneRunsOneWaits(a.e.task, b.e.task);
    StartsWithoutKills(BOOT, a);
    StartsWithoutKills(SysNext(BOOT, a), b);
    FirstOnNvidia(a.e);
  }

  /** From the start, with positive sizes, no monitor report and nobody orphaned: two tasks run and one waits, the first
      ends, the promoted one is completed, and a live process of 20000 MB is left with nothing booked anywhere. */
  lemma PromotionTakesTheBooks(a: SysEvent, b: SysEvent, c: SysEvent, d: SysEvent, e: SysEvent)
    requires a == Act(Event.Submit(Task("", OtherKind, 5, 0, 4096, Pending), [], Some("0"), true), {})
    requires b == Act(Event.Submit(Task("", OtherKind, 5, 1, 30000, Pending), [], None, false), {})
    requires c == Act(Event.Submit(Task("", OtherKind, 5, 0, 20000, Pending), [], Some("1"), true), {})
    requires d == Exits("task-1", Succeeded(0)) && e == Act(Finish("task-2"), {})
    ensures SysLegal(BOOT, [a, b, c, d, e]) && OrphansNobody(BOOT, [a, b, c, d, e])
    ensures LiveOffTheBooks(SysRun(BOOT, [a, b, c, d, e]))
  {
    TwoSubmitted(a, b);
    TwoStepsThenThree(BOOT, a, b, c, d, e);
  }
}
