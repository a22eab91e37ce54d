/** The scheduler and the executor together: submissions start processes, exits call back, API calls come any time. */
module System {
  import opened Wrappers
  import opened Types
  import opened Machine
  import opened FirstSteps
  import opened Execution
  import opened Scheduling
  import opened Ledger
  import opened Conservation

  datatype Sys = Sys(sched: State, exec: Exec)

  /** A scheduler step (with the processes the operating system lets it kill), a process exit with its callback, or a
      stop request from the API. */
  datatype SysEvent =
    | Act(e: Event, killable: set<string>)
    | Exits(id: string, how: Exit)
    | Stop(id: string, killOk: bool)

  predicate SysEnabled(y: Sys, a: SysEvent) {
    match a
    case Act(e, _) =>
      && Enabled(y.sched, e)
      && (e.Submit? && e.started ==> e.winner.Some? && Starts(y.exec, Admitted(y.sched, e.task).id, true))
    case Exits(id, _) => id in y.exec.monitors
    case Stop(_, _) => true
  }

  function SysNext(y: Sys, a: SysEvent): Sys
    requires SysEnabled(y, a)
  {
    match a
    case Act(e, killable) =>
      Sys(Next(y.sched, e),
          if e.Submit?
          then ExecAfterSubmit(y.sched, y.exec, e.task, e.order, e.winner, e.started, killable)
          else y.exec)
    case Exits(id, how) => Sys(AfterFinish(y.sched, id), Exited(y.exec, id, how))
    case Stop(id, killOk) => Sys(y.sched, Stopped(y.exec, id, killOk))
  }

  predicate SysLegal(y: Sys, acts: seq<SysEvent>)
    decreases |acts|
  {
    acts == [] || (SysEnabled(y, acts[0]) && SysLegal(SysNext(y, acts[0]), acts[1..]))
  }

  function SysRun(y: Sys, acts: seq<SysEvent>): Sys
    requires SysLegal(y, acts)
    decreases |acts|
  {
    if acts == [] then y else SysRun(SysNext(y, acts[0]), acts[1..])
  }

  /** Submitting through the class is one system step. */
  method Submit(sched: Scheduler, task: Task, canStart: bool, killable: set<string>)
    returns (id: string, ghost a: SysEvent)
    requires WellKeyed(sched.View())
    modifies sched, sched.exec
    ensures SysEnabled(old(Sys(sched.View(), sched.exec.View())), a)
    ensures Sys(sched.View(), sched.exec.View()) == SysNext(old(Sys(sched.View(), sched.exec.View())), a)
    ensures WellKeyed(sched.View())
  {
    ghost var e: Event;
    id, e := sched.SubmitTask(task, canStart, killable);
    a := Act(e, killable);
  }

  /** The end of a process: the executor's locked tail, then the callback into the scheduler. */
  method HandleExit(sched: Scheduler, id: string, how: Exit)
    requires WellKeyed(sched.View()) && id in sched.exec.monitors
    modifies sched, sched.exec
    ensures Sys(sched.View(), sched.exec.View()) == SysNext(old(Sys(sched.View(), sched.exec.View())), Exits(id, how))
    ensures EndedAs(old(sched.exec.running), sched.exec.running, id, how)
    ensures id in old(sched.running) ==>
              sched.completed != [] && sched.completed[|sched.completed| - 1] == old(sched.running)[id]
    ensures WellKeyed(sched.View())
  {
    sched.exec.MonitorTask(id, how);
    sched.ReleaseTask(id);
  }

  // The scheduler's share of a run

  function Share(acts: seq<SysEvent>): seq<Event>
    decreases |acts|
  {
    if acts == [] then []
    else
      (match acts[0]
       case Act(e, _) => [e]
       case Exits(id, _) => [Finish(id)]
       case Stop(_, _) => []) + Share(acts[1..])
  }

  /** Every system run is a scheduler run, so every scheduler theorem holds of the system. */
  lemma {:induction false} SystemRefinesScheduler(y: Sys, acts: seq<SysEvent>)
    requires SysLegal(y, acts)
    ensures Legal(y.sched, Share(acts)) && Run(y.sched, Share(acts)) == SysRun(y, acts).sched
    decreases |acts|
  {
    if acts == [] {
    } else {
      var rest := Share(acts[1..]);
      SystemRefinesScheduler(SysNext(y, acts[0]), acts[1..]);
      match acts[0]
      case Act(e, _) => assert ([e] + rest)[1..] == rest;
      case Exits(id, _) => assert ([Finish(id)] + rest)[1..] == rest;
      case Stop(_, _) => assert [] + rest == rest;
    }
  }

  // Starts and callbacks

  function StartsOf(y: Sys, acts: seq<SysEvent>, id: string): nat
    requires SysLegal(y, acts)
    decreases |acts|
  {
    if acts == [] then 0
    else
      var a := acts[0];
      (if a.Act? && a.e.Submit? && a.e.started && Admitted(y.sched, a.e.task).id == id then 1 else 0)
      + StartsOf(SysNext(y, a), acts[1..], id)
  }

  function CallbacksOf(acts: seq<SysEvent>, id: string): nat
    decreases |acts|
  {
    if acts == [] then 0
    else (if acts[0].Exits? && acts[0].id == id then 1 else 0) + CallbacksOf(acts[1..], id)
  }

  function Once(b: bool): nat {
    if b then 1 else 0
  }

  lemma SysStepCounts(y: Sys, a: SysEvent, id: string)
    requires SysEnabled(y, a) && Sound(y.exec)
    ensures Sound(SysNext(y, a).exec)
    ensures var y' := SysNext(y, a);
            var starts := Once(a.Act? && a.e.Submit? && a.e.started && Admitted(y.sched, a.e.task).id == id);
            && Once(id in y'.exec.running) == Once(id in y.exec.running) + starts
            && Once(id in y'.exec.monitors) + Once(a.Exits? && a.id == id) == Once(id in y.exec.monitors) + starts
  {
  }

  /** Per task ID, starts are what the running map gains, and callbacks are the starts that are not awaited any more. */
  lemma {:induction false} StartsAndCallbacks(y: Sys, acts: seq<SysEvent>, id: string)
    requires SysLegal(y, acts) && Sound(y.exec)
    ensures StartsOf(y, acts, id) + Once(id in y.exec.running) == Once(id in SysRun(y, acts).exec.running)
    ensures CallbacksOf(acts, id) + Once(id in SysRun(y, acts).exec.monitors)
         == StartsOf(y, acts, id) + Once(id in y.exec.monitors)
    decreases |acts|
  {
    if acts == [] {
    } else {
      SysStepCounts(y, acts[0], id);
      StartsAndCallbacks(SysNext(y, acts[0]), acts[1..], id);
    }
  }

  const BOOT := Sys(INITIAL, Exec(map[], {}))

  /** Over all interleavings of submissions, exits, API completions, stops and preemptions: at most one process per
      task, at most one callback per process, and the task's charge goes back at most once. */
  lemma ReleasedAtMostOnce(acts: seq<SysEvent>, id: string)
    requires SysLegal(BOOT, acts) && UnusedRun(BLANK, INITIAL, Share(acts))
    ensures CallbacksOf(acts, id) <= StartsOf(BOOT, acts, id) <= 1
    ensures Times(NotedRun(BLANK, INITIAL, Share(acts)).finished, id)
            + TimesKilled(SysRun(BOOT, acts).sched.history, id) <= 1
  {
    StartsAndCallbacks(BOOT, acts, id);
    SystemRefinesScheduler(BOOT, acts);
    OnePlaceEach(Share(acts), id);
  }

  /** Through the API, which leaves the IDs to the counter, there is no condition on the run. */
  lemma ApiReleasesAtMostOnce(acts: seq<SysEvent>, id: string)
    requires SysLegal(BOOT, acts) && AllCounted(Share(acts))
    ensures UnusedRun(BLANK, INITIAL, Share(acts))
    ensures CallbacksOf(acts, id) <= StartsOf(BOOT, acts, id) <= 1
    ensures Times(NotedRun(BLANK, INITIAL, Share(acts)).finished, id)
            + TimesKilled(SysRun(BOOT, acts).sched.history, id) <= 1
  {
    SystemRefinesScheduler(BOOT, acts);
    CountedIdsAreUnused(BLANK, INITIAL, Share(acts));
    ReleasedAtMostOnce(acts, id);
  }

  /** While its monitor waits a task shows as running or killed; afterwards it shows how the process ended, unless it
      was stopped once more, and it never shows as running again. */
  predicate StatusFits(x: Exec) {
    && Sound(x)
    && forall id | id in x.running ::
         if id in x.monitors then x.running[id].status in {Status.Running, Killed}
         else x.running[id].ended && x.running[id].status in {Completed, Failed, Timeout, Killed}
  }

  lemma {:induction false} StoppedAllFits(x: Exec, ids: seq<string>, killable: set<string>)
    requires StatusFits(x)
    ensures StatusFits(StoppedAll(x, ids, killable))
    decreases |ids|
  {
    if ids == [] {
    } else {
      StoppedAllFits(x, ids[..|ids| - 1], killable);
    }
  }

  lemma {:induction false} StatusFitsEver(y: Sys, acts: seq<SysEvent>)
    requires SysLegal(y, acts) && StatusFits(y.exec)
    ensures StatusFits(SysRun(y, acts).exec)
    decreases |acts|
  {
    if acts == [] {
    } else {
      var a := acts[0];
      if a.Act? && a.e.Submit? {
        StoppedAllFits(y.exec, KilledBy(y.sched, a.e.task, a.e.order), a.killable);
      }
      StatusFitsEver(SysNext(y, a), acts[1..]);
    }
  }

  // What a process shows

  /** What happened last to the process of a task: nothing yet, it started on a GPU, it was killed, it ended. */
  datatype Fate = Unborn | Runs(gpu: string) | Halted(gpu: string) | Over(gpu: string, how: Exit)

  predicate Halts(y: Sys, a: SysEvent, id: string)
    requires SysEnabled(y, a)
  {
    match a
    case Act(e, killable) => e.Submit? && id in KilledBy(y.sched, e.task, e.order) && id in killable
    case Exits(_, _) => false
    case Stop(stopped, killOk) => stopped == id && killOk
  }

  function Fated(y: Sys, a: SysEvent, id: string, fate: Fate): Fate
    requires SysEnabled(y, a)
  {
    if fate.Unborn? then
      if a.Act? && a.e.Submit? && a.e.started && Admitted(y.sched, a.e.task).id == id
      then Runs(a.e.winner.value)
      else fate
    else if Halts(y, a, id) then Halted(fate.gpu)
    else if a.Exits? && a.id == id then Over(fate.gpu, a.how)
    else fate
  }

  function FateOf(y: Sys, acts: seq<SysEvent>, id: string, fate: Fate): Fate
    requires SysLegal(y, acts)
    decreases |acts|
  {
    if acts == [] then fate else FateOf(SysNext(y, acts[0]), acts[1..], id, Fated(y, acts[0], id, fate))
  }

  /** The executor's entry shows exactly what happened last. */
  predicate Shows(x: Exec, id: string, fate: Fate) {
    match fate
    case Unborn => id !in x.running
    case Runs(gpu) => id in x.running && x.running[id] == Proc(gpu, Status.Running, 0, false)
    case Halted(gpu) => id in x.running && x.running[id].gpuId == gpu && x.running[id].status == Killed
    case Over(gpu, how) =>
      && id in x.running && x.running[id].gpuId == gpu && x.running[id].exitCode == how.code
      && (x.running[id].status == Completed <==> how.Succeeded?)
      && (x.running[id].status == Failed <==> how.Errored?)
      && (x.running[id].status == Timeout <==> how.TimedOut?)
  }

  lemma {:induction false} StoppedAllShows(x: Exec, ids: seq<string>, killable: set<string>, id: string, fate: Fate)
    requires Shows(x, id, fate)
    ensures Shows(StoppedAll(x, ids, killable), id,
                  if !fate.Unborn? && id in ids && id in killable then Halted(fate.gpu) else fate)
    decreases |ids|
  {
    if ids == [] {
    } else {
      var last := |ids| - 1;
      StoppedAllShows(x, ids[..last], killable, id, fate);
      assert ids == ids[..last] + [ids[last]];
    }
  }

  lemma StepShows(y: Sys, a: SysEvent, id: string, fate: Fate)
    requires SysEnabled(y, a) && Sound(y.exec) && Shows(y.exec, id, fate)
    ensures Shows(SysNext(y, a).exec, id, Fated(y, a, id, fate))
  {
    if a.Act? && a.e.Submit? {
      StoppedAllShows(y.exec, KilledBy(y.sched, a.e.task, a.e.order), a.killable, id, fate);
    }
  }

  /** From the start, over every interleaving, the executor shows of each task what happened last to its process, on the
      GPU it was placed on: running, killed, or ended with its outcome and exit code. */
  lemma ShowsFateEver(acts: seq<SysEvent>, id: string)
    requires SysLegal(BOOT, acts)
    ensures Shows(SysRun(BOOT, acts).exec, id, FateOf(BOOT, acts, id, Unborn))
  {
    StaysShown(BOOT, acts, id, Unborn);
  }

  lemma {:induction false} StaysShown(y: Sys, acts: seq<SysEvent>, id: string, fate: Fate)
    requires SysLegal(y, acts) && Sound(y.exec) && Shows(y.exec, id, fate)
    ensures Shows(SysRun(y, acts).exec, id, FateOf(y, acts, id, fate))
    decreases |acts|
  {
    if acts == [] {
    } else {
      StepShows(y, acts[0], id, fate);
      SysStepCounts(y, acts[0], id);
      StaysShown(SysNext(y, acts[0]), acts[1..], id, Fated(y, acts[0], id, fate));
    }
  }

  /** A process whose task is already out of the books calls back without effect on them. */
  lemma LateCallbackIsIdle(y: Sys, id: string, how: Exit)
    requires SysEnabled(y, Exits(id, how)) && Separate(y.sched)
    ensures SysNext(y, Exits(id, how)).sched == y.sched <==> id !in y.sched.running
    ensures id !in SysNext(y, Exits(id, how)).sched.running
  {
    if id in y.sched.running {
      var r := Retired(y.sched, id);
      DrainAllOrNone(r.pending, r.gpus, r.running);
    }
  }

  // Processes and the books

  predicate OnTheBooks(s: State, id: string) {
    id in s.running || TimesKilled(s.history, id) >= 1
  }

  lemma {:induction false} KilledAllOnTheBooks(s: State, t: Task, ids: seq<string>, id: string)
    requires Among(ids, s.running) && WellKeyed(s)
    ensures OnTheBooks(s, id) ==> OnTheBooks(KilledAll(s, t, ids), id)
    ensures TimesKilled(KilledAll(s, t, ids).history, id) >= TimesKilled(s.history, id)
    decreases |ids|
  {
    if ids == [] {
    } else {
      var s' := KillOne(s, t, ids[0]);
      assert s'.history[..|s.history|] == s.history;
      KilledAllOnTheBooks(s', t, ids[1..], id);
    }
  }

  lemma SubmitKeepsBooked(s: State, task: Task, order: seq<string>, winner: Option<string>, started: bool, id: string)
    requires WellKeyed(s) && SubmitShape(s, task, order, winner)
    ensures var s' := AfterSubmit(s, task, order, winner, started);
            && (OnTheBooks(s, id) ==> OnTheBooks(s', id))
            && TimesKilled(s'.history, id) >= TimesKilled(s.history, id)
            && (winner.Some? ==> OnTheBooks(s', Admitted(s, task).id))
  {
    var t := Admitted(s, task);
    MakeRoomFrame(Counted(s, task), t, Charge(t), order);
    KilledAllOnTheBooks(Counted(s, task), t, KilledBy(s, task, order), id);
  }

  /** Only the task's own end takes it out of the books without a preemption record. */
  lemma StepKeepsBooked(s: State, e: Event, id: string)
    requires WellKeyed(s) && Enabled(s, e)
    ensures OnTheBooks(s, id) && e != Finish(id) ==> OnTheBooks(Next(s, e), id)
    ensures TimesKilled(Next(s, e).history, id) >= TimesKilled(s.history, id)
    ensures e.Submit? && e.winner.Some? ==> OnTheBooks(Next(s, e), Admitted(s, e.task).id)
  {
    match e
    case Submit(task, order, winner, started) => SubmitKeepsBooked(s, task, order, winner, started, id);
    case Finish(other) =>
      if other in s.running {
        var r := Retired(s, other);
        DrainAllOrNone(r.pending, r.gpus, r.running);
      }
    case _ =>
  }

  /** No process runs unknown to the scheduler, except those it decided to kill. */
  predicate ProcessesBooked(y: Sys) {
    WellKeyed(y.sched) && Sound(y.exec) && forall id | id in y.exec.monitors :: OnTheBooks(y.sched, id)
  }

  /** Completing a task through the API takes a live process off the books. */
  predicate CompletesLive(y: Sys, a: SysEvent) {
    a.Act? && a.e.Finish? && a.e.id in y.exec.monitors && a.e.id in y.sched.running
    && TimesKilled(y.sched.history, a.e.id) == 0
  }

  lemma StepProcessesBookedIff(y: Sys, a: SysEvent)
    requires ProcessesBooked(y) && Separate(y.sched) && SysEnabled(y, a)
    ensures ProcessesBooked(SysNext(y, a)) <==> !CompletesLive(y, a)
  {
    var y' := SysNext(y, a);
    var e := if a.Act? then a.e else if a.Exits? then Finish(a.id) else SetPolicy(y.sched.policy);
    assert y'.sched == Next(y.sched, e);
    StaysKeyed(y.sched, e);
    forall id
      ensures OnTheBooks(y.sched, id) && e != Finish(id) ==> OnTheBooks(y'.sched, id)
      ensures TimesKilled(y'.sched.history, id) >= TimesKilled(y.sched.history, id)
      ensures e.Submit? && e.winner.Some? ==> OnTheBooks(y'.sched, Admitted(y.sched, e.task).id)
    {
      StepKeepsBooked(y.sched, e, id);
    }
    if CompletesLive(y, a) {
      var r := Retired(y.sched, a.e.id);
      DrainAllOrNone(r.pending, r.gpus, r.running);
    }
  }

  predicate NeverCompletesLive(y: Sys, acts: seq<SysEvent>)
    decreases |acts|
  {
    acts == [] ||
    (SysEnabled(y, acts[0]) && (acts[0].Act? ==> Fresh(y.sched, acts[0].e)) && !CompletesLive(y, acts[0])
     && NeverCompletesLive(SysNext(y, acts[0]), acts[1..]))
  }

  /** Over every run in which the API completes no live task, each live process is on the books or was preempted. */
  lemma {:induction false} ProcessesBookedEver(y: Sys, acts: seq<SysEvent>)
    requires ProcessesBooked(y) && Separate(y.sched) && NeverCompletesLive(y, acts)
    ensures SysLegal(y, acts) && ProcessesBooked(SysRun(y, acts))
    decreases |acts|
  {
    if acts == [] {
    } else {
      var a := acts[0];
      StepProcessesBookedIff(y, a);
      StepStaysSeparate(y, a);
      ProcessesBookedEver(SysNext(y, a), acts[1..]);
    }
  }

  // Live processes

  /** The process has neither ended nor been killed. */
  predicate Live(x: Exec, id: string) {
    id in x.monitors && id in x.running && !x.running[id].ended
  }

  /** Every live process has its task among the running ones, so that its end will release it. */
  predicate LiveKnown(y: Sys) {
    && WellKeyed(y.sched) && Sound(y.exec)
    && forall id | id in y.exec.monitors && Live(y.exec, id) :: id in y.sched.running
  }

  /** A live process whose task the step takes out of the running map: completed through the API, or preempted although
      its process could not be killed. */
  predicate Orphans(y: Sys, a: SysEvent, id: string)
    requires SysEnabled(y, a)
  {
    a.Act? && Live(y.exec, id)
    && (a.e == Finish(id) || (a.e.Submit? && id in KilledBy(y.sched, a.e.task, a.e.order) && id !in a.killable))
  }

  lemma {:induction false} StoppedAllLive(x: Exec, ids: seq<string>, killable: set<string>, id: string)
    ensures Live(StoppedAll(x, ids, killable), id) <==> Live(x, id) && !(id in ids && id in killable)
    decreases |ids|
  {
    if ids == [] {
    } else {
      var last := |ids| - 1;
      StoppedAllLive(x, ids[..last], killable, id);
      assert ids == ids[..last] + [ids[last]];
    }
  }

  lemma SubmitLive(y: Sys, a: SysEvent, id: string)
    requires SysEnabled(y, a) && a.Act? && a.e.Submit? && Fresh(y.sched, a.e)
    ensures var y', t := SysNext(y, a), Admitted(y.sched, a.e.task);
            && (Live(y'.exec, id) <==>
                  || (Live(y.exec, id) && !(id in KilledBy(y.sched, a.e.task, a.e.order) && id in a.killable))
                  || (a.e.started && id == t.id))
            && (id in y'.sched.running <==>
                  || (id in y.sched.running && id !in KilledBy(y.sched, a.e.task, a.e.order))
                  || (a.e.winner.Some? && id == t.id))
  {
    var t := Admitted(y.sched, a.e.task);
    StoppedAllLive(y.exec, KilledBy(y.sched, a.e.task, a.e.order), a.killable, id);
    MakeRoomFrame(Counted(y.sched, a.e.task), t, Charge(t), a.e.order);
  }

  lemma FinishRunning(s: State, finished: string, id: string)
    requires Separate(s) && id in s.running
    ensures id in AfterFinish(s, finished).running <==> id != finished
  {
    if finished in s.running {
      var r := Retired(s, finished);
      DrainAllOrNone(r.pending, r.gpus, r.running);
    }
  }

  lemma StepLive(y: Sys, a: SysEvent, id: string)
    requires LiveKnown(y) && Separate(y.sched) && SysEnabled(y, a) && (a.Act? ==> Fresh(y.sched, a.e))
    ensures var y' := SysNext(y, a);
            Live(y'.exec, id) && id !in y'.sched.running <==> Orphans(y, a, id)
  {
    match a
    case Act(e, _) =>
      if e.Submit? {
        SubmitLive(y, a, id);
      } else if e.Finish? && id in y.sched.running {
        FinishRunning(y.sched, e.id, id);
      }
    case Exits(exited, _) =>
      if id in y.sched.running {
        FinishRunning(y.sched, exited, id);
      }
    case Stop(_, _) =>
  }

  lemma StepStaysSound(y: Sys, a: SysEvent)
    requires SysEnabled(y, a) && WellKeyed(y.sched) && Sound(y.exec)
    ensures WellKeyed(SysNext(y, a).sched) && Sound(SysNext(y, a).exec)
  {
    match a
    case Act(e, _) => StaysKeyed(y.sched, e);
    case Exits(id, _) => StaysKeyed(y.sched, Finish(id));
    case Stop(_, _) =>
  }

  /** A step keeps every live process among the running tasks exactly if it orphans none. */
  lemma StepLiveKnownIff(y: Sys, a: SysEvent)
    requires LiveKnown(y) && Separate(y.sched) && SysEnabled(y, a) && (a.Act? ==> Fresh(y.sched, a.e))
    ensures LiveKnown(SysNext(y, a)) <==> forall id | id in y.exec.monitors :: !Orphans(y, a, id)
  {
    StepStaysSound(y, a);
    forall id
      ensures Live(SysNext(y, a).exec, id) && id !in SysNext(y, a).sched.running <==> Orphans(y, a, id)
    {
      StepLive(y, a, id);
    }
  }

  predicate OrphansNobody(y: Sys, acts: seq<SysEvent>)
    decreases |acts|
  {
    acts == [] ||
    (SysEnabled(y, acts[0]) && (acts[0].Act? ==> Fresh(y.sched, acts[0].e))
     && (forall id | id in y.exec.monitors :: !Orphans(y, acts[0], id))
     && OrphansNobody(SysNext(y, acts[0]), acts[1..]))
  }

  /** Over every run that completes no live task through the API and kills the process of every task it preempts, each
      live process has its task among the running ones. */
  lemma {:induction false} LiveKnownEver(y: Sys, acts: seq<SysEvent>)
    requires LiveKnown(y) && Separate(y.sched) && OrphansNobody(y, acts)
    ensures SysLegal(y, acts) && LiveKnown(SysRun(y, acts))
    decreases |acts|
  {
    if acts == [] {
    } else {
      StepLiveKnownIff(y, acts[0]);
      StepStaysSeparate(y, acts[0]);
      LiveKnownEver(SysNext(y, acts[0]), acts[1..]);
    }
  }

  lemma StepStaysSeparate(y: Sys, a: SysEvent)
    requires Separate(y.sched) && SysEnabled(y, a) && (a.Act? ==> Fresh(y.sched, a.e))
    ensures Separate(SysNext(y, a).sched)
  {
    match a
    case Act(e, _) => StaysSeparate(y.sched, e);
    case Exits(id, _) => StaysSeparate(y.sched, Finish(id));
    case Stop(_, _) =>
  }

  // Processes that never started

  predicate LeavesAlone(y: Sys, a: SysEvent, id: string) {
    a.Act? ==> a.e != Finish(id) && (a.e.Submit? ==> Admitted(y.sched, a.e.task).id != id)
  }

  predicate AllLeaveAlone(y: Sys, acts: seq<SysEvent>, id: string)
    decreases |acts|
  {
    acts == [] ||
    (SysEnabled(y, acts[0]) && LeavesAlone(y, acts[0], id) && AllLeaveAlone(SysNext(y, acts[0]), acts[1..], id))
  }

  /** A running task without a process, because its start failed or because it was promoted, holds its place for ever:
      no exit releases it, only the API or a preemption does. */
  lemma {:induction false} NeverStartedIsNeverReleased(y: Sys, acts: seq<SysEvent>, id: string)
    requires WellKeyed(y.sched) && Sound(y.exec) && OnTheBooks(y.sched, id) && id !in y.exec.running
    requires AllLeaveAlone(y, acts, id)
    ensures SysLegal(y, acts) && OnTheBooks(SysRun(y, acts).sched, id) && id !in SysRun(y, acts).exec.running
    decreases |acts|
  {
    if acts == [] {
    } else {
      var a := acts[0];
      match a {
        case Act(e, _) =>
          StepKeepsBooked(y.sched, e, id);
          StaysKeyed(y.sched, e);
        case Exits(other, _) =>
          StepKeepsBooked(y.sched, Finish(other), id);
          StaysKeyed(y.sched, Finish(other));
        case Stop(_, _) =>
      }
      SysStepCounts(y, a, id);
      NeverStartedIsNeverReleased(SysNext(y, a), acts[1..], id);
    }
  }

  // Runs from the start

  lemma RunOfTwoActs(y: Sys, a: SysEvent, b: SysEvent)
    requires SysEnabled(y, a) && SysEnabled(SysNext(y, a), b)
    ensures SysLegal(y, [a, b]) && SysRun(y, [a, b]) == SysNext(SysNext(y, a), b)
  {
    var y1 := SysNext(y, a);
    var y2 := SysNext(y1, b);
    assert [b][1..] == [];
    assert SysLegal(y2, []) && SysRun(y2, []) == y2;
    assert SysLegal(y1, [b]) && SysRun(y1, [b]) == y2;
    assert [a, b][1..] == [b];
  }

  /** A first task on the AMD GPU, with or without a process. */
  lemma FirstTask(t: Task, started: bool)
    requires t == Task("", OtherKind, 1, 0, 20000, Pending)
    ensures var a := Act(Event.Submit(t, [], Some("1"), started), {});
            && SysEnabled(BOOT, a)
            && var y := SysNext(BOOT, a);
               && y.sched.running.Keys == {"task-1"} && y.sched.pending == [] && Live(y.exec, "task-1") == started
               && y.sched.running["task-1"]
                  == Task("task-1", OtherKind, 1, 1, 20000, if started then Status.Running else Failed)
               && y.sched.gpus == INITIAL.gpus["1" := GpuRecord("1", Amd, 24576, 20000, 0.0, 1)]
               && y.sched == INITIAL.(gpus := y.sched.gpus, running := y.sched.running, counter := 1)
               && (started ==> y.exec.running.Keys == {"task-1"} == y.exec.monitors)
               && (!started ==> y.exec.running == map[])
  {
    FirstOnAmd(Event.Submit(t, [], Some("1"), started));
  }

  /** From the start: a task completed through the API while its process lives. Nothing is booked any more. */
  lemma CompletedWhileLive(t: Task, a: SysEvent, b: SysEvent)
    requires t == Task("", OtherKind, 1, 0, 20000, Pending)
    requires a == Act(Event.Submit(t, [], Some("1"), true), {}) && b == Act(Finish("task-1"), {})
    ensures SysLegal(BOOT, [a, b])
    ensures var y := SysRun(BOOT, [a, b]);
            Live(y.exec, "task-1") && y.sched.running == map[] && y.sched.gpus == INITIAL.gpus
  {
    FirstTask(t, true);
    var y := SysNext(BOOT, a);
    HostedOnAmd(y.sched.running["task-1"]);
    RunOfTwoActs(BOOT, a, b);
    var r := Retired(y.sched, "task-1");
    assert r.running == map[] && Drained(r) == r;
    assert r.gpus["1"] == INITIAL.gpus["1"];
  }

  /** From the start: a task is preempted, its process cannot be killed, and the preemptor runs beside it on GPU "1",
      which has memory for one of them. */
  lemma PreemptedWhileLive(t: Task, u: Task, a: SysEvent, b: SysEvent)
    requires t == Task("", OtherKind, 1, 0, 20000, Pending) && u == Task("", OtherKind, 10, 0, 20000, Pending)
    requires a == Act(Event.Submit(t, [], Some("1"), true), {})
    requires b == Act(Event.Submit(u, ["task-1"], Some("1"), true), {})
    ensures SysLegal(BOOT, [a, b])
    ensures var y := SysRun(BOOT, [a, b]);
            && Live(y.exec, "task-1") && Live(y.exec, "task-2") && y.sched.running.Keys == {"task-2"}
            && y.sched.gpus == INITIAL.gpus["1" := GpuRecord("1", Amd, 24576, 20000, 0.0, 1)]
  {
    FirstTask(t, true);
    var y := SysNext(BOOT, a);
    ReplacedOnAmd(y.sched, b.e, 1, 10);
    assert Starts(y.exec, "task-2", true);
    StoppedAllLive(y.exec, ["task-1"], {}, "task-1");
    RunOfTwoActs(BOOT, a, b);
  }

  /** From the start: a task whose start failed keeps its memory over every run in which the API does not complete it
      and no submission takes its ID, unless it is preempted. */
  lemma FailedStartHoldsItsPlace(t: Task, a: SysEvent, later: seq<SysEvent>)
    requires t == Task("", OtherKind, 1, 0, 20000, Pending) && a == Act(Event.Submit(t, [], Some("1"), false), {})
    ensures SysEnabled(BOOT, a)
    ensures var y := SysNext(BOOT, a);
            && "task-1" in y.sched.running && y.sched.running["task-1"].status == Failed
            && (AllLeaveAlone(y, later, "task-1") ==>
                  && SysLegal(y, later)
                  && ("task-1" in SysRun(y, later).sched.running
                      || TimesKilled(SysRun(y, later).sched.history, "task-1") >= 1))
  {
    FirstTask(t, false);
    var y := SysNext(BOOT, a);
    if AllLeaveAlone(y, later, "task-1") {
      NeverStartedIsNeverReleased(y, later, "task-1");
    }
  }
}
