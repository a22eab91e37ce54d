/** Steps with known outcomes, from which the runs that show a failure are put together. */
module FirstSteps {
  import opened Wrappers
  import opened Decimal
  import opened Types
  import opened Scoring
  import opened Selection
  import opened Totals
  import opened Machine

  // Submissions of a known kind

  /** A task that fits may be placed on any winner at once. */
  lemma PlacedAtOnce(s: State, e: Event, w: string)
    requires e.Submit? && e.order == [] && e.winner == Some(w)
    requires IsWinner(s.gpus, Wanted(s, Admitted(s, e.task)), s.gpuCount, w)
    ensures Enabled(s, e) && Next(s, e) == Placed(Counted(s, e.task), Admitted(s, e.task), w, e.started)
  {
  }

  /** A task that fits nowhere and preempts nobody is queued. */
  lemma QueuedAtOnce(s: State, task: Task, started: bool)
    requires !Fits(s.gpus, Charge(task)) && !Triggers(Counted(s, task), Admitted(s, task))
    ensures var e := Submit(task, [], None, started);
            Enabled(s, e) && Next(s, e) == Counted(s, task).(pending := s.pending + [Admitted(s, task)])
  {
  }

  /** The only running task may be preempted by a task that does not fit. */
  predicate OneCandidate(s: State, task: Task, k: string) {
    && s.running.Keys == {k} && s.config.enabled && s.config.policy == Kill
    && task.priority >= s.config.minPriority && MayPreempt(s, task, s.running[k])
    && !Fits(s.gpus, Charge(task))
  }

  lemma OneVictim(s: State, task: Task, k: string)
    requires OneCandidate(s, task, k)
    ensures var t, s1 := Admitted(s, task), Counted(s, task);
            && LegalOrder(s1, t, Charge(task), [k]) && Among([k], s.running)
            && MadeRoom(s, task, [k]) == Outcome(KillOne(s1, t, k), 1, HasRoom(KillOne(s1, t, k).gpus, Charge(task)))
            && KilledBy(s, task, [k]) == [k]
  {
    var t, s1 := Admitted(s, task), Counted(s, task);
    assert Victims(s1, t) == {k} && (set i | i in [k]) == {k};
    assert KillOrder(s1, t, [k]);
    assert [k][1..] == [] && [k][..1] == [k];
    var s2 := KillOne(s1, t, k);
    assert KillLoop(s2, t, Charge(task), []) == Outcome(s2, 0, false);
  }

  /** The retry fails all the same: the victim dies, and the preemptor is queued. */
  lemma KilledInVain(s: State, task: Task, k: string, started: bool)
    requires OneCandidate(s, task, k) && !Fits(KillFreed(s.gpus, s.running[k]), Charge(task))
    ensures var e := Submit(task, [k], None, started);
            && Enabled(s, e) && KilledBy(s, task, [k]) == [k]
            && Next(s, e) == (var t := Admitted(s, task); Settled(KillOne(Counted(s, task), t, k), t, None, started))
  {
    OneVictim(s, task, k);
  }

  /** The retry succeeds: the preemptor takes a winner among the GPUs that the kill leaves. */
  lemma KilledAndReplaced(s: State, e: Event, k: string, gpus: Pool, w: string)
    requires e.Submit? && e.order == [k] && e.winner == Some(w) && OneCandidate(s, e.task, k)
    requires gpus == KillFreed(s.gpus, s.running[k])
    requires IsWinner(gpus, Wanted(s, Admitted(s, e.task)), s.gpuCount, w)
    ensures Enabled(s, e) && KilledBy(s, e.task, e.order) == [k]
    ensures Next(s, e).running.Keys == {Admitted(s, e.task).id}
    ensures Next(s, e).gpus == gpus[w := Loaded(gpus[w], Charge(e.task))]
  {
    OneVictim(s, e.task, k);
    assert gpus[w].FreeVRAM() >= Charge(e.task);
    PlacedValues(MadeRoom(s, e.task, [k]).st, Admitted(s, e.task), w, e.started);
  }

  /** The only two running tasks may both be preempted, and the first is not enough. */
  lemma TwoVictims(s: State, t: Task, need: int, k: string, l: string)
    requires s.running.Keys == {k, l} && k != l && s.config.policy == Kill
    requires MayPreempt(s, t, s.running[k]) && MayPreempt(s, t, s.running[l])
    requires s.running[k].priority <= s.running[l].priority && !HasRoom(KillOne(s, t, k).gpus, need)
    ensures var s' := KillOne(KillOne(s, t, k), t, l);
            KillOrder(s, t, [k, l]) && KillLoop(s, t, need, [k, l]) == Outcome(s', 2, HasRoom(s'.gpus, need))
  {
    assert Victims(s, t) == {k, l} && (set i | i in [k, l]) == {k, l};
    assert KillOrder(s, t, [k, l]);
    assert [k, l][1..] == [l] && [l][1..] == [];
    var s1 := KillOne(s, t, k);
    var s2 := KillOne(s1, t, l);
    assert KillLoop(s2, t, need, []) == Outcome(s2, 0, false);
    assert KillLoop(s1, t, need, [l]) == Outcome(s2, 1, HasRoom(s2.gpus, need));
  }

  /** Both die, which makes room. */
  predicate TwoCandidates(s: State, task: Task, k: string, l: string) {
    && s.running.Keys == {k, l} && k != l && s.config.enabled && s.config.policy == Kill
    && task.priority >= s.config.minPriority && MayPreempt(s, task, s.running[k])
    && MayPreempt(s, task, s.running[l]) && s.running[k].priority <= s.running[l].priority
    && !Fits(s.gpus, Charge(task)) && !HasRoom(KillFreed(s.gpus, s.running[k]), Charge(task))
    && HasRoom(KillFreed(KillFreed(s.gpus, s.running[k]), s.running[l]), Charge(task))
  }

  lemma BothMakeRoom(s: State, task: Task, k: string, l: string)
    requires TwoCandidates(s, task, k, l)
    ensures var t, s1 := Admitted(s, task), Counted(s, task);
            && LegalOrder(s1, t, Charge(task), [k, l]) && Among([k, l], s.running)
            && MadeRoom(s, task, [k, l]) == Outcome(KillOne(KillOne(s1, t, k), t, l), 2, true)
  {
    var t, s1 := Admitted(s, task), Counted(s, task);
    TwoVictims(s1, t, Charge(task), k, l);
    assert k in Victims(s1, t);
  }

  lemma BothKilled(s: State, t: Task, k: string, l: string)
    requires s.running.Keys == {k, l} && k != l
    ensures var s' := KillOne(KillOne(s, t, k), t, l);
            && s'.gpus == KillFreed(KillFreed(s.gpus, s.running[k]), s.running[l])
            && s'.running == map[] && |s'.history| == |s.history| + 2
            && s'.policy == s.policy && s'.gpuCount == s.gpuCount
  {
  }

  /** The preemptor takes a winner among the GPUs that the kills leave. */
  lemma BothReplaced(s: State, e: Event, k: string, l: string, gpus: Pool, w: string)
    requires e.Submit? && e.order == [k, l] && e.winner == Some(w) && TwoCandidates(s, e.task, k, l)
    requires gpus == KillFreed(KillFreed(s.gpus, s.running[k]), s.running[l])
    requires IsWinner(gpus, Wanted(s, Admitted(s, e.task)), s.gpuCount, w)
    ensures Enabled(s, e)
    ensures Next(s, e).running.Keys == {Admitted(s, e.task).id} && |Next(s, e).history| == |s.history| + 2
    ensures Next(s, e).gpus == gpus[w := Loaded(gpus[w], Charge(e.task))]
  {
    BothMakeRoom(s, e.task, k, l);
    BothKilled(Counted(s, e.task), Admitted(s, e.task), k, l);
    PlacedValues(MadeRoom(s, e.task, [k, l]).st, Admitted(s, e.task), w, e.started);
  }

  lemma PlacedValues(s: State, t: Task, w: string, started: bool)
    requires w in s.gpus
    ensures var s' := Placed(s, t, w, started);
            && s'.gpus == s.gpus[w := Loaded(s.gpus[w], Charge(t))]
            && s'.running.Keys == s.running.Keys + {t.id} && s'.history == s.history
  {
  }

  // From the start

  lemma FirstNames()
    ensures TaskName(1) == "task-1" && TaskName(2) == "task-2" && TaskName(3) == "task-3"
    ensures Itoa(0) == "0" && Itoa(1) == "1" && Atoi("0") == Some(0) && Atoi("1") == Some(1)
  {
    assert Digits(0) == "0" && Digits(1) == "1" && Digits(2) == "2" && Digits(3) == "3";
    AtoiItoa(0);
    AtoiItoa(1);
  }

  lemma HostedOnAmd(v: Task)
    requires v.gpuReq == 1
    ensures Host(v) == "1"
  {
    FirstNames();
  }

  /** The two GPUs tie at the start for tasks of no particular kind. */
  lemma InitialWinners(c: Criteria)
    requires c.policy == Binpack && c.kind == OtherKind
    ensures c.need <= 16384 ==> IsWinner(INITIAL.gpus, c, 2, "0")
    ensures c.need <= 24576 ==> IsWinner(INITIAL.gpus, c, 2, "1")
  {
    assert VramScore(INITIAL.gpus["0"]) == VramScore(INITIAL.gpus["1"]) == 30.0;
  }

  lemma FirstPlacedOn(s: State, t: Task, w: string, n: Int64, started: bool, s': State)
    requires s == INITIAL.(counter := 1) && w in s.gpus && ParsedHost(w, t.gpuReq) == n
    requires s' == Placed(s, t, w, started)
    ensures s' == INITIAL.(gpus := s'.gpus, running := s'.running, counter := 1)
    ensures s'.running == map[t.id := t.(gpuReq := n, status := if started then Status.Running else Failed)]
    ensures s'.gpus == INITIAL.gpus[w := GpuRecord(w, s.gpus[w].kind, s.gpus[w].vramMB, Charge(t), 0.0, 1)]
  {
    assert s'.gpus == s.gpus[w := Loaded(s.gpus[w], Charge(t))];
  }

  /** A first task of no particular kind that gets the NVIDIA GPU. */
  lemma FirstOnNvidia(e: Event)
    requires e.Submit? && e.order == [] && e.winner == Some("0") && e.started
    requires e.task.id == "" && e.task.kind == OtherKind && Charge(e.task) <= 16384
    ensures Enabled(INITIAL, e)
    ensures var s := Next(INITIAL, e);
            && s.gpus == INITIAL.gpus["0" := GpuRecord("0", Nvidia, 16384, Charge(e.task), 0.0, 1)]
            && s.running == map["task-1" := e.task.(id := "task-1", gpuReq := 0, status := Status.Running)]
            && s == INITIAL.(gpus := s.gpus, running := s.running, counter := 1)
  {
    FirstNames();
    var t := e.task.(id := "task-1", status := Pending);
    assert Admitted(INITIAL, e.task) == t && ParsedHost("0", t.gpuReq) == 0;
    InitialWinners(Wanted(INITIAL, t));
    PlacedAtOnce(INITIAL, e, "0");
    FirstPlacedOn(Counted(INITIAL, e.task), t, "0", 0, true, Next(INITIAL, e));
  }

  /** A first task of no particular kind that gets the AMD GPU. */
  lemma FirstOnAmd(e: Event)
    requires e.Submit? && e.order == [] && e.winner == Some("1")
    requires e.task.id == "" && e.task.kind == OtherKind && Charge(e.task) <= 24576
    ensures Enabled(INITIAL, e)
    ensures var s := Next(INITIAL, e);
            && s.gpus == INITIAL.gpus["1" := GpuRecord("1", Amd, 24576, Charge(e.task), 0.0, 1)]
            && s.running.Keys == {"task-1"}
            && s.running["task-1"]
               == e.task.(id := "task-1", gpuReq := 1, status := if e.started then Status.Running else Failed)
            && s == INITIAL.(gpus := s.gpus, running := s.running, counter := 1)
  {
    FirstNames();
    var t := e.task.(id := "task-1", status := Pending);
    assert Admitted(INITIAL, e.task) == t && ParsedHost("1", t.gpuReq) == 1;
    InitialWinners(Wanted(INITIAL, t));
    PlacedAtOnce(INITIAL, e, "1");
    FirstPlacedOn(Counted(INITIAL, e.task), t, "1", 1, e.started, Next(INITIAL, e));
  }

  /** A task on the AMD GPU is replaced by one of the same size that may preempt it. */
  lemma ReplacedOnAmd(s: State, e: Event, low: int, high: int)
    requires s.gpus == INITIAL.gpus["1" := GpuRecord("1", Amd, 24576, 20000, 0.0, 1)]
    requires s.running.Keys == {"task-1"} && low <= 5 && high >= 7 && high - low >= 2
    requires s.running["task-1"] == Task("task-1", OtherKind, low, 1, 20000, Status.Running)
    requires s == INITIAL.(gpus := s.gpus, running := s.running, counter := 1)
    requires e == Submit(Task("", OtherKind, high, 0, 20000, Pending), ["task-1"], Some("1"), true)
    ensures Enabled(s, e) && KilledBy(s, e.task, e.order) == ["task-1"] && Admitted(s, e.task).id == "task-2"
    ensures Next(s, e).running.Keys == {"task-2"} && Next(s, e).gpus == s.gpus
  {
    FirstNames();
    var v := s.running["task-1"];
    HostedOnAmd(v);
    assert KillFreed(s.gpus, v) == INITIAL.gpus;
    InitialWinners(Wanted(s, Admitted(s, e.task)));
    KilledAndReplaced(s, e, "task-1", INITIAL.gpus, "1");
  }
}
