/** What each call of the scheduler leaves behind, written out in numbers and fields. */
module Outcomes {
  import opened Wrappers
  import opened Decimal
  import opened Types
  import opened Selection
  import opened Machine
  import opened Conservation

  /** The ID under which a submission is known: its own, or the next one of the counter. */
  function GivenId(s: State, task: Task): string {
    if task.id == "" then "task-" + Itoa(s.counter + 1) else task.id
  }

  /** A submission ends up running, with the GPU's number where it has one, or last in the queue. */
  lemma SubmissionOutcome(s: State, e: Event)
    requires e.Submit? && Enabled(s, e)
    ensures var s', t := Next(s, e), e.task.(id := GivenId(s, e.task));
            && s'.counter == s.counter + (if e.task.id == "" then 1 else 0)
            && s'.completed == s.completed && s'.policy == s.policy && s'.config == s.config
            && s'.gpuCount == s.gpuCount
            && (e.winner.None? ==> s'.pending == s.pending + [t.(status := Pending)])
            && (e.winner.Some? ==>
                  && s'.pending == s.pending && t.id in s'.running
                  && s'.running[t.id].status == (if e.started then Status.Running else Failed)
                  && s'.running[t.id].gpuReq == (if Atoi(e.winner.value).Some? then Atoi(e.winner.value).value
                                                 else e.task.gpuReq)
                  && s'.running[t.id] == t.(status := s'.running[t.id].status, gpuReq := s'.running[t.id].gpuReq))
    ensures var made := MadeRoom(s, e.task, e.order).st.gpus;
            match e.winner
            case None => Next(s, e).gpus == made
            case Some(w) =>
              Next(s, e).gpus
              == made[w := made[w].(usedMB := made[w].usedMB + if e.task.vramMB > 0 then e.task.vramMB else 4096,
                                    running := made[w].running + 1)]
  {
    MakeRoomFrame(Counted(s, e.task), Admitted(s, e.task), Charge(e.task), e.order);
  }

  /** A victim: its GPU gets back its size and one task, without a floor, and the record names both tasks. */
  lemma VictimOutcome(s: State, t: Task, k: string)
    requires k in s.running
    ensures var s', v := KillOne(s, t, k), s.running[k];
            && s'.running == s.running - {k}
            && s'.history == s.history + [Record(t, v.(status := Status.Killed), Itoa(v.gpuReq))]
            && s'.gpus.Keys == s.gpus.Keys && (forall g | g in s.gpus && g != Itoa(v.gpuReq) :: s'.gpus[g] == s.gpus[g])
            && (Itoa(v.gpuReq) in s.gpus ==>
                  var g := s.gpus[Itoa(v.gpuReq)];
                  s'.gpus[Itoa(v.gpuReq)] == g.(usedMB := g.usedMB - v.vramMB, running := g.running - 1))
            && s'.pending == s.pending && s'.completed == s.completed
  {
  }

  function AtLeastZero(n: int): nat {
    if n > 0 then n else 0
  }

  /** The end of a running task: its GPU gets back its size, 4096 MB without one, and one task, neither below zero; the
      task is the last completed one. */
  lemma FinishOutcome(s: State, id: string)
    requires id in s.running
    ensures var s', t := Next(s, Finish(id)), s.running[id];
            && s'.gpus.Keys == s.gpus.Keys && (forall g | g in s.gpus && g != Itoa(t.gpuReq) :: s'.gpus[g] == s.gpus[g])
            && (Itoa(t.gpuReq) in s.gpus ==>
                  var g := s.gpus[Itoa(t.gpuReq)];
                  s'.gpus[Itoa(t.gpuReq)]
                  == g.(usedMB := AtLeastZero(g.usedMB - if t.vramMB == 0 then 4096 else t.vramMB),
                        running := AtLeastZero(g.running - 1)))
            && s'.completed != [] && s'.completed[|s'.completed| - 1] == t
            && (|s.completed| < 100 ==> s'.completed == s.completed + [t])
            && (|s.completed| == 100 ==> s'.completed == s.completed[1..] + [t])
            && s'.history == s.history && s'.counter == s.counter && s'.policy == s.policy && s'.config == s.config
  {
  }

  /** The monitor and the settings overwrite what they are about and nothing else. */
  lemma OverwriteOutcome(s: State, id: string, usedMB: int, util: real, count: int, policy: Policy, config: Config)
    ensures var s' := Next(s, Monitor(id, usedMB, util, count));
            if id in s.gpus
            then s' == s.(gpus := s.gpus[id := GpuRecord(s.gpus[id].id, s.gpus[id].kind, s.gpus[id].vramMB,
                                                         usedMB, util, count)])
            else s' == s
    ensures Next(s, SetPolicy(policy)).policy == policy && Next(s, SetConfig(config)).config == config
    ensures Next(s, SetPolicy(policy)) == s.(policy := policy) && Next(s, SetConfig(config)) == s.(config := config)
  {
  }

  // GPU IDs as numbers

  /** Texts at the edge: a plus sign and leading zeros are read, a lone sign, a letter or a blank are not. */
  lemma AtoiExamples()
    ensures Atoi("+1") == Some(1) && Atoi("-1") == Some(0 - 1) && Atoi("01") == Some(1) && Atoi("-0") == Some(0)
    ensures Atoi("") == None && Atoi("-") == None && Atoi("+") == None && Atoi("gpu0") == None && Atoi("1 ") == None
    ensures Itoa(0) == "0" && Itoa(10) == "10" && Itoa(0 - 7) == "-7"
  {
    assert Value("") == 0 && Value("1") == 1 && Value("0") == 0 && Value("01") == 1;
    assert Body("+1") == "1" && Body("-1") == "1" && Body("-0") == "0";
    assert !IsDigit("gpu0"[0]) && !IsDigit("1 "[1]);
    assert Digits(0) == "0" && Digits(1) == "1" && Digits(10) == "10" && Digits(7) == "7";
  }

  /** The range is that of 64 bits. */
  lemma AtoiRange(n: nat)
    ensures Atoi(Digits(n)).Some? <==> n <= 0x7FFF_FFFF_FFFF_FFFF
    ensures n > 0 ==> (Atoi("-" + Digits(n)).Some? <==> n <= 0x8000_0000_0000_0000)
  {
    ValueOfDigits(n);
    assert IsDigit(Digits(n)[0]);
    assert Body("-" + Digits(n)) == Digits(n);
  }

  // The completed list

  /** The last 100, or all of them if there are no more. */
  predicate LatestOf(latest: seq<Task>, done: seq<Task>) {
    if |done| <= 100 then latest == done
    else |latest| == 100 && forall i | 0 <= i < 100 :: latest[i] == done[|done| - 100 + i]
  }

  /** Over every run with unused IDs from the start, the completed list is the last 100 finished tasks, in the order in
      which they finished. */
  lemma CompletedAreLatest(es: seq<Event>)
    requires UnusedRun(BLANK, INITIAL, es)
    ensures Legal(INITIAL, es)
    ensures LatestOf(Run(INITIAL, es).completed, NotedRun(BLANK, INITIAL, es).finished)
  {
    assert forall k: string :: InOnePlace(BLANK, INITIAL, k);
    KeptEver(BLANK, INITIAL, es);
    assert forall done :: LatestOf(Window(done), done);
  }
}
