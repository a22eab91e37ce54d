/** Exactly whom kill preemption removes, when it succeeds, and what its success is worth. */
module Preemption {
  import opened Wrappers
  import opened Decimal
  import opened Types
  import opened Scoring
  import opened Selection
  import opened Totals
  import opened Machine
  import opened FirstSteps
  import opened Ledger

  // Which tasks are removed

  lemma KilledPrefix(s: State, t: Task, order: seq<string>, j: nat)
    requires Among(order, s.running) && 1 <= j <= |order|
    ensures KilledAll(s, t, order[..j]) == KilledAll(KillOne(s, t, order[0]), t, order[1..][..j - 1])
  {
    assert order[..j][0] == order[0] && order[..j][1..] == order[1..][..j - 1];
  }

  /** Under the kill policy the victims are the shortest nonempty prefix of the order after which some GPU has room;
      without such a prefix they are all removed and the answer is no. */
  lemma {:induction false} VictimsAreShortestPrefix(s: State, t: Task, need: int, order: seq<string>)
    requires Among(order, s.running) && order != [] && s.config.policy == Kill
    ensures var o := KillLoop(s, t, need, order);
            && 1 <= o.killed <= |order|
            && o.st == KilledAll(s, t, order[..o.killed])
            && (forall j | 1 <= j < o.killed :: !HasRoom(KilledAll(s, t, order[..j]).gpus, need))
            && (o.room <==> HasRoom(o.st.gpus, need))
            && (!o.room ==> o.killed == |order|)
    decreases |order|
  {
    var o := KillLoop(s, t, need, order);
    var s' := KillOne(s, t, order[0]);
    KillLoopIsPrefix(s, t, need, order);
    if HasRoom(s'.gpus, need) {
      KilledPrefix(s, t, order, 1);
    } else {
      var rest := order[1..];
      if rest != [] {
        VictimsAreShortestPrefix(s', t, need, rest);
      } else {
        assert order[..1] == order;
      }
      forall j | 1 <= j < o.killed
        ensures !HasRoom(KilledAll(s, t, order[..j]).gpus, need)
      {
        KilledPrefix(s, t, order, j);
        assert j == 1 ==> order[1..][..0] == [];
      }
    }
  }

  lemma PrefixOutranked(s: State, order: seq<string>, n: nat, k: string, v: string)
    requires Among(order, s.running) && n <= |order|
    requires forall i, j | 0 <= i < j < |order| :: s.running[order[i]].priority <= s.running[order[j]].priority
    requires v in order[..n] && k in order[n..]
    ensures s.running[v].priority <= s.running[k].priority
  {
    var i :| 0 <= i < n && order[..n][i] == v;
    var j :| 0 <= j < |order[n..]| && order[n..][j] == k;
    assert order[i] == v && order[n + j] == k;
  }

  lemma CandidateIsKilledOrLater(s: State, t: Task, order: seq<string>, n: nat, k: string)
    requires KillOrder(s, t, order) && n <= |order| && k in Victims(s, t)
    ensures k in order[..n] || k in order[n..]
  {
    assert k in (set i | i in order);
    assert order == order[..n] + order[n..];
  }

  /** The victims are the least important tasks that may be preempted, and a refusal spares none of them. */
  lemma SurvivorsOutrankVictims(s: State, t: Task, need: int, order: seq<string>)
    requires KillOrder(s, t, order) && order != [] && s.config.policy == Kill
    ensures var o := KillLoop(s, t, need, order);
            && (forall k, v | k in Victims(s, t) && k in o.st.running && v in order[..o.killed] ::
                  v in s.running && s.running[v].priority <= s.running[k].priority)
            && (forall k | k in s.running && k !in o.st.running :: k in Victims(s, t))
            && (!o.room ==> Victims(s, t) !! o.st.running.Keys)
  {
    var o := KillLoop(s, t, need, order);
    var ids := order[..o.killed];
    VictimsAreShortestPrefix(s, t, need, order);
    KilledAllFrame(s, t, ids);
    forall k, v | k in Victims(s, t) && k in o.st.running && v in ids
      ensures v in s.running && s.running[v].priority <= s.running[k].priority
    {
      CandidateIsKilledOrLater(s, t, order, o.killed, k);
      PrefixOutranked(s, order, o.killed, k, v);
    }
    forall k | k in ids
      ensures k in Victims(s, t)
    {
      assert k in (set i | i in order);
    }
    if !o.room {
      forall k | k in Victims(s, t)
        ensures k in ids
      {
        CandidateIsKilledOrLater(s, t, order, o.killed, k);
      }
    }
  }

  /** The other policies remove nothing: waiting always refuses, any other name merely looks for room. */
  lemma {:induction false} OtherPoliciesRemoveNothing(s: State, t: Task, need: int, order: seq<string>)
    requires Among(order, s.running) && s.config.policy != Kill
    ensures KillLoop(s, t, need, order)
         == Outcome(s, 0, s.config.policy == Checkpoint && order != [] && HasRoom(s.gpus, need))
    decreases |order|
  {
    if order == [] {
    } else {
      OtherPoliciesRemoveNothing(s, t, need, order[1..]);
    }
  }

  // When anybody is removed

  /** The thresholds of preemption: the running task is at or below the limit, and at least 2 below the newcomer. */
  predicate Yields(s: State, priority: int, k: string) {
    k in s.running
    && s.running[k].priority <= s.config.maxVictimPriority && s.running[k].priority + 2 <= priority
  }

  /** Under the kill policy a submission kills somebody exactly if it fits nowhere, may preempt, and some running task
      yields to it; it kills nobody else. */
  lemma KillsSomebodyIff(s: State, task: Task, order: seq<string>, winner: Option<string>)
    requires SubmitEnabled(s, task, order, winner) && s.config.policy == Kill
    ensures KilledBy(s, task, order) != [] <==>
              && !Fits(s.gpus, Charge(task)) && s.config.enabled && task.priority >= s.config.minPriority
              && exists k :: Yields(s, task.priority, k)
    ensures forall k | k in KilledBy(s, task, order) :: Yields(s, task.priority, k)
  {
    var t, s1 := Admitted(s, task), Counted(s, task);
    assert forall k :: Yields(s, task.priority, k) <==> k in Victims(s1, t);
    if order != [] {
      VictimsAreShortestPrefix(s1, t, Charge(t), order);
      assert order[0] in (set k | k in order);
      forall k | k in KilledBy(s, task, order)
        ensures k in Victims(s1, t)
      {
        assert k in (set i | i in order);
      }
    } else if k :| Yields(s, task.priority, k) {
      assert k in Victims(s1, t);
    }
  }

  /** A refusal that leaves no room spares nobody who yields. */
  lemma RefusalSparesNobody(s: State, e: Event)
    requires e.Submit? && Enabled(s, e) && s.config.policy == Kill && e.winner.None?
    requires s.config.enabled && e.task.priority >= s.config.minPriority
    requires !HasRoom(Next(s, e).gpus, Charge(e.task))
    ensures forall k | k in Next(s, e).running :: !Yields(s, e.task.priority, k)
  {
    var t, s1 := Admitted(s, e.task), Counted(s, e.task);
    MakeRoomFrame(s1, t, Charge(t), e.order);
    assert forall k :: Yields(s, e.task.priority, k) <==> k in Victims(s1, t);
    if e.order != [] {
      VictimsAreShortestPrefix(s1, t, Charge(t), e.order);
      SurvivorsOutrankVictims(s1, t, Charge(t), e.order);
    }
  }

  /** With the settings the scheduler starts with, priority 7 just replaces priority 5. */
  lemma SevenReplacesFive(a: Event, b: Event)
    requires a == Submit(Task("", OtherKind, 5, 0, 20000, Pending), [], Some("1"), true)
    requires b == Submit(Task("", OtherKind, 7, 0, 20000, Pending), ["task-1"], Some("1"), true)
    ensures Legal(INITIAL, [a, b]) && Run(INITIAL, [a, b]).running.Keys == {"task-2"}
    ensures Run(INITIAL, [a, b]).gpus == INITIAL.gpus["1" := GpuRecord("1", Amd, 24576, 20000, 0.0, 1)]
  {
    FirstOnAmd(a);
    ReplacedOnAmd(Next(INITIAL, a), b, 5, 7);
    RunOfTwo(INITIAL, a, b);
  }

  // When preemption succeeds

  lemma FreeAfterKills(s: State, t: Task, ids: seq<string>, g: string)
    requires Among(ids, s.running) && g in s.gpus
    ensures g in KilledAll(s, t, ids).gpus
    ensures KilledAll(s, t, ids).gpus[g].FreeVRAM()
         == s.gpus[g].FreeVRAM() + Total(Raw, g, Only(s.running, (set k | k in ids)))
    ensures KilledAll(s, t, ids).gpus[g].IsHealthy() == s.gpus[g].IsHealthy()
  {
    KilledAllFrame(s, t, ids);
    KilledAllGap(Raw, s, t, ids, g);
    TotalSplit(Raw, g, s.running, (set k | k in ids));
    KilledAllHardware(s, t, ids, g);
  }

  lemma {:induction false} KilledAllHardware(s: State, t: Task, ids: seq<string>, g: string)
    requires Among(ids, s.running) && g in s.gpus
    ensures g in KilledAll(s, t, ids).gpus
    ensures var g' := KilledAll(s, t, ids).gpus[g];
            g'.util == s.gpus[g].util && g'.vramMB == s.gpus[g].vramMB && g'.kind == s.gpus[g].kind
    decreases |ids|
  {
    if ids == [] {
    } else {
      KilledAllHardware(KillOne(s, t, ids[0]), t, ids[1..], g);
    }
  }

  /** Removing more tasks never takes back room. */
  lemma MoreKillsMoreRoom(g: string, m: Running, few: set<string>, many: set<string>)
    requires few <= many <= m.Keys && forall k | k in many :: m[k].vramMB >= 0
    ensures Total(Raw, g, Only(m, few)) <= Total(Raw, g, Only(m, many))
  {
    TotalSplit(Raw, g, Only(m, many), few);
    assert Only(Only(m, many), few) == Only(m, few);
    TotalNonNegative(Raw, g, Only(m, many) - few);
  }

  /** Killing one task takes room from no GPU, whatever the pool, exactly if its size is not negative. */
  lemma KillFreesIff(v: Task)
    ensures (forall gpus: Pool, g :: g in gpus ==>
               g in KillFreed(gpus, v) && KillFreed(gpus, v)[g].FreeVRAM() >= gpus[g].FreeVRAM())
       <==> v.vramMB >= 0
  {
    if v.vramMB < 0 {
      var gpus: Pool := map[Host(v) := GpuRecord(Host(v), Unset, 1, 0, 0.0, 0)];
      assert Host(v) in gpus && KillFreed(gpus, v)[Host(v)].FreeVRAM() < gpus[Host(v)].FreeVRAM();
    }
  }

  /** Some GPU would have room if every task that may be preempted were gone. */
  ghost predicate CouldFit(s: State, t: Task, need: int) {
    exists g :: g in s.gpus && s.gpus[g].FreeVRAM() + Total(Raw, g, Only(s.running, Victims(s, t))) >= need
  }

  /** Some GPU has room once these tasks are gone. */
  ghost predicate FitsWithout(s: State, ids: seq<string>, need: int) {
    exists g :: g in s.gpus && s.gpus[g].FreeVRAM() + Total(Raw, g, Only(s.running, (set k | k in ids))) >= need
  }

  lemma RoomAfterKillsIff(s: State, t: Task, ids: seq<string>, need: int)
    requires Among(ids, s.running)
    ensures HasRoom(KilledAll(s, t, ids).gpus, need) <==> FitsWithout(s, ids, need)
  {
    KilledAllFrame(s, t, ids);
    forall g | g in s.gpus
      ensures g in KilledAll(s, t, ids).gpus
      ensures KilledAll(s, t, ids).gpus[g].FreeVRAM()
           == s.gpus[g].FreeVRAM() + Total(Raw, g, Only(s.running, (set k | k in ids)))
    {
      FreeAfterKills(s, t, ids, g);
    }
  }

  /** For all sizes: kill preemption finds room exactly if some nonempty prefix of the order, once gone, gives it. */
  lemma PreemptionSucceedsInOrderIff(s: State, t: Task, need: int, order: seq<string>)
    requires Among(order, s.running) && order != [] && s.config.policy == Kill
    ensures KillLoop(s, t, need, order).room <==> exists j :: 1 <= j <= |order| && FitsWithout(s, order[..j], need)
  {
    VictimsAreShortestPrefix(s, t, need, order);
    var n := KillLoop(s, t, need, order).killed;
    RoomAfterKillsIff(s, t, order[..n], need);
    if KillLoop(s, t, need, order).room {
      assert FitsWithout(s, order[..n], need);
    } else {
      NoPrefixFits(s, t, need, order);
    }
  }

  lemma NoPrefixFits(s: State, t: Task, need: int, order: seq<string>)
    requires Among(order, s.running) && order != [] && s.config.policy == Kill && !KillLoop(s, t, need, order).room
    ensures forall j | 1 <= j <= |order| :: !FitsWithout(s, order[..j], need)
  {
    VictimsAreShortestPrefix(s, t, need, order);
    forall j | 1 <= j <= |order|
      ensures !FitsWithout(s, order[..j], need)
    {
      RoomAfterKillsIff(s, t, order[..j], need);
    }
  }

  predicate VictimsSized(s: State, t: Task) {
    forall k | k in Victims(s, t) :: s.running[k].vramMB >= 0
  }

  /** Whether kill preemption finds room depends on the whole set of victims only, on no order and no tie. */
  lemma PreemptionSucceedsIff(s: State, t: Task, need: int, order: seq<string>)
    requires KillOrder(s, t, order) && order != [] && s.config.policy == Kill && VictimsSized(s, t)
    ensures KillLoop(s, t, need, order).room <==> CouldFit(s, t, need)
  {
    var o := KillLoop(s, t, need, order);
    VictimsAreShortestPrefix(s, t, need, order);
    var ids := order[..o.killed];
    forall g | g in s.gpus
      ensures g in o.st.gpus
      ensures o.st.gpus[g].FreeVRAM() <= s.gpus[g].FreeVRAM() + Total(Raw, g, Only(s.running, Victims(s, t)))
      ensures !o.room ==>
                o.st.gpus[g].FreeVRAM() == s.gpus[g].FreeVRAM() + Total(Raw, g, Only(s.running, Victims(s, t)))
    {
      FreeAfterKills(s, t, ids, g);
      assert forall k | k in ids :: k in order;
      MoreKillsMoreRoom(g, s.running, (set k | k in ids), Victims(s, t));
      if !o.room {
        assert ids == order;
      }
    }
    KilledAllFrame(s, t, ids);
    if o.room {
      var g :| g in o.st.gpus && o.st.gpus[g].FreeVRAM() >= need;
      assert g in s.gpus;
    }
  }

  // Which victims were needed

  /** Killing the other victims alone would have made room. */
  ghost predicate OthersSuffice(s: State, ids: seq<string>, k: string, need: int) {
    exists g :: g in s.gpus
      && s.gpus[g].FreeVRAM() + Total(Raw, g, Only(s.running, (set i | i in ids && i != k))) >= need
  }

  lemma FreeWithout(s: State, t: Task, ids: seq<string>, k: string, g: string)
    requires Among(ids, s.running) && k in ids && g in s.gpus
    ensures g in KilledAll(s, t, ids).gpus
    ensures s.gpus[g].FreeVRAM() + Total(Raw, g, Only(s.running, (set i | i in ids && i != k)))
         == KilledAll(s, t, ids).gpus[g].FreeVRAM() - Weight(Raw, g, s.running[k])
  {
    var all := Only(s.running, (set i | i in ids));
    FreeAfterKills(s, t, ids, g);
    TotalWithout(Raw, g, all, k);
    assert all - {k} == Only(s.running, (set i | i in ids && i != k));
  }

  lemma BeforeLastVictim(s: State, t: Task, need: int, order: seq<string>, n: nat, g: string)
    requires Among(order, s.running) && 1 <= n <= |order| && g in s.gpus
    requires !HasRoom(KilledAll(s, t, order[..n - 1]).gpus, need)
    ensures s.gpus[g].FreeVRAM() + Total(Raw, g, Only(s.running, (set i | i in order[..n] && i != order[n - 1]))) < need
  {
    var before, ids := order[..n - 1], order[..n];
    assert ids == before + [order[n - 1]];
    assert (set i | i in ids && i != order[n - 1]) == (set i | i in before);
    FreeAfterKills(s, t, before, g);
  }

  /** Where no GPU had room, the kills give room on one GPU only: that of the last victim. */
  lemma RoomIsWhereTheLastWas(s: State, t: Task, need: int, order: seq<string>)
    requires Among(order, s.running) && order != [] && s.config.policy == Kill
    requires KillLoop(s, t, need, order).room && !HasRoom(s.gpus, need)
    ensures var o := KillLoop(s, t, need, order);
            && 1 <= o.killed && Host(s.running[order[o.killed - 1]]) in s.gpus && o.st.gpus.Keys == s.gpus.Keys
            && forall g | g in s.gpus ::
                 o.st.gpus[g].FreeVRAM() >= need <==> g == Host(s.running[order[o.killed - 1]])
  {
    var o := KillLoop(s, t, need, order);
    VictimsAreShortestPrefix(s, t, need, order);
    var last := order[o.killed - 1];
    assert order[..0] == [];
    KilledAllFrame(s, t, order[..o.killed]);
    assert last == order[..o.killed][o.killed - 1];
    forall g | g in s.gpus
      ensures o.st.gpus[g].FreeVRAM() - Weight(Raw, g, s.running[last]) < need
    {
      BeforeLastVictim(s, t, need, order, o.killed, g);
      FreeWithout(s, t, order[..o.killed], last, g);
    }
  }

  /** Where no GPU had room before, a successful preemption could have spared a victim exactly if the victim ran on
      another GPU than the last one, or that GPU has room to spare for it, for all sizes; where some GPU had room (an
      unhealthy one), every victim of sizes that are not negative. The loop goes by priority across all GPUs, so it
      kills such tasks even where every GPU is healthy. */
  lemma VictimSparedIff(s: State, t: Task, need: int, order: seq<string>, ids: seq<string>, k: string)
    requires Among(order, s.running) && order != [] && s.config.policy == Kill
    requires KillLoop(s, t, need, order).room && ids == order[..KillLoop(s, t, need, order).killed] && k in ids
    ensures k in s.running && ids[|ids| - 1] in s.running
    ensures !HasRoom(s.gpus, need) ==>
              var gpus, h := KillLoop(s, t, need, order).st.gpus, Host(s.running[ids[|ids| - 1]]);
              && h in gpus
              && (OthersSuffice(s, ids, k, need) <==>
                    Host(s.running[k]) != h || gpus[h].FreeVRAM() - s.running[k].vramMB >= need)
    ensures HasRoom(s.gpus, need) && (forall i | i in ids :: s.running[i].vramMB >= 0) ==>
              OthersSuffice(s, ids, k, need)
  {
    if !HasRoom(s.gpus, need) {
      LastVictimDecides(s, t, need, order, ids);
      SparedIff(s, t, need, ids, k, Host(s.running[ids[|ids| - 1]]));
    } else if forall i | i in ids :: s.running[i].vramMB >= 0 {
      RoomStaysWithoutVictim(s, ids, k, need);
    }
  }

  lemma LastVictimDecides(s: State, t: Task, need: int, order: seq<string>, ids: seq<string>)
    requires Among(order, s.running) && order != [] && s.config.policy == Kill && !HasRoom(s.gpus, need)
    requires KillLoop(s, t, need, order).room && ids == order[..KillLoop(s, t, need, order).killed]
    ensures ids != [] && Among(ids, s.running) && Host(s.running[ids[|ids| - 1]]) in s.gpus
    ensures KillLoop(s, t, need, order).st == KilledAll(s, t, ids)
    ensures var gpus := KilledAll(s, t, ids).gpus;
            && gpus.Keys == s.gpus.Keys
            && forall g | g in s.gpus :: gpus[g].FreeVRAM() >= need <==> g == Host(s.running[ids[|ids| - 1]])
  {
    RoomIsWhereTheLastWas(s, t, need, order);
    KillLoopIsPrefix(s, t, need, order);
  }

  /** Without the victim `k`, each GPU would have so much less free memory. */
  ghost predicate LeavesOne(s: State, gpus: Pool, ids: seq<string>, k: string)
    requires k in s.running
  {
    forall g | g in s.gpus && g in gpus ::
      s.gpus[g].FreeVRAM() + Total(Raw, g, Only(s.running, (set i | i in ids && i != k)))
      == gpus[g].FreeVRAM() - Weight(Raw, g, s.running[k])
  }

  lemma KilledAllButOne(s: State, t: Task, ids: seq<string>, k: string)
    requires Among(ids, s.running) && k in ids
    ensures LeavesOne(s, KilledAll(s, t, ids).gpus, ids, k)
  {
    forall g | g in s.gpus
      ensures g in KilledAll(s, t, ids).gpus
      ensures s.gpus[g].FreeVRAM() + Total(Raw, g, Only(s.running, (set i | i in ids && i != k)))
           == KilledAll(s, t, ids).gpus[g].FreeVRAM() - Weight(Raw, g, s.running[k])
    {
      FreeWithout(s, t, ids, k, g);
    }
  }

  lemma SparedIff(s: State, t: Task, need: int, ids: seq<string>, k: string, h: string)
    requires Among(ids, s.running) && k in ids && h in s.gpus
    requires var gpus := KilledAll(s, t, ids).gpus;
             gpus.Keys == s.gpus.Keys && forall g | g in s.gpus :: gpus[g].FreeVRAM() >= need <==> g == h
    ensures h in KilledAll(s, t, ids).gpus
    ensures OthersSuffice(s, ids, k, need) <==>
              Host(s.running[k]) != h || KilledAll(s, t, ids).gpus[h].FreeVRAM() - s.running[k].vramMB >= need
  {
    KilledAllButOne(s, t, ids, k);
    SparedWithRoomOnOne(s, KilledAll(s, t, ids).gpus, ids, k, need, h);
  }

  lemma RoomStaysWithoutVictim(s: State, ids: seq<string>, k: string, need: int)
    requires HasRoom(s.gpus, need) && Among(ids, s.running) && forall i | i in ids :: s.running[i].vramMB >= 0
    ensures OthersSuffice(s, ids, k, need)
  {
    var g :| g in s.gpus && s.gpus[g].FreeVRAM() >= need;
    TotalNonNegative(Raw, g, Only(s.running, (set i | i in ids && i != k)));
  }

  lemma SparedWithRoomOnOne(s: State, gpus: Pool, ids: seq<string>, k: string, need: int, h: string)
    requires k in s.running && h in s.gpus && gpus.Keys == s.gpus.Keys
    requires forall g | g in s.gpus :: gpus[g].FreeVRAM() >= need <==> g == h
    requires LeavesOne(s, gpus, ids, k)
    ensures OthersSuffice(s, ids, k, need) <==>
              Host(s.running[k]) != h || gpus[h].FreeVRAM() - s.running[k].vramMB >= need
  {
  }

  // What success is worth

  predicate AllHealthy(gpus: Pool) {
    forall g | g in gpus :: gpus[g].IsHealthy()
  }

  lemma HealthyRoomFits(gpus: Pool, need: int)
    requires AllHealthy(gpus)
    ensures HasRoom(gpus, need) <==> Fits(gpus, need)
  {
    if HasRoom(gpus, need) {
      var g :| g in gpus && gpus[g].FreeVRAM() >= need;
      assert Eligible(gpus[g], need);
    }
  }

  lemma KillingKeepsHealth(s: State, t: Task, ids: seq<string>)
    requires Among(ids, s.running) && AllHealthy(s.gpus)
    ensures AllHealthy(KilledAll(s, t, ids).gpus)
  {
    KilledAllFrame(s, t, ids);
    forall g | g in s.gpus
      ensures g in KilledAll(s, t, ids).gpus && KilledAll(s, t, ids).gpus[g].IsHealthy()
    {
      FreeAfterKills(s, t, ids, g);
    }
  }

  /** On healthy GPUs a submission ends up running exactly when it fits at once or when it may preempt and removing
      everything it may preempt would make room. */
  lemma SubmissionRunsIff(s: State, task: Task, order: seq<string>, winner: Option<string>)
    requires SubmitEnabled(s, task, order, winner) && AllHealthy(s.gpus) && s.config.policy == Kill
    requires VictimsSized(s, Admitted(s, task))
    ensures winner.Some? <==>
              || Fits(s.gpus, Charge(task))
              || (Triggers(s, Admitted(s, task)) && CouldFit(s, Admitted(s, task), Charge(task)))
  {
    var t := Admitted(s, task);
    var s1 := Counted(s, task);
    var o := MadeRoom(s, task, order);
    MakeRoomFrame(s1, t, Charge(t), order);
    KillingKeepsHealth(s1, t, order[..o.killed]);
    HealthyRoomFits(o.st.gpus, Charge(t));
    SameVictims(s, task, Charge(t));
    if !Fits(s.gpus, Charge(t)) && Triggers(s1, t) {
      assert order != [] by {
        var k :| k in Victims(s1, t);
        assert k in order;
      }
      PreemptionSucceedsIff(s1, t, Charge(t), order);
      VictimsAreShortestPrefix(s1, t, Charge(t), order);
    }
  }

  lemma MakeRoomInOrderIff(s: State, t: Task, need: int, order: seq<string>)
    requires Among(order, s.running) && s.config.policy == Kill && (Fits(s.gpus, need) ==> order == [])
    ensures MakeRoom(s, t, need, order).room <==>
              Fits(s.gpus, need) || exists j :: 1 <= j <= |order| && FitsWithout(s, order[..j], need)
  {
    if !Fits(s.gpus, need) && order != [] {
      PreemptionSucceedsInOrderIff(s, t, need, order);
    }
  }

  lemma HealthySubmissionRunsIff(s: State, task: Task, order: seq<string>, winner: Option<string>)
    requires SubmitEnabled(s, task, order, winner) && AllHealthy(s.gpus) && s.config.policy == Kill
    ensures winner.Some? <==> MadeRoom(s, task, order).room
  {
    var t, s1, o := Admitted(s, task), Counted(s, task), MadeRoom(s, task, order);
    if !Fits(s.gpus, Charge(task)) && order != [] {
      VictimsAreShortestPrefix(s1, t, Charge(t), order);
      KillingKeepsHealth(s1, t, order[..o.killed]);
      HealthyRoomFits(o.st.gpus, Charge(t));
    }
  }

  /** For all sizes: the same with the order in which the candidates come. */
  lemma SubmissionRunsInOrderIff(s: State, task: Task, order: seq<string>, winner: Option<string>)
    requires SubmitEnabled(s, task, order, winner) && AllHealthy(s.gpus) && s.config.policy == Kill
    ensures winner.Some? <==>
              || Fits(s.gpus, Charge(task))
              || exists j :: 1 <= j <= |order| && FitsWithout(s, order[..j], Charge(task))
  {
    var s1 := Counted(s, task);
    HealthySubmissionRunsIff(s, task, order, winner);
    MakeRoomInOrderIff(s1, Admitted(s, task), Charge(task), order);
    forall ids
      ensures FitsWithout(s1, ids, Charge(task)) <==> FitsWithout(s, ids, Charge(task))
    {
    }
  }

  lemma SameVictims(s: State, task: Task, need: int)
    ensures var t := Admitted(s, task);
            && Victims(Counted(s, task), t) == Victims(s, t)
            && (CouldFit(Counted(s, task), t, need) <==> CouldFit(s, t, need))
            && (Triggers(Counted(s, task), t) <==> Triggers(s, t))
  {
    var t := Admitted(s, task);
    assert Victims(Counted(s, task), t) == Victims(s, t);
  }

  /** With the running tasks `m`: whenever killing in the order finds room, the retry finds a GPU. */
  predicate RetryWorks(s: State, t: Task, need: int, m: Running, order: seq<string>) {
    var s' := s.(running := m);
    KillOrder(s', t, order) && order != [] && KillLoop(s', t, need, order).room ==>
      Fits(KillLoop(s', t, need, order).st.gpus, need)
  }

  /** On healthy GPUs room found by preemption is room for the retry, whatever is running. */
  lemma HealthyRetryWorks(s: State, t: Task, need: int, m: Running, order: seq<string>)
    requires s.config.policy == Kill && AllHealthy(s.gpus)
    ensures RetryWorks(s, t, need, m, order)
  {
    var s' := s.(running := m);
    if KillOrder(s', t, order) && order != [] {
      VictimsAreShortestPrefix(s', t, need, order);
      var o := KillLoop(s', t, need, order);
      KillingKeepsHealth(s', t, order[..o.killed]);
      HealthyRoomFits(o.st.gpus, need);
    }
  }

  /** The running tasks `m` are covered by what is booked, and none has a negative size. */
  ghost predicate Plausible(s: State, m: Running) {
    Backed(s.(running := m)) && forall k | k in m :: m[k].vramMB >= 0
  }

  /** Kills cannot make this GPU look roomy: it has no room yet, and is too small ever to have it or has no task in its
      books that could be killed. */
  predicate NeverRoomy(g: Gpu, need: int) {
    g.FreeVRAM() < need && (g.vramMB < need || g.running <= 0)
  }

  predicate HealthyOrNeverRoomy(gpus: Pool, need: int) {
    forall g | g in gpus :: gpus[g].IsHealthy() || NeverRoomy(gpus[g], need)
  }

  /** Among covered running tasks, room found by preemption is room for the retry exactly if each unhealthy GPU can
      never look roomy: the check for room does not look at health, so any other unhealthy GPU can cost a task its
      life for nothing. Some number names no GPU, as a promoted task may have it stored. */
  lemma ProgressIff(s: State, t: Task, need: int, spare: Int64)
    requires s.config.policy == Kill && !Fits(s.gpus, need) && Backed(s.(running := map[]))
    requires (forall g | g in s.gpus :: Canonical(g)) && Itoa(spare) !in s.gpus
    ensures (forall m: Running, order: seq<string> | Plausible(s, m) :: RetryWorks(s, t, need, m, order))
       <==> HealthyOrNeverRoomy(s.gpus, need)
  {
    if HealthyOrNeverRoomy(s.gpus, need) {
      forall m: Running, order: seq<string> | Plausible(s, m)
        ensures RetryWorks(s, t, need, m, order)
      {
        PlausibleRetryWorks(s, t, need, m, order);
      }
    } else {
      var u :| u in s.gpus && !s.gpus[u].IsHealthy() && !NeverRoomy(s.gpus[u], need);
      CanonicalIff(u);
      var m, order := DiesForNothing(s, t, need, u, Atoi(u).value, spare);
      assert Plausible(s, m) && !RetryWorks(s, t, need, m, order);
    }
  }

  /** Kills never free more than the running tasks were charged, and nothing where none of them is. */
  lemma {:induction false} RawWithinBooked(g: string, m: Running)
    requires forall k | k in m :: m[k].vramMB >= 0
    ensures 0 <= Total(Raw, g, m) <= Total(Mem, g, m) && Total(Count, g, m) >= 0
    ensures Total(Count, g, m) == 0 ==> Total(Raw, g, m) == 0
    decreases |m|
  {
    if m == map[] {
    } else {
      var k :| k in m;
      TotalWithout(Raw, g, m, k);
      TotalWithout(Mem, g, m, k);
      TotalWithout(Count, g, m, k);
      RawWithinBooked(g, m - {k});
    }
  }

  lemma NeverRoomyStays(s: State, t: Task, need: int, ids: seq<string>, g: string)
    requires Among(ids, s.running) && g in s.gpus && NeverRoomy(s.gpus[g], need)
    requires Plausible(s, s.running)
    ensures g in KilledAll(s, t, ids).gpus && KilledAll(s, t, ids).gpus[g].FreeVRAM() < need
  {
    FreeAfterKills(s, t, ids, g);
    MoreKillsMoreRoom(g, s.running, (set k | k in ids), s.running.Keys);
    assert Only(s.running, s.running.Keys) == s.running;
    RawWithinBooked(g, s.running);
    assert s.(running := s.running) == s;
    assert Gap(Mem, s, g) >= 0 && Gap(Count, s, g) >= 0;
  }

  lemma PlausibleRetryWorks(s: State, t: Task, need: int, m: Running, order: seq<string>)
    requires s.config.policy == Kill && HealthyOrNeverRoomy(s.gpus, need) && Plausible(s, m)
    ensures RetryWorks(s, t, need, m, order)
  {
    var s' := s.(running := m);
    if KillOrder(s', t, order) && order != [] && KillLoop(s', t, need, order).room {
      VictimsAreShortestPrefix(s', t, need, order);
      var o := KillLoop(s', t, need, order);
      var ids := order[..o.killed];
      KilledAllFrame(s', t, ids);
      var g :| g in o.st.gpus && o.st.gpus[g].FreeVRAM() >= need;
      if NeverRoomy(s.gpus[g], need) {
        NeverRoomyStays(s', t, need, ids, g);
      } else {
        FreeAfterKills(s', t, ids, g);
        assert Eligible(o.st.gpus[g], need);
      }
    }
  }

  /** One running task that may be preempted, with room for the newcomer on the unhealthy GPU once it is gone. */
  lemma DiesForNothing(s: State, t: Task, need: int, u: string, n: Int64, spare: Int64)
    returns (m: Running, order: seq<string>)
    requires s.config.policy == Kill && !Fits(s.gpus, need) && Backed(s.(running := map[]))
    requires u in s.gpus && !s.gpus[u].IsHealthy() && !NeverRoomy(s.gpus[u], need)
    requires Itoa(n) == u && Itoa(spare) !in s.gpus
    ensures Plausible(s, m) && !RetryWorks(s, t, need, m, order)
  {
    var max := s.config.maxVictimPriority;
    var priority := if max < t.priority - 2 then max else t.priority - 2;
    var short := s.gpus[u].FreeVRAM() < need;
    var size := if short then need - s.gpus[u].FreeVRAM() else 0;
    var v := Task("v", OtherKind, priority, if short then n else spare, size, Status.Running);
    m, order := map["v" := v], ["v"];
    OneTaskIsPlausible(s, m, v);
    DyingFindsRoom(s, t, need, u, v);
  }

  lemma OneTaskIsPlausible(s: State, m: Running, v: Task)
    requires Backed(s.(running := map[])) && m == map["v" := v] && v.vramMB >= 0
    requires Host(v) in s.gpus ==> Charge(v) <= s.gpus[Host(v)].usedMB && 1 <= s.gpus[Host(v)].running
    ensures Plausible(s, m)
  {
    assert m - {"v"} == map[];
    forall q, g | g in s.gpus
      ensures Gap(q, s.(running := m), g) == Gap(q, s.(running := map[]), g) - Weight(q, g, v)
    {
      TotalWithout(q, g, m, "v");
    }
  }

  lemma DyingFindsRoom(s: State, t: Task, need: int, u: string, v: Task)
    requires s.config.policy == Kill && !Fits(s.gpus, need) && MayPreempt(s, t, v)
    requires u in s.gpus && !s.gpus[u].IsHealthy()
    requires if Host(v) in s.gpus then Host(v) == u && s.gpus[u].FreeVRAM() + v.vramMB >= need
             else s.gpus[u].FreeVRAM() >= need
    ensures !RetryWorks(s, t, need, map["v" := v], ["v"])
  {
    var s' := s.(running := map["v" := v]);
    var order := ["v"];
    assert Victims(s', t) == {"v"} && (set k | k in order) == {"v"};
    assert KillOrder(s', t, order);
    var s'' := KillOne(s', t, "v");
    assert s''.gpus[u].FreeVRAM() >= need;
    assert KillLoop(s', t, need, order) == Outcome(s'', 1, true);
    assert forall g | g in s.gpus :: !Eligible(s.gpus[g], need);
    assert !Fits(s''.gpus, need);
  }

  /** Such a run from the start: a 20000 MB task runs on GPU "1", the monitor reports that GPU out of order, and a
      preemptor of the same size kills the task and is queued all the same: nothing runs any more. */
  lemma VictimDiesForNothing(a: Task, b: Task, es: seq<Event>)
    requires a == Task("", OtherKind, 1, 0, 20000, Pending) && b == Task("", OtherKind, 10, 0, 20000, Pending)
    requires es == [Submit(a, [], Some("1"), true), Monitor("1", 20000, 101.0, 1), Submit(b, ["task-1"], None, false)]
    ensures Legal(INITIAL, es)
    ensures var s := Run(INITIAL, es);
            && s.running == map[] && s.pending == [b.(id := "task-2")]
            && |s.history| == 1 && s.history[0].victim.id == "task-1" && s.history[0].preemptor.id == "task-2"
            && s.gpus == INITIAL.gpus["1" := GpuRecord("1", Amd, 24576, 0, 101.0, 0)]
  {
    FirstOnAmd(es[0]);
    var s2 := Next(Next(INITIAL, es[0]), es[1]);
    KilledOnUnhealthyAmd(s2, b);
    RunOfThree(INITIAL, es[0], es[1], es[2]);
  }

  lemma KilledOnUnhealthyAmd(s: State, b: Task)
    requires s.gpus == INITIAL.gpus["1" := GpuRecord("1", Amd, 24576, 20000, 101.0, 1)]
    requires s.running == map["task-1" := Task("task-1", OtherKind, 1, 1, 20000, Status.Running)]
    requires s == INITIAL.(gpus := s.gpus, running := s.running, counter := 1)
    requires b == Task("", OtherKind, 10, 0, 20000, Pending)
    ensures var e := Submit(b, ["task-1"], None, false);
            && Enabled(s, e)
            && var s' := Next(s, e);
               && s'.running == map[] && s'.pending == [b.(id := "task-2")]
               && |s'.history| == 1 && s'.history[0].victim.id == "task-1" && s'.history[0].preemptor.id == "task-2"
               && s'.gpus == INITIAL.gpus["1" := GpuRecord("1", Amd, 24576, 0, 101.0, 0)]
  {
    FirstNames();
    var v := s.running["task-1"];
    HostedOnAmd(v);
    assert KillFreed(s.gpus, v) == INITIAL.gpus["1" := GpuRecord("1", Amd, 24576, 0, 101.0, 0)];
    KilledInVain(s, b, "task-1", false);
  }

  /** A full AMD GPU, and two tasks on the NVIDIA one, the second of them of negative size. */
  predicate NegativeBeside(s: State) {
    && s.gpus.Keys == {"0", "1"} && s.running.Keys == {"task-1", "task-2", "task-3"}
    && s.gpus["0"] == GpuRecord("0", Nvidia, 16384, 14096, 0.0, 2)
    && s.gpus["1"] == GpuRecord("1", Amd, 24576, 24576, 0.0, 1)
    && s.running["task-1"] == Task("task-1", OtherKind, 6, 1, 24576, Status.Running)
    && s.running["task-2"] == Task("task-2", OtherKind, 1, 0, 10000, Status.Running)
    && s.running["task-3"] == Task("task-3", OtherKind, 2, 0, -5000, Status.Running)
    && s.config == INITIAL.config
  }

  /** With negative sizes the order matters: the kill of 10000 MB makes room for 9000 MB at once, although both
      candidates together would not. */
  lemma NegativeVictimMisleads(s: State, t: Task, order: seq<string>)
    requires NegativeBeside(s) && t.priority == 10 && order == ["task-2", "task-3"]
    ensures KillOrder(s, t, order) && KillLoop(s, t, 9000, order).room && !CouldFit(s, t, 9000)
  {
    FirstNames();
    assert Victims(s, t) == {"task-2", "task-3"} && (set k | k in order) == {"task-2", "task-3"};
    var s' := KillOne(s, t, "task-2");
    assert Host(s.running["task-2"]) == "0";
    assert s'.gpus["0"].FreeVRAM() >= 9000;
    NegativeTotals(s);
  }

  /** The AMD GPU is full, and so much of the NVIDIA one is booked. */
  predicate AmdFull(s: State, tasks: nat, usedMB: int) {
    && s.gpus.Keys == {"0", "1"}
    && s.gpus["0"] == GpuRecord("0", Nvidia, 16384, usedMB, 0.0, tasks)
    && s.gpus["1"] == GpuRecord("1", Amd, 24576, 24576, 0.0, 1)
    && "task-1" in s.running && s.running["task-1"] == Task("task-1", OtherKind, 6, 1, 24576, Status.Running)
    && s.counter == tasks + 1 && s.config == INITIAL.config && s.policy == Binpack && s.gpuCount == 2
  }

  lemma NextOnNvidia(s: State, e: Event, tasks: nat, usedMB: int)
    requires AmdFull(s, tasks, usedMB) && TaskName(tasks + 2) != "task-1"
    requires e.Submit? && e.order == [] && e.winner == Some("0") && e.started && e.task.id == ""
    requires Charge(e.task) <= 16384 - usedMB
    ensures Enabled(s, e) && AmdFull(Next(s, e), tasks + 1, usedMB + Charge(e.task))
    ensures var id := TaskName(tasks + 2);
            Next(s, e).running == s.running[id := e.task.(id := id, gpuReq := 0, status := Status.Running)]
  {
    FirstNames();
    assert Eligible(s.gpus["0"], Charge(e.task)) && !Eligible(s.gpus["1"], Charge(e.task));
    assert IsWinner(s.gpus, Wanted(s, Admitted(s, e.task)), s.gpuCount, "0");
    PlacedAtOnce(s, e, "0");
  }

  predicate PositiveBeside(s: State) {
    && AmdFull(s, 1, 10000) && s.running.Keys == {"task-1", "task-2"}
    && s.running["task-2"] == Task("task-2", OtherKind, 1, 0, 10000, Status.Running)
  }

  lemma PositiveOnNvidia(s: State, b: Event)
    requires AmdFull(s, 0, 0) && s.running.Keys == {"task-1"}
    requires b == Submit(Task("", OtherKind, 1, 0, 10000, Pending), [], Some("0"), true)
    ensures Enabled(s, b)
    ensures PositiveBeside(Next(s, b))
  {
    FirstNames();
    NextOnNvidia(s, b, 0, 0);
  }

  lemma NegativeOnNvidia(s: State, c: Event)
    requires PositiveBeside(s)
    requires c == Submit(Task("", OtherKind, 2, 0, -5000, Pending), [], Some("0"), true)
    ensures Enabled(s, c)
    ensures NegativeBeside(Next(s, c))
  {
    FirstNames();
    NextOnNvidia(s, c, 1, 10000);
  }

  /** The state is reached from the start by three submissions. */
  lemma NegativeBesideReached(a: Event, b: Event, c: Event)
    requires a == Submit(Task("", OtherKind, 6, 0, 24576, Pending), [], Some("1"), true)
    requires b == Submit(Task("", OtherKind, 1, 0, 10000, Pending), [], Some("0"), true)
    requires c == Submit(Task("", OtherKind, 2, 0, -5000, Pending), [], Some("0"), true)
    ensures Legal(INITIAL, [a, b, c]) && NegativeBeside(Run(INITIAL, [a, b, c]))
  {
    FirstOnAmd(a);
    PositiveOnNvidia(Next(INITIAL, a), b);
    NegativeOnNvidia(Next(Next(INITIAL, a), b), c);
    RunOfThree(INITIAL, a, b, c);
  }

  lemma NegativeTotals(s: State)
    requires NegativeBeside(s)
    ensures Total(Raw, "0", Only(s.running, {"task-2", "task-3"})) == 5000
    ensures Total(Raw, "1", Only(s.running, {"task-2", "task-3"})) == 0
  {
    FirstNames();
    var m := Only(s.running, {"task-2", "task-3"});
    forall g
      ensures Total(Raw, g, m) == Weight(Raw, g, m["task-2"]) + Weight(Raw, g, m["task-3"])
    {
      TotalWithout(Raw, g, m, "task-2");
      TotalWithout(Raw, g, m - {"task-2"}, "task-3");
      assert m - {"task-2"} - {"task-3"} == map[];
    }
    assert Host(m["task-2"]) == "0" && Host(m["task-3"]) == "0";
  }

  /** One task on each GPU of the scheduler. */
  predicate TwoFull(s: State) {
    && s.gpus.Keys == {"0", "1"} && s.running.Keys == {"task-1", "task-2"}
    && s.gpus["0"] == GpuRecord("0", Nvidia, 16384, 16000, 0.0, 1)
    && s.gpus["1"] == GpuRecord("1", Amd, 24576, 24576, 0.0, 1)
    && s.running["task-1"] == Task("task-1", OtherKind, 1, 0, 16000, Status.Running)
    && s.running["task-2"] == Task("task-2", OtherKind, 2, 1, 24576, Status.Running)
    && s.config == INITIAL.config && s.policy == Binpack && s.gpuCount == 2 && s.counter == 2 && s.history == []
  }

  lemma SecondOnAmd(s: State, e: Event)
    requires s.gpus == INITIAL.gpus["0" := GpuRecord("0", Nvidia, 16384, 16000, 0.0, 1)]
    requires s.running == map["task-1" := Task("task-1", OtherKind, 1, 0, 16000, Status.Running)]
    requires s == INITIAL.(gpus := s.gpus, running := s.running, counter := 1)
    requires e == Submit(Task("", OtherKind, 2, 0, 24576, Pending), [], Some("1"), true)
    ensures Enabled(s, e) && TwoFull(Next(s, e))
  {
    FirstNames();
    var t := e.task.(id := "task-2");
    assert Admitted(s, e.task) == t && ParsedHost("1", t.gpuReq) == 1;
    assert Eligible(s.gpus["1"], 24576) && !Eligible(s.gpus["0"], 24576);
    assert IsWinner(s.gpus, Wanted(s, t), s.gpuCount, "1");
    PlacedAtOnce(s, e, "1");
  }

  /** What the two kills free, one GPU each: only the second gives room for 20000 MB. */
  lemma TwoFullFreed(s: State)
    requires TwoFull(s)
    ensures !HasRoom(s.gpus, 20000)
    ensures var gpus := KillFreed(s.gpus, s.running["task-1"]);
            !HasRoom(gpus, 20000) && KillFreed(gpus, s.running["task-2"]) == INITIAL.gpus
    ensures HasRoom(INITIAL.gpus, 20000)
  {
    assert INITIAL.gpus["1"].FreeVRAM() >= 20000;
    FirstNames();
    var gpus := KillFreed(s.gpus, s.running["task-1"]);
    assert gpus["0"] == INITIAL.gpus["0"] && gpus["1"] == s.gpus["1"];
    HostedOnAmd(s.running["task-2"]);
  }

  lemma TwoFullCandidates(s: State, c: Task)
    requires TwoFull(s) && c == Task("", OtherKind, 10, 0, 20000, Pending)
    ensures TwoCandidates(s, c, "task-1", "task-2")
    ensures KillFreed(KillFreed(s.gpus, s.running["task-1"]), s.running["task-2"]) == INITIAL.gpus
  {
    TwoFullFreed(s);
    assert !Fits(s.gpus, 20000);
  }

  lemma ThirdName(s: State, t: Task)
    requires s.counter == 2 && t.id == ""
    ensures Admitted(s, t).id == "task-3"
  {
    FirstNames();
  }

  predicate OnlyThirdRuns(s: State) {
    s.running.Keys == {"task-3"} && |s.history| == 2 && s.gpus == INITIAL.gpus["1" := Loaded(INITIAL.gpus["1"], 20000)]
  }

  lemma ReplacesBoth(s: State, e: Event)
    requires TwoFull(s)
    requires e == Submit(Task("", OtherKind, 10, 0, 20000, Pending), ["task-1", "task-2"], Some("1"), true)
    ensures Enabled(s, e)
    ensures OnlyThirdRuns(Next(s, e))
  {
    TwoFullCandidates(s, e.task);
    ThirdName(s, e.task);
    AmdReplaces(s, e, "task-1", "task-2");
    OnlyThirdRunsThen(s, e, "task-1", "task-2");
  }

  lemma AmdReplaces(s: State, e: Event, k: string, l: string)
    requires e.Submit? && e.order == [k, l] && e.winner == Some("1") && TwoCandidates(s, e.task, k, l)
    requires KillFreed(KillFreed(s.gpus, s.running[k]), s.running[l]) == INITIAL.gpus
    requires Charge(e.task) == 20000 && e.task.kind == OtherKind && s.policy == Binpack && s.gpuCount == 2
    ensures Enabled(s, e) && IsWinner(INITIAL.gpus, Wanted(s, Admitted(s, e.task)), s.gpuCount, "1")
  {
    InitialWinners(Wanted(s, Admitted(s, e.task)));
    BothReplaced(s, e, k, l, INITIAL.gpus, "1");
  }

  lemma OnlyThirdRunsThen(s: State, e: Event, k: string, l: string)
    requires e.Submit? && e.order == [k, l] && e.winner == Some("1") && TwoCandidates(s, e.task, k, l)
    requires KillFreed(KillFreed(s.gpus, s.running[k]), s.running[l]) == INITIAL.gpus
    requires Enabled(s, e) && IsWinner(INITIAL.gpus, Wanted(s, Admitted(s, e.task)), s.gpuCount, "1")
    requires Charge(e.task) == 20000 && s.history == [] && Admitted(s, e.task).id == "task-3"
    ensures OnlyThirdRuns(Next(s, e))
  {
    BothReplaced(s, e, k, l, INITIAL.gpus, "1");
  }

  lemma TwoFullReached(a: Event, b: Event)
    requires a == Submit(Task("", OtherKind, 1, 0, 16000, Pending), [], Some("0"), true)
    requires b == Submit(Task("", OtherKind, 2, 0, 24576, Pending), [], Some("1"), true)
    ensures Enabled(INITIAL, a) && Enabled(Next(INITIAL, a), b) && TwoFull(Next(Next(INITIAL, a), b))
  {
    FirstOnNvidia(a);
    SecondOnAmd(Next(INITIAL, a), b);
  }

  /** A run from the start with healthy GPUs: the preemptor kills the task on GPU "0", which is too small for it, before
      the one on GPU "1", where it then runs. GPU "0" stays idle. */
  lemma VictimOnTheWrongGpu(a: Event, b: Event, c: Event)
    requires a == Submit(Task("", OtherKind, 1, 0, 16000, Pending), [], Some("0"), true)
    requires b == Submit(Task("", OtherKind, 2, 0, 24576, Pending), [], Some("1"), true)
    requires c == Submit(Task("", OtherKind, 10, 0, 20000, Pending), ["task-1", "task-2"], Some("1"), true)
    ensures Legal(INITIAL, [a, b, c]) && OnlyThirdRuns(Run(INITIAL, [a, b, c]))
    ensures Legal(INITIAL, [a, b]) && OthersSuffice(Run(INITIAL, [a, b]), c.order, "task-1", Charge(c.task))
  {
    TwoFullReached(a, b);
    var s := Next(Next(INITIAL, a), b);
    RunOfTwo(INITIAL, a, b);
    SparedOnTheWrongGpu(s, c.task);
    ReplacesBoth(s, c);
    RunOfThree(INITIAL, a, b, c);
  }

  lemma SparedOnTheWrongGpu(s: State, c: Task)
    requires TwoFull(s) && c == Task("", OtherKind, 10, 0, 20000, Pending)
    ensures OthersSuffice(s, ["task-1", "task-2"], "task-1", 20000)
  {
    var order := ["task-1", "task-2"];
    var few := Only(s.running, (set i | i in order && i != "task-1"));
    HostedOnAmd(s.running["task-2"]);
    TotalWithout(Raw, "1", few, "task-2");
    assert few - {"task-2"} == map[];
    assert s.gpus["1"].FreeVRAM() + Total(Raw, "1", few) >= 20000;
  }

  // Preemption records

  /** Every recorded preemptor outranks its victim by at least 2. */
  predicate Outranks(r: Record) {
    r.preemptor.priority - r.victim.priority >= 2
  }

  predicate Outranked(history: seq<Record>) {
    forall i | 0 <= i < |history| :: Outranks(history[i])
  }

  lemma {:induction false} KilledAllHistory(s: State, t: Task, ids: seq<string>)
    requires Among(ids, s.running)
    ensures var h := KilledAll(s, t, ids).history;
            && |h| == |s.history| + |ids| && h[..|s.history|] == s.history
            && forall i | 0 <= i < |ids| ::
                 h[|s.history| + i] == Record(t, s.running[ids[i]].(status := Killed), Host(s.running[ids[i]]))
    decreases |ids|
  {
    if ids == [] {
    } else {
      var s' := KillOne(s, t, ids[0]);
      KilledAllHistory(s', t, ids[1..]);
      var h := KilledAll(s, t, ids).history;
      assert h[|s.history|] == h[..|s'.history|][|s.history|];
      assert h[..|s.history|] == h[..|s'.history|][..|s.history|];
      forall i | 1 <= i < |ids|
        ensures h[|s.history| + i] == Record(t, s.running[ids[i]].(status := Killed), Host(s.running[ids[i]]))
      {
        assert ids[i] == ids[1..][i - 1];
      }
    }
  }

  lemma {:induction false} KilledAllOutranked(s: State, t: Task, ids: seq<string>)
    requires Among(ids, s.running) && Outranked(s.history)
    requires forall i | 0 <= i < |ids| :: t.priority - s.running[ids[i]].priority >= 2
    ensures Outranked(KilledAll(s, t, ids).history)
    decreases |ids|
  {
    if ids == [] {
    } else {
      KilledAllOutranked(KillOne(s, t, ids[0]), t, ids[1..]);
    }
  }

  /** The history only grows, by one record per victim in kill order, and every record is an outranking. */
  lemma StepHistory(s: State, e: Event)
    requires Enabled(s, e) && Outranked(s.history)
    ensures var h := Next(s, e).history; |h| >= |s.history| && h[..|s.history|] == s.history && Outranked(h)
    ensures e.Submit? ==> |Next(s, e).history| == |s.history| + |KilledBy(s, e.task, e.order)|
    ensures !e.Submit? ==> Next(s, e).history == s.history
  {
    if e.Submit? {
      var t := Admitted(s, e.task);
      var s1 := Counted(s, e.task);
      var ids := KilledBy(s, e.task, e.order);
      MakeRoomFrame(s1, t, Charge(t), e.order);
      KilledAllHistory(s1, t, ids);
      forall i | 0 <= i < |ids|
        ensures t.priority - s1.running[ids[i]].priority >= 2
      {
        assert ids[i] == e.order[i] && ids[i] in Victims(s1, t);
      }
      KilledAllOutranked(s1, t, ids);
    }
  }

  lemma {:induction false} RunHistory(s: State, es: seq<Event>)
    requires Legal(s, es) && Outranked(s.history)
    ensures var h := Run(s, es).history; |h| >= |s.history| && h[..|s.history|] == s.history && Outranked(h)
    decreases |es|
  {
    if es == [] {
    } else {
      var s' := Next(s, es[0]);
      StepHistory(s, es[0]);
      RunHistory(s', es[1..]);
      var h := Run(s, es).history;
      assert h[..|s.history|] == h[..|s'.history|][..|s.history|];
    }
  }
}
