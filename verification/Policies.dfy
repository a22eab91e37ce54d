/** What the binpack and spread policies do over runs of submissions. */
module Policies {
  import opened Wrappers
  import opened Types
  import opened Scoring
  import opened Selection
  import opened Machine
  import opened Preemption

  // Binpack

  /** A submission of the given kind and charge, at any priority. */
  predicate Like(e: Event, kind: TaskKind, v: int) {
    e.Submit? && e.task.kind == kind && Charge(e.task) == v
  }

  predicate AllLike(es: seq<Event>, kind: TaskKind, v: int) {
    forall i | 0 <= i < |es| :: Like(es[i], kind, v)
  }

  /** `g` takes every submission of the run until it has no room for one more. */
  predicate LandsOn(s: State, es: seq<Event>, g: string, v: int)
    requires Legal(s, es)
    decreases |es|
  {
    es == [] || g !in s.gpus || !Eligible(s.gpus[g], v) ||
    (es[0].Submit? && es[0].winner == Some(g) && LandsOn(Next(s, es[0]), es[1..], g, v))
  }

  /** `g` strictly outscores every other GPU with room for such a task, whatever its priority. */
  predicate Attracts(s: State, g: string, kind: TaskKind, v: int) {
    && g in s.gpus
    && forall k | k in s.gpus && k != g && Eligible(s.gpus[k], v) ::
         Score(s.gpus[k], Criteria(v, Unset, kind, 0, s.policy), s.gpuCount)
         < Score(s.gpus[g], Criteria(v, Unset, kind, 0, s.policy), s.gpuCount)
  }

  /** While it has room, the attractor is the only winner. */
  lemma AttractorWins(s: State, g: string, e: Event, kind: TaskKind, v: int)
    requires Attracts(s, g, kind, v) && Enabled(s, e) && Like(e, kind, v) && Eligible(s.gpus[g], v)
    ensures e.winner == Some(g) && IsWinner(s.gpus, Wanted(s, Admitted(s, e.task)), s.gpuCount, g)
    ensures Next(s, e) == Placed(Counted(s, e.task), Admitted(s, e.task), g, e.started)
  {
    FittingTaskIsPlaced(s, e);
    PriorityNeverDecides(s.gpus[g], s.gpus[e.winner.value], Wanted(s, Admitted(s, e.task)), 0, s.gpuCount);
  }

  /** A winner large enough is more attractive after it was loaded than before. */
  lemma LoadedWinnerAttracts(s: State, t: Task, g: string, started: bool)
    requires s.policy == Binpack && IsWinner(s.gpus, Wanted(s, t), s.gpuCount, g)
    requires 3 * s.gpuCount * Charge(t) < s.gpus[g].vramMB
    ensures Attracts(Placed(s, t, g, started), g, t.kind, Charge(t))
  {
    var c := Wanted(s, t);
    var c0 := c.(priority := 0);
    LoadedShift(s.gpus[g], Charge(t), c0, s.gpuCount);
    ShareCompare(Charge(t), s.gpus[g].vramMB, s.gpuCount);
    WinnersIgnorePriority(s.gpus, c, 0, s.gpuCount, g);
    assert Placed(s, t, g, started).gpus[g] == Loaded(s.gpus[g], Charge(t));
  }

  lemma {:induction false} AttractorFills(s: State, es: seq<Event>, g: string, kind: TaskKind, v: int)
    requires Legal(s, es) && AllLike(es, kind, v) && s.policy == Binpack
    requires Attracts(s, g, kind, v) && 3 * s.gpuCount * v < s.gpus[g].vramMB
    ensures LandsOn(s, es, g, v)
    decreases |es|
  {
    if es == [] || !Eligible(s.gpus[g], v) {
    } else {
      var e := es[0];
      AttractorWins(s, g, e, kind, v);
      LoadedWinnerAttracts(Counted(s, e.task), Admitted(s, e.task), g, e.started);
      AttractorFills(Next(s, e), es[1..], g, kind, v);
    }
  }

  /** Binpack fills one GPU first: a GPU chosen once, and large enough for three times the fleet's demand, takes every
      later submission of that kind and size until it has no room. */
  lemma BinpackFillsOneFirst(s: State, es: seq<Event>, g: string, kind: TaskKind, v: int)
    requires es != [] && Legal(s, es) && AllLike(es, kind, v) && s.policy == Binpack
    requires es[0].winner == Some(g) && g in s.gpus && 3 * s.gpuCount * v < s.gpus[g].vramMB
    ensures LandsOn(Next(s, es[0]), es[1..], g, v)
  {
    var e := es[0];
    var t := Admitted(s, e.task);
    var made := MadeRoom(s, e.task, e.order).st;
    MakeRoomFrame(Counted(s, e.task), t, v, e.order);
    KilledAllHardware(Counted(s, e.task), t, KilledBy(s, e.task, e.order), g);
    LoadedWinnerAttracts(made, t, g, e.started);
    AttractorFills(Next(s, e), es[1..], g, kind, v);
  }

  predicate OnlyWinner(pool: Pool, c: Criteria, gpuCount: Pos, g: string) {
    forall k | k in pool && IsWinner(pool, c, gpuCount, k) :: k == g
  }

  /** In a pool where `g` may be chosen and has room for two tasks, it is the only choice for the second one. */
  predicate PullsSecond(g: Gpu, c: Criteria, gpuCount: Pos, pool: Pool) {
    g.id in pool && pool[g.id] == g && IsWinner(pool, c, gpuCount, g.id) ==>
      OnlyWinner(pool[g.id := Loaded(g, c.need)], c, gpuCount, g.id)
  }

  lemma BigGpuPulls(g: Gpu, c: Criteria, gpuCount: Pos, pool: Pool)
    requires c.policy == Binpack && g.IsHealthy() && 0 < c.need && 2 * c.need <= g.FreeVRAM()
    requires 3 * gpuCount * c.need < g.vramMB
    ensures PullsSecond(g, c, gpuCount, pool)
  {
    LoadedShift(g, c.need, c, gpuCount);
    ShareCompare(c.need, g.vramMB, gpuCount);
    assert Eligible(Loaded(g, c.need), c.need);
    if g.id in pool && pool[g.id] == g && IsWinner(pool, c, gpuCount, g.id) {
      var pool' := pool[g.id := Loaded(g, c.need)];
      forall k | k in pool' && k != g.id && Eligible(pool'[k], c.need)
        ensures Score(pool'[k], c, gpuCount) < Score(pool'[g.id], c, gpuCount)
      {
        assert pool'[k] == pool[k];
      }
    }
  }

  lemma SmallGpuYields(g: Gpu, c: Criteria, gpuCount: Pos) returns (pool: Pool)
    requires c.policy == Binpack && g.IsHealthy() && 0 < c.need && 2 * c.need <= g.FreeVRAM()
    requires 3 * gpuCount * c.need >= g.vramMB
    ensures !PullsSecond(g, c, gpuCount, pool)
  {
    LoadedShift(g, c.need, c, gpuCount);
    ShareCompare(c.need, g.vramMB, gpuCount);
    var twin: Gpu := g.(id := g.id + "'");
    pool := map[g.id := g, twin.id := twin];
    assert Score(twin, c, gpuCount) == Score(g, c, gpuCount);
    assert IsWinner(pool, c, gpuCount, g.id);
    assert IsWinner(pool[g.id := Loaded(g, c.need)], c, gpuCount, twin.id);
  }

  /** The size condition is exact: a GPU with room for two keeps pulling in every pool if and only if it meets it. For
      tasks of the default size on the scheduler's two GPUs it would take more than 24576 MB. */
  lemma BinpackPullsIff(g: Gpu, c: Criteria, gpuCount: Pos)
    requires c.policy == Binpack && g.IsHealthy() && 0 < c.need && 2 * c.need <= g.FreeVRAM()
    ensures (forall pool: Pool :: PullsSecond(g, c, gpuCount, pool)) <==> 3 * gpuCount * c.need < g.vramMB
  {
    if 3 * gpuCount * c.need < g.vramMB {
      forall pool: Pool
        ensures PullsSecond(g, c, gpuCount, pool)
      {
        BigGpuPulls(g, c, gpuCount, pool);
      }
    } else {
      var pool := SmallGpuYields(g, c, gpuCount);
      assert !PullsSecond(g, c, gpuCount, pool);
    }
  }

  /** A task that fits is placed at once, without preemption. */
  lemma FittingTaskIsPlaced(s: State, e: Event)
    requires e.Submit? && Enabled(s, e) && Fits(s.gpus, Charge(e.task))
    ensures e.winner.Some? && IsWinner(s.gpus, Wanted(s, Admitted(s, e.task)), s.gpuCount, e.winner.value)
    ensures Next(s, e) == Placed(Counted(s, e.task), Admitted(s, e.task), e.winner.value, e.started)
  {
  }

  // The scheduler's own two GPUs

  /** The two GPUs of the scheduler, each with so many tasks of the default size. */
  predicate TwoGpus(gpus: Pool, onNvidia: nat, onAmd: nat) {
    && gpus.Keys == {"0", "1"}
    && gpus["0"] == GpuRecord("0", Nvidia, 16384, onNvidia * DEFAULT_VRAM, 0.0, onNvidia)
    && gpus["1"] == GpuRecord("1", Amd, 24576, onAmd * DEFAULT_VRAM, 0.0, onAmd)
  }

  /** With room on both, a submission goes to the one that scores no less than the other. */
  lemma TwoGpusChoice(s: State, e: Event)
    requires s.gpus.Keys == {"0", "1"} && e.Submit? && e.order == []
    requires Eligible(s.gpus["0"], Charge(e.task)) && Eligible(s.gpus["1"], Charge(e.task))
    ensures var c := Wanted(s, Admitted(s, e.task));
            var nvidia, amd := Score(s.gpus["0"], c, s.gpuCount), Score(s.gpus["1"], c, s.gpuCount);
            Enabled(s, e) <==> (e.winner == Some("0") && nvidia >= amd) || (e.winner == Some("1") && amd >= nvidia)
  {
    assert "0" in s.gpus && "1" in s.gpus;
    assert Eligible(s.gpus["0"], Charge(e.task)) && Eligible(s.gpus["1"], Charge(e.task));
    assert Fits(s.gpus, Charge(e.task));
  }

  /** The monitor decides: an NVIDIA GPU that is idle by its memory but at 90 percent loses to an AMD GPU at 0 percent
      with 4096 MB in use. */
  lemma UtilisationDecides(s: State, a: Event, b: Event, e: Event)
    requires a == Monitor("0", 0, 90.0, 0) && b == Monitor("1", 4096, 0.0, 0) && s == Next(Next(INITIAL, a), b)
    requires e.Submit? && e.order == [] && Like(e, OtherKind, DEFAULT_VRAM)
    ensures Enabled(s, e) <==> e.winner == Some("1")
  {
    var nvidia, amd := s.gpus["0"], s.gpus["1"];
    assert nvidia == GpuRecord("0", Nvidia, 16384, 0, 90.0, 0) && amd == GpuRecord("1", Amd, 24576, 4096, 0.0, 0);
    assert VramScore(nvidia) == 30.0 && VramScore(amd) == 25.0;
    TwoGpusChoice(s, e);
  }

  lemma OneOfTwoLoaded(s: State, t: Task, w: string, started: bool, onNvidia: nat, onAmd: nat)
    requires TwoGpus(s.gpus, onNvidia, onAmd) && w in s.gpus && Charge(t) == DEFAULT_VRAM
    ensures w == "0" || w == "1"
    ensures var gpus := Placed(s, t, w, started).gpus;
            if w == "0" then TwoGpus(gpus, onNvidia + 1, onAmd) else TwoGpus(gpus, onNvidia, onAmd + 1)
  {
    var gpus := Placed(s, t, w, started).gpus;
    assert gpus == s.gpus[w := Loaded(s.gpus[w], DEFAULT_VRAM)];
  }

  lemma FirstOfTwo(s: State, e: Event)
    requires TwoGpus(s.gpus, 0, 0) && e.Submit? && Charge(e.task) == DEFAULT_VRAM && Enabled(s, e)
    ensures e.winner == Some("0") || e.winner == Some("1")
    ensures Next(s, e).policy == s.policy && Next(s, e).gpuCount == s.gpuCount
    ensures if e.winner == Some("0") then TwoGpus(Next(s, e).gpus, 1, 0) else TwoGpus(Next(s, e).gpus, 0, 1)
  {
    assert Eligible(s.gpus["0"], DEFAULT_VRAM);
    FittingTaskIsPlaced(s, e);
    OneOfTwoLoaded(Counted(s, e.task), Admitted(s, e.task), e.winner.value, e.started, 0, 0);
  }

  /** Without tasks of its own, or with one on the AMD GPU: 24576 is exactly three times twice 4096, so that the load
      step and the memory penalty cancel there. */
  function NvidiaFree(kind: TaskKind): set<Option<string>> {
    match kind
    case Training => {Some("0")}
    case Inference => {Some("1")}
    case ComputeKind => {Some("0")}
    case OtherKind => {Some("0"), Some("1")}
  }

  /** With one task on the NVIDIA GPU. */
  function NvidiaLoaded(kind: TaskKind): set<Option<string>> {
    match kind
    case Training => {Some("0")}
    case Inference => {Some("1")}
    case ComputeKind => {Some("0")}
    case OtherKind => {Some("1")}
  }

  lemma BinpackOnTwoGpus(s: State, e: Event, onNvidia: nat, onAmd: nat)
    requires TwoGpus(s.gpus, onNvidia, onAmd) && onNvidia + onAmd <= 1 && s.policy == Binpack && s.gpuCount == 2
    requires e.Submit? && e.order == [] && Charge(e.task) == DEFAULT_VRAM
    ensures Enabled(s, e) <==>
              e.winner in if onNvidia == 0 then NvidiaFree(e.task.kind) else NvidiaLoaded(e.task.kind)
  {
    TwoGpusChoice(s, e);
    var nvidia, amd := s.gpus["0"], s.gpus["1"];
    assert VramScore(nvidia) == if onNvidia == 0 then 30.0 else 22.5;
    assert VramScore(amd) == if onAmd == 0 then 30.0 else 25.0;
    assert LoadScore(nvidia, Binpack, 2) == if onNvidia == 0 then 0.0 else 5.0;
    assert LoadScore(amd, Binpack, 2) == if onAmd == 0 then 0.0 else 5.0;
  }

  /** Two tasks of the default size under binpack, of any two kinds. Training and compute tasks go to the NVIDIA GPU and
      inference tasks to the AMD GPU, whoever was first. A task of no such kind must leave the NVIDIA GPU if the first
      one is there, and may go to either GPU otherwise. */
  lemma SecondDefaultTask(first: Event, second: Event)
    requires first.Submit? && first.order == [] && Charge(first.task) == DEFAULT_VRAM
    requires second.Submit? && second.order == [] && Charge(second.task) == DEFAULT_VRAM
    ensures Enabled(INITIAL, first) <==> first.winner in NvidiaFree(first.task.kind)
    ensures Enabled(INITIAL, first) ==>
              (Enabled(Next(INITIAL, first), second) <==>
                 second.winner in
                   if first.winner == Some("0") then NvidiaLoaded(second.task.kind) else NvidiaFree(second.task.kind))
  {
    BinpackOnTwoGpus(INITIAL, first, 0, 0);
    if Enabled(INITIAL, first) {
      FirstOfTwo(INITIAL, first);
      if first.winner == Some("0") {
        BinpackOnTwoGpus(Next(INITIAL, first), second, 1, 0);
      } else {
        BinpackOnTwoGpus(Next(INITIAL, first), second, 0, 1);
      }
    }
  }

  // Matching GPU kinds

  /** All admissible choices are GPUs of the vendor. */
  predicate OnlyVendorWins(gpus: Pool, c: Criteria, gpuCount: Pos, vendor: GpuKind) {
    forall k | k in gpus && IsWinner(gpus, c, gpuCount, k) :: gpus[k].kind == vendor
  }

  /** `k` is of the vendor, has room, and no GPU of another kind with room is so much more idle. */
  predicate HoldsItsLead(gpus: Pool, c: Criteria, vendor: GpuKind, k: string) {
    && k in gpus && Eligible(gpus[k], c.need) && gpus[k].kind == vendor
    && forall j | j in gpus && Eligible(gpus[j], c.need) && gpus[j].kind != vendor ::
         IdleAdvantage(gpus[j], gpus[k]) < Lead(c.kind)
  }

  /** Under gpu_type, in every pool with room: a task can only be placed on the vendor its kind prefers exactly if some
      GPU of that vendor with room is within the lead of all others with room, in memory and utilisation. */
  lemma GpuTypeMatchesIff(gpus: Pool, c: Criteria, gpuCount: Pos, vendor: GpuKind)
    requires c.policy == GpuType && Favours(c.kind, vendor) && Fits(gpus, c.need)
    ensures OnlyVendorWins(gpus, c, gpuCount, vendor) <==> exists k :: HoldsItsLead(gpus, c, vendor, k)
  {
    WinnerExistsIff(gpus, c, gpuCount);
    var w :| IsWinner(gpus, c, gpuCount, w);
    if OnlyVendorWins(gpus, c, gpuCount, vendor) {
      WinnerHoldsItsLead(gpus, c, gpuCount, vendor, w);
    }
    if k :| HoldsItsLead(gpus, c, vendor, k) {
      LeaderShutsOut(gpus, c, gpuCount, vendor, k);
    }
  }

  lemma WinnerHoldsItsLead(gpus: Pool, c: Criteria, gpuCount: Pos, vendor: GpuKind, w: string)
    requires c.policy == GpuType && Favours(c.kind, vendor)
    requires IsWinner(gpus, c, gpuCount, w) && OnlyVendorWins(gpus, c, gpuCount, vendor)
    ensures HoldsItsLead(gpus, c, vendor, w)
  {
    forall j | j in gpus && Eligible(gpus[j], c.need) && gpus[j].kind != vendor
      ensures IdleAdvantage(gpus[j], gpus[w]) < Lead(c.kind)
    {
      assert !IsWinner(gpus, c, gpuCount, j);
      GpuTypePrefersKindIff(gpus[w], gpus[j], c, gpuCount);
    }
  }

  lemma LeaderShutsOut(gpus: Pool, c: Criteria, gpuCount: Pos, vendor: GpuKind, k: string)
    requires c.policy == GpuType && Favours(c.kind, vendor) && HoldsItsLead(gpus, c, vendor, k)
    ensures OnlyVendorWins(gpus, c, gpuCount, vendor)
  {
    forall j | IsWinner(gpus, c, gpuCount, j)
      ensures gpus[j].kind == vendor
    {
      if gpus[j].kind != vendor {
        GpuTypePrefersKindIff(gpus[k], gpus[j], c, gpuCount);
        assert false;
      }
    }
  }

  lemma GpuTypeOnTwoGpus(s: State, e: Event, onNvidia: nat)
    requires TwoGpus(s.gpus, onNvidia, 0) && onNvidia <= 1 && s.policy == GpuType
    requires e.Submit? && e.order == [] && Like(e, Training, DEFAULT_VRAM)
    ensures Enabled(s, e) <==> e.winner == Some(if onNvidia == 0 then "0" else "1")
  {
    TwoGpusChoice(s, e);
    assert VramScore(s.gpus["0"]) == if onNvidia == 0 then 30.0 else 22.5;
    assert VramScore(s.gpus["1"]) == 30.0;
  }

  /** From the start, under gpu_type: the first default-sized training task goes to the NVIDIA GPU and the second one
      leaves it for the AMD GPU. */
  lemma SecondTrainingTaskLeavesNvidia(first: Event, second: Event)
    requires first.Submit? && first.order == [] && Like(first, Training, DEFAULT_VRAM)
    requires second.Submit? && second.order == [] && Like(second, Training, DEFAULT_VRAM)
    ensures var s := Next(INITIAL, SetPolicy(GpuType));
            && (Enabled(s, first) <==> first.winner == Some("0"))
            && (Enabled(s, first) ==> (Enabled(Next(s, first), second) <==> second.winner == Some("1")))
  {
    var s := Next(INITIAL, SetPolicy(GpuType));
    GpuTypeOnTwoGpus(s, first, 0);
    if Enabled(s, first) {
      FirstOfTwo(s, first);
      GpuTypeOnTwoGpus(Next(s, first), second, 1);
    }
  }

  // Spread

  /** Twins loaded in steps of `v` MB: as many tasks, or one more task and `v` MB more. */
  predicate OneApart(g: Gpu, h: Gpu, v: int) {
    || (g.running == h.running && g.usedMB == h.usedMB)
    || (g.running == h.running + 1 && g.usedMB == h.usedMB + v)
    || (h.running == g.running + 1 && h.usedMB == g.usedMB + v)
  }

  /** Healthy GPUs of one model and utilisation whose task counts are within 1 of each other. */
  predicate Balanced(gpus: Pool, v: int) {
    forall j, k | j in gpus && k in gpus ::
      && gpus[j].IsHealthy()
      && gpus[j].kind == gpus[k].kind && gpus[j].vramMB == gpus[k].vramMB && gpus[j].util == gpus[k].util
      && OneApart(gpus[j], gpus[k], v)
  }

  /** Every winner under spread is among the least loaded. */
  lemma SpreadPicksLeastLoaded(gpus: Pool, c: Criteria, gpuCount: Pos, w: string, k: string)
    requires c.policy == Spread && 0 < c.need && Balanced(gpus, c.need) && IsWinner(gpus, c, gpuCount, w) && k in gpus
    ensures gpus[w].running <= gpus[k].running
  {
    var g, h := gpus[w], gpus[k];
    LoadedShift(h, c.need, c, gpuCount);
    ShareSign(c.need, h.vramMB);
    assert 10.0 / gpuCount as real > 0.0;
    assert OneApart(g, h, c.need);
    assert g.running == h.running + 1 ==>
      Eligible(h, c.need) && Score(g, c, gpuCount) == Score(Loaded(h, c.need), c, gpuCount);
  }

  /** How much better off `h` is by everything but its load. */
  function Advantage(h: Gpu, g: Gpu, kind: TaskKind): real {
    IdleAdvantage(h, g) + KindScore(h, kind) - KindScore(g, kind)
  }

  /** No eligible GPU has fewer tasks. */
  predicate Fewest(gpus: Pool, need: int, k: string) {
    && k in gpus && Eligible(gpus[k], need)
    && forall j | j in gpus && Eligible(gpus[j], need) :: gpus[k].running <= gpus[j].running
  }

  /** Every admissible choice has the fewest tasks. */
  predicate OnlyFewestWin(gpus: Pool, c: Criteria, gpuCount: Pos) {
    forall k | k in gpus && IsWinner(gpus, c, gpuCount, k) :: Fewest(gpus, c.need, k)
  }

  /** `k` has the fewest tasks, and no busier GPU with room makes up for its load by the rest of its score. */
  predicate StaysAhead(gpus: Pool, c: Criteria, gpuCount: Pos, k: string) {
    && Fewest(gpus, c.need, k)
    && forall j | j in gpus && Eligible(gpus[j], c.need) && gpus[j].running > gpus[k].running ::
         OutrunByLoad(gpus[j], gpus[k], c.kind, gpuCount)
  }

  /** The load that `h` has more than `g` outweighs its advantage. */
  predicate OutrunByLoad(h: Gpu, g: Gpu, kind: TaskKind, gpuCount: Pos) {
    Advantage(h, g, kind) < (h.running - g.running) as real / gpuCount as real * 10.0
  }

  lemma SpreadCompare(g: Gpu, h: Gpu, c: Criteria, gpuCount: Pos)
    requires c.policy == Spread
    ensures Score(h, c, gpuCount) < Score(g, c, gpuCount) <==> OutrunByLoad(h, g, c.kind, gpuCount)
  {
    ScaledShare(h.running - g.running, gpuCount - h.running, gpuCount, 10.0);
    assert (h.running - g.running) + (gpuCount - h.running) == gpuCount - g.running;
    assert (gpuCount - h.running) as real == gpuCount as real - h.running as real;
    assert (gpuCount - g.running) as real == gpuCount as real - g.running as real;
  }

  /** Under spread, in every pool with room: a task can only be placed on a GPU with the fewest tasks exactly if one of
      those stays ahead of every busier GPU with room, a tenth of the score being shared out among the fleet. */
  lemma SpreadPicksFewestIff(gpus: Pool, c: Criteria, gpuCount: Pos)
    requires c.policy == Spread && Fits(gpus, c.need)
    ensures OnlyFewestWin(gpus, c, gpuCount) <==> exists k :: StaysAhead(gpus, c, gpuCount, k)
  {
    WinnerExistsIff(gpus, c, gpuCount);
    var w :| IsWinner(gpus, c, gpuCount, w);
    if OnlyFewestWin(gpus, c, gpuCount) {
      FewestWinnerStaysAhead(gpus, c, gpuCount, w);
    }
    if k :| StaysAhead(gpus, c, gpuCount, k) {
      AheadShutsOut(gpus, c, gpuCount, k);
    }
  }

  lemma FewestWinnerStaysAhead(gpus: Pool, c: Criteria, gpuCount: Pos, w: string)
    requires c.policy == Spread && IsWinner(gpus, c, gpuCount, w) && OnlyFewestWin(gpus, c, gpuCount)
    ensures StaysAhead(gpus, c, gpuCount, w)
  {
    forall j | j in gpus && Eligible(gpus[j], c.need) && gpus[j].running > gpus[w].running
      ensures OutrunByLoad(gpus[j], gpus[w], c.kind, gpuCount)
    {
      assert !Fewest(gpus, c.need, j);
      assert !IsWinner(gpus, c, gpuCount, j);
      SpreadCompare(gpus[w], gpus[j], c, gpuCount);
    }
  }

  lemma AheadShutsOut(gpus: Pool, c: Criteria, gpuCount: Pos, k: string)
    requires c.policy == Spread && StaysAhead(gpus, c, gpuCount, k)
    ensures OnlyFewestWin(gpus, c, gpuCount)
  {
    forall j | j in gpus && IsWinner(gpus, c, gpuCount, j)
      ensures gpus[j].running <= gpus[k].running
    {
      WinnerIsNotBusier(gpus, c, gpuCount, k, j);
    }
  }

  lemma WinnerIsNotBusier(gpus: Pool, c: Criteria, gpuCount: Pos, k: string, j: string)
    requires c.policy == Spread && StaysAhead(gpus, c, gpuCount, k) && IsWinner(gpus, c, gpuCount, j)
    ensures gpus[j].running <= gpus[k].running
  {
    assert Score(gpus[k], c, gpuCount) <= Score(gpus[j], c, gpuCount);
    SpreadCompare(gpus[k], gpus[j], c, gpuCount);
  }

  // Spread on the scheduler's own two GPUs

  /** Where the first inference tasks of the default size go under spread: tasks on the NVIDIA and on the AMD GPU. */
  function SpreadAfter(n: nat): (nat, nat) {
    if n == 0 then (0, 0)
    else
      var (onNvidia, onAmd) := SpreadAfter(n - 1);
      if 5 * onNvidia + 1 < 4 * onAmd then (onNvidia + 1, onAmd) else (onNvidia, onAmd + 1)
  }

  lemma SpreadScores(s: State, c: Criteria, onNvidia: nat, onAmd: nat)
    requires TwoGpus(s.gpus, onNvidia, onAmd) && s.gpuCount == 2 && c.policy == Spread && c.kind == Inference
    ensures Score(s.gpus["0"], c, 2) - PriorityScore(c.priority) == 80.0 - 12.5 * onNvidia as real
    ensures Score(s.gpus["1"], c, 2) - PriorityScore(c.priority) == 83.0 - 10.0 * onAmd as real
  {
    var nvidia, amd := s.gpus["0"], s.gpus["1"];
    assert VramScore(nvidia) == 30.0 - 7.5 * onNvidia as real;
    assert VramScore(amd) == 30.0 - 5.0 * onAmd as real;
  }

  lemma SpreadOnTwoGpus(s: State, e: Event, onNvidia: nat, onAmd: nat)
    requires TwoGpus(s.gpus, onNvidia, onAmd) && onNvidia <= 3 && onAmd <= 5 && s.policy == Spread && s.gpuCount == 2
    requires Enabled(s, e) && Like(e, Inference, DEFAULT_VRAM)
    ensures Next(s, e).policy == Spread && Next(s, e).gpuCount == 2
    ensures if 5 * onNvidia + 1 < 4 * onAmd then TwoGpus(Next(s, e).gpus, onNvidia + 1, onAmd)
            else TwoGpus(Next(s, e).gpus, onNvidia, onAmd + 1)
  {
    assert Eligible(s.gpus["0"], DEFAULT_VRAM) && Eligible(s.gpus["1"], DEFAULT_VRAM);
    FittingTaskIsPlaced(s, e);
    SpreadScores(s, Wanted(s, Admitted(s, e.task)), onNvidia, onAmd);
    OneOfTwoLoaded(Counted(s, e.task), Admitted(s, e.task), e.winner.value, e.started, onNvidia, onAmd);
  }

  lemma SpreadStepsForced(n: nat)
    requires n <= 7
    ensures SpreadAfter(n).0 <= 3 && SpreadAfter(n).1 <= 4
    ensures SpreadAfter(8) == (3, 5)
  {
    assert SpreadAfter(0) == (0, 0) && SpreadAfter(1) == (0, 1) && SpreadAfter(2) == (1, 1);
    assert SpreadAfter(3) == (1, 2) && SpreadAfter(4) == (2, 2) && SpreadAfter(5) == (2, 3);
    assert SpreadAfter(6) == (3, 3) && SpreadAfter(7) == (3, 4);
  }

  /** After `n` inference tasks under spread. */
  predicate SpreadOut(s: State, n: nat) {
    TwoGpus(s.gpus, SpreadAfter(n).0, SpreadAfter(n).1) && s.policy == Spread && s.gpuCount == 2
  }

  lemma OneMoreSpreadOut(s: State, e: Event, n: nat)
    requires SpreadOut(s, n) && n <= 7 && Enabled(s, e) && Like(e, Inference, DEFAULT_VRAM)
    ensures SpreadOut(Next(s, e), n + 1)
  {
    SpreadStepsForced(n);
    SpreadOnTwoGpus(s, e, SpreadAfter(n).0, SpreadAfter(n).1);
  }

  lemma {:induction false} SpreadRunOnTwoGpus(s: State, es: seq<Event>, n: nat)
    requires Legal(s, es) && AllLike(es, Inference, DEFAULT_VRAM) && SpreadOut(s, n) && n + |es| <= 8
    ensures SpreadOut(Run(s, es), n + |es|)
    decreases |es|
  {
    if es == [] {
    } else {
      OneMoreSpreadOut(s, es[0], n);
      SpreadRunOnTwoGpus(Next(s, es[0]), es[1..], n + 1);
    }
  }

  /** From the start, under spread: every run of up to 8 inference tasks of the default size is forced. After 8 there
      are 3 tasks on the NVIDIA GPU and 5 on the AMD GPU, although the NVIDIA GPU has room for another. */
  lemma SpreadIsUneven(s: State, es: seq<Event>)
    requires SpreadsFromStart(s) && |es| <= 8 && AllLike(es, Inference, DEFAULT_VRAM) && Legal(s, es)
    ensures TwoGpus(Run(s, es).gpus, SpreadAfter(|es|).0, SpreadAfter(|es|).1)
    ensures |es| == 8 ==> TwoGpus(Run(s, es).gpus, 3, 5) && Eligible(Run(s, es).gpus["0"], DEFAULT_VRAM)
  {
    SpreadStarts(s);
    SpreadRunOnTwoGpus(s, es, 0);
    if |es| == 8 {
      EightSpreadOut(Run(s, es));
    }
  }

  /** The state in which the scheduler starts, after the policy was set to spread. */
  predicate SpreadsFromStart(s: State) {
    s == Next(INITIAL, SetPolicy(Spread))
  }

  lemma SpreadStarts(s: State)
    requires SpreadsFromStart(s)
    ensures SpreadOut(s, 0)
  {
    assert SpreadAfter(0) == (0, 0);
  }

  lemma EightSpreadOut(s: State)
    requires SpreadOut(s, 8)
    ensures TwoGpus(s.gpus, 3, 5) && Eligible(s.gpus["0"], DEFAULT_VRAM)
  {
    SpreadStepsForced(7);
  }

  lemma SpreadStep(s: State, t: Task, w: string, started: bool)
    requires s.policy == Spread && Balanced(s.gpus, Charge(t)) && IsWinner(s.gpus, Wanted(s, t), s.gpuCount, w)
    ensures Balanced(Placed(s, t, w, started).gpus, Charge(t))
  {
    forall k | k in s.gpus
      ensures s.gpus[w].running <= s.gpus[k].running && OneApart(s.gpus[w], s.gpus[k], Charge(t))
    {
      SpreadPicksLeastLoaded(s.gpus, Wanted(s, t), s.gpuCount, w, k);
    }
  }

  /** No task of this priority kills anybody who runs. */
  predicate Peaceful(s: State, priority: int) {
    s.config.enabled && s.config.policy == Kill && priority >= s.config.minPriority ==>
      forall k | k in s.running ::
        priority - s.running[k].priority < 2 || s.running[k].priority > s.config.maxVictimPriority
  }

  lemma PeacefulKillsNobody(s: State, e: Event)
    requires e.Submit? && Enabled(s, e) && Peaceful(s, e.task.priority)
    ensures MadeRoom(s, e.task, e.order).st == Counted(s, e.task)
  {
    var s1, t := Counted(s, e.task), Admitted(s, e.task);
    KillLoopIsPrefix(s1, t, Charge(t), e.order);
    if s.config.policy == Kill {
      assert Triggers(s1, t) ==> Victims(s1, t) == {};
    } else {
      assert e.order[..0] == [];
    }
  }

  predicate AllPriority(es: seq<Event>, priority: int) {
    forall i | 0 <= i < |es| :: es[i].Submit? && es[i].task.priority == priority
  }

  /** Spread stays balanced: from identical healthy GPUs, every run of like submissions of one priority keeps the task
      counts within 1 of each other, whatever the tie-breaks. */
  lemma {:induction false} SpreadStaysBalanced(s: State, es: seq<Event>, kind: TaskKind, v: int, priority: int)
    requires Legal(s, es) && AllLike(es, kind, v) && AllPriority(es, priority)
    requires s.policy == Spread && Balanced(s.gpus, v) && Peaceful(s, priority)
    ensures Balanced(Run(s, es).gpus, v)
    ensures forall j, k | j in Run(s, es).gpus && k in Run(s, es).gpus ::
              -1 <= Run(s, es).gpus[j].running - Run(s, es).gpus[k].running <= 1
    decreases |es|
  {
    if es == [] {
      forall j, k | j in s.gpus && k in s.gpus
        ensures -1 <= s.gpus[j].running - s.gpus[k].running <= 1
      {
        assert OneApart(s.gpus[j], s.gpus[k], v);
      }
    } else {
      var e := es[0];
      var t := Admitted(s, e.task);
      var s1 := Counted(s, e.task);
      PeacefulKillsNobody(s, e);
      if e.winner.Some? {
        SpreadStep(s1, t, e.winner.value, e.started);
      }
      SpreadStaysBalanced(Next(s, e), es[1..], kind, v, priority);
    }
  }

  /** Promotion asks for the default size: a task fits in every pool that promotes it exactly if it is no larger. */
  lemma PromotionFitsIff(t: Task)
    ensures (forall gpus: Pool :: Fits(gpus, DEFAULT_VRAM) ==> Fits(gpus, Charge(t))) <==> Charge(t) <= DEFAULT_VRAM
  {
    if Charge(t) <= DEFAULT_VRAM {
      forall gpus: Pool | Fits(gpus, DEFAULT_VRAM)
        ensures Fits(gpus, Charge(t))
      {
        var k :| k in gpus && Eligible(gpus[k], DEFAULT_VRAM);
        assert Eligible(gpus[k], Charge(t));
      }
    } else {
      var gpus: Pool := map["0" := GpuRecord("0", Unset, DEFAULT_VRAM, 0, 0.0, 0)];
      assert Eligible(gpus["0"], DEFAULT_VRAM);
      assert Fits(gpus, DEFAULT_VRAM) && !Fits(gpus, Charge(t));
    }
  }
}
