/** The second scheduler, and how far the two agree. */
module Hybrid {
  import opened Wrappers
  import opened Types
  import opened Scoring
  import opened Selection
  import opened Machine

  predicate SomeFits(gpus: seq<Gpu>, need: int) {
    exists g :: g in gpus && Eligible(g, need)
  }

  predicate IsBest(gpus: seq<Gpu>, c: Criteria, gpuCount: Pos, g: Gpu) {
    && g in gpus && Eligible(g, c.need)
    && forall h | h in gpus && Eligible(h, c.need) :: HybridScore(h, c, gpuCount) <= HybridScore(g, c, gpuCount)
  }

  class HybridScheduler {
    var gpuCount: Pos
    var gpus: seq<Gpu>

    constructor ()
      ensures gpuCount == 2 && gpus == []
    {
      gpuCount, gpus := 2, [];
    }

    method SetGPUCount(count: Pos)
      modifies this`gpuCount
      ensures gpuCount == count
    {
      gpuCount := count;
    }

    /** Appends: registering an ID again does not replace what was registered before. */
    method RegisterGPU(g: Gpu)
      modifies this`gpus
      ensures gpus == old(gpus) + [g]
    {
      gpus := gpus + [g];
    }

    /** Succeeds exactly when some healthy GPU can allocate, with one of the best scores among those. The library sort
        is seen through its result only: a descending permutation, ties in any order. */
    method Schedule(c: Criteria) returns (best: Option<Scored>)
      ensures best.Some? <==> SomeFits(gpus, c.need)
      ensures best.Some? ==>
                && IsBest(gpus, c, gpuCount, best.value.gpu)
                && best.value.score == HybridScore(best.value.gpu, c, gpuCount)
      ensures best.Some? ==> forall h | h in gpus && Eligible(h, c.need) :: !BetterTwin(h, best.value.gpu)
    {
      var eligible: seq<Gpu> := [];
      for i := 0 to |gpus|
        invariant forall g :: g in eligible <==> g in gpus[..i] && Eligible(g, c.need)
      {
        assert gpus[..i + 1] == gpus[..i] + [gpus[i]];
        if gpus[i].CanAllocate(c.need) {
          if gpus[i].IsHealthy() {
            eligible := eligible + [gpus[i]];
          }
        }
      }
      assert gpus[..|gpus|] == gpus;
      if |eligible| == 0 {
        return None;
      }
      assert eligible[0] in eligible;

      var count := gpuCount;
      var scored := new Scored[|eligible|](i requires 0 <= i < |eligible| =>
        Scored(eligible[i], HybridScore(eligible[i], c, count)));
      ghost var before := scored[..];
      SortByScore(scored);
      MultisetMembers(scored[..], before);
      assert scored[0] in scored[..];
      best := Some(scored[0]);

      forall h | h in gpus && Eligible(h, c.need)
        ensures HybridScore(h, c, gpuCount) <= best.value.score
      {
        var i :| 0 <= i < |eligible| && eligible[i] == h;
        assert before[i] in before;
        var j :| 0 <= j < |scored[..]| && scored[..][j] == before[i];
        assert scored[..][0] == scored[0];
      }
      BestHasNoBetterTwin(gpus, c, gpuCount, best.value.gpu);
    }
  }

  lemma BestHasNoBetterTwin(gpus: seq<Gpu>, c: Criteria, gpuCount: Pos, g: Gpu)
    requires IsBest(gpus, c, gpuCount, g)
    ensures forall h | h in gpus && Eligible(h, c.need) :: !BetterTwin(h, g)
  {
    forall h | h in gpus && Eligible(h, c.need)
      ensures !BetterTwin(h, g)
    {
      if BetterTwin(h, g) {
        BetterTwinWins(h, g, c, gpuCount);
      }
    }
  }

  /** The same GPUs, once as a list and once by ID. */
  predicate SameGpus(list: seq<Gpu>, pool: Pool) {
    && Keyed(pool)
    && (forall i | 0 <= i < |list| :: list[i].id in pool && pool[list[i].id] == list[i])
    && (forall k | k in pool :: pool[k] in list)
  }

  /** Without a preferred GPU kind the two schedulers succeed together, on the same winners, with the same score. */
  lemma SchedulersAgree(list: seq<Gpu>, pool: Pool, c: Criteria, gpuCount: Pos)
    requires SameGpus(list, pool) && NoPreference(c)
    ensures SomeFits(list, c.need) <==> Fits(pool, c.need)
    ensures forall g: Gpu :: IsBest(list, c, gpuCount, g) <==>
              g.id in pool && pool[g.id] == g && IsWinner(pool, c, gpuCount, g.id)
    ensures forall g: Gpu, k :: IsBest(list, c, gpuCount, g) && IsWinner(pool, c, gpuCount, k) ==>
              HybridScore(g, c, gpuCount) == Score(pool[k], c, gpuCount)
  {
    forall g: Gpu
      ensures HybridScore(g, c, gpuCount) == Score(g, c, gpuCount)
    {
      HybridScoreAgreement(g, c, gpuCount);
    }
    assert forall g: Gpu :: g in list <==> g.id in pool && pool[g.id] == g;
  }

  predicate SameWinners(list: seq<Gpu>, pool: Pool, c: Criteria, gpuCount: Pos) {
    SameGpus(list, pool) ==>
      forall g: Gpu | g in list :: IsBest(list, c, gpuCount, g) <==> IsWinner(pool, c, gpuCount, g.id)
  }

  function OtherVendor(kind: GpuKind): GpuKind {
    if kind == Nvidia then Amd else Nvidia
  }

  /** Two idle GPUs, where the one of the preferred kind is busier by 9 points of utilisation: less than the 10 points
      of a preference, more than the 8 points of any task kind. */
  lemma PreferenceOverrules(c: Criteria, gpuCount: Pos) returns (list: seq<Gpu>, pool: Pool)
    requires c.preferred == Nvidia || c.preferred == Amd
    ensures !SameWinners(list, pool, c, gpuCount)
  {
    var vram := if c.need > 0 then c.need else 1;
    var liked: Gpu := GpuRecord("0", c.preferred, vram, 0, 36.0, 0);
    var other: Gpu := GpuRecord("1", OtherVendor(c.preferred), vram, 0, 0.0, 0);
    list, pool := [liked, other], map["0" := liked, "1" := other];
    assert UtilScore(liked) == 16.0 && UtilScore(other) == 25.0;
    assert VramScore(liked) == VramScore(other);
    assert HybridScore(liked, c, gpuCount) == HybridScore(other, c, gpuCount) + 1.0;
    assert Score(liked, c, gpuCount) < Score(other, c, gpuCount);
    assert liked in list && IsBest(list, c, gpuCount, liked);
    assert !IsWinner(pool, c, gpuCount, "0") by {
      assert Eligible(pool["1"], c.need);
    }
  }

  /** The two schedulers admit the same winners on all GPUs exactly if the task prefers no vendor: a preference moves a
      task that the task scheduler's own weights would place elsewhere. */
  lemma SchedulersAgreeIff(c: Criteria, gpuCount: Pos)
    ensures (forall list: seq<Gpu>, pool: Pool :: SameWinners(list, pool, c, gpuCount)) <==> NoPreference(c)
  {
    if NoPreference(c) {
      forall list: seq<Gpu>, pool: Pool
        ensures SameWinners(list, pool, c, gpuCount)
      {
        if SameGpus(list, pool) {
          SchedulersAgree(list, pool, c, gpuCount);
        }
      }
    } else {
      var list, pool := PreferenceOverrules(c, gpuCount);
      assert !SameWinners(list, pool, c, gpuCount);
    }
  }

  // The same registrations

  /** The map of the task scheduler after it registered a list of GPUs, one `RegisterGPU` each. */
  function Registered(pool: Pool, list: seq<Gpu>): Pool {
    if list == [] then pool
    else
      var last := |list| - 1;
      Registered(pool, list[..last])[list[last].id := list[last]]
  }

  predicate Registers(list: seq<Gpu>, id: string) {
    exists i :: 0 <= i < |list| && list[i].id == id
  }

  lemma {:induction false} RegisteredHoldsLatest(pool: Pool, list: seq<Gpu>)
    requires Keyed(pool)
    ensures Keyed(Registered(pool, list))
    ensures forall i | 0 <= i < |list| :: list[i].id in Registered(pool, list)
    ensures forall k | k in Registered(pool, list) ::
              if Registers(list, k) then Registered(pool, list)[k] in list
              else k in pool && Registered(pool, list)[k] == pool[k]
    ensures pool.Keys <= Registered(pool, list).Keys
    ensures list != [] ==> Registered(pool, list)[list[|list| - 1].id] == list[|list| - 1]
  {
    if list == [] {
    } else {
      var last := |list| - 1;
      var front := list[..last];
      RegisteredHoldsLatest(pool, front);
      assert list == front + [list[last]];
      assert forall i | 0 <= i < last :: list[i] == front[i];
      forall k
        ensures Registers(list, k) <==> Registers(front, k) || k == list[last].id
      {
        if i :| 0 <= i < |front| && front[i].id == k {
          assert list[i].id == k;
        }
      }
    }
  }

  predicate NeverReplaced(list: seq<Gpu>) {
    forall i, j | 0 <= i < j < |list| :: list[i].id == list[j].id ==> list[i] == list[j]
  }

  predicate RegistersAll(list: seq<Gpu>, pool: Pool) {
    forall k | k in pool :: Registers(list, k)
  }

  lemma NeverReplacedAgrees(pool: Pool, list: seq<Gpu>)
    requires Keyed(pool) && NeverReplaced(list) && RegistersAll(list, pool)
    ensures SameGpus(list, Registered(pool, list))
  {
    RegisteredHoldsLatest(pool, list);
    forall i | 0 <= i < |list|
      ensures Registered(pool, list)[list[i].id] == list[i]
    {
      assert Registers(list, list[i].id);
      var g := Registered(pool, list)[list[i].id];
      var j :| 0 <= j < |list| && list[j] == g;
      assert list[j].id == list[i].id;
    }
  }

  lemma SameGpusRegistersAll(pool: Pool, list: seq<Gpu>)
    requires Keyed(pool) && SameGpus(list, Registered(pool, list))
    ensures RegistersAll(list, pool)
  {
    RegisteredHoldsLatest(pool, list);
    forall k | k in pool
      ensures Registers(list, k)
    {
      var g := Registered(pool, list)[k];
      var i :| 0 <= i < |list| && list[i] == g;
      assert list[i].id == k;
    }
  }

  /** After the same registrations both hold the same GPUs exactly if no ID was registered again with other data, as the
      list keeps the stale snapshot that the map forgets, and both default GPUs were registered anew, as the task
      scheduler starts with them and the hybrid one with none. */
  lemma RegistrationsAgreeIff(list: seq<Gpu>)
    ensures SameGpus(list, Registered(INITIAL.gpus, list)) <==>
              NeverReplaced(list) && Registers(list, "0") && Registers(list, "1")
  {
    assert RegistersAll(list, INITIAL.gpus) <==> Registers(list, "0") && Registers(list, "1");
    if NeverReplaced(list) && RegistersAll(list, INITIAL.gpus) {
      NeverReplacedAgrees(INITIAL.gpus, list);
    }
    if SameGpus(list, Registered(INITIAL.gpus, list)) {
      SameGpusRegistersAll(INITIAL.gpus, list);
    }
  }
}
