/** Filtering, scoring and the in-place exchange sort that picks the GPU for a task. */
module Selection {
  import opened Wrappers
  import opened Types
  import opened Scoring

  datatype Scored = Scored(gpu: Gpu, score: real)

  type Pool = map<string, Gpu>

  predicate Keyed(gpus: Pool) {
    forall k | k in gpus :: gpus[k].id == k
  }

  predicate Eligible(g: Gpu, need: int) {
    g.FreeVRAM() >= need && g.IsHealthy()
  }

  predicate Fits(gpus: Pool, need: int) {
    exists k :: k in gpus && Eligible(gpus[k], need)
  }

  /** `hasEnoughResources`: room on any GPU, healthy or not. */
  predicate HasRoom(gpus: Pool, need: int) {
    exists k :: k in gpus && gpus[k].FreeVRAM() >= need
  }

  /** `k` may be chosen: it is eligible and no eligible GPU scores higher. */
  predicate IsWinner(gpus: Pool, c: Criteria, gpuCount: Pos, k: string) {
    && k in gpus && Eligible(gpus[k], c.need)
    && forall j | j in gpus && Eligible(gpus[j], c.need) :: Score(gpus[j], c, gpuCount) <= Score(gpus[k], c, gpuCount)
  }

  /** The same model with as many tasks, no busier and with no more booked, and in one of these better off. */
  predicate BetterTwin(h: Gpu, g: Gpu) {
    && Alike(h, g) && h.running == g.running
    && h.util <= g.util && h.usedMB <= g.usedMB && (h.util < g.util || h.usedMB < g.usedMB)
  }

  /** A better twin scores higher in both schedulers. */
  lemma BetterTwinWins(h: Gpu, g: Gpu, c: Criteria, gpuCount: Pos)
    requires BetterTwin(h, g)
    ensures Score(h, c, gpuCount) > Score(g, c, gpuCount)
    ensures HybridScore(h, c, gpuCount) > HybridScore(g, c, gpuCount)
  {
    var between: Gpu := g.(util := h.util);
    UtilisationCounts(between, g, c, gpuCount);
    MemoryCounts(h, between, c, gpuCount);
    ShareSign(g.usedMB - h.usedMB, g.vramMB);
  }

  /** Whatever the policy and the task, no choice leaves an eligible GPU that is the same but less utilised or less
      booked. */
  lemma NoBetterTwin(gpus: Pool, c: Criteria, gpuCount: Pos, w: string)
    requires IsWinner(gpus, c, gpuCount, w)
    ensures forall k | k in gpus && Eligible(gpus[k], c.need) :: !BetterTwin(gpus[k], gpus[w])
  {
    forall k | k in gpus && Eligible(gpus[k], c.need)
      ensures !BetterTwin(gpus[k], gpus[w])
    {
      if BetterTwin(gpus[k], gpus[w]) {
        BetterTwinWins(gpus[k], gpus[w], c, gpuCount);
      }
    }
  }

  predicate Descending(s: seq<Scored>) {
    forall i, j | 0 <= i < j < |s| :: s[i].score >= s[j].score
  }

  /** The nested exchange loop leaves a descending permutation. */
  method SortByScore(a: array<Scored>)
    modifies a
    ensures Descending(a[..])
    ensures multiset(a[..]) == multiset(old(a[..]))
  {
    var i := 0;
    while i < a.Length - 1
      invariant 0 <= i
      invariant a.Length > 0 ==> i <= a.Length - 1
      invariant forall p, q | 0 <= p < i && p < q < a.Length :: a[p].score >= a[q].score
      invariant multiset(a[..]) == multiset(old(a[..]))
    {
      var j := i + 1;
      while j < a.Length
        invariant i < j <= a.Length
        invariant forall p, q | 0 <= p < i && p < q < a.Length :: a[p].score >= a[q].score
        invariant forall q | i < q < j :: a[i].score >= a[q].score
        invariant multiset(a[..]) == multiset(old(a[..]))
      {
        if a[j].score > a[i].score {
          a[i], a[j] := a[j], a[i];
        }
        j := j + 1;
      }
      i := i + 1;
    }
  }

  /** `scheduleLocked`: succeeds exactly when some healthy GPU has room, with a highest-scoring such GPU. */
  method ScheduleLocked(gpus: Pool, c: Criteria, gpuCount: Pos) returns (best: Option<Scored>)
    requires Keyed(gpus)
    ensures best.Some? <==> Fits(gpus, c.need)
    ensures best.Some? ==>
              && IsWinner(gpus, c, gpuCount, best.value.gpu.id)
              && best.value.gpu == gpus[best.value.gpu.id]
              && best.value.score == Score(best.value.gpu, c, gpuCount)
    ensures best.Some? ==> forall k | k in gpus && Eligible(gpus[k], c.need) :: !BetterTwin(gpus[k], best.value.gpu)
  {
    var eligible: seq<Gpu> := [];
    var left := gpus.Keys;
    while left != {}
      invariant left <= gpus.Keys
      invariant forall g | g in eligible :: g.id in gpus && gpus[g.id] == g && Eligible(g, c.need)
      invariant forall k | k in gpus && k !in left && Eligible(gpus[k], c.need) :: gpus[k] in eligible
    {
      var k :| k in left;
      left := left - {k};
      if gpus[k].FreeVRAM() >= c.need {
        if gpus[k].IsHealthy() {
          eligible := eligible + [gpus[k]];
        }
      }
    }
    if |eligible| == 0 {
      return None;
    }
    assert eligible[0].id in gpus;

    var scored := new Scored[|eligible|](i requires 0 <= i < |eligible| =>
      Scored(eligible[i], Score(eligible[i], c, gpuCount)));
    ghost var before := scored[..];
    SortByScore(scored);
    MultisetMembers(scored[..], before);
    assert scored[0] in scored[..];
    best := Some(scored[0]);

    forall k | k in gpus && Eligible(gpus[k], c.need)
      ensures Score(gpus[k], c, gpuCount) <= best.value.score
    {
      var i :| 0 <= i < |eligible| && eligible[i] == gpus[k];
      assert before[i] in before;
      var j :| 0 <= j < |scored[..]| && scored[..][j] == before[i];
      assert scored[..][0] == scored[0];
    }
    NoBetterTwin(gpus, c, gpuCount, best.value.gpu.id);
  }

  lemma MultisetMembers<T>(s: seq<T>, t: seq<T>)
    requires multiset(s) == multiset(t)
    ensures forall x :: x in s <==> x in t
  {
    forall x
      ensures x in s <==> x in t
    {
      assert x in s <==> x in multiset(s);
      assert x in t <==> x in multiset(t);
    }
  }

  lemma {:induction false} WinnerAmong(gpus: Pool, c: Criteria, gpuCount: Pos, keys: set<string>) returns (w: string)
    requires keys != {} && keys <= gpus.Keys
    ensures w in keys && forall k | k in keys :: Score(gpus[k], c, gpuCount) <= Score(gpus[w], c, gpuCount)
    decreases |keys|
  {
    w :| w in keys;
    if keys == {w} {
    } else {
      var v := WinnerAmong(gpus, c, gpuCount, keys - {w});
      if Score(gpus[w], c, gpuCount) < Score(gpus[v], c, gpuCount) {
        w := v;
      }
    }
  }

  /** A choice exists exactly when some GPU is eligible; the admissible choices do not depend on the task's priority. */
  lemma WinnerExistsIff(gpus: Pool, c: Criteria, gpuCount: Pos)
    ensures Fits(gpus, c.need) <==> exists k :: IsWinner(gpus, c, gpuCount, k)
  {
    if Fits(gpus, c.need) {
      var keys := set k | k in gpus && Eligible(gpus[k], c.need);
      var k0 :| k0 in gpus && Eligible(gpus[k0], c.need);
      assert k0 in keys;
      var w := WinnerAmong(gpus, c, gpuCount, keys);
      assert IsWinner(gpus, c, gpuCount, w);
    }
  }

  lemma WinnersIgnorePriority(gpus: Pool, c: Criteria, priority: int, gpuCount: Pos, k: string)
    ensures IsWinner(gpus, c, gpuCount, k) <==> IsWinner(gpus, c.(priority := priority), gpuCount, k)
  {
    var d := c.(priority := priority);
    if k in gpus {
      forall j | j in gpus
        ensures Score(gpus[j], c, gpuCount) <= Score(gpus[k], c, gpuCount)
           <==> Score(gpus[j], d, gpuCount) <= Score(gpus[k], d, gpuCount)
      {
        PriorityNeverDecides(gpus[j], gpus[k], c, priority, gpuCount);
      }
    }
  }
}
