/** The scoring functions of both schedulers, over exact reals. */
module Scoring {
  import opened Types

  function VramScore(g: Gpu): real {
    g.FreeVRAM() as real / g.vramMB as real * 30.0
  }

  function UtilScore(g: Gpu): real {
    (100.0 - g.util) / 100.0 * 25.0
  }

  function KindScore(g: Gpu, kind: TaskKind): real {
    match kind
    case Training => if g.kind == Nvidia then 18.0 else 15.0
    case Inference => if g.kind == Amd then 18.0 else 15.0
    case ComputeKind => if g.kind == Nvidia then 20.0 else 12.0
    case OtherKind => 15.0
  }

  function PriorityScore(priority: int): real {
    priority as real / 10.0 * 15.0
  }

  function LoadScore(g: Gpu, policy: Policy, gpuCount: Pos): real {
    match policy
    case Binpack => g.running as real / gpuCount as real * 10.0
    case Spread => (gpuCount as real - g.running as real) / gpuCount as real * 10.0
    case GpuType => 10.0
    case OtherPolicy => 5.0
  }

  /** `calculateScore` of the task scheduler. */
  function Score(g: Gpu, c: Criteria, gpuCount: Pos): real {
    VramScore(g) + UtilScore(g) + KindScore(g, c.kind) + PriorityScore(c.priority) + LoadScore(g, c.policy, gpuCount)
  }

  predicate NoPreference(c: Criteria) {
    c.preferred == Unset || c.preferred == UnknownKind
  }

  /** The hybrid scheduler's kind table: it starts from 20, a preferred GPU kind replaces the task kind's weight, and
      the default case says 15. */
  function HybridKindScore(g: Gpu, c: Criteria): real {
    var initial := 20.0;
    if c.preferred != Unset && c.preferred != UnknownKind then
      if g.kind == c.preferred then initial else 10.0
    else if c.kind == Training then
      if g.kind == Nvidia then 18.0 else 15.0
    else if c.kind == Inference then
      if g.kind == Amd then 18.0 else 15.0
    else if c.kind == ComputeKind then
      if g.kind == Nvidia then 20.0 else 12.0
    else 15.0
  }

  /** Its load table: it starts from 10, and the default case says 5. */
  function HybridLoadScore(g: Gpu, policy: Policy, gpuCount: Pos): real {
    var initial := 10.0;
    if policy == Binpack then g.running as real / gpuCount as real * 10.0
    else if policy == Spread then (gpuCount as real - g.running as real) / gpuCount as real * 10.0
    else if policy == GpuType then initial
    else 5.0
  }

  /** `CalculateScore` of the hybrid scheduler. */
  function HybridScore(g: Gpu, c: Criteria, gpuCount: Pos): real {
    VramScore(g) + UtilScore(g) + HybridKindScore(g, c) + PriorityScore(c.priority)
    + HybridLoadScore(g, c.policy, gpuCount)
  }

  /** The kind table of both breakdowns: it starts from 15, has no default case, and never looks at a preference. */
  function PrintedKindScore(g: Gpu, kind: TaskKind): real {
    var initial := 15.0;
    if kind == Training && g.kind == Nvidia then 18.0
    else if kind == Inference && g.kind == Amd then 18.0
    else if kind == ComputeKind && g.kind == Nvidia then 20.0
    else if kind == ComputeKind then 12.0
    else initial
  }

  /** The load table of the printed breakdown: it starts from 5 and has no default case. */
  function PrintedLoadScore(g: Gpu, policy: Policy, gpuCount: Pos): real {
    var initial := 5.0;
    match policy
    case Binpack => g.running as real / gpuCount as real * 10.0
    case Spread => (gpuCount as real - g.running as real) / gpuCount as real * 10.0
    case GpuType => 10.0
    case OtherPolicy => initial
  }

  /** The total `PrintScoreBreakdown` prints. */
  function PrintedTotal(g: Gpu, c: Criteria, gpuCount: Pos): real {
    VramScore(g) + UtilScore(g) + PrintedKindScore(g, c.kind) + PriorityScore(c.priority)
    + PrintedLoadScore(g, c.policy, gpuCount)
  }

  /** The total `GetScoreBreakdown` prints: priority 5 and the binpack load, whatever the policy. */
  function BreakdownTotal(g: Gpu, kind: TaskKind, gpuCount: Pos): real {
    VramScore(g) + UtilScore(g) + PrintedKindScore(g, kind) + PriorityScore(5)
    + g.running as real / gpuCount as real * 10.0
  }

  /** A GPU after one more task of `v` MB was placed on it. */
  function Loaded(g: Gpu, v: int): Gpu {
    g.(usedMB := g.usedMB + v, running := g.running + 1)
  }

  lemma ScaledShare(a: int, b: int, n: Pos, k: real)
    ensures (a + b) as real / n as real * k == a as real / n as real * k + b as real / n as real * k
  {
    var x, y, d := a as real, b as real, n as real;
    assert (a + b) as real == x + y;
    assert (x + y) / d == x / d + y / d;
  }

  /** Placing a task moves the score by a memory penalty and a policy-dependent load term, on every GPU alike. */
  lemma LoadedShift(g: Gpu, v: int, c: Criteria, gpuCount: Pos)
    ensures c.policy == Binpack ==>
              Score(Loaded(g, v), c, gpuCount)
              == Score(g, c, gpuCount) - v as real / g.vramMB as real * 30.0 + 10.0 / gpuCount as real
    ensures c.policy == Spread ==>
              Score(Loaded(g, v), c, gpuCount)
              == Score(g, c, gpuCount) - v as real / g.vramMB as real * 30.0 - 10.0 / gpuCount as real
  {
    ScaledShare(g.FreeVRAM() - v, v, g.vramMB, 30.0);
    ScaledShare(g.running, 1, gpuCount, 10.0);
    ScaledShare(gpuCount - g.running - 1, 1, gpuCount, 10.0);
    assert Loaded(g, v).FreeVRAM() == g.FreeVRAM() - v;
    assert (gpuCount - g.running) as real == gpuCount as real - g.running as real;
    assert (gpuCount - g.running - 1) as real == gpuCount as real - (g.running + 1) as real;
  }

  /** The gain of the load term beats the memory penalty exactly when three times the fleet's demand fits the GPU. */
  lemma ShareCompare(v: int, vram: Pos, gpuCount: Pos)
    ensures v as real / vram as real * 30.0 < 10.0 / gpuCount as real <==> 3 * gpuCount * v < vram
  {
    var a, b, n := v as real, vram as real, gpuCount as real;
    var x, y := a / b, 10.0 / n;
    assert x * b == a && y * n == 10.0;
    assert (3 * gpuCount * v) as real == 3.0 * n * a;
    var scale := n * b;
    assert scale > 0.0;
    assert x * 30.0 * scale == 30.0 * n * a by {
      assert x * 30.0 * scale == (x * b) * (30.0 * n);
    }
    assert y * scale == 10.0 * b by {
      assert y * scale == (y * n) * b;
    }
    Scaling(x * 30.0, y, scale);
  }

  lemma Scaling(p: real, q: real, k: real)
    requires k > 0.0
    ensures p < q <==> p * k < q * k
    ensures p == q <==> p * k == q * k
  {
  }

  /** The priority term is common to all candidates, so it never decides between two GPUs. */
  lemma PriorityNeverDecides(g: Gpu, h: Gpu, c: Criteria, priority: int, gpuCount: Pos)
    ensures Score(g, c, gpuCount) <= Score(h, c, gpuCount)
       <==> Score(g, c.(priority := priority), gpuCount) <= Score(h, c.(priority := priority), gpuCount)
  {
  }

  // What each part is worth, in both schedulers

  predicate Alike(g: Gpu, h: Gpu) {
    g.kind == h.kind && g.vramMB == h.vramMB
  }

  /** Between GPUs alike in all but utilisation, 4 points of utilisation cost one point of score. */
  lemma UtilisationCounts(g: Gpu, h: Gpu, c: Criteria, gpuCount: Pos)
    requires Alike(g, h) && g.usedMB == h.usedMB && g.running == h.running
    ensures Score(g, c, gpuCount) - Score(h, c, gpuCount) == (h.util - g.util) / 4.0
    ensures HybridScore(g, c, gpuCount) - HybridScore(h, c, gpuCount) == (h.util - g.util) / 4.0
  {
  }

  /** Between GPUs alike in all but booked memory, the whole memory is worth 30 points. */
  lemma MemoryCounts(g: Gpu, h: Gpu, c: Criteria, gpuCount: Pos)
    requires Alike(g, h) && g.util == h.util && g.running == h.running
    ensures Score(g, c, gpuCount) - Score(h, c, gpuCount) == (h.usedMB - g.usedMB) as real / g.vramMB as real * 30.0
    ensures HybridScore(g, c, gpuCount) - HybridScore(h, c, gpuCount)
         == (h.usedMB - g.usedMB) as real / g.vramMB as real * 30.0
  {
    ScaledShare(h.FreeVRAM(), h.usedMB - g.usedMB, g.vramMB, 30.0);
    assert g.FreeVRAM() == h.FreeVRAM() + (h.usedMB - g.usedMB);
  }

  /** Between GPUs alike in all but load, a task is worth the GPU count's share of 10 points, for or against. */
  lemma LoadCounts(g: Gpu, h: Gpu, c: Criteria, gpuCount: Pos)
    requires Alike(g, h) && g.util == h.util && g.usedMB == h.usedMB
    ensures var step := (g.running - h.running) as real / gpuCount as real * 10.0;
            var worth := match c.policy
                         case Binpack => step
                         case Spread => 0.0 - step
                         case GpuType => 0.0
                         case OtherPolicy => 0.0;
            && Score(g, c, gpuCount) - Score(h, c, gpuCount) == worth
            && HybridScore(g, c, gpuCount) - HybridScore(h, c, gpuCount) == worth
  {
    ScaledShare(h.running, g.running - h.running, gpuCount, 10.0);
    ScaledShare(gpuCount - g.running, g.running - h.running, gpuCount, 10.0);
    assert (gpuCount - g.running) as real == gpuCount as real - g.running as real;
    assert (gpuCount - h.running) as real == gpuCount as real - h.running as real;
    assert h.running + (g.running - h.running) == g.running;
    assert (gpuCount - g.running) + (g.running - h.running) == gpuCount - h.running;
    LoadTablesAgree(g, c.policy, gpuCount);
    LoadTablesAgree(h, c.policy, gpuCount);
  }

  /** What a vendor is worth over a GPU of no vendor, by the kind of task; in the hybrid scheduler 10 points if it is
      the preferred one. */
  lemma VendorCounts(g: Gpu, h: Gpu, c: Criteria, gpuCount: Pos)
    requires g == h.(kind := g.kind) && h.kind == UnknownKind
    ensures Score(g, c, gpuCount) - Score(h, c, gpuCount)
         == match c.kind
            case Training => if g.kind == Nvidia then 3.0 else 0.0
            case Inference => if g.kind == Amd then 3.0 else 0.0
            case ComputeKind => if g.kind == Nvidia then 8.0 else 0.0
            case OtherKind => 0.0
    ensures !NoPreference(c) ==>
              HybridScore(g, c, gpuCount) - HybridScore(h, c, gpuCount) == if g.kind == c.preferred then 10.0 else 0.0
  {
    assert VramScore(g) == VramScore(h) && UtilScore(g) == UtilScore(h);
  }

  /** A step of priority is worth one and a half points. */
  lemma PriorityCounts(g: Gpu, c: Criteria, priority: int, gpuCount: Pos)
    ensures Score(g, c.(priority := priority), gpuCount) - Score(g, c.(priority := 0), gpuCount)
         == priority as real * 1.5
    ensures HybridScore(g, c.(priority := priority), gpuCount) - HybridScore(g, c.(priority := 0), gpuCount)
         == priority as real * 1.5
  {
  }

  /** Where the scales begin: an idle GPU of no vendor, for a task of priority 0. */
  lemma IdleScore(g: Gpu, c: Criteria, gpuCount: Pos)
    requires g.kind == UnknownKind && g.usedMB == 0 && g.util == 0.0 && g.running == 0 && c.priority == 0
    ensures var load := match c.policy
                        case Binpack => 0.0
                        case Spread => 10.0
                        case GpuType => 10.0
                        case OtherPolicy => 5.0;
            && Score(g, c, gpuCount) == 55.0 + (if c.kind == ComputeKind then 12.0 else 15.0) + load
            && (!NoPreference(c) ==> HybridScore(g, c, gpuCount) == 65.0 + load)
  {
    WholeShare(g.vramMB);
    WholeShare(gpuCount);
    LoadTablesAgree(g, c.policy, gpuCount);
    assert VramScore(g) == 30.0 && UtilScore(g) == 25.0;
  }

  /** How much better off `h` is by memory and utilisation alone. */
  function IdleAdvantage(h: Gpu, g: Gpu): real {
    VramScore(h) + UtilScore(h) - VramScore(g) - UtilScore(g)
  }

  /** The vendor that the weights prefer for a kind of task; a task of no such kind may take any. */
  predicate Favours(kind: TaskKind, vendor: GpuKind) {
    match kind
    case Training => vendor == Nvidia
    case Inference => vendor == Amd
    case ComputeKind => vendor == Nvidia
    case OtherKind => true
  }

  /** By how many points it prefers it. */
  function Lead(kind: TaskKind): real {
    match kind
    case Training => 3.0
    case Inference => 3.0
    case ComputeKind => 8.0
    case OtherKind => 0.0
  }

  /** Under gpu_type a GPU of the preferred vendor outscores one of another kind up to its lead in memory and
      utilisation, where they tie. */
  lemma GpuTypePrefersKindIff(g: Gpu, h: Gpu, c: Criteria, gpuCount: Pos)
    requires c.policy == GpuType && Favours(c.kind, g.kind) && h.kind != g.kind
    ensures Score(h, c, gpuCount) < Score(g, c, gpuCount) <==> IdleAdvantage(h, g) < Lead(c.kind)
    ensures Score(h, c, gpuCount) == Score(g, c, gpuCount) <==> IdleAdvantage(h, g) == Lead(c.kind)
  {
  }

  lemma WholeShare(n: Pos)
    ensures n as real / n as real == 1.0
  {
    var d := n as real;
    assert d / d * d == d;
    Scaling(d / d, 1.0, d);
  }

  lemma PartsWithinWeights(g: Gpu)
    requires g.IsHealthy() && 0 <= g.usedMB <= g.vramMB
    ensures 0.0 <= VramScore(g) <= 30.0 && 0.0 <= UtilScore(g) <= 25.0
  {
    ScaledShare(g.FreeVRAM(), g.usedMB, g.vramMB, 30.0);
    assert g.FreeVRAM() + g.usedMB == g.vramMB;
    WholeShare(g.vramMB);
    ShareSign(g.usedMB, g.vramMB);
    ShareSign(g.FreeVRAM(), g.vramMB);
  }

  lemma SpreadWithinWeight(g: Gpu, gpuCount: Pos)
    requires 0 <= g.running
    ensures LoadScore(g, Spread, gpuCount) <= 10.0
    ensures g.running <= gpuCount ==> 0.0 <= LoadScore(g, Spread, gpuCount)
  {
    LoadShares(g.running, gpuCount);
    ShareSign(g.running, gpuCount);
    if g.running <= gpuCount {
      ShareSign(gpuCount - g.running, gpuCount);
      assert (gpuCount - g.running) as real == gpuCount as real - g.running as real;
    }
  }

  /** Documented weights: every part stays within its weight, except the binpack load, which grows with the load. */
  lemma ScoreWithinWeights(g: Gpu, c: Criteria, gpuCount: Pos)
    requires g.IsHealthy() && 0 <= g.usedMB <= g.vramMB && 0 <= g.running && 0 <= c.priority <= 10
    ensures c.policy == Binpack ==>
              12.0 <= Score(g, c, gpuCount) <= 90.0 + g.running as real / gpuCount as real * 10.0
    ensures c.policy != Binpack ==> Score(g, c, gpuCount) <= 100.0
    ensures c.policy == Spread && g.running <= gpuCount ==> 12.0 <= Score(g, c, gpuCount)
  {
    PartsWithinWeights(g);
    SpreadWithinWeight(g, gpuCount);
    ShareSign(g.running, gpuCount);
    assert 12.0 <= KindScore(g, c.kind) <= 20.0 && 0.0 <= PriorityScore(c.priority) <= 15.0;
  }

  lemma ShareSign(a: int, n: Pos)
    requires a >= 0
    ensures a as real / n as real >= 0.0
    ensures a > 0 ==> a as real / n as real > 0.0
  {
  }

  /** The three load tables agree whatever their initial values and defaults. */
  lemma LoadTablesAgree(g: Gpu, policy: Policy, gpuCount: Pos)
    ensures LoadScore(g, policy, gpuCount) == HybridLoadScore(g, policy, gpuCount)
         == PrintedLoadScore(g, policy, gpuCount)
  {
  }

  /** The printed kind table is the task scheduler's; the hybrid one is, too, exactly without a preference or where the
      preference is worth what the task kind is worth. */
  lemma KindTablesAgreeIff(g: Gpu, c: Criteria)
    ensures PrintedKindScore(g, c.kind) == KindScore(g, c.kind)
    ensures HybridKindScore(g, c) == KindScore(g, c.kind)
       <==> NoPreference(c) || (c.preferred == g.kind == Nvidia && c.kind == ComputeKind)
  {
  }

  /** On one GPU the two schedulers score alike exactly without a preferred kind or where it is worth the same; the
      printed breakdown is always the task scheduler's score. */
  lemma HybridScoreAgreement(g: Gpu, c: Criteria, gpuCount: Pos)
    ensures HybridScore(g, c, gpuCount) == Score(g, c, gpuCount)
       <==> NoPreference(c) || (c.preferred == g.kind == Nvidia && c.kind == ComputeKind)
    ensures PrintedTotal(g, c, gpuCount) == Score(g, c, gpuCount)
  {
    LoadTablesAgree(g, c.policy, gpuCount);
    KindTablesAgreeIff(g, c);
  }

  lemma LoadShares(r: int, n: Pos)
    ensures (n as real - r as real) / n as real == 1.0 - r as real / n as real
    ensures r as real / n as real == 1.0 <==> r == n
    ensures r as real / n as real == 0.5 <==> 2 * r == n
  {
    var a, d := r as real, n as real;
    var x, y := a / d, (d - a) / d;
    assert x * d == a;
    assert y * d == d - a && (1.0 - x) * d == d - a;
    Scaling(y, 1.0 - x, d);
    Scaling(x, 1.0, d);
    Scaling(x, 0.5, d);
    assert (2 * r) as real == 2.0 * a;
  }

  /** The single-GPU breakdown is the score of a priority-5 task exactly under binpack or at a coincidental load. */
  lemma BreakdownAgreement(g: Gpu, c: Criteria, gpuCount: Pos)
    requires c.priority == 5
    ensures BreakdownTotal(g, c.kind, gpuCount) == Score(g, c, gpuCount)
       <==> match c.policy
            case Binpack => true
            case Spread => 2 * g.running == gpuCount
            case GpuType => g.running == gpuCount
            case OtherPolicy => 2 * g.running == gpuCount
  {
    LoadShares(g.running, gpuCount);
    var x := g.running as real / gpuCount as real;
    assert LoadScore(g, c.policy, gpuCount) ==
      match c.policy
      case Binpack => x * 10.0
      case Spread => (1.0 - x) * 10.0
      case GpuType => 10.0
      case OtherPolicy => 5.0;
  }
}
