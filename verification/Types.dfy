/** The scheduler's values: GPUs, tasks, scheduling criteria, preemption settings and records. */
module Types {
  import opened Decimal

  datatype GpuKind = Nvidia | Amd | UnknownKind | Unset
  datatype TaskKind = Training | Inference | ComputeKind | OtherKind
  datatype Policy = Binpack | Spread | GpuType | OtherPolicy
  datatype Status = Pending | Running | Completed | Failed | Timeout | Killed

  type Pos = n: int | n > 0 witness 1

  datatype GpuRecord = GpuRecord(id: string, kind: GpuKind, vramMB: int, usedMB: int, util: real, running: int)
  {
    function FreeVRAM(): int {
      vramMB - usedMB
    }

    predicate IsHealthy() {
      0.0 <= util <= 100.0
    }

    predicate CanAllocate(need: int) {
      FreeVRAM() >= need
    }
  }

  /** Utilisation from 0 to 100 is healthy, anything below or above is not; what fits the rest of the memory can be
      allocated, and nothing more. */
  lemma HealthyBounds(g: GpuRecord, beyond: real)
    requires beyond > 0.0
    ensures g.(util := 0.0).IsHealthy() && g.(util := 100.0).IsHealthy() && g.(util := 50.0).IsHealthy()
    ensures !g.(util := 100.0 + beyond).IsHealthy() && !g.(util := 0.0 - beyond).IsHealthy()
    ensures g.CanAllocate(g.vramMB - g.usedMB) && !g.CanAllocate(g.vramMB - g.usedMB + 1)
  {
  }

  /** A GPU has memory, so the memory share in its score is a number. */
  type Gpu = g: GpuRecord | g.vramMB > 0 witness GpuRecord("", Unset, 1, 0, 0.0, 0)

  /** `gpuReq` is the number of GPUs the user asked for until placement overwrites it with a parsed GPU ID. */
  datatype Task = Task(id: string, kind: TaskKind, priority: int, gpuReq: Int64, vramMB: int, status: Status)

  datatype Criteria = Criteria(need: int, preferred: GpuKind, kind: TaskKind, priority: int, policy: Policy)

  /** `Checkpoint` also stands for every policy name the loop has no case for. */
  datatype PreemptPolicy = Kill | Wait | Checkpoint

  datatype Config = Config(enabled: bool, minPriority: int, maxVictimPriority: int, policy: PreemptPolicy)

  datatype Record = Record(preemptor: Task, victim: Task, gpuId: string)

  const DEFAULT_VRAM := 4096
  const WINDOW := 100

  /** What admission books for a task. */
  function Charge(t: Task): int {
    if t.vramMB > 0 then t.vramMB else DEFAULT_VRAM
  }

  /** What release and completion give back. */
  function ReleaseRefund(t: Task): int {
    if t.vramMB == 0 then DEFAULT_VRAM else t.vramMB
  }

  /** What kill preemption gives back. */
  function KillRefund(t: Task): int {
    t.vramMB
  }

  /** The ID under which the scheduler looks for a running task's GPU. */
  function Host(t: Task): string {
    Itoa(t.gpuReq)
  }
}
