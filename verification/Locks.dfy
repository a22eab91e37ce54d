/** The mutexes under the atomic steps: which calls take them in which order, and when callers wait for ever. */
module Locks {

  datatype Lock = SchedulerLock | ExecutorLock | MasterLock

  /** `Submission` is a submission that reaches the executor, to stop a victim or to start the task; others are
      `SchedulerCall`s. `Exit` is the end of a process with its callback into the scheduler. */
  datatype Call = Submission | Exit | SchedulerCall | ExecutorCall | Heartbeat | MasterCall

  /** What a call locks, in order. It lets go of everything when it returns. */
  function Needs(c: Call): (locks: seq<Lock>)
    ensures 1 <= |locks| <= 2
  {
    match c
    case Submission => [SchedulerLock, ExecutorLock]
    case Exit => [ExecutorLock, SchedulerLock]
    case SchedulerCall => [SchedulerLock]
    case ExecutorCall => [ExecutorLock]
    case Heartbeat => [MasterLock, MasterLock]
    case MasterCall => [MasterLock]
  }

  /** A call in progress has taken the first `taken` of its locks. */
  datatype Thread = Thread(call: Call, taken: nat, returned: bool)

  predicate Holds(t: Thread, lock: Lock) {
    !t.returned && t.taken <= |Needs(t.call)| && lock in Needs(t.call)[..t.taken]
  }

  predicate Free(ts: seq<Thread>, lock: Lock) {
    forall i | 0 <= i < |ts| :: !Holds(ts[i], lock)
  }

  /** The thread may take its next lock, or return once it has them all. No lock may be taken twice. */
  predicate CanGo(ts: seq<Thread>, i: nat) {
    i < |ts| && !ts[i].returned && (ts[i].taken < |Needs(ts[i].call)| ==> Free(ts, Needs(ts[i].call)[ts[i].taken]))
  }

  function Gone(ts: seq<Thread>, i: nat): (ts': seq<Thread>)
    requires CanGo(ts, i)
    ensures |ts'| == |ts| && forall k | 0 <= k < |ts| :: ts'[k].call == ts[k].call
  {
    var t := ts[i];
    ts[i := if t.taken < |Needs(t.call)| then t.(taken := t.taken + 1) else t.(returned := true)]
  }

  predicate CanGoOn(ts: seq<Thread>, run: seq<nat>)
    decreases |run|
  {
    run == [] || (CanGo(ts, run[0]) && CanGoOn(Gone(ts, run[0]), run[1..]))
  }

  function GoneOn(ts: seq<Thread>, run: seq<nat>): seq<Thread>
    requires CanGoOn(ts, run)
    decreases |run|
  {
    if run == [] then ts else GoneOn(Gone(ts, run[0]), run[1..])
  }

  /** Somebody has not returned, and nobody can go on. */
  predicate Stuck(ts: seq<Thread>) {
    (exists i :: 0 <= i < |ts| && !ts[i].returned) && forall i: nat | i < |ts| :: !CanGo(ts, i)
  }

  /** No lock has two holders. */
  predicate Exclusive(ts: seq<Thread>) {
    && (forall i | 0 <= i < |ts| :: ts[i].taken <= |Needs(ts[i].call)|)
    && (forall i, k, lock | 0 <= i < k < |ts| && Holds(ts[i], lock) :: !Holds(ts[k], lock))
  }

  // The scheduler and the executor

  predicate OnScheduler(c: Call) {
    c == Submission || c == Exit || c == SchedulerCall || c == ExecutorCall
  }

  predicate AllOnScheduler(ts: seq<Thread>) {
    forall i | 0 <= i < |ts| :: OnScheduler(ts[i].call)
  }

  /** The submission has the scheduler and wants the executor; the exit has the executor and wants the scheduler. */
  predicate Embraced(ts: seq<Thread>, i: nat, k: nat) {
    i < |ts| && k < |ts| && ts[i] == Thread(Submission, 1, false) && ts[k] == Thread(Exit, 1, false)
  }

  lemma HoldersOnScheduler(t: Thread)
    requires OnScheduler(t.call) && t.taken <= |Needs(t.call)|
    ensures Holds(t, SchedulerLock) <==>
              !t.returned && ((t.call == Submission && t.taken >= 1) || (t.call == Exit && t.taken == 2)
                              || (t.call == SchedulerCall && t.taken == 1))
    ensures Holds(t, ExecutorLock) <==>
              !t.returned && ((t.call == Exit && t.taken >= 1) || (t.call == Submission && t.taken == 2)
                              || (t.call == ExecutorCall && t.taken == 1))
  {
    var needs := Needs(t.call);
    assert needs[..0] == [] && needs[..1] == [needs[0]] && needs[..|needs|] == needs;
    assert |needs| == 2 ==> needs == [needs[0], needs[1]];
  }

  lemma EmbraceBlocks(ts: seq<Thread>, i: nat, k: nat, x: nat)
    requires AllOnScheduler(ts) && Exclusive(ts) && Embraced(ts, i, k) && x < |ts|
    ensures !CanGo(ts, x)
  {
    HoldersOnScheduler(ts[i]);
    HoldersOnScheduler(ts[k]);
    HoldersOnScheduler(ts[x]);
    assert !Free(ts, SchedulerLock) && !Free(ts, ExecutorLock);
  }

  /** The holder of a lock that cannot go on is a submission without the executor or an exit without the scheduler. */
  lemma WaitingHolder(ts: seq<Thread>, lock: Lock) returns (x: nat)
    requires AllOnScheduler(ts) && Exclusive(ts) && Stuck(ts) && !Free(ts, lock)
    requires lock == SchedulerLock || lock == ExecutorLock
    ensures x < |ts| && ts[x] == Thread(if lock == SchedulerLock then Submission else Exit, 1, false)
    ensures !Free(ts, if lock == SchedulerLock then ExecutorLock else SchedulerLock)
  {
    x :| x < |ts| && Holds(ts[x], lock);
    HoldersOnScheduler(ts[x]);
    assert !CanGo(ts, x);
  }

  /** Callers of the scheduler and the executor are stuck exactly if a submission and an exit each hold what the other
      wants. */
  lemma StuckIff(ts: seq<Thread>)
    requires AllOnScheduler(ts) && Exclusive(ts)
    ensures Stuck(ts) <==> exists i: nat, k: nat :: Embraced(ts, i, k)
  {
    if Stuck(ts) {
      var x :| 0 <= x < |ts| && !ts[x].returned;
      assert !CanGo(ts, x);
      var lock := Needs(ts[x].call)[ts[x].taken];
      var a := WaitingHolder(ts, lock);
      var b := WaitingHolder(ts, if lock == SchedulerLock then ExecutorLock else SchedulerLock);
      assert Embraced(ts, a, b) || Embraced(ts, b, a);
    }
    if i: nat, k: nat :| Embraced(ts, i, k) {
      forall x: nat | x < |ts|
        ensures !CanGo(ts, x)
      {
        EmbraceBlocks(ts, i, k, x);
      }
    }
  }

  lemma GoneStaysExclusive(ts: seq<Thread>, i: nat)
    requires Exclusive(ts) && CanGo(ts, i)
    ensures Exclusive(Gone(ts, i))
  {
    var ts' := Gone(ts, i);
    var t := ts[i];
    if t.taken < |Needs(t.call)| {
      var lock := Needs(t.call)[t.taken];
      assert Needs(t.call)[..t.taken + 1] == Needs(t.call)[..t.taken] + [lock];
      assert forall l :: Holds(ts'[i], l) <==> Holds(t, l) || l == lock;
    }
  }

  lemma {:induction false} RunStaysExclusive(ts: seq<Thread>, run: seq<nat>)
    requires Exclusive(ts) && CanGoOn(ts, run)
    ensures var ts' := GoneOn(ts, run);
            Exclusive(ts') && |ts'| == |ts| && forall k | 0 <= k < |ts| :: ts'[k].call == ts[k].call
    decreases |run|
  {
    if run == [] {
    } else {
      GoneStaysExclusive(ts, run[0]);
      RunStaysExclusive(Gone(ts, run[0]), run[1..]);
    }
  }

  /** It is for ever: no run frees either of the two. */
  lemma {:induction false} EmbracedForEver(ts: seq<Thread>, run: seq<nat>, i: nat, k: nat)
    requires Embraced(ts, i, k) && CanGoOn(ts, run)
    ensures Embraced(GoneOn(ts, run), i, k)
    decreases |run|
  {
    if run == [] {
    } else {
      assert Needs(Submission)[..1] == [SchedulerLock] && Needs(Exit)[..1] == [ExecutorLock];
      assert Holds(ts[i], SchedulerLock) && Holds(ts[k], ExecutorLock);
      EmbracedForEver(Gone(ts, run[0]), run[1..], i, k);
    }
  }

  function Fresh(calls: seq<Call>): (ts: seq<Thread>)
    ensures |ts| == |calls| && forall i | 0 <= i < |calls| :: ts[i] == Thread(calls[i], 0, false)
  {
    seq(|calls|, i requires 0 <= i < |calls| => Thread(calls[i], 0, false))
  }

  predicate LeadsToStuck(ts: seq<Thread>, run: seq<nat>) {
    CanGoOn(ts, run) && Stuck(GoneOn(ts, run))
  }

  lemma FreshIsFree(calls: seq<Call>)
    ensures Exclusive(Fresh(calls)) && forall lock :: Free(Fresh(calls), lock)
  {
    assert forall c: Call :: Needs(c)[..0] == [];
  }

  lemma CrossingCalls(calls: seq<Call>, i: nat, k: nat) returns (run: seq<nat>)
    requires i < |calls| && k < |calls| && calls[i] == Submission && calls[k] == Exit
    ensures CanGoOn(Fresh(calls), run) && Embraced(GoneOn(Fresh(calls), run), i, k)
  {
    var ts := Fresh(calls);
    FreshIsFree(calls);
    var ts1 := Gone(ts, i);
    assert Needs(Submission)[..1] == [SchedulerLock];
    assert Free(ts1, ExecutorLock);
    var ts2 := Gone(ts1, k);
    run := [i, k];
    assert [k][1..] == [] && run[1..] == [k];
    assert CanGoOn(ts2, []) && GoneOn(ts2, []) == ts2;
    assert CanGoOn(ts1, [k]) && GoneOn(ts1, [k]) == ts2;
  }

  predicate AllCallsOnScheduler(calls: seq<Call>) {
    forall i | 0 <= i < |calls| :: OnScheduler(calls[i])
  }

  lemma AfterFresh(calls: seq<Call>, run: seq<nat>)
    requires AllCallsOnScheduler(calls) && CanGoOn(Fresh(calls), run)
    ensures var ts := GoneOn(Fresh(calls), run);
            && AllOnScheduler(ts) && Exclusive(ts) && |ts| == |calls|
            && forall k | 0 <= k < |calls| :: ts[k].call == calls[k]
  {
    FreshIsFree(calls);
    RunStaysExclusive(Fresh(calls), run);
  }

  lemma StuckNeedsBoth(calls: seq<Call>, run: seq<nat>)
    requires AllCallsOnScheduler(calls) && LeadsToStuck(Fresh(calls), run)
    ensures Submission in calls && Exit in calls
  {
    AfterFresh(calls, run);
    var ts := GoneOn(Fresh(calls), run);
    StuckIff(ts);
    var i: nat, k: nat :| Embraced(ts, i, k);
    assert calls[i] == Submission && calls[k] == Exit;
  }

  lemma BothGetStuck(calls: seq<Call>) returns (run: seq<nat>)
    requires AllCallsOnScheduler(calls) && Submission in calls && Exit in calls
    ensures LeadsToStuck(Fresh(calls), run)
  {
    var i: nat :| i < |calls| && calls[i] == Submission;
    var k: nat :| k < |calls| && calls[k] == Exit;
    run := CrossingCalls(calls, i, k);
    AfterFresh(calls, run);
    StuckIff(GoneOn(Fresh(calls), run));
  }

  /** A set of calls to the scheduler and the executor can get stuck exactly if it has both a submission that reaches
      the executor and an exit. */
  lemma CanGetStuckIff(calls: seq<Call>)
    requires AllCallsOnScheduler(calls)
    ensures (exists run :: LeadsToStuck(Fresh(calls), run)) <==> Submission in calls && Exit in calls
  {
    if run :| LeadsToStuck(Fresh(calls), run) {
      StuckNeedsBoth(calls, run);
    }
    if Submission in calls && Exit in calls {
      var run := BothGetStuck(calls);
    }
  }

  // The master

  predicate Waits(t: Thread) {
    !t.returned && t.call == Heartbeat && t.taken <= 1
  }

  /** A heartbeat locks the master's mutex and then locks it again: it returns in no run. */
  lemma {:induction false} HeartbeatNeverReturns(ts: seq<Thread>, run: seq<nat>, i: nat)
    requires i < |ts| && Waits(ts[i]) && CanGoOn(ts, run)
    ensures i < |GoneOn(ts, run)| && Waits(GoneOn(ts, run)[i])
    decreases |run|
  {
    if run == [] {
    } else {
      assert Needs(Heartbeat)[..1] == [MasterLock];
      assert ts[i].taken == 1 ==> Holds(ts[i], MasterLock);
      HeartbeatNeverReturns(Gone(ts, run[0]), run[1..], i);
    }
  }

  /** And once it has the mutex, no other call to the master ever begins. */
  lemma {:induction false} HeartbeatStopsTheMaster(ts: seq<Thread>, run: seq<nat>, i: nat, k: nat)
    requires i < |ts| && ts[i] == Thread(Heartbeat, 1, false) && CanGoOn(ts, run)
    requires k < |ts| && !ts[k].returned && ts[k].taken == 0 && Needs(ts[k].call)[0] == MasterLock
    ensures |GoneOn(ts, run)| == |ts| && GoneOn(ts, run)[k] == ts[k]
    decreases |run|
  {
    if run == [] {
    } else {
      assert Needs(Heartbeat)[..1] == [MasterLock];
      assert Holds(ts[i], MasterLock);
      HeartbeatStopsTheMaster(Gone(ts, run[0]), run[1..], i, k);
    }
  }
}
