/** How a task gets out of the queue, and when it never does. */
module Queue {
  import opened Wrappers
  import opened Types
  import opened Selection
  import opened Machine
  import opened Ledger
  import opened Preemption

  /** The event ends a running task and leaves some healthy GPU with 4096 MB. */
  predicate Drains(s: State, e: Event) {
    e.Finish? && e.id in s.running && Fits(Freed(s.gpus, s.running[e.id]), DEFAULT_VRAM)
  }

  /** Whatever room there is, submissions, monitor reports and settings take nobody out of the queue. */
  lemma QueueKeepsItsPrefix(s: State, e: Event)
    requires Enabled(s, e) && !Drains(s, e) && !e.Cancel?
    ensures s.pending <= Next(s, e).pending
  {
    match e
    case Submit(task, order, _, _) => MakeRoomFrame(Counted(s, task), Admitted(s, task), Charge(task), order);
    case Finish(id) =>
      if id in s.running {
        var r := Retired(s, id);
        DrainAllOrNone(r.pending, r.gpus, r.running);
      }
    case _ =>
  }

  lemma {:induction false} CancelledIsGone(queue: seq<Task>, id: string)
    requires forall i, j | 0 <= i < j < |queue| :: queue[i].id != queue[j].id
    ensures forall t | t in WithoutFirst(queue, id) :: t.id != id
  {
    if queue == [] || queue[0].id == id {
    } else {
      CancelledIsGone(queue[1..], id);
    }
  }

  lemma CancelTakesOnlyItsTask(s: State, cancelled: string, id: string)
    requires Separate(s) && InQueue(s.pending, id)
    ensures InQueue(WithoutFirst(s.pending, cancelled), id) <==> id != cancelled
  {
    var rest := WithoutFirst(s.pending, cancelled);
    CancelledIsGone(s.pending, cancelled);
    WithoutFirstMembers(s.pending, cancelled);
    var k :| 0 <= k < |s.pending| && s.pending[k].id == id;
    if id != cancelled {
      assert s.pending[k] in rest;
    } else {
      assert forall j | 0 <= j < |rest| :: rest[j] in rest;
    }
  }

  /** A queued task leaves the queue exactly if it is cancelled or a running task ends and leaves a healthy GPU with
      4096 MB; nothing else looks at the queue. */
  lemma LeavesQueueIff(s: State, e: Event, id: string)
    requires Enabled(s, e) && Separate(s) && InQueue(s.pending, id)
    ensures !InQueue(Next(s, e).pending, id) <==> e == Cancel(id) || Drains(s, e)
  {
    if Drains(s, e) {
      var r := Retired(s, e.id);
      DrainAllOrNone(r.pending, r.gpus, r.running);
    } else if e.Cancel? {
      CancelTakesOnlyItsTask(s, e.id, id);
    } else {
      QueueKeepsItsPrefix(s, e);
      var i :| 0 <= i < |s.pending| && s.pending[i].id == id;
      assert Next(s, e).pending[i] == s.pending[i];
    }
  }

  /** Nobody is cancelled, and no submission is placed. */
  predicate Quiet(es: seq<Event>) {
    forall i | 0 <= i < |es| :: !es[i].Cancel? && (es[i].Submit? ==> es[i].winner.None?)
  }

  /** With nothing running, whoever is queued waits for ever, however idle the GPUs become: only a submission that is
      placed, and then ends, can start the queue again. */
  lemma {:induction false} IdleQueueWaits(s: State, es: seq<Event>)
    requires Legal(s, es) && Quiet(es) && s.running == map[]
    ensures Run(s, es).running == map[] && s.pending <= Run(s, es).pending
    decreases |es|
  {
    if es == [] {
    } else {
      var e := es[0];
      QueueKeepsItsPrefix(s, e);
      if e.Submit? {
        MakeRoomFrame(Counted(s, e.task), Admitted(s, e.task), Charge(e.task), e.order);
      }
      IdleQueueWaits(Next(s, e), es[1..]);
    }
  }

  /** From the start: the preemptor that killed for nothing is queued, its GPU recovers and could take it, nothing runs,
      and over every quiet run it waits. */
  lemma StrandedOnIdleGpus(a: Task, b: Task, es: seq<Event>, recovery: Event, later: seq<Event>)
    requires a == Task("", OtherKind, 1, 0, 20000, Pending) && b == Task("", OtherKind, 10, 0, 20000, Pending)
    requires es == [Submit(a, [], Some("1"), true), Monitor("1", 20000, 101.0, 1), Submit(b, ["task-1"], None, false)]
    requires recovery == Monitor("1", 0, 0.0, 0)
    ensures Legal(INITIAL, es)
    ensures var s := Next(Run(INITIAL, es), recovery);
            && s.gpus == INITIAL.gpus && Fits(s.gpus, Charge(b)) && s.running == map[]
            && (Legal(s, later) && Quiet(later) ==>
                  Run(s, later).running == map[] && [b.(id := "task-2")] <= Run(s, later).pending)
  {
    VictimDiesForNothing(a, b, es);
    var s := Next(Run(INITIAL, es), recovery);
    assert Eligible(s.gpus["1"], Charge(b));
    if Legal(s, later) && Quiet(later) {
      IdleQueueWaits(s, later);
    }
  }
}
