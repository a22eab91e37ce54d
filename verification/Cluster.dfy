/** The cluster master and its agents: who is assigned a task, who is told, and what comes back. */
module Cluster {
  import opened Wrappers
  import opened Decimal
  import opened Types
  import opened Execution

  /** An empty target means the task is waiting for a node. */
  datatype CTask = CTask(target: string, status: Status)

  /** `nodes` says of each known node whether it is not marked offline. */
  datatype Master = Master(nodes: map<string, bool>, tasks: map<string, CTask>, counter: nat)

  function ClusterName(n: nat): string {
    "ctask-" + Itoa(n)
  }

  function Submitted(m: Master): Master {
    m.(counter := m.counter + 1, tasks := m.tasks[ClusterName(m.counter + 1) := CTask("", Pending)])
  }

  /** Registers a new node as online; a known node keeps its status, so offline is for good. */
  function Heard(m: Master, node: string): Master {
    if node in m.nodes then m else m.(nodes := m.nodes[node := true])
  }

  predicate Waiting(m: Master, id: string) {
    id in m.tasks && m.tasks[id].target == ""
  }

  /** A heartbeat: the waiting tasks the node is granted are assigned to it and dispatched with the answer. */
  function Granted(m: Master, node: string, grants: set<string>): Master {
    m.(tasks := map id | id in m.tasks ::
         if m.tasks[id].target == "" && id in grants then m.tasks[id].(target := node) else m.tasks[id])
  }

  /** The background pass: the picked tasks are assigned. Nothing is dispatched. */
  function Picked(m: Master, picks: map<string, string>): Master {
    m.(tasks := map id | id in m.tasks ::
         if id in picks then m.tasks[id].(target := picks[id]) else m.tasks[id])
  }

  predicate LegalPicks(m: Master, picks: map<string, string>) {
    forall id | id in picks :: Waiting(m, id) && picks[id] in m.nodes && m.nodes[picks[id]]
  }

  /** A result: the outcome is stored and the task is waiting again. */
  function Reported(m: Master, id: string, code: int): Master {
    if id in m.tasks
    then m.(tasks := m.tasks[id := CTask("", if code != 0 then Failed else Completed)])
    else m
  }

  function Marked(m: Master, stale: set<string>): Master {
    m.(nodes := map n | n in m.nodes :: m.nodes[n] && n !in stale)
  }

  function Cleaned(m: Master, gone: set<string>): Master {
    m.(nodes := m.nodes - gone)
  }

  class Server {
    var nodes: map<string, bool>
    var tasks: map<string, CTask>
    var counter: nat

    ghost function View(): Master
      reads this
    {
      Master(nodes, tasks, counter)
    }

    constructor ()
      ensures View() == Master(map[], map[], 0)
    {
      nodes, tasks, counter := map[], map[], 0;
    }

    method SubmitTask() returns (id: string)
      modifies this
      ensures View() == Submitted(old(View()))
      ensures id == "ctask-" + Itoa(old(counter) + 1) && Waiting(View(), id)
      ensures tasks == old(tasks)[id := CTask("", Pending)] && nodes == old(nodes) && counter == old(counter) + 1
    {
      counter := counter + 1;
      id := "ctask-" + Itoa(counter);
      tasks := tasks[id := CTask("", Pending)];
    }

    /** Registration, then one walk over the tasks; `grants` is what the local scheduler answers during the walk. */
    method HandleHeartbeat(node: string, grants: set<string>) returns (dispatches: seq<string>)
      modifies this
      ensures View() == Granted(Heard(old(View()), node), node, grants)
      ensures nodes == if node in old(nodes) then old(nodes) else old(nodes)[node := true]
      ensures tasks.Keys == old(tasks).Keys && forall id | id in tasks ::
                tasks[id] == if id in dispatches then CTask(node, old(tasks)[id].status) else old(tasks)[id]
      ensures forall id :: id in dispatches <==> Waiting(old(View()), id) && id in grants
      ensures forall i, j | 0 <= i < j < |dispatches| :: dispatches[i] != dispatches[j]
    {
      if node !in nodes {
        nodes := nodes[node := true];
      }
      dispatches := [];
      var left := tasks.Keys;
      while left != {}
        invariant left <= tasks.Keys == old(tasks).Keys
        invariant nodes == Heard(old(View()), node).nodes && counter == old(counter)
        invariant forall id | id in tasks ::
            tasks[id] == if id !in left && old(tasks)[id].target == "" && id in grants
                         then old(tasks)[id].(target := node) else old(tasks)[id]
        invariant forall id :: id in dispatches <==>
            id in tasks && id !in left && old(tasks)[id].target == "" && id in grants
        invariant forall i, j | 0 <= i < j < |dispatches| :: dispatches[i] != dispatches[j]
      {
        var id :| id in left;
        left := left - {id};
        if tasks[id].target == "" {
          if id in grants {
            tasks := tasks[id := tasks[id].(target := node)];
            dispatches := dispatches + [id];
          }
        }
      }
    }

    /** Each waiting task goes to some online node that accepts it, if there is one. */
    method TrySchedule(accepts: (string, string) -> bool) returns (ghost picks: map<string, string>)
      modifies this`tasks
      ensures LegalPicks(old(View()), picks) && View() == Picked(old(View()), picks)
      ensures forall id | id in picks ::
                && id in old(tasks) && old(tasks)[id].target == ""
                && picks[id] in nodes && nodes[picks[id]] && accepts(id, picks[id])
      ensures tasks.Keys == old(tasks).Keys && forall id | id in tasks ::
                tasks[id] == if id in picks then CTask(picks[id], old(tasks)[id].status) else old(tasks)[id]
      ensures forall id, n | Waiting(View(), id) && id !in picks && n in nodes && nodes[n] :: !accepts(id, n)
    {
      picks := map[];
      var left := tasks.Keys;
      while left != {}
        invariant left <= tasks.Keys == old(tasks).Keys && picks.Keys !! left
        invariant LegalPicks(old(View()), picks) && forall id | id in picks :: accepts(id, picks[id])
        invariant forall id | id in tasks ::
            tasks[id] == if id in picks then old(tasks)[id].(target := picks[id]) else old(tasks)[id]
        invariant forall id, n | id in tasks && id !in left && id !in picks && old(tasks)[id].target == ""
                                 && n in nodes && nodes[n] :: !accepts(id, n)
      {
        var id :| id in left;
        left := left - {id};
        if tasks[id].target == "" {
          var choice := FindNode(id, accepts);
          if choice.Some? {
            tasks := tasks[id := tasks[id].(target := choice.value)];
            picks := picks[id := choice.value];
          }
        }
      }
    }

    /** The inner walk over the nodes. */
    method FindNode(id: string, accepts: (string, string) -> bool) returns (choice: Option<string>)
      ensures choice.Some? ==> choice.value in nodes && nodes[choice.value] && accepts(id, choice.value)
      ensures choice.None? ==> forall n | n in nodes && nodes[n] :: !accepts(id, n)
    {
      var left := nodes.Keys;
      while left != {}
        invariant left <= nodes.Keys
        invariant forall n | n in nodes && n !in left && nodes[n] :: !accepts(id, n)
      {
        var n :| n in left;
        left := left - {n};
        if !nodes[n] {
          continue;
        }
        if accepts(id, n) {
          return Some(n);
        }
      }
      choice := None;
    }

    method HandleTaskResult(id: string, code: int)
      modifies this`tasks
      ensures View() == Reported(old(View()), id, code)
      ensures tasks.Keys == old(tasks).Keys && forall k | k in tasks && k != id :: tasks[k] == old(tasks)[k]
      ensures id in tasks ==>
                && tasks[id].target == ""
                && (tasks[id].status == Completed <==> code == 0) && (tasks[id].status == Failed <==> code != 0)
    {
      if id in tasks {
        var status := Completed;
        if code != 0 {
          status := Failed;
        }
        tasks := tasks[id := CTask("", status)];
      }
    }

    /** The marking pass of `GetClusterStatus`; `stale` is what the clock says. */
    method MarkStaleNodes(stale: set<string>)
      modifies this`nodes
      ensures View() == Marked(old(View()), stale)
      ensures nodes.Keys == old(nodes).Keys && forall n | n in nodes :: nodes[n] <==> old(nodes)[n] && n !in stale
    {
      nodes := map n | n in nodes :: nodes[n] && n !in stale;
    }

    method CleanupStaleNodes(gone: set<string>)
      modifies this`nodes
      ensures View() == Cleaned(old(View()), gone)
      ensures forall n :: n in nodes <==> n in old(nodes) && n !in gone
      ensures forall n | n in nodes :: nodes[n] == old(nodes)[n]
    {
      nodes := nodes - gone;
    }
  }

  // The agent

  /** What one poll of a local task finds. */
  datatype Seen = Gone | Alive | Ended(code: int)

  /** The first poll that is not `Alive` decides: its exit code, or no report if the task is gone; without such a poll
      the wait times out with -1. */
  predicate Answers(polls: seq<Seen>, report: Option<int>) {
    && ((forall i | 0 <= i < |polls| :: polls[i] == Alive) ==> report == Some(-1))
    && (forall i | 0 <= i < |polls| && polls[i] != Alive && (forall j | 0 <= j < i :: polls[j] == Alive) ::
          report == if polls[i] == Gone then None else Some(polls[i].code))
  }

  class Agent {
    var localTasks: set<string>
    const exec: Executor

    constructor (exec: Executor)
      ensures this.exec == exec && localTasks == {}
    {
      this.exec := exec;
      localTasks := {};
    }

    /** Polls until the task is not running, it is gone, or the polls of five minutes are used up. */
    method WaitTaskComplete(polls: seq<Seen>) returns (report: Option<int>)
      ensures Answers(polls, report)
    {
      for i := 0 to |polls|
        invariant forall j | 0 <= j < i :: polls[j] == Alive
      {
        match polls[i] {
          case Gone => return None;
          case Ended(code) => return Some(code);
          case Alive =>
        }
      }
      report := Some(-1);
    }

    /** At most one report per dispatch; a task this node has ever started is refused and reported as failed. */
    method ExecuteTask(id: string, gpuId: string, canStart: bool, polls: seq<Seen>) returns (report: Option<int>)
      modifies this, exec
      ensures localTasks == old(localTasks) + {id}
      ensures exec.View() == Started(old(exec.View()), id, gpuId, canStart)
      ensures !Starts(old(exec.View()), id, canStart) ==> report == Some(-1)
      ensures Starts(old(exec.View()), id, canStart) ==> Answers(polls, report)
    {
      localTasks := localTasks + {id};
      var ok := exec.SubmitTask(id, gpuId, canStart);
      if !ok {
        return Some(-1);
      }
      report := WaitTaskComplete(polls);
    }
  }

  // The protocol

  /** A dispatch an agent works on: at which node, and whether the node's executor refused it. */
  datatype Job = Job(node: string, refused: bool)

  /** Per task: assignments made and cleared, dispatches sent and delivered, results sent and received; and what is
      under way: the addressees of dispatches, the open jobs, the exit codes on their way back. */
  datatype Link = Link(granted: nat, cleared: nat, dispatched: nat, delivered: nat, sent: nat, received: nat,
                       wire: seq<string>, open: seq<Job>, back: seq<int>)

  function Assigned(k: Link): Link {
    k.(granted := k.granted + 1)
  }

  function Told(k: Link, node: string): Link {
    Assigned(k).(dispatched := k.dispatched + 1, wire := k.wire + [node])
  }

  const FRESH := Link(0, 0, 0, 0, 0, 0, [], [], [])

  /** `ran` holds the pairs of node and task whose process was ever started, `ended` those whose process has ended. */
  datatype Net = Net(m: Master, links: map<string, Link>, ran: set<(string, string)>, ended: set<(string, string)>)

  datatype Leg = Wire | Open | Back

  /** `Lose` is a lost dispatch, a job that ends without a report, or a lost result; without it, a message merely stays
      under way. `Ends` is the end of a process; `timedOut` says that the agent waited in vain. */
  datatype Move =
    | NewTask
    | Heartbeat(node: string, grants: set<string>)
    | Background(picks: map<string, string>)
    | Deliver(id: string, i: nat, canStart: bool)
    | Ends(node: string, id: string)
    | Report(id: string, i: nat, code: int, timedOut: bool)
    | Result(id: string, i: nat)
    | Lose(id: string, leg: Leg, i: nat)
    | MarkStale(stale: set<string>)
    | Cleanup(gone: set<string>)

  /** How much is under way on one leg. */
  function On(k: Link, leg: Leg): nat {
    match leg
    case Wire => |k.wire|
    case Open => |k.open|
    case Back => |k.back|
  }

  function Without<T>(s: seq<T>, i: nat): (r: seq<T>)
    requires i < |s|
    ensures |r| == |s| - 1 && forall j | 0 <= j < |r| :: r[j] == s[if j < i then j else j + 1]
  {
    s[..i] + s[i + 1..]
  }

  /** What an agent may report: -1 for a refused job and for one it waited for in vain, otherwise the code of a process
      that has ended. */
  predicate MayReport(w: Net, id: string, job: Job, code: int, timedOut: bool) {
    if job.refused then code == -1 && !timedOut
    else if timedOut then code == -1
    else (job.node, id) in w.ended
  }

  /** A message is delivered, reported on or lost only while it is under way. */
  predicate CanMove(w: Net, e: Move) {
    match e
    case Background(picks) => LegalPicks(w.m, picks)
    case Deliver(id, i, _) => id in w.links && i < |w.links[id].wire|
    case Ends(node, id) => (node, id) in w.ran && (node, id) !in w.ended
    case Report(id, i, code, timedOut) =>
      id in w.links && i < |w.links[id].open| && MayReport(w, id, w.links[id].open[i], code, timedOut)
    case Result(id, i) => id in w.links && i < |w.links[id].back|
    case Lose(id, leg, i) => id in w.links && i < On(w.links[id], leg)
    case _ => true
  }

  function Delivered(k: Link, i: nat, refused: bool): Link
    requires i < |k.wire|
  {
    k.(delivered := k.delivered + 1, wire := Without(k.wire, i), open := k.open + [Job(k.wire[i], refused)])
  }

  function Sent(k: Link, i: nat, code: int): Link
    requires i < |k.open|
  {
    k.(sent := k.sent + 1, open := Without(k.open, i), back := k.back + [code])
  }

  function Received(k: Link, i: nat, clears: bool): Link
    requires i < |k.back|
  {
    k.(received := k.received + 1, back := Without(k.back, i), cleared := k.cleared + if clears then 1 else 0)
  }

  function Lost(k: Link, leg: Leg, i: nat): Link
    requires i < On(k, leg)
  {
    match leg
    case Wire => k.(wire := Without(k.wire, i))
    case Open => k.(open := Without(k.open, i))
    case Back => k.(back := Without(k.back, i))
  }

  predicate StartsAt(w: Net, node: string, id: string, canStart: bool) {
    (node, id) !in w.ran && canStart
  }

  function Moved(w: Net, e: Move): Net
    requires CanMove(w, e)
  {
    match e
    case NewTask =>
      w.(m := Submitted(w.m), links := w.links[ClusterName(w.m.counter + 1) := FRESH])
    case Heartbeat(node, grants) =>
      w.(m := Granted(Heard(w.m, node), node, grants),
         links := map id | id in w.links ::
           if Waiting(w.m, id) && id in grants then Told(w.links[id], node) else w.links[id])
    case Background(picks) =>
      w.(m := Picked(w.m, picks),
         links := map id | id in w.links :: if id in picks then Assigned(w.links[id]) else w.links[id])
    case Deliver(id, i, canStart) =>
      var node := w.links[id].wire[i];
      w.(links := w.links[id := Delivered(w.links[id], i, !StartsAt(w, node, id, canStart))],
         ran := if StartsAt(w, node, id, canStart) then w.ran + {(node, id)} else w.ran)
    case Ends(node, id) => w.(ended := w.ended + {(node, id)})
    case Report(id, i, code, _) => w.(links := w.links[id := Sent(w.links[id], i, code)])
    case Result(id, i) =>
      w.(m := Reported(w.m, id, w.links[id].back[i]),
         links := w.links[id := Received(w.links[id], i, !Waiting(w.m, id))])
    case Lose(id, leg, i) => w.(links := w.links[id := Lost(w.links[id], leg, i)])
    case MarkStale(stale) => w.(m := Marked(w.m, stale))
    case Cleanup(gone) => w.(m := Cleaned(w.m, gone))
  }

  predicate CanRun(w: Net, es: seq<Move>)
    decreases |es|
  {
    es == [] || (CanMove(w, es[0]) && CanRun(Moved(w, es[0]), es[1..]))
  }

  function RunNet(w: Net, es: seq<Move>): Net
    requires CanRun(w, es)
    decreases |es|
  {
    if es == [] then w else RunNet(Moved(w, es[0]), es[1..])
  }

  const BOOT := Net(Master(map[], map[], 0), map[], {}, {})

  // The agent takes part in the protocol

  /** The executor at the node has started exactly the tasks that `ran` says. */
  ghost predicate Mirrors(w: Net, node: string, x: Exec) {
    forall id :: (node, id) in w.ran <==> id in x.running
  }

  /** The job that a delivery opened. */
  function Opened(w: Net, id: string): Job
    requires id in w.links && w.links[id].open != []
  {
    w.links[id].open[|w.links[id].open| - 1]
  }

  predicate EndedRan(w: Net) {
    w.ended <= w.ran
  }

  /** All polls found the task running. */
  predicate AllAlive(polls: seq<Seen>) {
    forall i | 0 <= i < |polls| :: polls[i] == Alive
  }

  /** Whenever the job is open (and the process has ended, if the report says so), this may be reported of it. */
  ghost predicate StaysReportable(id: string, job: Job, code: int, inVain: bool) {
    forall v: Net, timedOut: bool |
      timedOut == (!job.refused && inVain) && (job.refused || inVain || (job.node, id) in v.ended) ::
        MayReport(v, id, job, code, timedOut)
  }

  /** The moves of one execution, whose job is the one with the index `last`. */
  function Performed(node: string, id: string, i: nat, canStart: bool, refused: bool, last: nat, inVain: bool,
                     report: Option<int>): seq<Move>
  {
    if report.None? then [Deliver(id, i, canStart)]
    else if refused then [Deliver(id, i, canStart), Report(id, last, report.value, false)]
    else if inVain then [Deliver(id, i, canStart), Report(id, last, report.value, true)]
    else [Deliver(id, i, canStart), Ends(node, id), Report(id, last, report.value, false)]
  }

  /** One execution is one delivery, which the executor decides on, then at most one report: of the refusal, of the
      vain wait, or of the end of the process. The report is possible at every later moment at which the job is still
      open (and the process has ended, if that is what the polls saw). */
  method Execute(a: Agent, ghost w: Net, node: string, id: string, ghost i: nat, gpuId: string, canStart: bool,
                 polls: seq<Seen>)
    returns (report: Option<int>, ghost es: seq<Move>)
    requires Mirrors(w, node, a.exec.View()) && EndedRan(w)
    requires id in w.links && i < |w.links[id].wire| && w.links[id].wire[i] == node
    modifies a, a.exec
    ensures CanMove(w, Deliver(id, i, canStart))
    ensures var w' := Moved(w, Deliver(id, i, canStart));
            var refused := !Starts(old(a.exec.View()), id, canStart);
            var last := |w'.links[id].open| - 1;
            && Opened(w', id) == Job(node, refused)
            && Mirrors(w', node, a.exec.View())
            && es == Performed(node, id, i, canStart, refused, last, AllAlive(polls), report)
            && (report.Some? ==> StaysReportable(id, Job(node, refused), report.value, AllAlive(polls)))
    ensures CanRun(w, es) && Mirrors(RunNet(w, es), node, a.exec.View())
  {
    ghost var e := Deliver(id, i, canStart);
    ghost var w' := Moved(w, e);
    ghost var refused := !StartsAt(w, node, id, canStart);
    assert Starts(a.exec.View(), id, canStart) == !refused;
    report := a.ExecuteTask(id, gpuId, canStart, polls);
    assert Opened(w', id) == Job(node, refused);
    assert refused || AllAlive(polls) ==> report == Some(-1);
    ghost var last := |w'.links[id].open| - 1;
    es := Performed(node, id, i, canStart, refused, last, AllAlive(polls), report);
    if report.None? {
      RunOfOne(w, e);
    } else {
      if refused || AllAlive(polls) {
        ghost var r := Report(id, last, report.value, !refused);
        RunOfTwo(w, e, r);
      } else {
        ghost var end, r := Ends(node, id), Report(id, last, report.value, false);
        RunOfThree(w, e, end, r);
      }
    }
  }

  /** What happens elsewhere does not change what a node has started. */
  lemma NodesAreApart(w: Net, e: Move, node: string, x: Exec)
    requires CanMove(w, e) && Mirrors(w, node, x) && (e.Deliver? ==> w.links[e.id].wire[e.i] != node)
    ensures Mirrors(Moved(w, e), node, x)
  {
  }

  lemma RunOfOne(w: Net, e: Move)
    requires CanMove(w, e)
    ensures CanRun(w, [e]) && RunNet(w, [e]) == Moved(w, e)
  {
    assert [e][1..] == [];
  }

  lemma RunOfTwo(w: Net, e: Move, f: Move)
    requires CanMove(w, e) && CanMove(Moved(w, e), f)
    ensures CanRun(w, [e, f]) && RunNet(w, [e, f]) == Moved(Moved(w, e), f)
  {
    RunOfOne(Moved(w, e), f);
    assert [e, f][1..] == [f];
  }

  lemma RunOfThree(w: Net, e: Move, f: Move, g: Move)
    requires CanMove(w, e) && CanMove(Moved(w, e), f) && CanMove(Moved(Moved(w, e), f), g)
    ensures CanRun(w, [e, f, g]) && RunNet(w, [e, f, g]) == Moved(Moved(Moved(w, e), f), g)
  {
    RunOfTwo(Moved(w, e), f, g);
    assert [e, f, g][1..] == [f, g];
  }

  // Alternation

  /** The counters of one task fit its target, and whatever is under way belongs to the current assignment. */
  predicate Fitting(k: Link, target: string) {
    && k.granted == k.cleared + (if target == "" then 0 else 1)
    && k.cleared == k.received && k.dispatched <= k.granted
    && k.received + |k.back| <= k.sent && k.sent + |k.open| <= k.delivered && k.delivered + |k.wire| <= k.dispatched
    && (forall i | 0 <= i < |k.wire| :: k.wire[i] == target)
    && (forall i | 0 <= i < |k.open| :: k.open[i].node == target)
  }

  predicate InStep(w: Net, id: string)
    requires id in w.m.tasks && id in w.links
  {
    Fitting(w.links[id], w.m.tasks[id].target)
  }

  predicate Named(m: Master, id: string) {
    exists n: nat :: n <= m.counter && id == ClusterName(n)
  }

  predicate WellNamed(w: Net) {
    w.links.Keys == w.m.tasks.Keys && forall id | id in w.m.tasks :: Named(w.m, id)
  }

  /** Every task is in step, and its ID was issued. */
  predicate Alternating(w: Net) {
    WellNamed(w) && forall id | id in w.m.tasks :: InStep(w, id)
  }

  /** No waiting task is assigned to the empty name, which would leave it waiting. */
  predicate AssignsToNames(w: Net, e: Move) {
    match e
    case Heartbeat(node, grants) => node == "" ==> forall id | id in grants :: !Waiting(w.m, id)
    case Background(picks) => forall id | id in picks :: picks[id] != ""
    case _ => true
  }

  /** Heartbeats carry the name of a node. */
  predicate FromNamedNode(e: Move) {
    e.Heartbeat? ==> e.node != ""
  }

  predicate FromNamedNodes(es: seq<Move>) {
    forall i | 0 <= i < |es| :: FromNamedNode(es[i])
  }

  lemma CtaskNamesDiffer(n: nat, counter: nat)
    requires n <= counter
    ensures ClusterName(n) != ClusterName(counter + 1)
  {
    ValueOfDigits(n);
    ValueOfDigits(counter + 1);
    var a, b := ClusterName(n), ClusterName(counter + 1);
    assert a[6..] == Digits(n) && b[6..] == Digits(counter + 1);
  }

  lemma MasterMoveKeepsStep(w: Net, e: Move, id: string)
    requires id in w.m.tasks && id in w.links && InStep(w, id) && CanMove(w, e) && AssignsToNames(w, e)
    requires !e.Deliver? && !e.Report? && !e.Result? && !e.Lose?
    requires e.NewTask? ==> id != ClusterName(w.m.counter + 1)
    ensures id in Moved(w, e).m.tasks && id in Moved(w, e).links && InStep(Moved(w, e), id)
  {
  }

  lemma DeliveredFits(k: Link, target: string, i: nat, refused: bool)
    requires Fitting(k, target) && i < |k.wire|
    ensures Fitting(Delivered(k, i, refused), target)
  {
  }

  lemma SentFits(k: Link, target: string, i: nat, code: int)
    requires Fitting(k, target) && i < |k.open|
    ensures Fitting(Sent(k, i, code), target)
  {
  }

  /** The only result under way clears the assignment. */
  lemma ReceivedFits(k: Link, target: string, i: nat)
    requires Fitting(k, target) && i < |k.back|
    ensures target != "" && Fitting(Received(k, i, true), "")
  {
  }

  lemma LostFits(k: Link, target: string, leg: Leg, i: nat)
    requires Fitting(k, target) && i < On(k, leg)
    ensures Fitting(Lost(k, leg, i), target)
  {
  }

  lemma MessageMoveKeepsStep(w: Net, e: Move, id: string)
    requires id in w.m.tasks && id in w.links && InStep(w, id) && CanMove(w, e)
    requires e.Deliver? || e.Report? || e.Result? || e.Lose?
    ensures id in Moved(w, e).m.tasks && id in Moved(w, e).links && InStep(Moved(w, e), id)
  {
    if e.id == id {
      var k, target := w.links[id], w.m.tasks[id].target;
      match e
      case Deliver(_, i, canStart) => DeliveredFits(k, target, i, !StartsAt(w, k.wire[i], id, canStart));
      case Report(_, i, code, _) => SentFits(k, target, i, code);
      case Result(_, i) => ReceivedFits(k, target, i);
      case Lose(_, leg, i) => LostFits(k, target, leg, i);
    }
  }

  lemma IssuedBefore(w: Net, id: string)
    requires WellNamed(w) && id in w.m.tasks
    ensures id != ClusterName(w.m.counter + 1)
  {
    var n: nat :| n <= w.m.counter && id == ClusterName(n);
    CtaskNamesDiffer(n, w.m.counter);
  }

  lemma MoveKeepsKeys(w: Net, e: Move)
    requires w.links.Keys == w.m.tasks.Keys && CanMove(w, e)
    ensures Moved(w, e).links.Keys == Moved(w, e).m.tasks.Keys
         == w.m.tasks.Keys + if e.NewTask? then {ClusterName(w.m.counter + 1)} else {}
    ensures Moved(w, e).m.counter == w.m.counter + if e.NewTask? then 1 else 0
  {
  }

  lemma NamedLater(m: Master, m': Master, id: string)
    requires Named(m, id) && m.counter <= m'.counter
    ensures Named(m', id)
  {
    var n: nat :| n <= m.counter && id == ClusterName(n);
    assert n <= m'.counter;
  }

  lemma MoveKeepsNames(w: Net, e: Move)
    requires WellNamed(w) && CanMove(w, e)
    ensures WellNamed(Moved(w, e))
  {
    MoveKeepsKeys(w, e);
    var m' := Moved(w, e).m;
    forall id | id in m'.tasks
      ensures Named(m', id)
    {
      if id in w.m.tasks {
        NamedLater(w.m, m', id);
      } else {
        assert id == ClusterName(m'.counter);
      }
    }
  }

  lemma MoveKeepsTask(w: Net, e: Move, id: string)
    requires Alternating(w) && CanMove(w, e) && AssignsToNames(w, e)
    requires id in Moved(w, e).m.tasks && id in Moved(w, e).links
    ensures InStep(Moved(w, e), id)
  {
    MoveKeepsKeys(w, e);
    if id in w.m.tasks {
      IssuedBefore(w, id);
      if e.Deliver? || e.Report? || e.Result? || e.Lose? {
        MessageMoveKeepsStep(w, e, id);
      } else {
        MasterMoveKeepsStep(w, e, id);
      }
    }
  }

  lemma NamelessAssignmentFallsOut(w: Net, e: Move, id: string)
    requires Alternating(w) && CanMove(w, e) && id in w.m.tasks && Waiting(w.m, id)
    requires (e.Heartbeat? && e.node == "" && id in e.grants) || (e.Background? && id in e.picks && e.picks[id] == "")
    ensures id in Moved(w, e).m.tasks && id in Moved(w, e).links && !InStep(Moved(w, e), id)
  {
    assert InStep(w, id);
  }

  /** A move keeps every task in step exactly if it assigns no waiting task to the empty name. */
  lemma MoveAlternatesIff(w: Net, e: Move)
    requires Alternating(w) && CanMove(w, e)
    ensures Alternating(Moved(w, e)) <==> AssignsToNames(w, e)
  {
    MoveKeepsKeys(w, e);
    MoveKeepsNames(w, e);
    var w' := Moved(w, e);
    if AssignsToNames(w, e) {
      forall id | id in w'.m.tasks
        ensures InStep(w', id)
      {
        MoveKeepsTask(w, e, id);
      }
    } else if e.Heartbeat? {
      var id :| id in e.grants && Waiting(w.m, id);
      NamelessAssignmentFallsOut(w, e, id);
    } else {
      var id :| id in e.picks && e.picks[id] == "";
      NamelessAssignmentFallsOut(w, e, id);
    }
  }

  /** As long as heartbeats carry names, the master knows no nameless node and picks none. */
  lemma NodesStayNamed(w: Net, e: Move)
    requires CanMove(w, e) && "" !in w.m.nodes && FromNamedNode(e)
    ensures AssignsToNames(w, e) && "" !in Moved(w, e).m.nodes
  {
  }

  lemma ResultsReachAssignedTasks(w: Net, id: string, i: nat)
    requires Alternating(w) && CanMove(w, Result(id, i))
    ensures id in w.m.tasks && w.m.tasks[id].target != ""
  {
    ReceivedFits(w.links[id], w.m.tasks[id].target, i);
  }

  /** From the start, over every run of heartbeats, background passes, deliveries, losses, stale marks and cleanups,
      assignments and results alternate: a task has at most one dispatch unanswered, none while it waits, no more
      answers than dispatches, and nothing under way but to or from the node it is assigned to. */
  lemma AlternationEver(es: seq<Move>, id: string)
    requires CanRun(BOOT, es) && FromNamedNodes(es) && id in RunNet(BOOT, es).m.tasks
    ensures id in RunNet(BOOT, es).links
    ensures var w := RunNet(BOOT, es);
            var k := w.links[id];
            && k.granted == k.received + (if Waiting(w.m, id) then 0 else 1)
            && k.sent <= k.delivered <= k.dispatched <= k.received + 1
            && |k.wire| + |k.open| + |k.back| <= (if Waiting(w.m, id) then 0 else 1)
            && (Waiting(w.m, id) ==> k.granted == k.dispatched == k.delivered == k.sent == k.received)
            && (forall i | 0 <= i < |k.wire| :: k.wire[i] == w.m.tasks[id].target)
            && (forall i | 0 <= i < |k.open| :: k.open[i].node == w.m.tasks[id].target)
  {
    StaysAlternating(BOOT, es);
    assert InStep(RunNet(BOOT, es), id);
  }

  lemma {:induction false} StaysAlternating(w: Net, es: seq<Move>)
    requires Alternating(w) && "" !in w.m.nodes && CanRun(w, es) && FromNamedNodes(es)
    ensures Alternating(RunNet(w, es))
    decreases |es|
  {
    if es == [] {
    } else {
      NodesStayNamed(w, es[0]);
      MoveAlternatesIff(w, es[0]);
      StaysAlternating(Moved(w, es[0]), es[1..]);
    }
  }

  /** A node without a name breaks the alternation: what it is granted stays waiting, so the next heartbeat dispatches
      it again. */
  lemma NamelessNodeIsToldAgain(m: Master, id: string, grants: set<string>)
    requires Waiting(m, id) && id in grants
    ensures forall node :: Waiting(Granted(Heard(m, node), node, grants), id) <==> node == ""
  {
  }

  /** Such a run: two dispatches of one task, and no result between them. */
  lemma NamelessNodeIsToldTwice(e: Move, id: string)
    requires e == Heartbeat("", {id}) && id == ClusterName(1)
    ensures var w := Moved(Moved(Moved(BOOT, NewTask), e), e);
            id in w.links && w.links[id].dispatched == 2 && w.links[id].received == 0 && w.links[id].wire == ["", ""]
  {
    var w1 := Moved(BOOT, NewTask);
    NamelessNodeIsToldAgain(w1.m, id, {id});
    var w2 := Moved(w1, e);
    assert Waiting(w2.m, id) && w2.links[id].wire == [""];
  }

  // What a task and a node show

  /** The code of the last result that arrived for the task. */
  function LastCode(w: Net, es: seq<Move>, id: string, last: Option<int>): Option<int>
    requires CanRun(w, es)
    decreases |es|
  {
    if es == [] then last
    else
      LastCode(Moved(w, es[0]), es[1..], id,
               if es[0].Result? && es[0].id == id then Some(w.links[id].back[es[0].i]) else last)
  }

  predicate ShowsLast(w: Net, id: string, last: Option<int>) {
    if id !in w.m.tasks then last == None
    else
      match last
      case None => w.m.tasks[id].status == Pending
      case Some(code) =>
        (w.m.tasks[id].status == Completed <==> code == 0) && (w.m.tasks[id].status == Failed <==> code != 0)
  }

  lemma MoveShowsLast(w: Net, e: Move, id: string, last: Option<int>)
    requires WellNamed(w) && CanMove(w, e) && ShowsLast(w, id, last)
    ensures ShowsLast(Moved(w, e), id, if e.Result? && e.id == id then Some(w.links[id].back[e.i]) else last)
  {
    if id in w.m.tasks {
      IssuedBefore(w, id);
    }
  }

  lemma {:induction false} StaysShown(w: Net, es: seq<Move>, id: string, last: Option<int>)
    requires WellNamed(w) && CanRun(w, es) && ShowsLast(w, id, last)
    ensures ShowsLast(RunNet(w, es), id, LastCode(w, es, id, last))
    decreases |es|
  {
    if es == [] {
    } else {
      MoveKeepsNames(w, es[0]);
      MoveShowsLast(w, es[0], id, last);
      StaysShown(Moved(w, es[0]), es[1..], id,
                 if es[0].Result? && es[0].id == id then Some(w.links[id].back[es[0].i]) else last);
    }
  }

  /** From the start, over every run: a task is pending exactly until a result arrives for it, then completed if the
      last one was 0 and failed otherwise. */
  lemma ShowsLastEver(es: seq<Move>, id: string)
    requires CanRun(BOOT, es) && id in RunNet(BOOT, es).m.tasks
    ensures var status, last := RunNet(BOOT, es).m.tasks[id].status, LastCode(BOOT, es, id, None);
            && (status == Pending <==> last == None)
            && (status == Completed <==> last == Some(0))
            && (status == Failed <==> last.Some? && last.value != 0)
  {
    StaysShown(BOOT, es, id, None);
  }

  predicate Online(m: Master, n: string) {
    n in m.nodes && m.nodes[n]
  }

  /** A node comes online by its first heartbeat alone, and stays so until it is marked stale or removed: the heartbeat
      of a node that was marked offline does not bring it back. */
  lemma NodeOnlineIff(w: Net, e: Move, n: string)
    requires CanMove(w, e)
    ensures n in Moved(w, e).m.nodes <==>
              (n in w.m.nodes || (e.Heartbeat? && e.node == n)) && !(e.Cleanup? && n in e.gone)
    ensures Online(Moved(w, e).m, n) <==>
              || (e.Heartbeat? && e.node == n && n !in w.m.nodes)
              || (Online(w.m, n) && !(e.MarkStale? && n in e.stale) && !(e.Cleanup? && n in e.gone))
  {
  }

  // Assignments nobody works on

  /** Assigned, with nothing under way that could lead to a result. */
  predicate Stranded(w: Net, id: string) {
    id in w.m.tasks && id in w.links && w.m.tasks[id].target != ""
    && w.links[id].wire == [] && w.links[id].open == [] && w.links[id].back == []
  }

  /** The background pass strands what it assigns, unless that is to the empty name: it tells nobody. */
  lemma BackgroundStrands(w: Net, picks: map<string, string>, id: string)
    requires Alternating(w) && LegalPicks(w.m, picks) && id in picks
    ensures var w' := Moved(w, Background(picks));
            && id in w'.m.tasks && w'.m.tasks[id].target == picks[id]
            && (Stranded(w', id) <==> picks[id] != "")
            && id in w'.links && w'.links[id].dispatched == w.links[id].dispatched
  {
    assert Waiting(w.m, id) && InStep(w, id);
  }

  lemma MoveStaysStranded(w: Net, e: Move, id: string)
    requires WellNamed(w) && CanMove(w, e) && Stranded(w, id)
    ensures Stranded(Moved(w, e), id) && Moved(w, e).m.tasks[id] == w.m.tasks[id]
    ensures Moved(w, e).links[id].dispatched == w.links[id].dispatched
  {
    IssuedBefore(w, id);
  }

  /** A stranded task is stranded for ever: no run dispatches it, moves it, or finishes it, not even when its node is
      marked offline and removed. */
  lemma {:induction false} StrandedForEver(w: Net, es: seq<Move>, id: string)
    requires WellNamed(w) && CanRun(w, es) && Stranded(w, id)
    ensures id in RunNet(w, es).m.tasks && RunNet(w, es).m.tasks[id] == w.m.tasks[id]
    ensures id in RunNet(w, es).links && RunNet(w, es).links[id].dispatched == w.links[id].dispatched
    decreases |es|
  {
    if es == [] {
    } else {
      MoveKeepsNames(w, es[0]);
      MoveStaysStranded(w, es[0], id);
      StrandedForEver(Moved(w, es[0]), es[1..], id);
    }
  }

  predicate Frees(w: Net, es: seq<Move>, id: string) {
    CanRun(w, es) && Waiting(RunNet(w, es).m, id)
  }

  /** The moves that bring back what is under way: deliver it, report, let the result arrive. */
  lemma {:induction false} AnswerFrees(w: Net, id: string) returns (es: seq<Move>)
    requires WellNamed(w) && id in w.m.tasks && w.m.tasks[id].target != "" && !Stranded(w, id)
    ensures Frees(w, es, id)
    ensures id in RunNet(w, es).links && RunNet(w, es).links[id].granted == w.links[id].granted
    decreases 3 * |w.links[id].wire| + 2 * |w.links[id].open| + |w.links[id].back|
  {
    var k := w.links[id];
    if k.back != [] {
      es := [Result(id, 0)];
      RunOfOne(w, es[0]);
    } else {
      var e := if k.open != [] then Report(id, 0, -1, !k.open[0].refused) else Deliver(id, 0, true);
      MoveKeepsNames(w, e);
      var rest := AnswerFrees(Moved(w, e), id);
      es := [e] + rest;
      assert es[1..] == rest;
    }
  }

  /** An assigned task can become free again in some run exactly if something is under way for it: a dispatch, a job or
      a result that was not lost. */
  lemma CanBeFreedIff(w: Net, id: string)
    requires WellNamed(w) && id in w.m.tasks && w.m.tasks[id].target != ""
    ensures (exists es :: Frees(w, es, id)) <==> !Stranded(w, id)
  {
    if Stranded(w, id) {
      forall es
        ensures !Frees(w, es, id)
      {
        if CanRun(w, es) {
          StrandedForEver(w, es, id);
        }
      }
    } else {
      var es := AnswerFrees(w, id);
      assert Frees(w, es, id);
    }
  }

  // A finished task is dispatched again

  /** As long as the task is not granted once more: it is being refused at its node, or waits again as failed. */
  predicate Doomed(w: Net, id: string, node: string, grants: nat) {
    && id in w.m.tasks && id in w.links && (node, id) in w.ran && w.links[id].granted >= grants
    && (w.links[id].granted == grants ==>
          && (if w.m.tasks[id].target == "" then w.m.tasks[id].status == Failed else w.m.tasks[id].target == node)
          && AllRefused(w.links[id], node))
  }

  /** Dispatches go to the node, which has refused all it got. */
  predicate AllRefused(k: Link, node: string) {
    && (forall i | 0 <= i < |k.wire| :: k.wire[i] == node)
    && (forall i | 0 <= i < |k.open| :: k.open[i].refused)
    && (forall i | 0 <= i < |k.back| :: k.back[i] == -1)
  }

  lemma StillAllRefused(k: Link, node: string)
    requires AllRefused(k, node)
    ensures forall i | 0 <= i < |k.wire| :: AllRefused(Delivered(k, i, true), node)
    ensures forall i | 0 <= i < |k.open| :: AllRefused(Sent(k, i, -1), node)
    ensures forall i, clears | 0 <= i < |k.back| :: AllRefused(Received(k, i, clears), node)
    ensures forall leg: Leg, i: nat | i < On(k, leg) :: AllRefused(Lost(k, leg, i), node)
  {
  }

  lemma MasterMoveStaysDoomed(w: Net, e: Move, id: string, node: string, grants: nat)
    requires CanMove(w, e) && Doomed(w, id, node, grants) && (e.NewTask? ==> id != ClusterName(w.m.counter + 1))
    requires !e.Deliver? && !e.Report? && !e.Result? && !e.Lose?
    ensures Doomed(Moved(w, e), id, node, grants)
  {
  }

  lemma MessageMoveStaysDoomed(w: Net, e: Move, id: string, node: string, grants: nat)
    requires CanMove(w, e) && Doomed(w, id, node, grants)
    requires e.Deliver? || e.Report? || e.Result? || e.Lose?
    ensures Doomed(Moved(w, e), id, node, grants)
  {
    if e.id == id && w.links[id].granted == grants {
      StillAllRefused(w.links[id], node);
    }
  }

  lemma MoveStaysDoomed(w: Net, e: Move, id: string, node: string, grants: nat)
    requires WellNamed(w) && CanMove(w, e) && Doomed(w, id, node, grants)
    ensures Doomed(Moved(w, e), id, node, grants)
  {
    IssuedBefore(w, id);
    if e.Deliver? || e.Report? || e.Result? || e.Lose? {
      MessageMoveStaysDoomed(w, e, id, node, grants);
    } else {
      MasterMoveStaysDoomed(w, e, id, node, grants);
    }
  }

  lemma {:induction false} StaysDoomed(w: Net, es: seq<Move>, id: string, node: string, grants: nat)
    requires WellNamed(w) && CanRun(w, es) && Doomed(w, id, node, grants)
    ensures Doomed(RunNet(w, es), id, node, grants)
    decreases |es|
  {
    if es == [] {
    } else {
      MoveKeepsNames(w, es[0]);
      MoveStaysDoomed(w, es[0], id, node, grants);
      StaysDoomed(Moved(w, es[0]), es[1..], id, node, grants);
    }
  }

  /** The run frees the task, and nobody is granted it on the way. */
  predicate FreesUngranted(w: Net, es: seq<Move>, id: string)
    requires id in w.links
  {
    Frees(w, es, id) && id in RunNet(w, es).links && RunNet(w, es).links[id].granted == w.links[id].granted
  }

  lemma GrantTells(w: Net, id: string, node: string)
    requires Alternating(w) && Waiting(w.m, id) && node != ""
    ensures var w1 := Moved(w, Heartbeat(node, {id}));
            && Alternating(w1) && w1.ran == w.ran
            && id in w1.m.tasks && w1.m.tasks[id].target == node
            && id in w1.links && w1.links[id].wire == [node] && w1.links[id].open == [] && w1.links[id].back == []
            && w1.links[id].granted == w.links[id].granted + 1
  {
    MoveAlternatesIff(w, Heartbeat(node, {id}));
    assert InStep(w, id);
  }

  /** A task that reported is merely waiting again: its next grant dispatches it once more. On a node that ran it
      before, whatever the first report said, every run that frees it without another grant leaves it failed, and there
      is such a run. */
  lemma FinishedTaskFailsOnItsNode(w: Net, id: string, node: string)
    requires Alternating(w) && Waiting(w.m, id) && node != "" && (node, id) in w.ran
    ensures var w1 := Moved(w, Heartbeat(node, {id}));
            && id in w1.links && w1.links[id].wire == [node]
            && (exists es :: FreesUngranted(w1, es, id))
            && (forall es | FreesUngranted(w1, es, id) :: RunNet(w1, es).m.tasks[id].status == Failed)
  {
    GrantTells(w, id, node);
    var w1 := Moved(w, Heartbeat(node, {id}));
    var freeing := AnswerFrees(w1, id);
    assert FreesUngranted(w1, freeing, id);
    forall es | FreesUngranted(w1, es, id)
      ensures RunNet(w1, es).m.tasks[id].status == Failed
    {
      StaysDoomed(w1, es, id, node, w1.links[id].granted);
    }
  }

  // One process per task

  predicate LiveAt(w: Net, node: string, id: string) {
    (node, id) in w.ran && (node, id) !in w.ended
  }

  /** A live process of the task is at its target, and nothing under way says otherwise. */
  predicate OneProcess(w: Net, id: string)
    requires id in w.m.tasks && id in w.links
  {
    forall p | p in w.ran && p !in w.ended && p.1 == id :: Attended(w.links[id], w.m.tasks[id].target, p.0)
  }

  predicate Attended(k: Link, target: string, node: string) {
    && target == node && target != "" && k.wire == [] && k.back == []
    && forall i | 0 <= i < |k.open| :: !k.open[i].refused
  }

  predicate AllOneProcess(w: Net) {
    && w.links.Keys == w.m.tasks.Keys
    && (forall p | p in w.ran :: p.1 in w.m.tasks)
    && forall id | id in w.m.tasks :: OneProcess(w, id)
  }

  /** The agent gives up on a process that still lives. */
  predicate AbandonsLive(w: Net, e: Move)
    requires CanMove(w, e)
  {
    e.Report? && e.timedOut && LiveAt(w, w.links[e.id].open[e.i].node, e.id)
  }

  lemma MasterMoveKeepsOne(w: Net, e: Move, id: string)
    requires id in w.m.tasks && id in w.links && InStep(w, id) && OneProcess(w, id) && CanMove(w, e)
    requires !e.Deliver? && !e.Report? && !e.Result? && !e.Lose?
    requires e.NewTask? ==> id != ClusterName(w.m.counter + 1)
    ensures id in Moved(w, e).m.tasks && id in Moved(w, e).links && OneProcess(Moved(w, e), id)
  {
  }

  lemma DeliveryKeepsOne(w: Net, e: Move, id: string)
    requires id in w.m.tasks && id in w.links && InStep(w, id) && OneProcess(w, id) && CanMove(w, e) && e.Deliver?
    ensures id in Moved(w, e).m.tasks && id in Moved(w, e).links && OneProcess(Moved(w, e), id)
  {
    if e.id == id {
      DeliveredFits(w.links[id], w.m.tasks[id].target, e.i, !StartsAt(w, w.links[id].wire[e.i], id, e.canStart));
    }
  }

  lemma ReportKeepsOneIff(w: Net, e: Move)
    requires CanMove(w, e) && e.Report? && e.id in w.m.tasks && InStep(w, e.id) && OneProcess(w, e.id)
    ensures e.id in Moved(w, e).links
    ensures OneProcess(Moved(w, e), e.id) <==> !AbandonsLive(w, e)
  {
    var k, id := w.links[e.id], e.id;
    var node := k.open[e.i].node;
    assert node == w.m.tasks[id].target;
    if LiveAt(w, node, id) {
      assert (node, id) in w.ran && (node, id) !in w.ended && (node, id).1 == id;
    }
  }

  lemma OtherMessagesKeepOne(w: Net, e: Move, id: string)
    requires id in w.m.tasks && id in w.links && InStep(w, id) && OneProcess(w, id) && CanMove(w, e)
    requires e.Result? || e.Lose? || (e.Report? && e.id != id)
    ensures id in Moved(w, e).m.tasks && id in Moved(w, e).links && OneProcess(Moved(w, e), id)
  {
  }

  lemma MoveKeepsOthers(w: Net, e: Move, id: string)
    requires Alternating(w) && AllOneProcess(w) && CanMove(w, e) && id in w.m.tasks && (e.Report? ==> e.id != id)
    ensures id in Moved(w, e).m.tasks && id in Moved(w, e).links && OneProcess(Moved(w, e), id)
  {
    IssuedBefore(w, id);
    if e.Deliver? {
      DeliveryKeepsOne(w, e, id);
    } else if e.Report? || e.Result? || e.Lose? {
      OtherMessagesKeepOne(w, e, id);
    } else {
      MasterMoveKeepsOne(w, e, id);
    }
  }

  lemma NewTaskHasNoProcess(w: Net, id: string)
    requires Alternating(w) && AllOneProcess(w) && id == ClusterName(w.m.counter + 1)
    ensures forall p | p in w.ran :: p.1 != id
  {
    forall p | p in w.ran
      ensures p.1 != id
    {
      IssuedBefore(w, p.1);
    }
  }

  lemma MoveKeepsRan(w: Net, e: Move)
    requires AllOneProcess(w) && CanMove(w, e)
    ensures forall p | p in Moved(w, e).ran :: p.1 in w.m.tasks
  {
  }

  /** A move keeps every task at one live process, at the node it is assigned to, exactly if no agent gives up on a
      process that still lives. */
  lemma MoveKeepsOneProcessIff(w: Net, e: Move)
    requires Alternating(w) && AllOneProcess(w) && CanMove(w, e)
    ensures AllOneProcess(Moved(w, e)) <==> !AbandonsLive(w, e)
  {
    var w' := Moved(w, e);
    MoveKeepsKeys(w, e);
    MoveKeepsRan(w, e);
    if e.Report? {
      ReportKeepsOneIff(w, e);
    }
    forall id | id in w'.m.tasks && (e.Report? ==> e.id != id)
      ensures id in w'.links && OneProcess(w', id)
    {
      if id in w.m.tasks {
        MoveKeepsOthers(w, e, id);
      } else {
        NewTaskHasNoProcess(w, id);
      }
    }
  }

  predicate AbandonsNoneLive(w: Net, es: seq<Move>)
    requires CanRun(w, es)
    decreases |es|
  {
    es == [] || (!AbandonsLive(w, es[0]) && AbandonsNoneLive(Moved(w, es[0]), es[1..]))
  }

  lemma {:induction false} StaysOneProcess(w: Net, es: seq<Move>)
    requires Alternating(w) && AllOneProcess(w) && "" !in w.m.nodes
    requires CanRun(w, es) && FromNamedNodes(es) && AbandonsNoneLive(w, es)
    ensures AllOneProcess(RunNet(w, es))
    decreases |es|
  {
    if es == [] {
    } else {
      NodesStayNamed(w, es[0]);
      MoveAlternatesIff(w, es[0]);
      MoveKeepsOneProcessIff(w, es[0]);
      StaysOneProcess(Moved(w, es[0]), es[1..]);
    }
  }

  /** From the start, over every run of nodes with names in which no agent gives up on a live process: a cluster task
      has at most one live process in the whole cluster. */
  lemma OneProcessEver(es: seq<Move>, id: string, a: string, b: string)
    requires CanRun(BOOT, es) && FromNamedNodes(es) && AbandonsNoneLive(BOOT, es)
    requires LiveAt(RunNet(BOOT, es), a, id) && LiveAt(RunNet(BOOT, es), b, id)
    ensures a == b && id in RunNet(BOOT, es).m.tasks && RunNet(BOOT, es).m.tasks[id].target == a
  {
    StaysOneProcess(BOOT, es);
    var w := RunNet(BOOT, es);
    assert (a, id).1 == id && (b, id).1 == id;
    assert OneProcess(w, id);
  }

  // Runs from the start

  /** A task that a node was ready to take when the background pass assigned it: nobody ever hears of it. */
  lemma BackgroundStrandsFromBoot(es: seq<Move>, id: string, node: string, later: seq<Move>)
    requires id == ClusterName(1) && node != ""
    requires es == [NewTask, Heartbeat(node, {}), Background(map[id := node])]
    ensures CanRun(BOOT, es) && Stranded(RunNet(BOOT, es), id)
    ensures CanRun(RunNet(BOOT, es), later) ==>
              var w := RunNet(RunNet(BOOT, es), later);
              id in w.m.tasks && w.m.tasks[id] == CTask(node, Pending) && id in w.links && w.links[id].dispatched == 0
  {
    var w1 := Moved(BOOT, es[0]);
    var w2 := Moved(w1, es[1]);
    assert w2.m.tasks == map[id := CTask("", Pending)] && w2.links == map[id := FRESH];
    assert LegalPicks(w2.m, map[id := node]);
    RunOfThree(BOOT, es[0], es[1], es[2]);
    var w3 := Moved(w2, es[2]);
    assert w3.m.tasks == map[id := CTask(node, Pending)] && w3.m.counter == 1;
    assert Named(w3.m, id) && WellNamed(w3);
    if CanRun(w3, later) {
      StrandedForEver(w3, later, id);
    }
  }

  lemma GrantedFirst(id: string, node: string)
    requires id == ClusterName(1) && node != ""
    ensures var w := Moved(Moved(BOOT, NewTask), Heartbeat(node, {id}));
            && w.ran == {} && w.ended == {} && id in w.m.tasks && w.m.tasks[id] == CTask(node, Pending)
            && id in w.links && w.links[id] == Link(1, 0, 1, 0, 0, 0, [node], [], [])
  {
    var w1 := Moved(BOOT, NewTask);
    assert w1.links == map[id := FRESH] && Waiting(w1.m, id);
    assert Told(FRESH, node) == Link(1, 0, 1, 0, 0, 0, [node], [], []);
  }

  /** A delivered dispatch whose process ends with code 0. */
  lemma DeliveredAndEnded(w: Net, id: string, node: string)
    requires w.ran == {} && w.ended == {} && id in w.m.tasks && w.m.tasks[id] == CTask(node, Pending)
    requires id in w.links && w.links[id] == Link(1, 0, 1, 0, 0, 0, [node], [], []) && node != ""
    ensures CanMove(w, Deliver(id, 0, true)) && CanMove(Moved(w, Deliver(id, 0, true)), Ends(node, id))
    ensures var w' := Moved(Moved(w, Deliver(id, 0, true)), Ends(node, id));
            && w'.m == w.m && id in w'.links && w'.links[id] == Link(1, 0, 1, 1, 0, 0, [], [Job(node, false)], [])
            && (node, id) in w'.ran && (node, id) in w'.ended
  {
    var w1 := Moved(w, Deliver(id, 0, true));
    assert w1.links[id] == Link(1, 0, 1, 1, 0, 0, [], [Job(node, false)], []);
  }

  lemma ReportedAndReceived(w: Net, id: string, node: string)
    requires id in w.m.tasks && w.m.tasks[id] == CTask(node, Pending) && (node, id) in w.ended && node != ""
    requires id in w.links && w.links[id] == Link(1, 0, 1, 1, 0, 0, [], [Job(node, false)], [])
    ensures CanRun(w, [Report(id, 0, 0, false), Result(id, 0)])
    ensures var w' := RunNet(w, [Report(id, 0, 0, false), Result(id, 0)]);
            id in w'.m.tasks && w'.m.tasks[id] == CTask("", Completed) && w'.ran == w.ran
  {
    var w1 := Moved(w, Report(id, 0, 0, false));
    assert w1.links[id] == Link(1, 0, 1, 1, 1, 0, [], [], [0]);
    RunOfTwo(w, Report(id, 0, 0, false), Result(id, 0));
  }

  /** Delivery, end of the process, report and result. */
  lemma SucceedsThere(w: Net, id: string, node: string)
    requires w.ran == {} && w.ended == {} && id in w.m.tasks && w.m.tasks[id] == CTask(node, Pending)
    requires id in w.links && w.links[id] == Link(1, 0, 1, 0, 0, 0, [node], [], []) && node != ""
    ensures var es := [Deliver(id, 0, true), Ends(node, id)] + [Report(id, 0, 0, false), Result(id, 0)];
            && CanRun(w, es)
            && var w' := RunNet(w, es);
               id in w'.m.tasks && w'.m.tasks[id] == CTask("", Completed) && (node, id) in w'.ran
  {
    DeliveredAndEnded(w, id, node);
    var w2 := Moved(Moved(w, Deliver(id, 0, true)), Ends(node, id));
    ReportedAndReceived(w2, id, node);
    TwoThenRun(w, Deliver(id, 0, true), Moved(w, Deliver(id, 0, true)), Ends(node, id), w2,
               [Report(id, 0, 0, false), Result(id, 0)]);
  }

  /** A task that ran on a node and reported success. */
  lemma SucceedsOnce(id: string, node: string, es: seq<Move>)
    requires id == ClusterName(1) && node != ""
    requires es == [NewTask, Heartbeat(node, {id})] + ([Deliver(id, 0, true), Ends(node, id)]
                   + [Report(id, 0, 0, false), Result(id, 0)])
    ensures CanRun(BOOT, es)
    ensures var w := RunNet(BOOT, es);
            id in w.m.tasks && w.m.tasks[id] == CTask("", Completed) && (node, id) in w.ran
  {
    GrantedFirst(id, node);
    var w1 := Moved(BOOT, NewTask);
    var w2 := Moved(w1, Heartbeat(node, {id}));
    SucceedsThere(w2, id, node);
    TwoThenRun(BOOT, NewTask, w1, Heartbeat(node, {id}), w2, es[2..]);
    assert es == [NewTask, Heartbeat(node, {id})] + es[2..];
  }

  lemma TwoThenRun(w: Net, e: Move, w1: Net, f: Move, w2: Net, es: seq<Move>)
    requires CanMove(w, e) && w1 == Moved(w, e)
    requires CanMove(w1, f) && w2 == Moved(w1, f) && CanRun(w2, es)
    ensures CanRun(w, [e, f] + es)
    ensures RunNet(w, [e, f] + es) == RunNet(w2, es)
  {
    var rest := [f] + es;
    PrependMove(w1, f, w2, es, rest);
    PrependBoth(w, e, f, w1, es, rest);
  }

  lemma PrependBoth(w: Net, e: Move, f: Move, w1: Net, es: seq<Move>, rest: seq<Move>)
    requires CanMove(w, e) && w1 == Moved(w, e) && rest == [f] + es && CanRun(w1, rest)
    ensures CanRun(w, [e, f] + es)
    ensures RunNet(w, [e, f] + es) == RunNet(w1, rest)
  {
    assert [e, f] + es == [e] + rest;
    PrependMove(w, e, w1, rest, [e, f] + es);
  }

  lemma PrependMove(w: Net, e: Move, w1: Net, es: seq<Move>, all: seq<Move>)
    requires CanMove(w, e) && w1 == Moved(w, e) && CanRun(w1, es) && all == [e] + es
    ensures CanRun(w, all) && RunNet(w, all) == RunNet(w1, es)
  {
    assert all[1..] == es;
  }

  /** From the start: after that success the next heartbeat of the node gets the task again, and every run that then
      frees it without another grant shows it as failed. */
  lemma SuccessTurnsIntoFailure(id: string, node: string, first: seq<Move>, later: seq<Move>)
    requires id == ClusterName(1) && node != ""
    requires first == [NewTask, Heartbeat(node, {id})] + ([Deliver(id, 0, true), Ends(node, id)]
                      + [Report(id, 0, 0, false), Result(id, 0)])
    ensures CanRun(BOOT, first)
    ensures var w := RunNet(BOOT, first);
            && id in w.m.tasks && w.m.tasks[id] == CTask("", Completed)
            && var w1 := Moved(w, Heartbeat(node, {id}));
               && id in w1.links && w1.links[id].wire == [node]
               && (FreesUngranted(w1, later, id) ==> RunNet(w1, later).m.tasks[id].status == Failed)
  {
    SucceedsOnce(id, node, first);
    StaysAlternating(BOOT, first);
    FinishedTaskFailsOnItsNode(RunNet(BOOT, first), id, node);
  }

  lemma DeliveredAndAbandoned(w: Net, id: string, a: string)
    requires w.ran == {} && w.ended == {} && id in w.m.tasks && w.m.tasks[id] == CTask(a, Pending) && a != ""
    requires id in w.links && w.links[id] == Link(1, 0, 1, 0, 0, 0, [a], [], [])
    ensures CanMove(w, Deliver(id, 0, true)) && CanMove(Moved(w, Deliver(id, 0, true)), Report(id, 0, -1, true))
    ensures var w' := Moved(Moved(w, Deliver(id, 0, true)), Report(id, 0, -1, true));
            && w'.m == w.m && w'.ran == {(a, id)} && w'.ended == {}
            && id in w'.links && w'.links[id] == Link(1, 0, 1, 1, 1, 0, [], [], [-1])
  {
    var w1 := Moved(w, Deliver(id, 0, true));
    assert w1.links[id] == Link(1, 0, 1, 1, 0, 0, [], [Job(a, false)], []);
  }

  lemma GrantedAgain(w: Net, id: string, a: string, b: string)
    requires id in w.m.tasks && w.m.tasks[id] == CTask(a, Pending) && w.ran == {(a, id)} && w.ended == {}
    requires id in w.links && w.links[id] == Link(1, 0, 1, 1, 1, 0, [], [], [-1]) && a != "" && a != b
    ensures CanRun(w, [Result(id, 0), Heartbeat(b, {id}), Deliver(id, 0, true)])
    ensures var w' := RunNet(w, [Result(id, 0), Heartbeat(b, {id}), Deliver(id, 0, true)]);
            LiveAt(w', a, id) && LiveAt(w', b, id)
  {
    var w1 := Moved(w, Result(id, 0));
    assert Waiting(w1.m, id) && w1.links[id] == Link(1, 1, 1, 1, 1, 1, [], [], []);
    var w2 := Moved(w1, Heartbeat(b, {id}));
    assert w2.links[id].wire == [b];
    RunOfThree(w, Result(id, 0), Heartbeat(b, {id}), Deliver(id, 0, true));
  }

  lemma AbandonedThenGranted(w: Net, id: string, a: string, b: string)
    requires w.ran == {} && w.ended == {} && id in w.m.tasks && w.m.tasks[id] == CTask(a, Pending) && a != "" && a != b
    requires id in w.links && w.links[id] == Link(1, 0, 1, 0, 0, 0, [a], [], [])
    ensures var es := [Deliver(id, 0, true), Report(id, 0, -1, true)]
                      + [Result(id, 0), Heartbeat(b, {id}), Deliver(id, 0, true)];
            CanRun(w, es) && LiveAt(RunNet(w, es), a, id) && LiveAt(RunNet(w, es), b, id)
  {
    DeliveredAndAbandoned(w, id, a);
    var w2 := Moved(Moved(w, Deliver(id, 0, true)), Report(id, 0, -1, true));
    GrantedAgain(w2, id, a, b);
    TwoThenRun(w, Deliver(id, 0, true), Moved(w, Deliver(id, 0, true)), Report(id, 0, -1, true), w2,
               [Result(id, 0), Heartbeat(b, {id}), Deliver(id, 0, true)]);
  }

  /** From the start: the agent of one node gives up waiting and reports a failure, the task is granted to another node,
      and has two live processes. */
  lemma TwoProcesses(id: string, a: string, b: string, es: seq<Move>)
    requires id == ClusterName(1) && a != "" && b != "" && a != b
    requires es == [NewTask, Heartbeat(a, {id})] + ([Deliver(id, 0, true), Report(id, 0, -1, true)]
                   + [Result(id, 0), Heartbeat(b, {id}), Deliver(id, 0, true)])
    ensures CanRun(BOOT, es) && LiveAt(RunNet(BOOT, es), a, id) && LiveAt(RunNet(BOOT, es), b, id)
  {
    GrantedFirst(id, a);
    var w1 := Moved(BOOT, NewTask);
    var w2 := Moved(w1, Heartbeat(a, {id}));
    AbandonedThenGranted(w2, id, a, b);
    TwoThenRun(BOOT, NewTask, w1, Heartbeat(a, {id}), w2, es[2..]);
    assert es == [NewTask, Heartbeat(a, {id})] + es[2..];
  }
}
