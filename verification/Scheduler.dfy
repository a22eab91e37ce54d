/** The scheduler's methods, each proved to take one step of the state machine. */
module Scheduling {
  import opened Wrappers
  import opened Decimal
  import opened Types
  import opened Selection
  import opened Totals
  import opened Machine
  import opened Execution

  /** What a submission does to the executor: stop the victims, then try to start the placed task. */
  function ExecAfterSubmit(s: State, x: Exec, task: Task, order: seq<string>, winner: Option<string>, canStart: bool,
                           killable: set<string>): Exec
    requires SubmitShape(s, task, order, winner)
  {
    var x' := StoppedAll(x, KilledBy(s, task, order), killable);
    match winner
    case Some(w) => Started(x', Admitted(s, task).id, w, canStart)
    case None => x'
  }

  predicate Ascending(ts: seq<Task>) {
    forall i, j | 0 <= i < j < |ts| :: ts[i].priority <= ts[j].priority
  }

  predicate DistinctIds(ts: seq<Task>) {
    forall i, j | 0 <= i < j < |ts| :: ts[i].id != ts[j].id
  }

  function Ids(ts: seq<Task>): (ids: seq<string>)
    ensures |ids| == |ts| && forall i | 0 <= i < |ts| :: ids[i] == ts[i].id
  {
    seq(|ts|, i requires 0 <= i < |ts| => ts[i].id)
  }

  lemma InsertedKeepsOrder(ts: seq<Task>, p: nat, t: Task)
    requires p <= |ts| && Ascending(ts) && DistinctIds(ts)
    requires forall i | 0 <= i < |ts| :: ts[i].id != t.id
    requires forall i | 0 <= i < p :: ts[i].priority <= t.priority
    requires p < |ts| ==> t.priority < ts[p].priority
    ensures var us := ts[..p] + [t] + ts[p..]; Ascending(us) && DistinctIds(us)
  {
    var us := ts[..p] + [t] + ts[p..];
    assert forall i | 0 <= i < |us| :: us[i] == if i < p then ts[i] else if i == p then t else ts[i - 1];
  }

  lemma InsertedMembers(ts: seq<Task>, p: nat, t: Task)
    requires p <= |ts|
    ensures forall u :: u in ts[..p] + [t] + ts[p..] <==> u in ts || u == t
  {
    assert ts == ts[..p] + ts[p..];
  }

  /** A sort whose treatment of equal priorities its callers cannot see. */
  method SortByPriority(ts: seq<Task>) returns (sorted: seq<Task>)
    requires DistinctIds(ts)
    ensures Ascending(sorted) && DistinctIds(sorted)
    ensures forall t :: t in sorted <==> t in ts
  {
    sorted := [];
    for n := 0 to |ts|
      invariant Ascending(sorted) && DistinctIds(sorted)
      invariant forall t :: t in sorted <==> t in ts[..n]
    {
      var p := 0;
      while p < |sorted| && sorted[p].priority <= ts[n].priority
        invariant 0 <= p <= |sorted|
        invariant forall i | 0 <= i < p :: sorted[i].priority <= ts[n].priority
      {
        p := p + 1;
      }
      forall i | 0 <= i < |sorted|
        ensures sorted[i].id != ts[n].id
      {
        assert sorted[i] in ts[..n];
      }
      InsertedKeepsOrder(sorted, p, ts[n]);
      InsertedMembers(sorted, p, ts[n]);
      assert ts[..n + 1] == ts[..n] + [ts[n]];
      sorted := sorted[..p] + [ts[n]] + sorted[p..];
    }
    assert ts[..|ts|] == ts;
  }

  /** Sorting the tasks that may be preempted gives one of the legal kill orders. */
  lemma SortedIsKillOrder(s: State, t: Task, found: seq<Task>, sorted: seq<Task>)
    requires forall v | v in found :: v.id in s.running && s.running[v.id] == v && MayPreempt(s, t, v)
    requires forall k | k in s.running && MayPreempt(s, t, s.running[k]) :: s.running[k] in found
    requires WellKeyed(s) && Ascending(sorted) && DistinctIds(sorted) && forall v :: v in sorted <==> v in found
    ensures KillOrder(s, t, Ids(sorted))
    ensures forall i | 0 <= i < |sorted| :: s.running[Ids(sorted)[i]] == sorted[i]
  {
    var order := Ids(sorted);
    forall i | 0 <= i < |order|
      ensures order[i] in s.running && s.running[order[i]] == sorted[i] && order[i] in Victims(s, t)
    {
      assert sorted[i] in found;
    }
    forall k | k in Victims(s, t)
      ensures k in order
    {
      var i :| 0 <= i < |sorted| && sorted[i] == s.running[k];
      assert order[i] == k;
    }
  }

  lemma SomebodyFalls(s: State, t: Task, need: int, order: seq<string>)
    requires Among(order, s.running) && order != []
    ensures s.config.policy == Kill ==> KillLoop(s, t, need, order).st.running != s.running
  {
    var o := KillLoop(s, t, need, order);
    KillLoopIsPrefix(s, t, need, order);
    if s.config.policy == Kill {
      KilledAllFrame(s, t, order[..o.killed]);
      assert order[..o.killed][0] == order[0];
      assert order[0] in s.running && order[0] !in o.st.running;
    }
  }

  /** What one preemption loop is about, fixed while it runs. */
  datatype Hunt = Hunt(t: Task, need: int, sorted: seq<Task>, killable: set<string>, s0: State, x0: Exec)

  ghost predicate Sensible(h: Hunt) {
    Among(Ids(h.sorted), h.s0.running) && forall i | 0 <= i < |h.sorted| :: h.s0.running[h.sorted[i].id] == h.sorted[i]
  }

  /** The victims of the first `i` turns. */
  ghost function Fallen(h: Hunt, i: nat): seq<string>
    requires i <= |h.sorted|
  {
    if h.s0.config.policy == Kill then Ids(h.sorted)[..i] else []
  }

  ghost predicate Finished(h: Hunt, s: State, x: Exec, ok: bool)
    requires Sensible(h)
  {
    var o := KillLoop(h.s0, h.t, h.need, Ids(h.sorted));
    s == o.st && ok == o.room && x == StoppedAll(h.x0, Ids(h.sorted)[..o.killed], h.killable)
  }

  /** After `i` turns that found no room, the victims `left` decide the whole outcome. */
  ghost predicate Hunting(h: Hunt, s: State, x: Exec, i: nat, left: seq<string>)
    requires Sensible(h)
  {
    && i <= |h.sorted| && left == Ids(h.sorted)[i..] && s.config == h.s0.config
    && Among(left, s.running)
    && (forall j | 0 <= j < |left| :: s.running[left[j]] == h.sorted[i + j])
    && (var rest := KillLoop(s, h.t, h.need, left);
        KillLoop(h.s0, h.t, h.need, Ids(h.sorted)) == rest.(killed := rest.killed + |Fallen(h, i)|))
    && x == StoppedAll(h.x0, Fallen(h, i), h.killable)
  }

  lemma HuntStarts(h: Hunt)
    requires Sensible(h)
    ensures Hunting(h, h.s0, h.x0, 0, Ids(h.sorted))
  {
    assert Ids(h.sorted)[0..] == Ids(h.sorted) && Ids(h.sorted)[..0] == [];
  }

  /** One turn of the loop on values: what happens to one victim. */
  function Turn(h: Hunt, s: State, v: Task): State
    requires v.id in s.running
  {
    if s.config.policy == Kill then KillOne(s, h.t, v.id) else s
  }

  function TurnExec(h: Hunt, s: State, x: Exec, v: Task): Exec {
    if s.config.policy == Kill then Stopped(x, v.id, v.id in h.killable) else x
  }

  /** A turn that finds room ends the hunt. */
  lemma HuntEnds(h: Hunt, s: State, x: Exec, i: nat, left: seq<string>)
    requires Sensible(h) && i < |h.sorted| && Hunting(h, s, x, i, left)
    ensures h.sorted[i].id in s.running && s.running[h.sorted[i].id] == h.sorted[i]
    ensures var s', x' := Turn(h, s, h.sorted[i]), TurnExec(h, s, x, h.sorted[i]);
            s.config.policy != Wait && HasRoom(s'.gpus, h.need) ==> Finished(h, s', x', true)
  {
    assert left[0] == h.sorted[i].id;
    FallenGrows(h, i, x);
  }

  /** A turn that finds none goes on with the next victim, if there is one. */
  lemma HuntGoesOn(h: Hunt, s: State, x: Exec, i: nat, left: seq<string>)
    requires Sensible(h) && i < |h.sorted| && Hunting(h, s, x, i, left)
    requires left[0] == h.sorted[i].id && s.running[left[0]] == h.sorted[i]
    ensures var s', x' := Turn(h, s, h.sorted[i]), TurnExec(h, s, x, h.sorted[i]);
            s.config.policy == Wait || !HasRoom(s'.gpus, h.need) ==> Hunting(h, s', x', i + 1, left[1..])
  {
    TailAmong(left, s.running);
    FallenGrows(h, i, x);
  }

  lemma HuntFails(h: Hunt, s: State, x: Exec, left: seq<string>)
    requires Sensible(h) && Hunting(h, s, x, |h.sorted|, left)
    ensures Finished(h, s, x, false)
  {
    assert left == [] && Ids(h.sorted)[..|h.sorted|] == Ids(h.sorted);
  }

  lemma FallenGrows(h: Hunt, i: nat, x: Exec)
    requires i < |h.sorted| && x == StoppedAll(h.x0, Fallen(h, i), h.killable)
    ensures h.s0.config.policy == Kill ==>
              StoppedAll(h.x0, Fallen(h, i + 1), h.killable)
              == Stopped(x, h.sorted[i].id, h.sorted[i].id in h.killable)
    ensures h.s0.config.policy == Kill ==> Fallen(h, i + 1) == Ids(h.sorted)[..i + 1]
  {
    assert Ids(h.sorted)[..i + 1][..i] == Ids(h.sorted)[..i];
  }

  lemma TailAmong(ids: seq<string>, m: Running)
    requires Among(ids, m) && ids != []
    ensures Among(ids[1..], m - {ids[0]}) && Among(ids[1..], m)
    ensures forall i | 0 <= i < |ids[1..]| :: (m - {ids[0]})[ids[1..][i]] == m[ids[1..][i]]
  {
  }

  class Scheduler {
    var pending: seq<Task>
    var running: Running
    var completed: seq<Task>
    var gpuCount: Pos
    var gpus: Pool
    var policy: Policy
    var counter: nat
    var config: Config
    var history: seq<Record>
    const exec: Executor

    ghost function View(): State
      reads this
    {
      State(pending, running, completed, gpuCount, gpus, policy, counter, config, history)
    }

    constructor (exec: Executor)
      ensures View() == INITIAL && WellKeyed(View()) && this.exec == exec
    {
      pending, running, completed, gpuCount := [], map[], [], 2;
      gpus := map["0" := GpuRecord("0", Nvidia, 16384, 0, 0.0, 0), "1" := GpuRecord("1", Amd, 24576, 0, 0.0, 0)];
      policy, counter, config, history := Binpack, 0, Config(true, 7, 5, Kill), [];
      this.exec := exec;
    }

    method RegisterGPU(g: Gpu)
      requires WellKeyed(View())
      modifies this`gpus
      ensures View() == old(View()).(gpus := old(gpus)[g.id := g]) && WellKeyed(View())
    {
      gpus := gpus[g.id := g];
    }

    method SubmitTask(task: Task, canStart: bool, killable: set<string>) returns (id: string, ghost e: Event)
      requires WellKeyed(View())
      modifies this, exec
      ensures e.Submit? && e.task == task && Enabled(old(View()), e)
      ensures View() == Next(old(View()), e) && WellKeyed(View())
      ensures id == if task.id == "" then "task-" + Itoa(old(counter) + 1) else task.id
      ensures id == Admitted(old(View()), task).id
      ensures exec.View()
           == ExecAfterSubmit(old(View()), old(exec.View()), task, e.order, e.winner, canStart, killable)
      ensures e.started <==> e.winner.Some? && Starts(old(exec.View()), id, canStart)
    {
      var t := task;
      if t.id == "" {
        counter := counter + 1;
        t := t.(id := TaskName(counter));
      }
      t := t.(status := Pending);
      id := t.id;

      var need := DEFAULT_VRAM;
      if task.vramMB > 0 {
        need := task.vramMB;
      }
      var c := Criteria(need, Unset, t.kind, t.priority, policy);
      ghost var s1 := View();
      assert t == Admitted(old(View()), task) && s1 == Counted(old(View()), task);
      var best;
      ghost var order;
      best, order := FindRoom(t, c, killable);
      e := Submit(task, order, if best.Some? then Some(best.value.gpu.id) else None, false);
      assert SubmitEnabled(old(View()), task, order, e.winner);
      if best.Some? {
        var started := Place(t, best.value.gpu.id, need, canStart);
        e := e.(started := started);
      } else {
        pending := pending + [t];
      }
      StaysKeyed(old(View()), e);
    }

    /** The first attempt, preemption if that failed, and the retry. */
    method FindRoom(t: Task, c: Criteria, killable: set<string>)
      returns (best: Option<Scored>, ghost order: seq<string>)
      requires WellKeyed(View()) && c == Wanted(View(), t)
      modifies this`gpus, this`running, this`history, exec
      ensures WellKeyed(View()) && LegalOrder(old(View()), t, c.need, order)
      ensures var o := MakeRoom(old(View()), t, c.need, order);
              && View() == o.st
              && exec.View() == StoppedAll(old(exec.View()), order[..o.killed], killable)
              && (best.Some? <==> o.room && Fits(o.st.gpus, c.need))
      ensures best.Some? ==> IsWinner(gpus, c, gpuCount, best.value.gpu.id)
    {
      order := [];
      best := ScheduleLocked(gpus, c, gpuCount);
      if best.None? && config.enabled {
        var ok;
        ok, order := TryPreempt(t, c.need, killable);
        if ok {
          best := ScheduleLocked(gpus, c, gpuCount);
        }
      }
    }

    /** The success branch of a submission. */
    method Place(t: Task, w: string, need: int, canStart: bool) returns (started: bool)
      requires WellKeyed(View()) && w in gpus && need == Charge(t)
      modifies this`gpus, this`running, exec
      ensures started == Starts(old(exec.View()), t.id, canStart)
      ensures exec.View() == Started(old(exec.View()), t.id, w, canStart)
      ensures View() == Placed(old(View()), t, w, started)
    {
      var placed := t;
      var n := Atoi(w);
      if n.Some? {
        placed := placed.(gpuReq := n.value);
      }
      gpus := gpus[w := gpus[w].(usedMB := gpus[w].usedMB + need, running := gpus[w].running + 1)];
      started := exec.SubmitTask(t.id, w, canStart);
      placed := placed.(status := if started then Status.Running else Failed);
      running := running[t.id := placed];
    }

    method TryPreempt(t: Task, need: int, killable: set<string>) returns (ok: bool, ghost order: seq<string>)
      requires WellKeyed(View()) && !Fits(gpus, need)
      modifies this`gpus, this`running, this`history, exec
      ensures LegalOrder(old(View()), t, need, order) && WellKeyed(View())
      ensures var o := KillLoop(old(View()), t, need, order);
              && View() == o.st && ok == o.room
              && exec.View() == StoppedAll(old(exec.View()), order[..o.killed], killable)
      ensures order != [] <==>
                && config.enabled && t.priority >= config.minPriority
                && exists k :: k in old(running)
                     && old(running)[k].priority <= config.maxVictimPriority
                     && old(running)[k].priority + 2 <= t.priority
      ensures config.policy == Kill ==> (running == old(running) <==> order == [])
    {
      order := [];
      if !config.enabled {
        return false, [];
      }
      if t.priority < config.minPriority {
        return false, [];
      }

      var preemptable := Preemptable(t);
      if |preemptable| == 0 {
        assert forall k | k in running :: !MayPreempt(View(), t, running[k]);
        return false, [];
      }
      assert preemptable[0].id in Victims(View(), t);

      var sorted := SortByPriority(preemptable);
      order := Ids(sorted);
      SortedIsKillOrder(View(), t, preemptable, sorted);
      ok := KillInOrder(t, need, sorted, killable, Hunt(t, need, sorted, killable, View(), exec.View()));
      MakeRoomFrame(old(View()), t, need, order);
      SomebodyFalls(old(View()), t, need, order);
      assert preemptable[0] in sorted;
    }

    method Preemptable(t: Task) returns (found: seq<Task>)
      requires WellKeyed(View())
      ensures DistinctIds(found)
      ensures forall v :: v in found <==>
                && v.id in running && running[v.id] == v
                && v.priority <= config.maxVictimPriority && v.priority + 2 <= t.priority
      ensures forall v | v in found :: v.id in running && running[v.id] == v && MayPreempt(View(), t, v)
      ensures forall k | k in running && MayPreempt(View(), t, running[k]) :: running[k] in found
    {
      found := [];
      var left := running.Keys;
      while left != {}
        invariant left <= running.Keys && DistinctIds(found)
        invariant forall v | v in found ::
            v.id in running && running[v.id] == v && v.id !in left && MayPreempt(View(), t, v)
        invariant forall k | k in running && k !in left && MayPreempt(View(), t, running[k]) :: running[k] in found
      {
        var k :| k in left;
        left := left - {k};
        var v := running[k];
        if v.priority <= config.maxVictimPriority && t.priority - v.priority >= 2 {
          found := found + [v];
        }
      }
    }

    method KillInOrder(t: Task, need: int, sorted: seq<Task>, killable: set<string>, ghost h: Hunt) returns (ok: bool)
      requires h == Hunt(t, need, sorted, killable, View(), exec.View()) && Sensible(h)
      modifies this`gpus, this`running, this`history, exec
      ensures Finished(h, View(), exec.View(), ok)
    {
      HuntStarts(h);
      ok := false;
      var i := 0;
      ghost var left := Ids(sorted);
      while i < |sorted|
        modifies this`gpus, this`running, this`history, exec
        invariant 0 <= i <= |sorted| && !ok
        invariant Hunting(h, View(), exec.View(), i, left)
      {
        HuntEnds(h, View(), exec.View(), i, left);
        HuntGoesOn(h, View(), exec.View(), i, left);
        ok := PreemptOne(t, need, sorted[i], killable, h);
        if ok {
          return;
        }
        i, left := i + 1, left[1..];
      }
      HuntFails(h, View(), exec.View(), left);
    }

    /** One turn of the loop: what the policy does to one victim, then the check for room. */
    method PreemptOne(t: Task, need: int, v: Task, killable: set<string>, ghost h: Hunt) returns (ok: bool)
      requires v.id in running && running[v.id] == v
      requires t == h.t && killable == h.killable
      modifies this`gpus, this`running, this`history, exec
      ensures View() == Turn(h, old(View()), v)
      ensures exec.View() == TurnExec(h, old(View()), old(exec.View()), v)
      ensures ok == (config.policy != Wait && HasRoom(gpus, need))
    {
      match config.policy {
        case Kill =>
          var stopped := exec.StopTask(v.id, v.id in killable);
          var host := Itoa(v.gpuReq);
          if host in gpus {
            var g: Gpu := gpus[host];
            gpus := gpus[host := g.(running := g.running - 1, usedMB := g.usedMB - v.vramMB)];
          }
          running := running - {v.id};
          history := history + [Record(t, v.(status := Killed), host)];
        case Wait =>
          return false;
        case Checkpoint =>
      }
      ok := HasEnoughResources(need);
    }

    method HasEnoughResources(need: int) returns (found: bool)
      ensures found == HasRoom(gpus, need)
    {
      var left := gpus.Keys;
      while left != {}
        invariant left <= gpus.Keys
        invariant forall k | k in gpus && k !in left :: gpus[k].FreeVRAM() < need
      {
        var k :| k in left;
        left := left - {k};
        if gpus[k].FreeVRAM() >= need {
          return true;
        }
      }
      found := false;
    }

    method TrySchedulePending()
      requires WellKeyed(View())
      modifies this`pending, this`running
      ensures View() == Drained(old(View())) && WellKeyed(View())
    {
      var stillPending: seq<Task> := [];
      var i := 0;
      assert pending[0..] == pending;
      while i < |pending|
        modifies this`running
        invariant 0 <= i <= |pending| && WellKeyed(View())
        invariant StillPending(pending, gpus) == stillPending + StillPending(pending[i..], gpus)
        invariant Promoted(pending, gpus, old(running)) == Promoted(pending[i..], gpus, running)
      {
        var t := pending[i];
        assert pending[i..][0] == t && pending[i..][1..] == pending[i + 1..];
        var c := Criteria(DEFAULT_VRAM, Unset, t.kind, t.priority, policy);
        var best := ScheduleLocked(gpus, c, gpuCount);
        if best.Some? {
          running := running[t.id := t.(status := Status.Running)];
        } else {
          stillPending := stillPending + [t];
        }
        i := i + 1;
      }
      pending := stillPending;
    }

    method ReleaseTask(id: string)
      requires WellKeyed(View())
      modifies this`pending, this`running, this`completed, this`gpus
      ensures View() == Next(old(View()), Finish(id)) && WellKeyed(View())
      ensures id in old(running) ==> completed != [] && completed[|completed| - 1] == old(running)[id]
      ensures id !in old(running) ==> View() == old(View())
    {
      if id !in running {
        return;
      }
      var t := running[id];
      var vram := t.vramMB;
      if vram == 0 {
        vram := DEFAULT_VRAM;
      }
      var host := Itoa(t.gpuReq);
      if host in gpus {
        var g: Gpu := gpus[host];
        g := g.(usedMB := g.usedMB - vram);
        if g.usedMB < 0 {
          g := g.(usedMB := 0);
        }
        g := g.(running := g.running - 1);
        if g.running < 0 {
          g := g.(running := 0);
        }
        gpus := gpus[host := g];
      }
      assert gpus == Freed(old(gpus), t);
      running := running - {id};
      completed := completed + [t];
      if |completed| > 100 {
        completed := completed[|completed| - 100..];
      }
      ghost var r := Retired(old(View()), id);
      assert View() == r && WellKeyed(r);
      TrySchedulePending();
    }

    method CompleteTask(id: string) returns (found: bool)
      requires WellKeyed(View())
      modifies this`pending, this`running, this`completed, this`gpus
      ensures found == (id in old(running))
      ensures View() == Next(old(View()), Finish(id)) && WellKeyed(View())
      ensures id in old(running) ==> completed != [] && completed[|completed| - 1] == old(running)[id]
      ensures id !in old(running) ==> View() == old(View())
    {
      if id !in running {
        return false;
      }
      var t := running[id];
      var vram := t.vramMB;
      if vram == 0 {
        vram := DEFAULT_VRAM;
      }
      var host := Itoa(t.gpuReq);
      if host in gpus {
        var g: Gpu := gpus[host];
        g := g.(usedMB := g.usedMB - vram);
        if g.usedMB < 0 {
          g := g.(usedMB := 0);
        }
        g := g.(running := g.running - 1);
        if g.running < 0 {
          g := g.(running := 0);
        }
        gpus := gpus[host := g];
      }
      assert gpus == Freed(old(gpus), t);
      running := running - {id};
      completed := completed + [t];
      if |completed| > 100 {
        completed := completed[|completed| - 100..];
      }
      ghost var r := Retired(old(View()), id);
      assert View() == r && WellKeyed(r);
      TrySchedulePending();
      found := true;
    }

    method CancelTask(id: string) returns (found: bool)
      modifies this`pending
      ensures View() == Next(old(View()), Cancel(id))
      ensures found <==> exists i :: 0 <= i < |old(pending)| && old(pending)[i].id == id
    {
      var i := 0;
      while i < |pending|
        invariant 0 <= i <= |pending|
        invariant forall j | 0 <= j < i :: pending[j].id != id
      {
        if pending[i].id == id {
          WithoutFirstAt(pending, id, i);
          pending := pending[..i] + pending[i + 1..];
          return true;
        }
        i := i + 1;
      }
      WithoutFirstAt(pending, id, |pending|);
      found := false;
    }

    /** Walks the GPUs for the ID; the program holds no lock here. */
    method UpdateGPUUsage(id: string, usedMB: int, util: real, count: int) returns (found: bool)
      requires WellKeyed(View())
      modifies this`gpus
      ensures found == (id in old(gpus))
      ensures View() == Next(old(View()), Monitor(id, usedMB, util, count)) && WellKeyed(View())
      ensures gpus.Keys == old(gpus).Keys && forall k | k in gpus && k != id :: gpus[k] == old(gpus)[k]
      ensures id in gpus ==> gpus[id] == old(gpus)[id].(usedMB := usedMB, util := util, running := count)
    {
      var left := gpus.Keys;
      while left != {}
        invariant left <= gpus.Keys
        invariant gpus == old(gpus)
        invariant forall k | k in gpus && k !in left :: gpus[k].id != id
      {
        var k :| k in left;
        left := left - {k};
        if gpus[k].id == id {
          gpus := gpus[k := gpus[k].(usedMB := usedMB, util := util, running := count)];
          return true;
        }
      }
      found := false;
    }

    method SetDefaultPolicy(policy: Policy)
      modifies this`policy
      ensures View() == Next(old(View()), SetPolicy(policy)) && this.policy == policy
    {
      this.policy := policy;
    }

    method UpdatePreemptConfig(config: Config)
      modifies this`config
      ensures View() == Next(old(View()), SetConfig(config)) && this.config == config
    {
      this.config := config;
    }
  }
}
