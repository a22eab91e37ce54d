/** The process executor: at most one start and one callback per task ID, because its running map only grows. */
module Execution {
  import opened Types

  datatype Proc = Proc(gpuId: string, status: Status, exitCode: int, ended: bool)

  /** `monitors` holds the tasks whose monitor goroutine has started and not yet called back. */
  datatype Exec = Exec(running: map<string, Proc>, monitors: set<string>)

  datatype Exit = Succeeded(code: int) | Errored(code: int) | TimedOut(code: int)

  function ExitStatus(how: Exit): Status {
    match how
    case Succeeded(_) => Completed
    case Errored(_) => Failed
    case TimedOut(_) => Timeout
  }

  predicate Starts(x: Exec, id: string, canStart: bool) {
    id !in x.running && canStart
  }

  function Started(x: Exec, id: string, gpuId: string, canStart: bool): Exec {
    if Starts(x, id, canStart)
    then Exec(x.running[id := Proc(gpuId, Status.Running, 0, false)], x.monitors + {id})
    else x
  }

  predicate Stops(x: Exec, id: string, killOk: bool) {
    id in x.running && killOk
  }

  function Stopped(x: Exec, id: string, killOk: bool): Exec {
    if Stops(x, id, killOk)
    then x.(running := x.running[id := x.running[id].(status := Killed, ended := true)])
    else x
  }

  function StoppedAll(x: Exec, ids: seq<string>, killable: set<string>): (x': Exec)
    ensures x'.running.Keys == x.running.Keys && x'.monitors == x.monitors
    decreases |ids|
  {
    if ids == [] then x
    else
      var last := |ids| - 1;
      Stopped(StoppedAll(x, ids[..last], killable), ids[last], ids[last] in killable)
  }

  function Exited(x: Exec, id: string, how: Exit): Exec {
    Exec(
      if id in x.running
      then x.running[id := x.running[id].(status := ExitStatus(how), exitCode := how.code, ended := true)]
      else x.running,
      x.monitors - {id})
  }

  predicate Sound(x: Exec) {
    x.monitors <= x.running.Keys
  }

  /** The end of the process is all that changed: a clean end shows as completed, an error as failed, the time limit as
      timeout, each with its exit code. */
  predicate EndedAs(before: map<string, Proc>, after: map<string, Proc>, id: string, how: Exit) {
    && after.Keys == before.Keys && (forall k | k in before && k != id :: after[k] == before[k])
    && (id in before ==>
          && (after[id].status == Completed <==> how.Succeeded?)
          && (after[id].status == Failed <==> how.Errored?)
          && (after[id].status == Timeout <==> how.TimedOut?)
          && after[id].exitCode == how.code && after[id].gpuId == before[id].gpuId && after[id].ended)
  }

  class Executor {
    var running: map<string, Proc>
    ghost var monitors: set<string>

    ghost function View(): Exec
      reads this
    {
      Exec(running, monitors)
    }

    constructor ()
      ensures View() == Exec(map[], {})
    {
      running, monitors := map[], {};
    }

    /** `canStart` says whether the command could be built, logged and spawned. */
    method SubmitTask(id: string, gpuId: string, canStart: bool) returns (ok: bool)
      modifies this
      ensures ok == Starts(old(View()), id, canStart)
      ensures View() == Started(old(View()), id, gpuId, canStart)
      ensures ok <==> id !in old(running) && canStart
      ensures running == if ok then old(running)[id := Proc(gpuId, Status.Running, 0, false)] else old(running)
    {
      if id in running {
        return false;
      }
      if !canStart {
        return false;
      }
      running := running[id := Proc(gpuId, Status.Running, 0, false)];
      monitors := monitors + {id};
      ok := true;
    }

    /** `killOk` says whether the process tree could be killed. */
    method StopTask(id: string, killOk: bool) returns (ok: bool)
      modifies this
      ensures ok == Stops(old(View()), id, killOk)
      ensures View() == Stopped(old(View()), id, killOk)
      ensures ok <==> id in old(running) && killOk
      ensures running == if ok then old(running)[id := old(running)[id].(status := Killed, ended := true)]
                         else old(running)
    {
      if id !in running {
        return false;
      }
      if !killOk {
        return false;
      }
      running := running[id := running[id].(status := Killed, ended := true)];
      ok := true;
    }

    /** The locked tail of `monitorTask`; the caller then delivers the callback. */
    method MonitorTask(id: string, how: Exit)
      requires id in monitors
      modifies this
      ensures View() == Exited(old(View()), id, how)
      ensures EndedAs(old(running), running, id, how)
    {
      if id in running {
        var code := match how case Succeeded(c) => c case Errored(c) => c case TimedOut(c) => c;
        running := running[id := running[id].(status := ExitStatus(how), exitCode := code, ended := true)];
      }
      monitors := monitors - {id};
    }
  }
}
