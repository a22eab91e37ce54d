/** Sums over the running map: what the running tasks should have booked on a GPU. */
module Totals {
  import opened Types

  type Running = map<string, Task>

  /** `Mem` counts what admission charged, `Raw` the sizes kill preemption gives back, `Count` the tasks. */
  datatype Measure = Mem | Raw | Count

  function Weight(q: Measure, g: string, t: Task): int {
    if Host(t) != g then 0
    else
      match q
      case Mem => Charge(t)
      case Raw => KillRefund(t)
      case Count => 1
  }

  ghost function Total(q: Measure, g: string, m: Running): int {
    if m == map[] then 0
    else
      var k :| k in m;
      Weight(q, g, m[k]) + Total(q, g, m - {k})
  }

  /** The sum does not depend on the order in which the map is walked. */
  lemma {:induction false} TotalWithout(q: Measure, g: string, m: Running, k: string)
    requires k in m
    ensures Total(q, g, m) == Weight(q, g, m[k]) + Total(q, g, m - {k})
    decreases |m|
  {
    var j :| j in m && Total(q, g, m) == Weight(q, g, m[j]) + Total(q, g, m - {j});
    if j != k {
      TotalWithout(q, g, m - {j}, k);
      TotalWithout(q, g, m - {k}, j);
      assert m - {j} - {k} == m - {k} - {j};
    }
  }

  /** Putting a task under an ID that may be taken: the old holder's weight is lost. */
  lemma TotalPut(q: Measure, g: string, m: Running, k: string, t: Task)
    ensures Total(q, g, m[k := t])
         == Total(q, g, m) + Weight(q, g, t) - if k in m then Weight(q, g, m[k]) else 0
  {
    TotalWithout(q, g, m[k := t], k);
    assert m[k := t] - {k} == m - {k};
    if k in m {
      TotalWithout(q, g, m, k);
    } else {
      assert m - {k} == m;
    }
  }

  lemma {:induction false} TotalNonNegative(q: Measure, g: string, m: Running)
    requires q == Raw ==> forall k | k in m :: m[k].vramMB >= 0
    ensures Total(q, g, m) >= 0
    decreases |m|
  {
    if m == map[] {
    } else {
      var k :| k in m;
      TotalWithout(q, g, m, k);
      TotalNonNegative(q, g, m - {k});
    }
  }

  /** Each hosted task is covered by the total. */
  lemma TotalCovers(q: Measure, g: string, m: Running, k: string)
    requires k in m && (q == Raw ==> forall j | j in m :: m[j].vramMB >= 0)
    ensures Total(q, g, m) >= Weight(q, g, m[k])
  {
    TotalWithout(q, g, m, k);
    TotalNonNegative(q, g, m - {k});
  }

  /** Splitting the map splits the sum. */
  lemma {:induction false} TotalSplit(q: Measure, g: string, m: Running, ids: set<string>)
    requires ids <= m.Keys
    ensures Total(q, g, m) == Total(q, g, Only(m, ids)) + Total(q, g, m - ids)
    decreases |ids|
  {
    if ids == {} {
      assert Only(m, ids) == map[];
      assert m - ids == m;
    } else {
      var k :| k in ids;
      var rest := ids - {k};
      TotalSplit(q, g, m, rest);
      TotalWithout(q, g, m - rest, k);
      TotalWithout(q, g, Only(m, ids), k);
      assert Only(m, ids) - {k} == Only(m, rest);
      assert m - rest - {k} == m - ids;
    }
  }

  function Only(m: Running, ids: set<string>): Running {
    map k | k in ids && k in m :: m[k]
  }
}
