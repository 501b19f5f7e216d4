/// Preemptive priority: one ready list, sorted by priority (lower value more
/// urgent) at every tick with a stable sort, whose head runs for one tick and
/// leaves the list only when it completes.
module PreemptivePriority {
  import opened Scheduling
  import opened Admission
  import opened Results

  // ---------------------------------------------------------------------
  // The stable sort `readyQueue.sort((a, b) => a.priority - b.priority)`
  // ---------------------------------------------------------------------

  /** The sort key of the runtime copy at index `i`. */
  function Key(procs: seq<RuntimeProcess>, i: nat): int
    requires i < |procs|
  {
    procs[i].p.priority
  }

  /** Ready-list entries in non-decreasing priority value. */
  ghost predicate Sorted(procs: seq<RuntimeProcess>, q: seq<nat>)
    requires Indexes(procs, q)
  {
    forall j, k :: 0 <= j < k < |q| ==> Key(procs, q[j]) <= Key(procs, q[k])
  }

  /** The entries of `q` whose priority value is `v`, in their order in `q`. */
  function WithKey(procs: seq<RuntimeProcess>, q: seq<nat>, v: int): seq<nat>
    requires Indexes(procs, q)
  {
    if q == [] then []
    else (if Key(procs, q[0]) == v then [q[0]] else []) + WithKey(procs, q[1..], v)
  }

  /** Put `x` in front of the first entry of `s` that is not more urgent
      than `x`. */
  function Insert(procs: seq<RuntimeProcess>, x: nat, s: seq<nat>): (r: seq<nat>)
    requires x < |procs| && Indexes(procs, s)
    ensures Indexes(procs, r) && |r| == |s| + 1
    ensures multiset(r) == multiset(s) + multiset{x}
  {
    if s == [] || Key(procs, x) <= Key(procs, s[0]) then [x] + s
    else
      assert s == [s[0]] + s[1..];
      [s[0]] + Insert(procs, x, s[1..])
  }

  /** The stable sort by priority, as an insertion sort: the front entry is
      inserted into the sorted rest, ahead of every entry of equal priority. */
  function SortByPriority(procs: seq<RuntimeProcess>, q: seq<nat>): (r: seq<nat>)
    requires Indexes(procs, q)
    ensures Indexes(procs, r) && |r| == |q|
    ensures multiset(r) == multiset(q)
  {
    if q == [] then []
    else
      var rest := SortByPriority(procs, q[1..]);
      assert q == [q[0]] + q[1..];
      Insert(procs, q[0], rest)
  }

  lemma {:induction false} InsertSorted(procs: seq<RuntimeProcess>, x: nat, s: seq<nat>)
    requires x < |procs| && Indexes(procs, s) && Sorted(procs, s)
    ensures Sorted(procs, Insert(procs, x, s))
    decreases |s|
  {
    if s != [] && Key(procs, x) > Key(procs, s[0]) {
      var rest := Insert(procs, x, s[1..]);
      InsertSorted(procs, x, s[1..]);
      var r := [s[0]] + rest;
      forall k | 0 < k < |r| ensures Key(procs, s[0]) <= Key(procs, r[k]) {
        assert r[k] in multiset(rest);
        assert r[k] in multiset(s[1..]) + multiset{x};
        if r[k] != x {
          var m :| 0 <= m < |s[1..]| && s[1..][m] == r[k];
          assert s[m + 1] == r[k];
        }
      }
    }
  }

  /** Inserting adds `x` at the front of its priority's entries (it only
      passes entries more urgent than itself) and leaves every other
      priority's entries as they were. */
  lemma {:induction false} InsertWithKey(procs: seq<RuntimeProcess>, x: nat, s: seq<nat>, v: int)
    requires x < |procs| && Indexes(procs, s)
    ensures WithKey(procs, Insert(procs, x, s), v)
         == (if Key(procs, x) == v then [x] else []) + WithKey(procs, s, v)
    decreases |s|
  {
    if s != [] && Key(procs, x) > Key(procs, s[0]) {
      InsertWithKey(procs, x, s[1..], v);
      WithKeyCons(procs, s[0], Insert(procs, x, s[1..]), v);
      WithKeyCons(procs, s[0], s[1..], v);
      assert [s[0]] + s[1..] == s;
    } else {
      WithKeyCons(procs, x, s, v);
    }
  }

  lemma WithKeyCons(procs: seq<RuntimeProcess>, h: nat, t: seq<nat>, v: int)
    requires h < |procs| && Indexes(procs, t)
    ensures Indexes(procs, [h] + t)
    ensures WithKey(procs, [h] + t, v) == (if Key(procs, h) == v then [h] else []) + WithKey(procs, t, v)
  {
    var r := [h] + t;
    assert r[0] == h && r[1..] == t;
  }

  lemma {:induction false} SortSorted(procs: seq<RuntimeProcess>, q: seq<nat>)
    requires Indexes(procs, q)
    ensures Sorted(procs, SortByPriority(procs, q))
    decreases |q|
  {
    if q != [] {
      SortSorted(procs, q[1..]);
      InsertSorted(procs, q[0], SortByPriority(procs, q[1..]));
    }
  }

  /** The sort is stable: the entries of each priority keep their order. */
  lemma {:induction false} SortStable(procs: seq<RuntimeProcess>, q: seq<nat>, v: int)
    requires Indexes(procs, q)
    ensures WithKey(procs, SortByPriority(procs, q), v) == WithKey(procs, q, v)
    decreases |q|
  {
    if q != [] {
      SortStable(procs, q[1..], v);
      InsertWithKey(procs, q[0], SortByPriority(procs, q[1..]), v);
    }
  }

  /** The head of the sorted list is of minimum priority value in the list,
      and the earliest entry of that priority in the unsorted list. */
  lemma SortHead(procs: seq<RuntimeProcess>, q: seq<nat>)
    requires Indexes(procs, q) && q != []
    ensures var r := SortByPriority(procs, q);
      && r[0] in q
      && (forall k :: 0 <= k < |q| ==> Key(procs, r[0]) <= Key(procs, q[k]))
      && WithKey(procs, q, Key(procs, r[0])) != []
      && r[0] == WithKey(procs, q, Key(procs, r[0]))[0]
  {
    var r := SortByPriority(procs, q);
    SortSorted(procs, q);
    var v := Key(procs, r[0]);
    assert r[0] in multiset(q);
    forall k | 0 <= k < |q| ensures v <= Key(procs, q[k]) {
      assert q[k] in multiset(r);
      var m :| 0 <= m < |r| && r[m] == q[k];
      if m > 0 {
        assert Key(procs, r[0]) <= Key(procs, r[m]);
      }
    }
    SortStable(procs, q, v);
    assert r == [r[0]] + r[1..];
  }

  /** A list whose entries all have priority `v` is its own `WithKey`. */
  lemma {:induction false} WithKeyAll(procs: seq<RuntimeProcess>, q: seq<nat>, v: int)
    requires Indexes(procs, q) && forall k :: 0 <= k < |q| ==> Key(procs, q[k]) == v
    ensures WithKey(procs, q, v) == q
    decreases |q|
  {
    if q != [] {
      WithKeyAll(procs, q[1..], v);
    }
  }

  /** With all priorities equal the sort changes nothing. */
  lemma SortEqualKeys(procs: seq<RuntimeProcess>, q: seq<nat>, v: int)
    requires Indexes(procs, q) && forall k :: 0 <= k < |q| ==> Key(procs, q[k]) == v
    ensures SortByPriority(procs, q) == q
  {
    var r := SortByPriority(procs, q);
    forall k | 0 <= k < |r| ensures Key(procs, r[k]) == v {
      assert r[k] in multiset(q);
    }
    WithKeyAll(procs, q, v);
    WithKeyAll(procs, r, v);
    SortStable(procs, q, v);
  }

  /** Sorting a ready list leaves it a ready list. */
  lemma SortReady(procs: seq<RuntimeProcess>, t: nat, q: seq<nat>)
    requires ReadyOk(procs, t, q)
    ensures ReadyOk(procs, t, SortByPriority(procs, q))
  {
    var r := SortByPriority(procs, q);
    forall k | 0 <= k < |r| ensures Eligible(procs[r[k]], t) {
      assert r[k] in multiset(q);
    }
    DistinctCount(q);
    DistinctCount(r);
  }

  /** A list has no repeated entry exactly when no entry occurs twice in its
      multiset. */
  lemma {:induction false} DistinctCount(q: seq<nat>)
    ensures Distinct(q) <==> forall x :: multiset(q)[x] <= 1
    decreases |q|
  {
    if q != [] {
      DistinctCount(q[1..]);
      assert q == [q[0]] + q[1..];
      assert multiset(q) == multiset{q[0]} + multiset(q[1..]);
      if Distinct(q) {
        assert Distinct(q[1..]) by {
          forall j, k | 0 <= j < k < |q[1..]| ensures q[1..][j] != q[1..][k] {
            assert q[1..][j] == q[j + 1] && q[1..][k] == q[k + 1];
          }
        }
        assert q[0] !in q[1..] by {
          forall k | 0 <= k < |q[1..]| ensures q[1..][k] != q[0] {
            assert q[1..][k] == q[k + 1];
          }
        }
      } else {
        var j, k :| 0 <= j < k < |q| && q[j] == q[k];
        if j == 0 {
          assert q[k] == q[1..][k - 1];
          assert multiset(q)[q[0]] >= 2;
        } else {
          assert q[1..][j - 1] == q[1..][k - 1];
          assert !Distinct(q[1..]);
          var x :| multiset(q[1..])[x] > 1;
          assert multiset(q)[x] > 1;
        }
      }
    }
  }

  // ---------------------------------------------------------------------
  // The simulation
  // ---------------------------------------------------------------------

  /** The simulator's state between iterations: clock, runtime copies and
      Gantt data, plus the ready list of process indices. */
  datatype State = State(sim: Sim, ready: seq<nat>)

  /** The sum of all bursts of the input. */
  function TotalBurst(ps: seq<Process>): nat {
    if ps == [] then 0 else ps[0].burst + TotalBurst(ps[1..])
  }

  /** Every slice is one tick long. */
  ghost predicate UnitSlices(g: seq<Slice>) {
    forall k :: 0 <= k < |g| ==> g[k].end == g[k].start + 1
  }

  /** The invariant of the simulation loop: the shared bookkeeping, a ready
      list of eligible processes without repeats, one-tick slices, and one
      slice for every unit of burst already run. */
  ghost predicate Valid(ps: seq<Process>, s: State) {
    ValidInput(ps)
    && Accounting(ps, s.sim)
    && ReadyOk(s.sim.procs, s.sim.time, s.ready)
    && UnitSlices(s.sim.gantt)
    && |s.sim.gantt| + Backlog(s.sim.procs) == TotalBurst(ps)
  }

  /** After admission and sorting, the ready list is still a ready list. */
  lemma AdmittedSortedReady(procs: seq<RuntimeProcess>, t: nat, ready: seq<nat>)
    requires ReadyOk(procs, t, ready)
    ensures ReadyOk(procs, t, SortByPriority(procs, Admit(procs, t, ready)))
  {
    AdmitReady(procs, t, ready);
    SortReady(procs, t, Admit(procs, t, ready));
  }

  /** One iteration of the `while` loop: admission, then either an idle tick
      or, after sorting the ready list, one tick of its head, which is
      removed when it completes. */
  function Step(s: State): (r: State)
    requires ReadyOk(s.sim.procs, s.sim.time, s.ready)
    ensures |r.sim.procs| == |s.sim.procs|
  {
    var procs := s.sim.procs;
    var q := Admit(procs, s.sim.time, s.ready);
    if q == [] then State(Idle(s.sim), q)
    else
      AdmittedSortedReady(procs, s.sim.time, s.ready);
      var sorted := SortByPriority(procs, q);
      var cur := sorted[0];
      var sim := Execute(s.sim, cur, 1);
      State(sim, if sim.procs[cur].remainingBurst == 0 then sorted[1..] else sorted)
  }

  /** `Step` unfolded for an iteration whose admission pass leaves the list
      `q`. */
  lemma StepUnfold(s: State, q: seq<nat>)
    requires ReadyOk(s.sim.procs, s.sim.time, s.ready) && q == Admit(s.sim.procs, s.sim.time, s.ready)
    ensures ReadyOk(s.sim.procs, s.sim.time, q)
    ensures q == [] ==> Step(s) == State(Idle(s.sim), [])
    ensures q != [] ==>
      var sorted := SortByPriority(s.sim.procs, q);
      && ReadyOk(s.sim.procs, s.sim.time, sorted)
      && var sim := Execute(s.sim, sorted[0], 1);
         Step(s) == State(sim, if sim.procs[sorted[0]].remainingBurst == 0 then sorted[1..] else sorted)
  {
    AdmitReady(s.sim.procs, s.sim.time, s.ready);
    if q != [] {
      SortReady(s.sim.procs, s.sim.time, q);
    }
  }

  /** A dispatch iteration runs the head of the sorted ready list for one
      tick: one slice more, one tick less of its burst, and the list keeps
      it unless nothing of it remains. */
  lemma DispatchedHead(s: State)
    requires ReadyOk(s.sim.procs, s.sim.time, s.ready) && Admit(s.sim.procs, s.sim.time, s.ready) != []
    ensures var procs := s.sim.procs;
      var sorted := SortByPriority(procs, Admit(procs, s.sim.time, s.ready));
      var r := Step(s);
      var cur := sorted[0];
      && ReadyOk(procs, s.sim.time, sorted)
      && |r.sim.gantt| == |s.sim.gantt| + 1
      && r.sim.gantt[|s.sim.gantt|].proc == cur
      && |r.sim.procs| == |procs|
      && r.sim.procs[cur].remainingBurst + 1 == procs[cur].remainingBurst
      && r.ready == if r.sim.procs[cur].remainingBurst == 0 then sorted[1..] else sorted
    ensures var procs := s.sim.procs;
      var sorted := SortByPriority(procs, Admit(procs, s.sim.time, s.ready));
      Dispatched(s.sim, sorted[0], 1, Step(s).sim)
  {
    var q := Admit(s.sim.procs, s.sim.time, s.ready);
    StepUnfold(s, q);
    var sorted := SortByPriority(s.sim.procs, q);
    ExecuteDispatched(s.sim, sorted[0], 1);
  }

  lemma IdleKeepsValid(ps: seq<Process>, s: State)
    requires Valid(ps, s) && Pending(s.sim.procs)
    requires Admit(s.sim.procs, s.sim.time, s.ready) == []
    ensures Valid(ps, Step(s)) && Step(s).sim.procs == s.sim.procs && Gap(Step(s).sim) < Gap(s.sim)
  {
    var procs := s.sim.procs;
    StepUnfold(s, []);
    var i :| 0 <= i < |procs| && procs[i].remainingBurst > 0;
    assert i !in Admit(procs, s.sim.time, s.ready);
    IdleNarrowsGap(s.sim, i);
    IdleKeepsAccounting(ps, s.sim);
  }

  /** One tick of the head of a sorted ready list keeps the invariant. */
  lemma TickKeepsValid(ps: seq<Process>, sim: Sim, sorted: seq<nat>)
    requires Valid(ps, State(sim, sorted)) && sorted != []
    ensures var cur := sorted[0];
      var r := Execute(sim, cur, 1);
      && Valid(ps, State(r, if r.procs[cur].remainingBurst == 0 then sorted[1..] else sorted))
      && Backlog(r.procs) < Backlog(sim.procs)
  {
    var cur := sorted[0];
    ExecuteKeepsAccounting(ps, sim, cur, 1);
    var r := Execute(sim, cur, 1);
    ExecuteDispatched(sim, cur, 1);
    UnitSliceAppend(sim.gantt, r.gantt);
    ReadyAfterRun(sim.procs, sim.time, sorted, r.procs, r.time);
  }

  lemma UnitSliceAppend(g: seq<Slice>, g': seq<Slice>)
    requires UnitSlices(g) && |g'| == |g| + 1 && g'[..|g|] == g && g'[|g|].end == g'[|g|].start + 1
    ensures UnitSlices(g')
  {
    assert forall k :: 0 <= k < |g| ==> g'[k] == g[k];
  }

  lemma DispatchKeepsValid(ps: seq<Process>, s: State)
    requires Valid(ps, s)
    requires Admit(s.sim.procs, s.sim.time, s.ready) != []
    ensures Valid(ps, Step(s)) && Backlog(Step(s).sim.procs) < Backlog(s.sim.procs)
  {
    var q := Admit(s.sim.procs, s.sim.time, s.ready);
    StepUnfold(s, q);
    TickKeepsValid(ps, s.sim, SortByPriority(s.sim.procs, q));
  }

  /** The loop keeps its invariant, and each iteration either shrinks the
      total remaining burst or, leaving it alone, brings the clock closer to
      the last arrival. */
  lemma StepKeepsValid(ps: seq<Process>, s: State)
    requires Valid(ps, s) && Pending(s.sim.procs)
    ensures Valid(ps, Step(s))
    ensures Backlog(Step(s).sim.procs) < Backlog(s.sim.procs)
      || (Backlog(Step(s).sim.procs) == Backlog(s.sim.procs) && Gap(Step(s).sim) < Gap(s.sim))
  {
    if Admit(s.sim.procs, s.sim.time, s.ready) == [] {
      IdleKeepsValid(ps, s);
    } else {
      DispatchKeepsValid(ps, s);
    }
  }

  /** The whole `while` loop, from state `s` until no process is pending. */
  function Run(ps: seq<Process>, s: State): (r: State)
    requires Valid(ps, s)
    ensures |r.sim.procs| == |s.sim.procs|
    decreases Backlog(s.sim.procs), Gap(s.sim)
  {
    if !Pending(s.sim.procs) then s
    else
      StepKeepsValid(ps, s);
      Run(ps, Step(s))
  }

  /** The loop ends in a state that keeps the invariant and in which no
      process has work left. */
  lemma {:induction false} RunFinishes(ps: seq<Process>, s: State)
    requires Valid(ps, s)
    ensures Valid(ps, Run(ps, s)) && !Pending(Run(ps, s).sim.procs)
    decreases Backlog(s.sim.procs), Gap(s.sim)
  {
    if Pending(s.sim.procs) {
      StepKeepsValid(ps, s);
      RunFinishes(ps, Step(s));
    }
  }

  /** The backlog of runtime copies that still hold their whole bursts is
      the total burst. */
  lemma {:induction false} BacklogIsTotalBurst(ps: seq<Process>, procs: seq<RuntimeProcess>)
    requires |procs| == |ps| && forall i :: 0 <= i < |ps| ==> procs[i].remainingBurst == ps[i].burst
    ensures Backlog(procs) == TotalBurst(ps)
    decreases |ps|
  {
    if ps != [] {
      BacklogIsTotalBurst(ps[1..], procs[1..]);
    }
  }

  /** The state before the first iteration. */
  function Initial(ps: seq<Process>): (s: State)
    requires ValidInput(ps)
    ensures Valid(ps, s)
  {
    var sim := Start(ps);
    BacklogIsTotalBurst(ps, sim.procs);
    State(sim, [])
  }

  /** What `preemptivePriority(processes)` returns. */
  function PreemptivePrioritySpec(ps: seq<Process>): Outcome
    requires ValidInput(ps)
  {
    var r := Run(ps, Initial(ps));
    RunFinishes(ps, Initial(ps));
    ReportFinished(ps, r.sim, None);
    Report(r.sim, None)
  }

  /** The properties of a preemptive priority result: the facts of
      `ReportFinished` (every process's slices add up to its burst,
      turnaround at least burst, response not negative, ordered Gantt chart,
      throughput over the end of the last slice, NaN waiting time), every
      slice one tick long, and as many slices as the bursts add up to. */
  lemma PreemptivePriorityResult(ps: seq<Process>)
    requires ValidInput(ps)
    ensures var o := PreemptivePrioritySpec(ps);
      && |o.processes| == |ps|
      && (forall i :: 0 <= i < |ps| ==>
            && o.processes[i].turnaroundTime >= ps[i].burst
            && o.processes[i].responseTime >= 0
            && FirstStart(o.ganttData, i).Some? && LastEnd(o.ganttData, i).Some?
            && o.processes[i].responseTime == FirstStart(o.ganttData, i).value - ps[i].arrival
            && o.processes[i].turnaroundTime == LastEnd(o.ganttData, i).value - ps[i].arrival
            && Work(o.ganttData, i) == ps[i].burst
            && o.processes[i].waitingTime == None)
      && Ordered(o.ganttData)
      && UnitSlices(o.ganttData)
      && o.metrics.contextSwitches == |o.ganttData| == TotalBurst(ps)
      && o.ganttData != []
      && o.ganttData[|o.ganttData| - 1].end > 0
      && o.metrics.throughput == |ps| as real / o.ganttData[|o.ganttData| - 1].end as real
      && o.metrics.avgWaitingTime == None
      && o.metrics.avgTurnaroundTime == TotalTurnaround(o.processes) as real / |ps| as real
      && o.metrics.avgResponseTime == TotalResponse(o.processes) as real / |ps| as real
      && o.quantum == None
  {
    var r := Run(ps, Initial(ps));
    RunFinishes(ps, Initial(ps));
    ReportFinished(ps, r.sim, None);
    BacklogZero(r.sim.procs);
    var o := Report(r.sim, None);
    assert UnitSlices(o.ganttData);
    assert PreemptivePrioritySpec(ps) == o;
  }

  /** The process that runs in a dispatch iteration is of minimum priority
      value among all arrived unfinished processes, and the earliest of that
      priority in the admitted ready list. */
  lemma RunsMostUrgent(s: State)
    requires ReadyOk(s.sim.procs, s.sim.time, s.ready) && Admit(s.sim.procs, s.sim.time, s.ready) != []
    ensures var procs, t := s.sim.procs, s.sim.time;
      var q := Admit(procs, t, s.ready);
      var g := Step(s).sim.gantt;
      && |g| == |s.sim.gantt| + 1
      && var cur := g[|g| - 1].proc;
      && cur < |procs| && Eligible(procs[cur], t)
      && (forall i :: 0 <= i < |procs| && Eligible(procs[i], t) ==> procs[cur].p.priority <= procs[i].p.priority)
      && WithKey(procs, q, procs[cur].p.priority) != []
      && cur == WithKey(procs, q, procs[cur].p.priority)[0]
  {
    var procs, t := s.sim.procs, s.sim.time;
    var q := Admit(procs, t, s.ready);
    AdmitReady(procs, t, s.ready);
    SortHead(procs, q);
    var cur := SortByPriority(procs, q)[0];
    DispatchedHead(s);
    assert Step(s).sim.gantt[|s.sim.gantt|].proc == cur;
    forall i | 0 <= i < |procs| && Eligible(procs[i], t) ensures Key(procs, cur) <= Key(procs, i) {
      var k :| 0 <= k < |q| && q[k] == i;
    }
  }

  /** A process leaves the ready list only in the iteration in which it
      runs its last tick: the entries dropped from the admitted list are
      exactly the process just run, when nothing of it remains. Nothing
      else joins the list. */
  lemma LeavesOnlyOnCompletion(s: State)
    requires ReadyOk(s.sim.procs, s.sim.time, s.ready) && Admit(s.sim.procs, s.sim.time, s.ready) != []
    ensures var q := Admit(s.sim.procs, s.sim.time, s.ready);
      var r := Step(s);
      && |r.sim.gantt| == |s.sim.gantt| + 1
      && var cur := r.sim.gantt[|r.sim.gantt| - 1].proc;
      && cur < |r.sim.procs|
      && (forall i :: i in r.ready ==> i in q)
      && (forall i :: i in q && i !in r.ready <==> i == cur && r.sim.procs[cur].remainingBurst == 0)
  {
    var q := Admit(s.sim.procs, s.sim.time, s.ready);
    DispatchedHead(s);
    var sorted := SortByPriority(s.sim.procs, q);
    HeadDropped(sorted, q);
  }

  /** Dropping the head of a permutation of `q` without repeats drops that
      entry and nothing else. */
  lemma HeadDropped(sorted: seq<nat>, q: seq<nat>)
    requires sorted != [] && multiset(sorted) == multiset(q) && Distinct(sorted)
    ensures forall i :: i in sorted[1..] <==> i in q && i != sorted[0]
    ensures forall i :: i in sorted <==> i in q
  {
    forall i ensures i in sorted <==> i in q {
      assert i in sorted <==> i in multiset(sorted);
    }
    assert sorted == [sorted[0]] + sorted[1..];
    forall k | 0 <= k < |sorted[1..]| ensures sorted[1..][k] != sorted[0] {
      assert sorted[1..][k] == sorted[k + 1];
    }
  }

  /** With all priorities equal, the process at the head of the ready list
      runs in the next iteration, and stays at the head as long as it has
      work left: a started process runs every tick until it completes. */
  lemma EqualPrioritiesKeepRunning(s: State, v: int)
    requires ReadyOk(s.sim.procs, s.sim.time, s.ready) && s.ready != []
    requires forall i :: 0 <= i < |s.sim.procs| ==> s.sim.procs[i].p.priority == v
    ensures var r := Step(s);
      && |r.sim.gantt| == |s.sim.gantt| + 1
      && r.sim.gantt[|r.sim.gantt| - 1].proc == s.ready[0]
      && (r.sim.procs[s.ready[0]].remainingBurst > 0 ==> r.ready != [] && r.ready[0] == s.ready[0])
  {
    var procs, t := s.sim.procs, s.sim.time;
    var q := Admit(procs, t, s.ready);
    assert q[0] == s.ready[0] by {
      assert q[..|s.ready|] == s.ready;
    }
    assert forall k :: 0 <= k < |q| ==> Key(procs, q[k]) == v;
    SortEqualKeys(procs, q, v);
    DispatchedHead(s);
  }

  /** Every input process has priority value `v`. */
  predicate SamePriority(ps: seq<Process>, v: int) {
    forall i :: 0 <= i < |ps| ==> ps[i].priority == v
  }

  /** With equal priorities, process `i` runs without interruption: while
      it is started and unfinished it is the head of the ready list and has
      run every tick since its first response; once completed, it completed
      its burst after its first response. */
  ghost predicate Uninterrupted(ps: seq<Process>, s: State, i: nat)
    requires i < |ps| == |s.sim.procs|
  {
    var rp := s.sim.procs[i];
    && (rp.firstResponse.Some? && rp.remainingBurst > 0 ==>
          s.ready != [] && s.ready[0] == i && rp.firstResponse.value + Work(s.sim.gantt, i) == s.sim.time)
    && (rp.completionTime.Some? ==>
          rp.firstResponse.Some? && rp.completionTime.value == rp.firstResponse.value + ps[i].burst)
  }

  /** A one-tick dispatch of `cur`, the head of the ready list before and
      after the iteration while it has work left, keeps process `i`
      uninterrupted. */
  lemma TickUninterrupted(ps: seq<Process>, s: State, r: State, cur: nat, i: nat)
    requires i < |ps| == |s.sim.procs| && Dispatched(s.sim, cur, 1, r.sim)
    requires ProcOk(ps, s.sim, i) && Uninterrupted(ps, s, i)
    requires s.ready != [] ==> s.ready[0] == cur
    requires r.sim.procs[cur].remainingBurst > 0 ==> r.ready != [] && r.ready[0] == cur
    ensures Uninterrupted(ps, r, i)
  {
    WorkAppend(s.sim.gantt, r.sim.gantt[|s.sim.gantt|], i);
  }

  /** An idle iteration happens only with an empty ready list, so no
      process is started and unfinished; it keeps every process
      uninterrupted. */
  lemma IdleUninterrupted(ps: seq<Process>, s: State)
    requires |ps| == |s.sim.procs| && ReadyOk(s.sim.procs, s.sim.time, s.ready)
    requires Admit(s.sim.procs, s.sim.time, s.ready) == []
    requires forall i :: 0 <= i < |ps| ==> Uninterrupted(ps, s, i)
    ensures forall i :: 0 <= i < |ps| ==> Uninterrupted(ps, Step(s), i)
  {
    StepUnfold(s, []);
    assert s.ready == [];
    forall i | 0 <= i < |ps| ensures Uninterrupted(ps, Step(s), i) {
      assert Uninterrupted(ps, s, i);
    }
  }

  /** A dispatch iteration with equal priorities runs the head of the ready
      list, if there was one, and keeps every process uninterrupted. */
  lemma DispatchUninterrupted(ps: seq<Process>, v: int, s: State)
    requires |ps| == |s.sim.procs| && ReadyOk(s.sim.procs, s.sim.time, s.ready)
    requires forall i :: 0 <= i < |ps| ==> s.sim.procs[i].p.priority == v
    requires Admit(s.sim.procs, s.sim.time, s.ready) != []
    requires forall i :: 0 <= i < |ps| ==> ProcOk(ps, s.sim, i) && Uninterrupted(ps, s, i)
    ensures forall i :: 0 <= i < |ps| ==> Uninterrupted(ps, Step(s), i)
  {
    var procs := s.sim.procs;
    var q := Admit(procs, s.sim.time, s.ready);
    assert s.ready != [] ==> q[0] == s.ready[0] by {
      assert q[..|s.ready|] == s.ready;
    }
    assert forall k :: 0 <= k < |q| ==> Key(procs, q[k]) == v;
    SortEqualKeys(procs, q, v);
    DispatchedHead(s);
    var r := Step(s);
    forall i | 0 <= i < |ps| ensures Uninterrupted(ps, r, i) {
      TickUninterrupted(ps, s, r, q[0], i);
    }
  }

  /** One iteration with equal priorities keeps every process uninterrupted. */
  lemma SamePriorityStep(ps: seq<Process>, v: int, s: State)
    requires Valid(ps, s) && SamePriority(ps, v)
    requires forall i :: 0 <= i < |ps| ==> Uninterrupted(ps, s, i)
    ensures forall i :: 0 <= i < |ps| ==> Uninterrupted(ps, Step(s), i)
  {
    if Admit(s.sim.procs, s.sim.time, s.ready) == [] {
      IdleUninterrupted(ps, s);
    } else {
      assert forall i :: 0 <= i < |ps| ==> s.sim.procs[i].p == ps[i] && ProcOk(ps, s.sim, i);
      DispatchUninterrupted(ps, v, s);
    }
  }

  /** The rest of the run, from a state in which every process is
      uninterrupted, keeps every process uninterrupted. */
  lemma {:induction false} SamePriorityRun(ps: seq<Process>, v: int, s: State)
    requires Valid(ps, s) && SamePriority(ps, v)
    requires forall i :: 0 <= i < |ps| ==> Uninterrupted(ps, s, i)
    ensures forall i :: 0 <= i < |ps| ==> Uninterrupted(ps, Run(ps, s), i)
    decreases Backlog(s.sim.procs), Gap(s.sim)
  {
    if Pending(s.sim.procs) {
      StepKeepsValid(ps, s);
      SamePriorityStep(ps, v, s);
      SamePriorityRun(ps, v, Step(s));
    }
  }

  /** With all priorities equal the policy is first come, first served
      without preemption: every process, once started, runs every tick until
      it completes, so its turnaround time is its response time plus its
      burst, and its last slice ends its burst after its first slice
      starts. */
  lemma SamePriorityRunsToCompletion(ps: seq<Process>, v: int)
    requires ValidInput(ps) && SamePriority(ps, v)
    ensures var o := PreemptivePrioritySpec(ps);
      && |o.processes| == |ps|
      && forall i :: 0 <= i < |ps| ==>
           && o.processes[i].turnaroundTime == o.processes[i].responseTime + ps[i].burst
           && FirstStart(o.ganttData, i).Some? && LastEnd(o.ganttData, i).Some?
           && LastEnd(o.ganttData, i).value == FirstStart(o.ganttData, i).value + ps[i].burst
  {
    var s0 := Initial(ps);
    SamePriorityRun(ps, v, s0);
    var r := Run(ps, s0);
    RunFinishes(ps, s0);
    ReportRecords(ps, r.sim, None);
    var o := Report(r.sim, None);
    assert PreemptivePrioritySpec(ps) == o;
    forall i | 0 <= i < |ps|
      ensures o.processes[i].turnaroundTime == o.processes[i].responseTime + ps[i].burst
    {
      assert Uninterrupted(ps, r, i);
    }
  }

  /** One iteration keeps the loop's invariant, leaves the rest of the run
      unchanged and decreases the loop's measure. */
  lemma Iteration(ps: seq<Process>, s: State)
    requires Valid(ps, s) && Pending(s.sim.procs)
    ensures var r := Step(s);
      && Valid(ps, r)
      && Run(ps, r) == Run(ps, s)
      && (Backlog(r.sim.procs) < Backlog(s.sim.procs)
          || (Backlog(r.sim.procs) == Backlog(s.sim.procs) && Gap(r.sim) < Gap(s.sim)))
  {
    StepKeepsValid(ps, s);
  }

  /** A state the loop leaves with nothing pending is the end of the whole
      run, and its report is what `preemptivePriority` returns. */
  lemma FinalReport(ps: seq<Process>, s: State)
    requires ValidInput(ps)
    requires Valid(ps, s) && !Pending(s.sim.procs)
    requires Run(ps, s) == Run(ps, Initial(ps))
    ensures |s.sim.procs| > 0 && s.sim.time > 0 && forall i :: 0 <= i < |s.sim.procs| ==> Settled(s.sim.procs[i])
    ensures Report(s.sim, None) == PreemptivePrioritySpec(ps)
  {
    ReportFinished(ps, s.sim, None);
  }

  /** The dispatch half of an iteration: the head of the sorted ready list
      runs one tick; it is shifted off the list and gets its completion time
      if nothing of it remains. */
  method RunHead(remaining: array<RuntimeProcess>, readyQueue: seq<nat>, currentTime: nat, ganttData: seq<Slice>, ghost sim0: Sim)
    returns (ready': seq<nat>, time: nat, gantt: seq<Slice>)
    requires readyQueue != [] && readyQueue[0] < remaining.Length && remaining[readyQueue[0]].remainingBurst > 0
    requires sim0 == Sim(currentTime, remaining[..], ganttData)
    modifies remaining
    ensures var cur := readyQueue[0];
      var sim := Execute(sim0, cur, 1);
      && Sim(time, remaining[..], gantt) == sim
      && ready' == if sim.procs[cur].remainingBurst == 0 then readyQueue[1..] else readyQueue
  {
    var current := readyQueue[0];
    time, gantt := RunSlice(remaining, current, 1, currentTime, ganttData);
    ghost var ran := RunFor(sim0, current, 1);
    ready' := readyQueue;
    if remaining[current].remainingBurst == 0 {
      ready' := readyQueue[1..];
      remaining[current] := remaining[current].(completionTime := Some(time));
      assert remaining[..] == ran.procs[current := ran.procs[current].(completionTime := Some(ran.time))];
    }
  }

  /** One pass of the `while` loop's body: the admission pass, then an idle
      tick, or the sort of the ready list and one tick of its head. */
  method Iterate(remaining: array<RuntimeProcess>, readyQueue: seq<nat>, currentTime: nat, ganttData: seq<Slice>, ghost s: State)
    returns (ready': seq<nat>, time: nat, gantt: seq<Slice>)
    requires s == State(Sim(currentTime, remaining[..], ganttData), readyQueue)
    requires ReadyOk(remaining[..], currentTime, readyQueue)
    modifies remaining
    ensures State(Sim(time, remaining[..], gantt), ready') == Step(s)
  {
    ready' := AdmissionPass(remaining, currentTime, readyQueue);
    StepUnfold(s, ready');
    if |ready'| == 0 {
      time, gantt := currentTime + 1, ganttData;
      return;
    }
    ready' := SortByPriority(remaining[..], ready');
    assert Eligible(remaining[..][ready'[0]], currentTime);
    ready', time, gantt := RunHead(remaining, ready', currentTime, ganttData, s.sim);
  }

  /** `preemptivePriority(processes)`: the simulation loop over runtime
      copies held in an array, updated in place. */
  method PreemptivePriority(processes: seq<Process>) returns (result: Outcome)
    requires ValidInput(processes)
    ensures result == PreemptivePrioritySpec(processes)
  {
    var ganttData: seq<Slice> := [];
    var currentTime: nat := 0;
    var readyQueue: seq<nat> := [];
    var remaining := new RuntimeProcess[|processes|](
      i requires 0 <= i < |processes| => RuntimeProcess(processes[i], processes[i].burst, None, None));
    ghost var start := Initial(processes);
    assert remaining[..] == start.sim.procs;
    ghost var st := start;

    while Pending(remaining[..])
      invariant st == State(Sim(currentTime, remaining[..], ganttData), readyQueue)
      invariant Valid(processes, st) && Run(processes, st) == Run(processes, start)
      decreases Backlog(st.sim.procs), Gap(st.sim)
    {
      Iteration(processes, st);
      readyQueue, currentTime, ganttData := Iterate(remaining, readyQueue, currentTime, ganttData, st);
      st := Step(st);
    }

    FinalReport(processes, st);
    result := Report(Sim(currentTime, remaining[..], ganttData), None);
  }
}
