/// Multi-level feedback queue: one FIFO per level, each with its own quantum.
/// The admission pass only looks at level 0, dispatch takes the head of the
/// first non-empty level, and a process with work left after its slice is
/// demoted one level (or stays on the last one).
module Mlfq {
  import opened Scheduling
  import opened Admission
  import opened Results
  import RoundRobin

  /** The simulator's state between iterations: clock, runtime copies and
      Gantt data, plus the queue of every level, top level first. */
  datatype State = State(sim: Sim, levels: seq<seq<nat>>)

  /** The `queues` argument: at least one level, every quantum positive. */
  predicate Quanta(quanta: seq<nat>) {
    |quanta| > 0 && forall l :: 0 <= l < |quanta| ==> quanta[l] >= 1
  }

  predicate AllIndexes(procs: seq<RuntimeProcess>, levels: seq<seq<nat>>) {
    forall l :: 0 <= l < |levels| ==> Indexes(procs, levels[l])
  }

  /** Every entry of `q` is a process that has arrived by `time`. */
  ghost predicate Arrived(procs: seq<RuntimeProcess>, time: nat, q: seq<nat>) {
    Indexes(procs, q) && forall k :: 0 <= k < |q| ==> procs[q[k]].p.arrival <= time
  }

  /** Level 0 is a ready queue; the lower levels hold processes that have
      arrived, finished or not, in any number. */
  ghost predicate LevelsOk(procs: seq<RuntimeProcess>, time: nat, levels: seq<seq<nat>>) {
    |levels| > 0 && AllIndexes(procs, levels)
    && ReadyOk(procs, time, levels[0])
    && forall l :: 1 <= l < |levels| ==> Arrived(procs, time, levels[l])
  }

  /** The invariant of the simulation loop. */
  ghost predicate Valid(ps: seq<Process>, quanta: seq<nat>, s: State) {
    ValidInput(ps) && Quanta(quanta) && |s.levels| == |quanta|
    && Accounting(ps, s.sim)
    && LevelsOk(s.sim.procs, s.sim.time, s.levels)
  }

  /** The number of entries over all levels: the third component of the
      termination measure. */
  function Size(levels: seq<seq<nat>>): nat {
    if levels == [] then 0 else |levels[0]| + Size(levels[1..])
  }

  lemma {:induction false} SizeUpdate(levels: seq<seq<nat>>, l: nat, q: seq<nat>)
    requires l < |levels|
    ensures Size(levels[l := q]) + |levels[l]| == Size(levels) + |q|
    decreases |levels|
  {
    if l == 0 {
      assert levels[l := q][1..] == levels[1..];
    } else {
      assert levels[l := q][1..] == levels[1..][l - 1 := q];
      SizeUpdate(levels[1..], l - 1, q);
    }
  }

  /** The level scan: the index of the first non-empty level, or the number
      of levels when every level is empty. */
  function FirstNonEmpty(levels: seq<seq<nat>>): (l: nat)
    ensures l <= |levels|
    ensures l < |levels| ==> levels[l] != []
    ensures forall k :: 0 <= k < l ==> levels[k] == []
  {
    if levels == [] then 0
    else if levels[0] != [] then 0
    else
      var l := FirstNonEmpty(levels[1..]);
      assert forall k :: 1 <= k <= l ==> levels[k] == levels[1..][k - 1];
      l + 1
  }

  /** The levels after the admission pass, which appends to level 0 only. */
  function Admitted(s: State): (levels: seq<seq<nat>>)
    requires |s.levels| > 0 && AllIndexes(s.sim.procs, s.levels)
    ensures |levels| == |s.levels| && AllIndexes(s.sim.procs, levels)
  {
    s.levels[0 := Admit(s.sim.procs, s.sim.time, s.levels[0])]
  }

  /** Push `cur` on the level below `lv`, or back on `lv` if it is the last
      level. */
  function Demote(levels: seq<seq<nat>>, lv: nat, cur: nat): seq<seq<nat>>
    requires lv < |levels|
  {
    var target := if lv < |levels| - 1 then lv + 1 else lv;
    levels[target := levels[target] + [cur]]
  }

  /** One iteration of the `while` loop: admission to level 0, then either an
      idle tick when every level is empty, or one slice of the head of the
      first non-empty level, for at most that level's quantum, after which
      the process is demoted if it has work left. */
  function Step(quanta: seq<nat>, s: State): (r: State)
    requires |s.levels| == |quanta| > 0 && AllIndexes(s.sim.procs, s.levels)
    ensures |r.sim.procs| == |s.sim.procs| && |r.levels| == |s.levels|
  {
    var levels := Admitted(s);
    var lv := FirstNonEmpty(levels);
    if lv == |levels| then State(Idle(s.sim), levels)
    else
      var cur := levels[lv][0];
      var sim := Execute(s.sim, cur, Min(quanta[lv], s.sim.procs[cur].remainingBurst));
      var popped := levels[lv := levels[lv][1..]];
      State(sim, if sim.procs[cur].remainingBurst > 0 then Demote(popped, lv, cur) else popped)
  }

  /** `Step` unfolded for an iteration whose admission pass leaves `levels`
      and whose level scan stops at `lv`. */
  lemma StepUnfold(quanta: seq<nat>, s: State, levels: seq<seq<nat>>, lv: nat)
    requires |s.levels| == |quanta| > 0 && AllIndexes(s.sim.procs, s.levels)
    requires levels == Admitted(s) && lv == FirstNonEmpty(levels)
    ensures lv == |levels| ==> Step(quanta, s) == State(Idle(s.sim), levels)
    ensures lv < |levels| ==>
      var cur := levels[lv][0];
      var sim := Execute(s.sim, cur, Min(quanta[lv], s.sim.procs[cur].remainingBurst));
      var popped := levels[lv := levels[lv][1..]];
      Step(quanta, s) == State(sim, if sim.procs[cur].remainingBurst > 0 then Demote(popped, lv, cur) else popped)
  {
  }

  /** The loop's measure decreases from `s` to `r`: the total remaining burst
      shrinks, or it stays and the clock comes closer to the last arrival, or
      both stay and a stale entry leaves the levels. */
  ghost predicate Progress(s: State, r: State) {
    Backlog(r.sim.procs) < Backlog(s.sim.procs)
    || (Backlog(r.sim.procs) == Backlog(s.sim.procs) && Gap(r.sim) < Gap(s.sim))
    || (Backlog(r.sim.procs) == Backlog(s.sim.procs) && Gap(r.sim) == Gap(s.sim) && Size(r.levels) < Size(s.levels))
  }

  /** After the admission pass, level 0 holds every process that has arrived
      and has work left, once, and nothing else. */
  lemma AdmittedTop(ps: seq<Process>, quanta: seq<nat>, s: State)
    requires Valid(ps, quanta, s)
    ensures ReadyOk(s.sim.procs, s.sim.time, Admitted(s)[0])
    ensures forall i :: 0 <= i < |s.sim.procs| ==> (i in Admitted(s)[0] <==> Eligible(s.sim.procs[i], s.sim.time))
  {
    AdmitReady(s.sim.procs, s.sim.time, s.levels[0]);
  }

  /** The invariant holds of the admitted levels. */
  lemma AdmittedValid(ps: seq<Process>, quanta: seq<nat>, s: State)
    requires Valid(ps, quanta, s)
    ensures Valid(ps, quanta, State(s.sim, Admitted(s)))
  {
    AdmittedTop(ps, quanta, s);
  }

  /** The idle half of an iteration: every level is empty after admission, so
      no process is eligible and the clock moves towards the pending
      arrivals. */
  lemma IdleKeepsValid(ps: seq<Process>, quanta: seq<nat>, s: State)
    requires Valid(ps, quanta, s) && Pending(s.sim.procs)
    requires FirstNonEmpty(Admitted(s)) == |s.levels|
    ensures Step(quanta, s) == State(Idle(s.sim), Admitted(s))
    ensures Valid(ps, quanta, Step(quanta, s)) && Gap(Idle(s.sim)) < Gap(s.sim)
  {
    var procs := s.sim.procs;
    var levels := Admitted(s);
    StepUnfold(quanta, s, levels, |levels|);
    AdmittedTop(ps, quanta, s);
    var i :| 0 <= i < |procs| && procs[i].remainingBurst > 0;
    assert i !in levels[0];
    IdleNarrowsGap(s.sim, i);
    IdleKeepsAccounting(ps, s.sim);
  }

  /** Lower levels stay well formed when the clock advances and no arrival
      time changes. */
  lemma LowerLevelsAfterRun(procs: seq<RuntimeProcess>, t: nat, levels: seq<seq<nat>>, procs': seq<RuntimeProcess>, t': nat)
    requires forall l :: 1 <= l < |levels| ==> Arrived(procs, t, levels[l])
    requires t <= t' && |procs'| == |procs| && forall i :: 0 <= i < |procs| ==> procs'[i].p == procs[i].p
    ensures forall l :: 1 <= l < |levels| ==> Arrived(procs', t', levels[l])
  {
  }

  /** The levels after a slice of the head of level 0: the rest of level 0
      stays ready, and the head, if it has work left, is ready at the tail
      of level 0 when there is one level and has arrived at the tail of
      level 1 otherwise. */
  lemma TopRunLevels(sim: Sim, levels: seq<seq<nat>>, r: Sim)
    requires LevelsOk(sim.procs, sim.time, levels) && levels[0] != []
    requires sim.time <= r.time && |r.procs| == |sim.procs|
    requires forall i :: 0 <= i < |sim.procs| && i != levels[0][0] ==> r.procs[i] == sim.procs[i]
    requires r.procs[levels[0][0]].p == sim.procs[levels[0][0]].p
    ensures var cur := levels[0][0];
      var popped := levels[0 := levels[0][1..]];
      LevelsOk(r.procs, r.time, if r.procs[cur].remainingBurst > 0 then Demote(popped, 0, cur) else popped)
  {
    var cur := levels[0][0];
    ReadyAfterRun(sim.procs, sim.time, levels[0], r.procs, r.time);
    LowerLevelsAfterRun(sim.procs, sim.time, levels, r.procs, r.time);
    var popped := levels[0 := levels[0][1..]];
    assert forall l :: 1 <= l < |levels| ==> popped[l] == levels[l];
    if r.procs[cur].remainingBurst > 0 && |levels| > 1 {
      var next := Demote(popped, 0, cur);
      assert next[1] == levels[1] + [cur];
      assert forall l :: 2 <= l < |levels| ==> next[l] == levels[l];
    }
  }

  /** A dispatch from level 0, whose head is ready: it runs at least one
      tick, and is demoted if it has work left. */
  lemma TopRunKeepsValid(ps: seq<Process>, quanta: seq<nat>, sim: Sim, levels: seq<seq<nat>>)
    requires Valid(ps, quanta, State(sim, levels)) && levels[0] != []
    ensures var cur := levels[0][0];
      var r := Execute(sim, cur, Min(quanta[0], sim.procs[cur].remainingBurst));
      var popped := levels[0 := levels[0][1..]];
      && Valid(ps, quanta, State(r, if r.procs[cur].remainingBurst > 0 then Demote(popped, 0, cur) else popped))
      && Backlog(r.procs) < Backlog(sim.procs)
  {
    var cur := levels[0][0];
    var e := Min(quanta[0], sim.procs[cur].remainingBurst);
    assert Eligible(sim.procs[cur], sim.time);
    ExecuteKeepsAccounting(ps, sim, cur, e);
    var r := Execute(sim, cur, e);
    ExecuteDispatched(sim, cur, e);
    TopRunLevels(sim, levels, r);
  }

  /** The head of a lower level while no process is eligible: it has
      arrived, so it has finished, and its completion time is set. */
  lemma StaleHead(ps: seq<Process>, sim: Sim, q: seq<nat>)
    requires Accounting(ps, sim) && Arrived(sim.procs, sim.time, q) && q != []
    requires forall i :: 0 <= i < |sim.procs| ==> !Eligible(sim.procs[i], sim.time)
    ensures sim.procs[q[0]].remainingBurst == 0 && sim.procs[q[0]].completionTime.Some?
    ensures sim.procs[q[0]].firstResponse.Some?
  {
    assert !Eligible(sim.procs[q[0]], sim.time);
    assert ProcOk(ps, sim, q[0]);
  }

  /** The levels after an empty slice of the head of a lower level: that
      entry leaves its level and nothing else changes. */
  lemma StaleRunLevels(sim: Sim, levels: seq<seq<nat>>, lv: nat, r: Sim)
    requires LevelsOk(sim.procs, sim.time, levels) && 0 < lv < |levels| && levels[lv] != [] && levels[0] == []
    requires sim.time == r.time && |r.procs| == |sim.procs|
    requires forall i :: 0 <= i < |sim.procs| ==> r.procs[i].p == sim.procs[i].p
    ensures LevelsOk(r.procs, r.time, levels[lv := levels[lv][1..]])
  {
    var popped := levels[lv := levels[lv][1..]];
    assert forall l :: 1 <= l < |levels| ==> Arrived(sim.procs, sim.time, popped[l]);
    LowerLevelsAfterRun(sim.procs, sim.time, popped, r.procs, r.time);
  }

  /** A dispatch from a lower level while no process is eligible: the entry
      is stale, so the slice is empty, and the entry leaves the levels. */
  lemma StaleRunKeepsValid(ps: seq<Process>, quanta: seq<nat>, sim: Sim, levels: seq<seq<nat>>, lv: nat)
    requires Valid(ps, quanta, State(sim, levels)) && 0 < lv < |levels| && levels[lv] != [] && levels[0] == []
    requires forall i :: 0 <= i < |sim.procs| ==> !Eligible(sim.procs[i], sim.time)
    ensures var cur := levels[lv][0];
      var r := Execute(sim, cur, Min(quanta[lv], sim.procs[cur].remainingBurst));
      && sim.procs[cur].remainingBurst == 0
      && r.procs[cur].remainingBurst == 0
      && Valid(ps, quanta, State(r, levels[lv := levels[lv][1..]]))
      && Backlog(r.procs) == Backlog(sim.procs) && Gap(r) == Gap(sim)
  {
    var cur := levels[lv][0];
    StaleHead(ps, sim, levels[lv]);
    ExecuteKeepsAccounting(ps, sim, cur, 0);
    var r := Execute(sim, cur, 0);
    ExecuteDispatched(sim, cur, 0);
    StaleRunLevels(sim, levels, lv, r);
    LatestArrivalKept(sim.procs, r.procs);
  }

  /** The dispatch half of an iteration, from level 0. */
  lemma TopDispatchKeepsValid(ps: seq<Process>, quanta: seq<nat>, s: State)
    requires Valid(ps, quanta, s) && FirstNonEmpty(Admitted(s)) == 0
    ensures Valid(ps, quanta, Step(quanta, s)) && Backlog(Step(quanta, s).sim.procs) < Backlog(s.sim.procs)
  {
    var levels := Admitted(s);
    StepUnfold(quanta, s, levels, 0);
    AdmittedValid(ps, quanta, s);
    TopRunKeepsValid(ps, quanta, s.sim, levels);
  }

  /** The dispatch half of an iteration, from a lower level: level 0 is
      empty after admission, so no process is eligible. */
  lemma StaleDispatchKeepsValid(ps: seq<Process>, quanta: seq<nat>, s: State)
    requires Valid(ps, quanta, s) && 0 < FirstNonEmpty(Admitted(s)) < |s.levels|
    ensures Valid(ps, quanta, Step(quanta, s)) && Progress(s, Step(quanta, s))
  {
    var levels := Admitted(s);
    var lv := FirstNonEmpty(levels);
    StepUnfold(quanta, s, levels, lv);
    AdmittedTop(ps, quanta, s);
    assert levels[0] == [] && levels == s.levels;
    StaleRunKeepsValid(ps, quanta, s.sim, levels, lv);
    SizeUpdate(levels, lv, levels[lv][1..]);
  }

  lemma StepKeepsValid(ps: seq<Process>, quanta: seq<nat>, s: State)
    requires Valid(ps, quanta, s) && Pending(s.sim.procs)
    ensures Valid(ps, quanta, Step(quanta, s)) && Progress(s, Step(quanta, s))
  {
    var lv := FirstNonEmpty(Admitted(s));
    if lv == |s.levels| {
      IdleKeepsValid(ps, quanta, s);
    } else if lv == 0 {
      TopDispatchKeepsValid(ps, quanta, s);
    } else {
      StaleDispatchKeepsValid(ps, quanta, s);
    }
  }

  /** The whole `while` loop, from state `s` until no process is pending. */
  function Run(ps: seq<Process>, quanta: seq<nat>, s: State): (r: State)
    requires Valid(ps, quanta, s)
    ensures |r.sim.procs| == |s.sim.procs|
    decreases Backlog(s.sim.procs), Gap(s.sim), Size(s.levels)
  {
    if !Pending(s.sim.procs) then s
    else
      StepKeepsValid(ps, quanta, s);
      Run(ps, quanta, Step(quanta, s))
  }

  /** The loop ends in a state that keeps the invariant and in which no
      process has work left. */
  lemma {:induction false} RunFinishes(ps: seq<Process>, quanta: seq<nat>, s: State)
    requires Valid(ps, quanta, s)
    ensures Valid(ps, quanta, Run(ps, quanta, s)) && !Pending(Run(ps, quanta, s).sim.procs)
    decreases Backlog(s.sim.procs), Gap(s.sim), Size(s.levels)
  {
    if Pending(s.sim.procs) {
      StepKeepsValid(ps, quanta, s);
      RunFinishes(ps, quanta, Step(quanta, s));
    }
  }

  /** The state before the first iteration: every level empty. */
  function Initial(ps: seq<Process>, quanta: seq<nat>): (s: State)
    requires ValidInput(ps) && Quanta(quanta)
    ensures Valid(ps, quanta, s)
  {
    State(Start(ps), seq(|quanta|, _ => []))
  }

  /** What `mlfq(processes, queues)` returns. */
  function MlfqSpec(ps: seq<Process>, quanta: seq<nat>): Outcome
    requires ValidInput(ps) && Quanta(quanta)
  {
    var r := Run(ps, quanta, Initial(ps, quanta));
    RunFinishes(ps, quanta, Initial(ps, quanta));
    ReportFinished(ps, r.sim, None);
    Report(r.sim, None)
  }

  /** The properties of an MLFQ result: the facts of `ReportFinished` (every
      process's slices add up to its burst, turnaround at least burst,
      response not negative, ordered Gantt chart, throughput over the end of
      the last slice, NaN waiting time) and no `quantum` field. */
  lemma MlfqResult(ps: seq<Process>, quanta: seq<nat>)
    requires ValidInput(ps) && Quanta(quanta)
    ensures var o := MlfqSpec(ps, quanta);
      && |o.processes| == |ps|
      && (forall i :: 0 <= i < |ps| ==>
            && o.processes[i].turnaroundTime >= ps[i].burst
            && o.processes[i].responseTime >= 0
            && FirstStart(o.ganttData, i).Some? && LastEnd(o.ganttData, i).Some?
            && o.processes[i].responseTime == FirstStart(o.ganttData, i).value - ps[i].arrival
            && o.processes[i].turnaroundTime == LastEnd(o.ganttData, i).value - ps[i].arrival
            && Work(o.ganttData, i) == ps[i].burst
            && o.processes[i].waitingTime == None)
      && Ordered(o.ganttData)
      && o.metrics.contextSwitches == |o.ganttData|
      && o.ganttData != []
      && o.ganttData[|o.ganttData| - 1].end > 0
      && o.metrics.throughput == |ps| as real / o.ganttData[|o.ganttData| - 1].end as real
      && o.metrics.avgWaitingTime == None
      && o.metrics.avgTurnaroundTime == TotalTurnaround(o.processes) as real / |ps| as real
      && o.metrics.avgResponseTime == TotalResponse(o.processes) as real / |ps| as real
      && o.quantum == None
  {
    var r := Run(ps, quanta, Initial(ps, quanta));
    RunFinishes(ps, quanta, Initial(ps, quanta));
    ReportFinished(ps, r.sim, None);
    assert MlfqSpec(ps, quanta) == Report(r.sim, None);
  }

  /** When every level is empty after the admission pass, the iteration only
      advances the clock by one: no slice, no change to any process. */
  lemma IdleIteration(quanta: seq<nat>, s: State)
    requires |s.levels| == |quanta| > 0 && AllIndexes(s.sim.procs, s.levels)
    requires forall l :: 0 <= l < |s.levels| ==> Admitted(s)[l] == []
    ensures Step(quanta, s) == State(s.sim.(time := s.sim.time + 1), Admitted(s))
  {
    StepUnfold(quanta, s, Admitted(s), FirstNonEmpty(Admitted(s)));
  }

  /** A dispatch takes the head of the first non-empty level after the
      admission pass and runs it from the current time for the smaller of
      that level's quantum and its remaining burst. If work is left it goes
      to the tail of the next level down, or of its own level if that is the
      last one; otherwise the current time becomes its completion time. */
  lemma Dispatch(quanta: seq<nat>, s: State, lv: nat)
    requires |s.levels| == |quanta| > 0 && AllIndexes(s.sim.procs, s.levels)
    requires lv < |s.levels| && Admitted(s)[lv] != [] && forall k :: 0 <= k < lv ==> Admitted(s)[k] == []
    ensures var levels := Admitted(s);
      var cur := levels[lv][0];
      var rp := s.sim.procs[cur];
      var e := Min(quanta[lv], rp.remainingBurst);
      var r := Step(quanta, s);
      var target := if lv < |levels| - 1 then lv + 1 else lv;
      && e <= quanta[lv] && (e == quanta[lv] || e == rp.remainingBurst)
      && r.sim.time == s.sim.time + e
      && r.sim.gantt == s.sim.gantt + [Slice(cur, rp.p.pid, s.sim.time, s.sim.time + e)]
      && r.sim.procs[cur].remainingBurst == rp.remainingBurst - e
      && (r.sim.procs[cur].remainingBurst > 0 ==>
            && r.levels[target] == (if target == lv then levels[lv][1..] else levels[target]) + [cur]
            && r.levels[lv] == (if target == lv then levels[lv][1..] + [cur] else levels[lv][1..]))
      && (r.sim.procs[cur].remainingBurst == 0 ==>
            && r.sim.procs[cur].completionTime == Some(r.sim.time)
            && r.levels == levels[lv := levels[lv][1..]])
    ensures var levels := Admitted(s);
      var cur := levels[lv][0];
      Dispatched(s.sim, cur, Min(quanta[lv], s.sim.procs[cur].remainingBurst), Step(quanta, s).sim)
    ensures var levels := Admitted(s);
      var r := Step(quanta, s);
      var target := if lv < |levels| - 1 then lv + 1 else lv;
      forall l :: 0 <= l < |levels| && l != lv && l != target ==> r.levels[l] == levels[l]
  {
    var levels := Admitted(s);
    var cur := levels[lv][0];
    var e := Min(quanta[lv], s.sim.procs[cur].remainingBurst);
    ExecuteSlice(s.sim, cur, e);
    DemoteAfterPop(levels, lv, cur);
    DispatchStep(quanta, s, lv);
  }

  /** `Step` for an iteration whose level scan stops at a non-empty level. */
  lemma DispatchStep(quanta: seq<nat>, s: State, lv: nat)
    requires |s.levels| == |quanta| > 0 && AllIndexes(s.sim.procs, s.levels)
    requires lv < |s.levels| && Admitted(s)[lv] != [] && forall k :: 0 <= k < lv ==> Admitted(s)[k] == []
    ensures var levels := Admitted(s);
      var cur := levels[lv][0];
      var sim := Execute(s.sim, cur, Min(quanta[lv], s.sim.procs[cur].remainingBurst));
      var popped := levels[lv := levels[lv][1..]];
      Step(quanta, s) == State(sim, if sim.procs[cur].remainingBurst > 0 then Demote(popped, lv, cur) else popped)
  {
    StepUnfold(quanta, s, Admitted(s), lv);
  }

  lemma DemoteAfterPop(levels: seq<seq<nat>>, lv: nat, cur: nat)
    requires lv < |levels| && levels[lv] != []
    ensures var d := Demote(levels[lv := levels[lv][1..]], lv, cur);
      var target := if lv < |levels| - 1 then lv + 1 else lv;
      && d[target] == (if target == lv then levels[lv][1..] else levels[target]) + [cur]
      && d[lv] == (if target == lv then levels[lv][1..] + [cur] else levels[lv][1..])
      && |d| == |levels|
      && forall l :: 0 <= l < |levels| && l != lv && l != target ==> d[l] == levels[l]
  {
  }

  /** What admitting to level 0 only leads to: a process popped from a lower
      level has always finished already. Its slice is empty, nothing else
      changes, and its completion time, which was set, is overwritten with
      the current time. */
  lemma StalePop(ps: seq<Process>, quanta: seq<nat>, s: State, lv: nat)
    requires Valid(ps, quanta, s) && 0 < lv < |s.levels|
    requires Admitted(s)[lv] != [] && forall k :: 0 <= k < lv ==> Admitted(s)[k] == []
    ensures var cur := Admitted(s)[lv][0];
      var rp := s.sim.procs[cur];
      var r := Step(quanta, s);
      && rp.remainingBurst == 0 && rp.completionTime.Some?
      && r.sim.time == s.sim.time
      && r.sim.gantt == s.sim.gantt + [Slice(cur, ps[cur].pid, s.sim.time, s.sim.time)]
      && r.sim.procs == s.sim.procs[cur := rp.(completionTime := Some(s.sim.time))]
      && r.levels == s.levels[lv := s.levels[lv][1..]]
  {
    var levels := Admitted(s);
    var cur := levels[lv][0];
    AdmittedTop(ps, quanta, s);
    assert levels[0] == [] && levels == s.levels;
    StaleHead(ps, s.sim, levels[lv]);
    StepUnfold(quanta, s, levels, lv);
    ExecuteDispatched(s.sim, cur, 0);
    StaleExecute(s.sim, cur);
  }

  /** An empty slice of a finished process only resets its completion time
      to the current time and appends the empty slice. */
  lemma StaleExecute(sim: Sim, cur: nat)
    requires cur < |sim.procs| && sim.procs[cur].remainingBurst == 0 && sim.procs[cur].firstResponse.Some?
    ensures var rp := sim.procs[cur];
      Execute(sim, cur, 0)
        == Sim(sim.time, sim.procs[cur := rp.(completionTime := Some(sim.time))],
               sim.gantt + [Slice(cur, rp.p.pid, sim.time, sim.time)])
  {
  }

  /** One iteration of the loop keeps its invariant, leaves the rest of the
      run unchanged and decreases the loop's measure. */
  lemma Iteration(ps: seq<Process>, quanta: seq<nat>, s: State)
    requires Valid(ps, quanta, s) && Pending(s.sim.procs)
    ensures var r := Step(quanta, s);
      && Valid(ps, quanta, r)
      && Run(ps, quanta, r) == Run(ps, quanta, s)
      && Progress(s, r)
  {
    StepKeepsValid(ps, quanta, s);
  }

  /** A state the loop leaves with nothing pending is the end of the whole
      run, and its report is what `mlfq` returns. */
  lemma FinalReport(ps: seq<Process>, quanta: seq<nat>, s: State)
    requires ValidInput(ps) && Quanta(quanta)
    requires Valid(ps, quanta, s) && !Pending(s.sim.procs)
    requires Run(ps, quanta, s) == Run(ps, quanta, Initial(ps, quanta))
    ensures |s.sim.procs| > 0 && s.sim.time > 0 && forall i :: 0 <= i < |s.sim.procs| ==> Settled(s.sim.procs[i])
    ensures Report(s.sim, None) == MlfqSpec(ps, quanta)
  {
    ReportFinished(ps, s.sim, None);
  }

  /** The level scan `for (i ...) if (queueLevels[i].queue.length > 0) {...; break; }`:
      the first non-empty level, or the number of levels if there is none. */
  method SelectLevel(levels: seq<seq<nat>>) returns (level: nat)
    ensures level == FirstNonEmpty(levels)
  {
    level := |levels|;
    for i := 0 to |levels|
      invariant level == |levels|
      invariant forall k :: 0 <= k < i ==> levels[k] == []
    {
      if levels[i] != [] {
        level := i;
        break;
      }
    }
  }

  /** The dispatch half of an iteration: shift the head off level `lv`, run
      it for `min(quantum, remainingBurst)`, then push it one level down (or
      back on the last level) if it has work left, or record its completion
      time. */
  method RunHead(remaining: array<RuntimeProcess>, quanta: seq<nat>, levels: seq<seq<nat>>, lv: nat,
                 currentTime: nat, ganttData: seq<Slice>, ghost sim0: Sim)
    returns (levels': seq<seq<nat>>, time: nat, gantt: seq<Slice>)
    requires lv < |levels| == |quanta| && levels[lv] != [] && levels[lv][0] < remaining.Length
    requires sim0 == Sim(currentTime, remaining[..], ganttData)
    modifies remaining
    ensures var cur := levels[lv][0];
      var sim := Execute(sim0, cur, Min(quanta[lv], sim0.procs[cur].remainingBurst));
      var popped := levels[lv := levels[lv][1..]];
      && Sim(time, remaining[..], gantt) == sim
      && levels' == if sim.procs[cur].remainingBurst > 0 then Demote(popped, lv, cur) else popped
  {
    var current := levels[lv][0];
    levels' := levels[lv := levels[lv][1..]];
    var quantum := quanta[lv];
    var execTime := Min(quantum, remaining[current].remainingBurst);
    time, gantt := RunSlice(remaining, current, execTime, currentTime, ganttData);
    ghost var ran := RunFor(sim0, current, execTime);
    if remaining[current].remainingBurst > 0 {
      if lv < |levels'| - 1 {
        levels' := levels'[lv + 1 := levels'[lv + 1] + [current]];
      } else {
        levels' := levels'[lv := levels'[lv] + [current]];
      }
    } else {
      remaining[current] := remaining[current].(completionTime := Some(time));
      assert remaining[..] == ran.procs[current := ran.procs[current].(completionTime := Some(ran.time))];
    }
  }

  /** One pass of the `while` loop's body: the admission pass into level 0,
      the level scan, then an idle tick or a dispatch. */
  method Iterate(remaining: array<RuntimeProcess>, quanta: seq<nat>, levels: seq<seq<nat>>,
                 currentTime: nat, ganttData: seq<Slice>, ghost s: State)
    returns (levels': seq<seq<nat>>, time: nat, gantt: seq<Slice>)
    requires s == State(Sim(currentTime, remaining[..], ganttData), levels)
    requires |levels| == |quanta| > 0 && AllIndexes(remaining[..], levels)
    modifies remaining
    ensures State(Sim(time, remaining[..], gantt), levels') == Step(quanta, s)
  {
    var top := AdmissionPass(remaining, currentTime, levels[0]);
    levels' := levels[0 := top];
    assert levels' == Admitted(s);
    var currentLevel := SelectLevel(levels');
    StepUnfold(quanta, s, levels', currentLevel);
    if currentLevel == |levels'| {
      time, gantt := currentTime + 1, ganttData;
      return;
    }
    levels', time, gantt := RunHead(remaining, quanta, levels', currentLevel, currentTime, ganttData, s.sim);
  }

  /** `mlfq(processes, queues)`: the simulation loop over runtime copies held
      in an array, updated in place, and one queue per level. */
  method Mlfq(processes: seq<Process>, queues: seq<nat>) returns (result: Outcome)
    requires ValidInput(processes) && Quanta(queues)
    ensures result == MlfqSpec(processes, queues)
  {
    var ganttData: seq<Slice> := [];
    var currentTime: nat := 0;
    var queueLevels: seq<seq<nat>> := seq(|queues|, _ => []);
    var allProcesses := new RuntimeProcess[|processes|](
      i requires 0 <= i < |processes| => RuntimeProcess(processes[i], processes[i].burst, None, None));
    ghost var start := Initial(processes, queues);
    assert allProcesses[..] == start.sim.procs;
    ghost var st := start;

    while Pending(allProcesses[..])
      invariant st == State(Sim(currentTime, allProcesses[..], ganttData), queueLevels)
      invariant Valid(processes, queues, st) && Run(processes, queues, st) == Run(processes, queues, start)
      decreases Backlog(st.sim.procs), Gap(st.sim), Size(st.levels)
    {
      Iteration(processes, queues, st);
      queueLevels, currentTime, ganttData := Iterate(allProcesses, queues, queueLevels, currentTime, ganttData, st);
      st := Step(queues, st);
    }

    FinalReport(processes, queues, st);
    result := Report(Sim(currentTime, allProcesses[..], ganttData), None);
  }

  /** A round robin state as an MLFQ state: its queue is the only level. */
  function OneLevel(s: RoundRobin.State): State {
    State(s.sim, [s.queue])
  }

  /** With one level, an MLFQ iteration is a round robin iteration. */
  lemma StepOneLevel(quantum: nat, s: RoundRobin.State)
    requires Indexes(s.sim.procs, s.queue)
    ensures Step([quantum], OneLevel(s)) == OneLevel(RoundRobin.Step(quantum, s))
  {
    var m := OneLevel(s);
    var levels := Admitted(m);
    var q := Admit(s.sim.procs, s.sim.time, s.queue);
    assert levels == [q];
    RoundRobin.StepUnfold(quantum, s, q);
    StepUnfold([quantum], m, levels, FirstNonEmpty(levels));
  }

  lemma {:induction false} RunOneLevel(ps: seq<Process>, quantum: nat, s: RoundRobin.State)
    requires RoundRobin.Valid(ps, quantum, s)
    ensures Valid(ps, [quantum], OneLevel(s))
    ensures Run(ps, [quantum], OneLevel(s)) == OneLevel(RoundRobin.Run(ps, quantum, s))
    decreases Backlog(s.sim.procs), Gap(s.sim)
  {
    if Pending(s.sim.procs) {
      RoundRobin.StepKeepsValid(ps, quantum, s);
      StepOneLevel(quantum, s);
      RunOneLevel(ps, quantum, RoundRobin.Step(quantum, s));
    }
  }

  /** With a single level, `mlfq` returns what `roundRobin` returns with
      that level's quantum, apart from the `quantum` field round robin adds. */
  lemma SingleLevelIsRoundRobin(ps: seq<Process>, quantum: nat)
    requires ValidInput(ps) && quantum >= 1
    ensures MlfqSpec(ps, [quantum]) == RoundRobin.RoundRobinSpec(ps, quantum).(quantum := None)
  {
    assert Initial(ps, [quantum]) == OneLevel(RoundRobin.Initial(ps));
    RunOneLevel(ps, quantum, RoundRobin.Initial(ps));
  }
}
