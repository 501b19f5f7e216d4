/// Round robin: one FIFO ready queue, slices of `min(remaining, quantum)`,
/// a preempted process re-queued at the tail straight away.
module RoundRobin {
  import opened Scheduling
  import opened Admission
  import opened Results

  /** The simulator's state between iterations: clock, runtime copies and
      Gantt data, plus the ready queue of process indices. */
  datatype State = State(sim: Sim, queue: seq<nat>)

  /** Every slice ran at least one tick and at most one quantum. */
  ghost predicate SlicesWithin(g: seq<Slice>, quantum: nat) {
    forall k :: 0 <= k < |g| ==> 0 < g[k].end - g[k].start <= quantum
  }

  /** The invariant of the simulation loop. */
  ghost predicate Valid(ps: seq<Process>, quantum: nat, s: State) {
    ValidInput(ps) && quantum >= 1
    && Accounting(ps, s.sim)
    && ReadyOk(s.sim.procs, s.sim.time, s.queue)
    && SlicesWithin(s.sim.gantt, quantum)
  }

  /** One iteration of the `while` loop: admission, then either an idle tick
      or one slice of the queue's head, which goes back to the tail if it
      still has work. */
  function Step(quantum: nat, s: State): (r: State)
    requires Indexes(s.sim.procs, s.queue)
    ensures |r.sim.procs| == |s.sim.procs| && Indexes(r.sim.procs, r.queue)
  {
    var q := Admit(s.sim.procs, s.sim.time, s.queue);
    if q == [] then State(Idle(s.sim), q)
    else
      var cur := q[0];
      var sim := Execute(s.sim, cur, Min(s.sim.procs[cur].remainingBurst, quantum));
      State(sim, if sim.procs[cur].remainingBurst > 0 then q[1..] + [cur] else q[1..])
  }

  /** `Step` unfolded for an iteration whose admission pass leaves the queue
      `q`. */
  lemma StepUnfold(quantum: nat, s: State, q: seq<nat>)
    requires Indexes(s.sim.procs, s.queue) && q == Admit(s.sim.procs, s.sim.time, s.queue)
    ensures q == [] ==> Step(quantum, s) == State(Idle(s.sim), [])
    ensures q != [] ==>
      var e := Min(s.sim.procs[q[0]].remainingBurst, quantum);
      var sim := Execute(s.sim, q[0], e);
      Step(quantum, s) == State(sim, if sim.procs[q[0]].remainingBurst > 0 then q[1..] + [q[0]] else q[1..])
  {
  }

  /** The loop keeps its invariant, and each iteration either shrinks the
      total remaining burst or, leaving it alone, brings the clock closer to
      the last arrival. */
  lemma StepKeepsValid(ps: seq<Process>, quantum: nat, s: State)
    requires Valid(ps, quantum, s) && Pending(s.sim.procs)
    ensures Valid(ps, quantum, Step(quantum, s))
    ensures var r := Step(quantum, s);
      Backlog(r.sim.procs) < Backlog(s.sim.procs)
      || (Backlog(r.sim.procs) == Backlog(s.sim.procs) && Gap(r.sim) < Gap(s.sim))
  {
    if Admit(s.sim.procs, s.sim.time, s.queue) == [] {
      IdleKeepsValid(ps, quantum, s);
    } else {
      DispatchKeepsValid(ps, quantum, s);
    }
  }

  /** The idle half of `StepKeepsValid`: no process is eligible, so the
      pending ones arrive later and the clock moves towards them. */
  lemma IdleKeepsValid(ps: seq<Process>, quantum: nat, s: State)
    requires Valid(ps, quantum, s) && Pending(s.sim.procs)
    requires Admit(s.sim.procs, s.sim.time, s.queue) == []
    ensures Step(quantum, s) == State(Idle(s.sim), [])
    ensures Valid(ps, quantum, Step(quantum, s)) && Gap(Idle(s.sim)) < Gap(s.sim)
  {
    var procs := s.sim.procs;
    StepUnfold(quantum, s, []);
    var i :| 0 <= i < |procs| && procs[i].remainingBurst > 0;
    assert i !in Admit(procs, s.sim.time, s.queue);
    IdleNarrowsGap(s.sim, i);
    IdleKeepsAccounting(ps, s.sim);
  }

  /** The dispatch half of `StepKeepsValid`: the head of the queue runs and
      the total remaining burst shrinks. */
  lemma DispatchKeepsValid(ps: seq<Process>, quantum: nat, s: State)
    requires Valid(ps, quantum, s)
    requires Admit(s.sim.procs, s.sim.time, s.queue) != []
    ensures Valid(ps, quantum, Step(quantum, s)) && Backlog(Step(quantum, s).sim.procs) < Backlog(s.sim.procs)
  {
    AdmitReady(s.sim.procs, s.sim.time, s.queue);
    var q := Admit(s.sim.procs, s.sim.time, s.queue);
    HeadRunKeepsValid(ps, quantum, s.sim, q);
  }

  /** Running the head of a ready queue for `min(remaining, quantum)` and
      re-queueing it at the tail if it has work left keeps the invariant. */
  lemma HeadRunKeepsValid(ps: seq<Process>, quantum: nat, sim: Sim, q: seq<nat>)
    requires Valid(ps, quantum, State(sim, q)) && q != []
    ensures var cur := q[0];
      var r := Execute(sim, cur, Min(sim.procs[cur].remainingBurst, quantum));
      && Valid(ps, quantum, State(r, if r.procs[cur].remainingBurst > 0 then q[1..] + [cur] else q[1..]))
      && Backlog(r.procs) < Backlog(sim.procs)
  {
    var cur := q[0];
    var e := Min(sim.procs[cur].remainingBurst, quantum);
    ExecuteKeepsAccounting(ps, sim, cur, e);
    var r := Execute(sim, cur, e);
    ExecuteDispatched(sim, cur, e);
    SliceWithinQuantum(sim.gantt, r.gantt, quantum, e);
    ReadyAfterRun(sim.procs, sim.time, q, r.procs, r.time);
  }

  lemma SliceWithinQuantum(g: seq<Slice>, g': seq<Slice>, quantum: nat, e: nat)
    requires SlicesWithin(g, quantum) && 0 < e <= quantum
    requires |g'| == |g| + 1 && g'[..|g|] == g && g'[|g|].end - g'[|g|].start == e
    ensures SlicesWithin(g', quantum)
  {
    assert forall k :: 0 <= k < |g| ==> g'[k] == g[k];
  }

  /** The whole `while` loop, from state `s` until no process is pending. */
  function Run(ps: seq<Process>, quantum: nat, s: State): (r: State)
    requires Valid(ps, quantum, s)
    ensures |r.sim.procs| == |s.sim.procs|
    decreases Backlog(s.sim.procs), Gap(s.sim)
  {
    if !Pending(s.sim.procs) then s
    else
      StepKeepsValid(ps, quantum, s);
      Run(ps, quantum, Step(quantum, s))
  }

  /** The loop ends in a state that keeps the invariant and in which no
      process has work left. */
  lemma {:induction false} RunFinishes(ps: seq<Process>, quantum: nat, s: State)
    requires Valid(ps, quantum, s)
    ensures Valid(ps, quantum, Run(ps, quantum, s)) && !Pending(Run(ps, quantum, s).sim.procs)
    decreases Backlog(s.sim.procs), Gap(s.sim)
  {
    if Pending(s.sim.procs) {
      StepKeepsValid(ps, quantum, s);
      RunFinishes(ps, quantum, Step(quantum, s));
    }
  }

  /** The state before the first iteration. */
  function Initial(ps: seq<Process>): State
    requires ValidInput(ps)
  {
    State(Start(ps), [])
  }

  /** What `roundRobin(processes, quantum)` returns. */
  function RoundRobinSpec(ps: seq<Process>, quantum: nat): Outcome
    requires ValidInput(ps) && quantum >= 1
  {
    var r := Run(ps, quantum, Initial(ps));
    RunFinishes(ps, quantum, Initial(ps));
    ReportFinished(ps, r.sim, Some(quantum));
    Report(r.sim, Some(quantum))
  }

  /** The properties of a round robin result: the facts of `ReportFinished`
      (every process's slices add up to its burst, turnaround at least burst,
      response not negative, ordered Gantt chart, throughput over the end of
      the last slice, NaN waiting time) and every slice between 1 tick and one
      quantum. */
  lemma RoundRobinResult(ps: seq<Process>, quantum: nat)
    requires ValidInput(ps) && quantum >= 1
    ensures var o := RoundRobinSpec(ps, quantum);
      && |o.processes| == |ps|
      && (forall i :: 0 <= i < |ps| ==>
            && o.processes[i].turnaroundTime >= ps[i].burst
            && o.processes[i].responseTime >= 0
            && FirstStart(o.ganttData, i).Some? && LastEnd(o.ganttData, i).Some?
            && o.processes[i].responseTime == FirstStart(o.ganttData, i).value - ps[i].arrival
            && o.processes[i].turnaroundTime == LastEnd(o.ganttData, i).value - ps[i].arrival
            && Work(o.ganttData, i) == ps[i].burst
            && o.processes[i].waitingTime == None)
      && Ordered(o.ganttData)
      && SlicesWithin(o.ganttData, quantum)
      && o.metrics.contextSwitches == |o.ganttData|
      && o.ganttData != []
      && o.ganttData[|o.ganttData| - 1].end > 0
      && o.metrics.throughput == |ps| as real / o.ganttData[|o.ganttData| - 1].end as real
      && o.metrics.avgWaitingTime == None
      && o.metrics.avgTurnaroundTime == TotalTurnaround(o.processes) as real / |ps| as real
      && o.metrics.avgResponseTime == TotalResponse(o.processes) as real / |ps| as real
      && o.quantum == Some(quantum)
  {
    var r := Run(ps, quantum, Initial(ps));
    RunFinishes(ps, quantum, Initial(ps));
    ReportFinished(ps, r.sim, Some(quantum));
    var o := Report(r.sim, Some(quantum));
    assert SlicesWithin(o.ganttData, quantum);
    assert RoundRobinSpec(ps, quantum) == o;
  }

  /** An iteration whose admission pass leaves the queue empty (by
      `AdmitEmpty`, exactly when no process has arrived with work left)
      advances the clock by one and changes nothing else. */
  lemma IdleIteration(quantum: nat, s: State)
    requires Indexes(s.sim.procs, s.queue) && Admit(s.sim.procs, s.sim.time, s.queue) == []
    ensures Step(quantum, s) == State(s.sim.(time := s.sim.time + 1), [])
  {
    StepUnfold(quantum, s, []);
  }

  /** A dispatch takes the head of the queue after the admission pass and
      runs it from the current time for the smaller of its remaining burst
      and the quantum. With work left it goes back to the tail of the queue;
      otherwise the current time becomes its completion time. */
  lemma Dispatch(quantum: nat, s: State, q: seq<nat>)
    requires Indexes(s.sim.procs, s.queue) && q == Admit(s.sim.procs, s.sim.time, s.queue) && q != []
    ensures Min(s.sim.procs[q[0]].remainingBurst, quantum) <= quantum
    ensures var e := Min(s.sim.procs[q[0]].remainingBurst, quantum);
      e == quantum || e == s.sim.procs[q[0]].remainingBurst
    ensures var e := Min(s.sim.procs[q[0]].remainingBurst, quantum);
      Step(quantum, s).sim.time == s.sim.time + e
    ensures var e := Min(s.sim.procs[q[0]].remainingBurst, quantum);
      Step(quantum, s).sim.gantt == s.sim.gantt + [Slice(q[0], s.sim.procs[q[0]].p.pid, s.sim.time, s.sim.time + e)]
    ensures var e := Min(s.sim.procs[q[0]].remainingBurst, quantum);
      Step(quantum, s).sim.procs[q[0]].remainingBurst == s.sim.procs[q[0]].remainingBurst - e
    ensures var r := Step(quantum, s);
      r.sim.procs[q[0]].remainingBurst > 0 ==> r.queue == q[1..] + [q[0]]
    ensures var r := Step(quantum, s);
      r.sim.procs[q[0]].remainingBurst == 0 ==> r.sim.procs[q[0]].completionTime == Some(r.sim.time) && r.queue == q[1..]
    ensures Dispatched(s.sim, q[0], Min(s.sim.procs[q[0]].remainingBurst, quantum), Step(quantum, s).sim)
  {
    var cur := q[0];
    var e := Min(s.sim.procs[cur].remainingBurst, quantum);
    ExecuteSlice(s.sim, cur, e);
    var sim := Execute(s.sim, cur, e);
    assert sim.gantt == s.sim.gantt + [Slice(cur, s.sim.procs[cur].p.pid, s.sim.time, s.sim.time + e)];
    HeadStep(quantum, s, q);
    assert Step(quantum, s).sim == sim;
  }

  /** `Step` for an iteration whose admission pass leaves a non-empty queue. */
  lemma HeadStep(quantum: nat, s: State, q: seq<nat>)
    requires Indexes(s.sim.procs, s.queue) && q == Admit(s.sim.procs, s.sim.time, s.queue) && q != []
    ensures var sim := Execute(s.sim, q[0], Min(s.sim.procs[q[0]].remainingBurst, quantum));
      Step(quantum, s) == State(sim, if sim.procs[q[0]].remainingBurst > 0 then q[1..] + [q[0]] else q[1..])
  {
    StepUnfold(quantum, s, q);
  }

  /** A preempted process goes to the tail of the queue before the next
      admission pass, so it is ahead of every process that pass appends. */
  lemma PreemptedAheadOfArrivals(ps: seq<Process>, quantum: nat, s: State)
    requires Valid(ps, quantum, s) && Pending(s.sim.procs)
    requires var q := Admit(s.sim.procs, s.sim.time, s.queue);
      q != [] && Step(quantum, s).sim.procs[q[0]].remainingBurst > 0
    ensures var cur := Admit(s.sim.procs, s.sim.time, s.queue)[0];
      var r := Step(quantum, s);
      var next := Admit(r.sim.procs, r.sim.time, r.queue);
      && r.queue != [] && r.queue[|r.queue| - 1] == cur
      && next[..|r.queue|] == r.queue
      && forall k :: |r.queue| <= k < |next| ==> next[k] != cur
  {
    StepKeepsValid(ps, quantum, s);
    var r := Step(quantum, s);
    AdmitReady(r.sim.procs, r.sim.time, r.queue);
    var next := Admit(r.sim.procs, r.sim.time, r.queue);
    forall k | |r.queue| <= k < |next| ensures next[k] != r.queue[|r.queue| - 1] {
      assert next[|r.queue| - 1] == r.queue[|r.queue| - 1];
    }
  }

  /** How many slices the Gantt chart `g` gives to process `i`. */
  function SliceCount(g: seq<Slice>, i: nat): nat {
    if g == [] then 0 else SliceCount(g[..|g| - 1], i) + (if g[|g| - 1].proc == i then 1 else 0)
  }

  /** With a quantum at least every burst, each process has either not run yet
      (its whole burst left) or run once and finished. */
  ghost predicate AtMostOnce(ps: seq<Process>, s: Sim)
    requires |s.procs| == |ps|
  {
    forall i :: 0 <= i < |ps| ==>
      (s.procs[i].remainingBurst == ps[i].burst && SliceCount(s.gantt, i) == 0)
      || (s.procs[i].remainingBurst == 0 && SliceCount(s.gantt, i) == 1)
  }

  /** A dispatch of a process that has not run yet, with a quantum at least
      its burst, runs it to completion in one slice. */
  lemma DispatchKeepsAtMostOnce(ps: seq<Process>, quantum: nat, sim: Sim, cur: nat)
    requires |sim.procs| == |ps| && AtMostOnce(ps, sim)
    requires cur < |ps| && sim.procs[cur].remainingBurst > 0 && ps[cur].burst <= quantum
    ensures var r := Execute(sim, cur, Min(sim.procs[cur].remainingBurst, quantum));
      |r.procs| == |ps| && AtMostOnce(ps, r)
  {
    var r := Execute(sim, cur, Min(sim.procs[cur].remainingBurst, quantum));
    assert r.gantt[..|r.gantt| - 1] == sim.gantt;
    forall i | 0 <= i < |ps|
      ensures SliceCount(r.gantt, i) == SliceCount(sim.gantt, i) + (if i == cur then 1 else 0)
    {
    }
  }

  lemma StepKeepsAtMostOnce(ps: seq<Process>, quantum: nat, s: State)
    requires Valid(ps, quantum, s) && Pending(s.sim.procs) && AtMostOnce(ps, s.sim)
    requires forall i :: 0 <= i < |ps| ==> ps[i].burst <= quantum
    ensures Valid(ps, quantum, Step(quantum, s)) && AtMostOnce(ps, Step(quantum, s).sim)
  {
    StepKeepsValid(ps, quantum, s);
    var procs, t := s.sim.procs, s.sim.time;
    var q := Admit(procs, t, s.queue);
    AdmitReady(procs, t, s.queue);
    StepUnfold(quantum, s, q);
    if q != [] {
      assert Eligible(procs[q[0]], t);
      DispatchKeepsAtMostOnce(ps, quantum, s.sim, q[0]);
    }
  }

  lemma {:induction false} RunKeepsAtMostOnce(ps: seq<Process>, quantum: nat, s: State)
    requires Valid(ps, quantum, s) && AtMostOnce(ps, s.sim)
    requires forall i :: 0 <= i < |ps| ==> ps[i].burst <= quantum
    ensures AtMostOnce(ps, Run(ps, quantum, s).sim)
    decreases Backlog(s.sim.procs), Gap(s.sim)
  {
    if Pending(s.sim.procs) {
      StepKeepsValid(ps, quantum, s);
      StepKeepsAtMostOnce(ps, quantum, s);
      RunKeepsAtMostOnce(ps, quantum, Step(quantum, s));
    }
  }

  /** With a quantum at least every burst, round robin is first-come
      first-served: every process gets exactly one slice, of its whole burst. */
  lemma LargeQuantumIsFcfs(ps: seq<Process>, quantum: nat)
    requires ValidInput(ps) && quantum >= 1
    requires forall i :: 0 <= i < |ps| ==> ps[i].burst <= quantum
    ensures var o := RoundRobinSpec(ps, quantum);
      forall i :: 0 <= i < |ps| ==> SliceCount(o.ganttData, i) == 1
  {
    var s := Initial(ps);
    assert AtMostOnce(ps, s.sim);
    RunKeepsAtMostOnce(ps, quantum, s);
    var r := Run(ps, quantum, s);
    RunFinishes(ps, quantum, s);
    assert forall i :: 0 <= i < |ps| ==> r.sim.procs[i].remainingBurst == 0;
  }

  /** One iteration of the loop keeps its invariant, leaves the rest of the
      run unchanged and decreases the loop's measure. */
  lemma Iteration(ps: seq<Process>, quantum: nat, s: State)
    requires Valid(ps, quantum, s) && Pending(s.sim.procs)
    ensures var r := Step(quantum, s);
      && Valid(ps, quantum, r)
      && Run(ps, quantum, r) == Run(ps, quantum, s)
      && (Backlog(r.sim.procs) < Backlog(s.sim.procs)
          || (Backlog(r.sim.procs) == Backlog(s.sim.procs) && Gap(r.sim) < Gap(s.sim)))
  {
    StepKeepsValid(ps, quantum, s);
  }

  /** A state the loop leaves with nothing pending is the end of the whole
      run, and its report is what `roundRobin` returns. */
  lemma FinalReport(ps: seq<Process>, quantum: nat, s: State)
    requires ValidInput(ps) && quantum >= 1
    requires Valid(ps, quantum, s) && !Pending(s.sim.procs)
    requires Run(ps, quantum, s) == Run(ps, quantum, Initial(ps))
    ensures |s.sim.procs| > 0 && s.sim.time > 0 && forall i :: 0 <= i < |s.sim.procs| ==> Settled(s.sim.procs[i])
    ensures Report(s.sim, Some(quantum)) == RoundRobinSpec(ps, quantum)
  {
    ReportFinished(ps, s.sim, Some(quantum));
  }

  /** The dispatch half of an iteration: shift the head off the queue, run
      it for `min(remainingBurst, quantum)`, then push it back if it has work
      left or record its completion time. */
  method RunHead(remaining: array<RuntimeProcess>, quantum: nat, queue: seq<nat>, currentTime: nat, ganttData: seq<Slice>, ghost sim0: Sim)
    returns (queue': seq<nat>, time: nat, gantt: seq<Slice>)
    requires queue != [] && queue[0] < remaining.Length
    requires sim0 == Sim(currentTime, remaining[..], ganttData)
    modifies remaining
    ensures var cur := queue[0];
      var sim := Execute(sim0, cur, Min(sim0.procs[cur].remainingBurst, quantum));
      && Sim(time, remaining[..], gantt) == sim
      && queue' == if sim.procs[cur].remainingBurst > 0 then queue[1..] + [cur] else queue[1..]
  {
    var current := queue[0];
    queue' := queue[1..];
    var execTime := Min(remaining[current].remainingBurst, quantum);
    time, gantt := RunSlice(remaining, current, execTime, currentTime, ganttData);
    ghost var ran := RunFor(sim0, current, execTime);
    if remaining[current].remainingBurst > 0 {
      queue' := queue' + [current];
    } else {
      remaining[current] := remaining[current].(completionTime := Some(time));
      assert remaining[..] == ran.procs[current := ran.procs[current].(completionTime := Some(ran.time))];
    }
  }

  /** One pass of the `while` loop's body: the admission pass, then an idle
      tick or a dispatch of the queue's head. */
  method Iterate(remaining: array<RuntimeProcess>, quantum: nat, queue: seq<nat>, currentTime: nat, ganttData: seq<Slice>, ghost s: State)
    returns (queue': seq<nat>, time: nat, gantt: seq<Slice>)
    requires s == State(Sim(currentTime, remaining[..], ganttData), queue)
    requires Indexes(remaining[..], queue)
    modifies remaining
    ensures State(Sim(time, remaining[..], gantt), queue') == Step(quantum, s)
  {
    queue' := AdmissionPass(remaining, currentTime, queue);
    StepUnfold(quantum, s, queue');
    if |queue'| == 0 {
      time, gantt := currentTime + 1, ganttData;
      return;
    }
    queue', time, gantt := RunHead(remaining, quantum, queue', currentTime, ganttData, s.sim);
  }

  /** `roundRobin(processes, quantum)`: the simulation loop over runtime
      copies held in an array, updated in place. */
  method RoundRobin(processes: seq<Process>, quantum: nat) returns (result: Outcome)
    requires ValidInput(processes) && quantum >= 1
    ensures result == RoundRobinSpec(processes, quantum)
  {
    var ganttData: seq<Slice> := [];
    var queue: seq<nat> := [];
    var currentTime: nat := 0;
    var remaining := new RuntimeProcess[|processes|](
      i requires 0 <= i < |processes| => RuntimeProcess(processes[i], processes[i].burst, None, None));
    ghost var start := Initial(processes);
    assert remaining[..] == start.sim.procs;
    ghost var st := start;

    while Pending(remaining[..])
      invariant st == State(Sim(currentTime, remaining[..], ganttData), queue)
      invariant Valid(processes, quantum, st) && Run(processes, quantum, st) == Run(processes, quantum, start)
      decreases Backlog(st.sim.procs), Gap(st.sim)
    {
      Iteration(processes, quantum, st);
      queue, currentTime, ganttData := Iterate(remaining, quantum, queue, currentTime, ganttData, st);
      st := Step(quantum, st);
    }

    FinalReport(processes, quantum, st);
    result := Report(Sim(currentTime, remaining[..], ganttData), Some(quantum));
  }
}
