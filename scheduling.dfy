/// Vocabulary shared by the three scheduling simulators: the input process
/// records, the runtime copies the simulators mutate, the Gantt timeline, one
/// dispatch of the CPU (`Execute`) and one idle tick (`Idle`), and the
/// bookkeeping invariant (`Accounting`) that every simulator step keeps.
module Scheduling {

  datatype Option<T> = None | Some(value: T)

  /** An input process. `priority` is read only by the preemptive priority
      policy; a lower value is more urgent. */
  datatype Process = Process(pid: string, arrival: nat, burst: nat, priority: int)

  /** The runtime copy `{...p, remainingBurst, firstResponse}` that a simulator
      mutates; `completionTime` is the field the simulator adds on completion
      (`None` while it is still undefined). */
  datatype RuntimeProcess =
    RuntimeProcess(p: Process, remainingBurst: nat, firstResponse: Option<nat>, completionTime: Option<nat>)

  /** A Gantt entry `{pid, start, end}`. `proc` is the position of the process
      in the input list: the simulators tell processes apart by identity, not
      by `pid`. */
  datatype Slice = Slice(proc: nat, pid: string, start: nat, end: nat)

  /** The clock, the runtime copies and the Gantt data of one simulation. */
  datatype Sim = Sim(time: nat, procs: seq<RuntimeProcess>, gantt: seq<Slice>)

  /** What the simulators need of their input to terminate and to produce
      numbers: at least one process, and every burst positive. */
  predicate ValidInput(ps: seq<Process>) {
    |ps| > 0 && forall i :: 0 <= i < |ps| ==> ps[i].burst > 0
  }

  function Min(a: nat, b: nat): (m: nat)
    ensures m <= a && m <= b && (m == a || m == b)
  {
    if a <= b then a else b
  }

  /** The state before the loop: one runtime copy per process, with its whole
      burst remaining and no first response or completion time yet, the clock
      at 0 and an empty Gantt chart. */
  function Start(ps: seq<Process>): (s: Sim)
    requires ValidInput(ps)
    ensures Accounting(ps, s) && Pending(s.procs)
    ensures s.time == 0 && s.gantt == []
    ensures forall i :: 0 <= i < |ps| ==> s.procs[i] == RuntimeProcess(ps[i], ps[i].burst, None, None)
  {
    var procs := seq(|ps|, i requires 0 <= i < |ps| => RuntimeProcess(ps[i], ps[i].burst, None, None));
    assert procs[0].remainingBurst > 0;
    Sim(0, procs, [])
  }

  /** The loop guard: some process still has work left. */
  predicate Pending(procs: seq<RuntimeProcess>) {
    exists i :: 0 <= i < |procs| && procs[i].remainingBurst > 0
  }

  /** The part of a dispatch every simulator writes alike: `cur` runs for
      `e` ticks from the current time. Its first response is recorded if
      unset, a slice is appended to the Gantt chart, its remaining burst drops
      by `e` and the clock advances by `e`. */
  function RunFor(s: Sim, cur: nat, e: nat): Sim
    requires cur < |s.procs| && e <= s.procs[cur].remainingBurst
  {
    var rp := s.procs[cur];
    var first := if rp.firstResponse.None? then Some(s.time) else rp.firstResponse;
    Sim(s.time + e,
        s.procs[cur := rp.(remainingBurst := rp.remainingBurst - e, firstResponse := first)],
        s.gantt + [Slice(cur, rp.p.pid, s.time, s.time + e)])
  }

  /** A whole dispatch: `RunFor`, then, if nothing remains, the completion
      time of `cur` becomes the new clock value. */
  function Execute(s: Sim, cur: nat, e: nat): (r: Sim)
    requires cur < |s.procs| && e <= s.procs[cur].remainingBurst
    ensures |r.procs| == |s.procs| && r.procs[cur].remainingBurst + e == s.procs[cur].remainingBurst
  {
    var r := RunFor(s, cur, e);
    if r.procs[cur].remainingBurst > 0 then r
    else r.(procs := r.procs[cur := r.procs[cur].(completionTime := Some(r.time))])
  }

  /** The lines of a dispatch every simulator writes alike, on the array of
      runtime copies: record the first response if unset, push the slice,
      take `execTime` off the remaining burst and advance the clock. The
      caller computes `execTime` first; recording the first response does
      not change the remaining burst it is computed from. */
  method RunSlice(remaining: array<RuntimeProcess>, current: nat, execTime: nat, currentTime: nat, ganttData: seq<Slice>)
    returns (time: nat, gantt: seq<Slice>)
    requires current < remaining.Length && execTime <= remaining[current].remainingBurst
    modifies remaining
    ensures Sim(time, remaining[..], gantt) == RunFor(Sim(currentTime, old(remaining[..]), ganttData), current, execTime)
  {
    if remaining[current].firstResponse.None? {
      remaining[current] := remaining[current].(firstResponse := Some(currentTime));
    }
    gantt := ganttData + [Slice(current, remaining[current].p.pid, currentTime, currentTime + execTime)];
    remaining[current] := remaining[current].(remainingBurst := remaining[current].remainingBurst - execTime);
    time := currentTime + execTime;
  }

  /** An idle iteration: `currentTime++` with nothing else changed. */
  function Idle(s: Sim): Sim {
    s.(time := s.time + 1)
  }

  /** The CPU time the Gantt chart `g` gives to process `i`. */
  function Work(g: seq<Slice>, i: nat): int {
    if g == [] then 0
    else Work(g[..|g| - 1], i) + (if g[|g| - 1].proc == i then g[|g| - 1].end - g[|g| - 1].start else 0)
  }

  /** The start of the first slice the chart `g` gives to process `i`, if any. */
  function FirstStart(g: seq<Slice>, i: nat): Option<nat> {
    if g == [] then None
    else
      var f := FirstStart(g[..|g| - 1], i);
      if f.None? && g[|g| - 1].proc == i then Some(g[|g| - 1].start) else f
  }

  /** The end of the last slice the chart `g` gives to process `i`, if any. */
  function LastEnd(g: seq<Slice>, i: nat): Option<nat> {
    if g == [] then None
    else if g[|g| - 1].proc == i then Some(g[|g| - 1].end)
    else LastEnd(g[..|g| - 1], i)
  }

  /** The total remaining burst: the first component of every simulator's
      termination measure. */
  function Backlog(procs: seq<RuntimeProcess>): nat {
    if procs == [] then 0 else procs[0].remainingBurst + Backlog(procs[1..])
  }

  /** The latest arrival time of all processes. */
  function LatestArrival(procs: seq<RuntimeProcess>): (m: nat)
    ensures forall i :: 0 <= i < |procs| ==> procs[i].p.arrival <= m
  {
    if procs == [] then 0
    else
      var rest := LatestArrival(procs[1..]);
      assert forall i :: 1 <= i < |procs| ==> procs[i] == procs[1..][i - 1];
      if procs[0].p.arrival <= rest then rest else procs[0].p.arrival
  }

  /** How many idle ticks at most remain before the last arrival: the second
      component of every simulator's termination measure. */
  function Gap(s: Sim): nat {
    var m := LatestArrival(s.procs);
    if s.time < m then m - s.time else 0
  }

  /** Slices come in time order and never overlap. */
  ghost predicate Ordered(g: seq<Slice>) {
    forall j, k :: 0 <= j < k < |g| ==> g[j].end <= g[k].start
  }

  /** A slice names a process of the input by index and pid, and lies in the past. */
  ghost predicate SliceOk(ps: seq<Process>, s: Sim, sl: Slice) {
    sl.proc < |ps| && sl.pid == ps[sl.proc].pid && sl.start <= sl.end <= s.time
  }

  /** The bookkeeping of process `i`: its slices and its remaining burst add
      up to its burst; its first response is the start of its first slice,
      no earlier than its arrival, and from it its slices fit before the
      clock; it has a completion time exactly when nothing remains, which is
      the end of its last slice, no earlier than its first response plus its
      burst. */
  ghost predicate ProcOk(ps: seq<Process>, s: Sim, i: nat)
    requires i < |ps| == |s.procs|
  {
    var rp := s.procs[i];
    var w := Work(s.gantt, i);
    w + rp.remainingBurst == ps[i].burst
    && rp.firstResponse == FirstStart(s.gantt, i)
    && (rp.firstResponse.None? ==> w == 0)
    && (rp.firstResponse.Some? ==> ps[i].arrival <= rp.firstResponse.value && rp.firstResponse.value + w <= s.time)
    && (rp.completionTime.Some? <==> rp.remainingBurst == 0)
    && (rp.completionTime.Some? ==>
          rp.completionTime == LastEnd(s.gantt, i)
          && rp.firstResponse.Some? && rp.firstResponse.value + ps[i].burst <= rp.completionTime.value <= s.time)
  }

  /** The invariant all three simulators keep about their runtime copies and
      their Gantt chart. Once nothing is pending, the clock stands at the end
      of the last slice. */
  ghost predicate Accounting(ps: seq<Process>, s: Sim) {
    |s.procs| == |ps|
    && (forall i :: 0 <= i < |ps| ==> s.procs[i].p == ps[i] && ProcOk(ps, s, i))
    && (forall k :: 0 <= k < |s.gantt| ==> SliceOk(ps, s, s.gantt[k]))
    && Ordered(s.gantt)
    && (!Pending(s.procs) ==> s.gantt != [] && s.gantt[|s.gantt| - 1].end == s.time)
  }

  lemma WorkAppend(g: seq<Slice>, sl: Slice, i: nat)
    ensures Work(g + [sl], i) == Work(g, i) + (if sl.proc == i then sl.end - sl.start else 0)
  {
    assert (g + [sl])[..|g|] == g;
  }

  lemma TimelineAppend(g: seq<Slice>, sl: Slice, i: nat)
    ensures FirstStart(g + [sl], i) == if FirstStart(g, i).None? && sl.proc == i then Some(sl.start) else FirstStart(g, i)
    ensures LastEnd(g + [sl], i) == if sl.proc == i then Some(sl.end) else LastEnd(g, i)
  {
    assert (g + [sl])[..|g|] == g;
  }

  /** Changing one runtime copy changes the backlog by the change of its
      remaining burst. */
  lemma {:induction false} BacklogUpdate(procs: seq<RuntimeProcess>, i: nat, rp: RuntimeProcess)
    requires i < |procs|
    ensures Backlog(procs[i := rp]) + procs[i].remainingBurst == Backlog(procs) + rp.remainingBurst
    decreases |procs|
  {
    if i == 0 {
      assert procs[i := rp][1..] == procs[1..];
    } else {
      assert procs[i := rp][1..] == procs[1..][i - 1 := rp];
      BacklogUpdate(procs[1..], i - 1, rp);
    }
  }

  /** The backlog is empty exactly when no process is pending. */
  lemma {:induction false} BacklogZero(procs: seq<RuntimeProcess>)
    ensures Backlog(procs) == 0 <==> !Pending(procs)
    decreases |procs|
  {
    if procs != [] {
      BacklogZero(procs[1..]);
      assert forall i :: 1 <= i < |procs| ==> procs[i] == procs[1..][i - 1];
      if Pending(procs[1..]) {
        var j :| 0 <= j < |procs[1..]| && procs[1..][j].remainingBurst > 0;
        assert procs[j + 1].remainingBurst > 0;
      }
    }
  }

  /** An idle tick keeps the bookkeeping, provided some process is pending
      (an idle tick only happens then). */
  lemma IdleKeepsAccounting(ps: seq<Process>, s: Sim)
    requires Accounting(ps, s) && Pending(s.procs)
    ensures Accounting(ps, Idle(s))
  {
    var r := Idle(s);
    forall i | 0 <= i < |ps| ensures ProcOk(ps, r, i) {
      assert ProcOk(ps, s, i);
    }
    forall k | 0 <= k < |r.gantt| ensures SliceOk(ps, r, r.gantt[k]) {
      assert SliceOk(ps, s, s.gantt[k]);
    }
  }

  /** While some process has yet to arrive, an idle tick brings the clock
      closer to the last arrival. */
  lemma IdleNarrowsGap(s: Sim, i: nat)
    requires i < |s.procs| && s.time < s.procs[i].p.arrival
    ensures Gap(Idle(s)) < Gap(s)
  {
    assert s.procs[i].p.arrival <= LatestArrival(s.procs);
  }

  /** The last arrival depends on the arrival times only. */
  lemma {:induction false} LatestArrivalKept(procs: seq<RuntimeProcess>, procs': seq<RuntimeProcess>)
    requires |procs'| == |procs| && forall i :: 0 <= i < |procs| ==> procs'[i].p == procs[i].p
    ensures LatestArrival(procs') == LatestArrival(procs)
    decreases |procs|
  {
    if procs != [] {
      LatestArrivalKept(procs[1..], procs'[1..]);
    }
  }

  /** The result `r` of dispatching `cur` for `e` ticks, field by field. */
  ghost predicate Dispatched(s: Sim, cur: nat, e: nat, r: Sim) {
    && cur < |s.procs| && e <= s.procs[cur].remainingBurst
    && r.time == s.time + e
    && r.gantt == s.gantt + [Slice(cur, s.procs[cur].p.pid, s.time, s.time + e)]
    && |r.procs| == |s.procs|
    && (forall i :: 0 <= i < |s.procs| && i != cur ==> r.procs[i] == s.procs[i])
    && var rp := s.procs[cur];
       var left := rp.remainingBurst - e;
       r.procs[cur] == RuntimeProcess(
         rp.p, left,
         if rp.firstResponse.None? then Some(s.time) else rp.firstResponse,
         if left > 0 then rp.completionTime else Some(r.time))
  }

  lemma ExecuteDispatched(s: Sim, cur: nat, e: nat)
    requires cur < |s.procs| && e <= s.procs[cur].remainingBurst
    ensures Dispatched(s, cur, e, Execute(s, cur, e))
  {
  }

  /** What a dispatch does to the clock, the Gantt chart and the dispatched
      process (its first response is recorded if unset, its completion time
      is set when nothing remains and kept otherwise), and that it leaves
      every other runtime copy alone. */
  lemma ExecuteSlice(s: Sim, cur: nat, e: nat)
    requires cur < |s.procs| && e <= s.procs[cur].remainingBurst
    ensures Dispatched(s, cur, e, Execute(s, cur, e))
    ensures var r := Execute(s, cur, e);
      && r.time == s.time + e
      && r.gantt == s.gantt + [Slice(cur, s.procs[cur].p.pid, s.time, s.time + e)]
      && r.procs[cur].remainingBurst == s.procs[cur].remainingBurst - e
      && (r.procs[cur].remainingBurst == 0 ==> r.procs[cur].completionTime == Some(r.time))
  {
    ExecuteDispatched(s, cur, e);
  }

  /** A dispatch keeps the bookkeeping of every process. */
  lemma DispatchedKeepsProcs(ps: seq<Process>, s: Sim, cur: nat, e: nat, r: Sim)
    requires Accounting(ps, s) && Dispatched(s, cur, e, r) && ps[cur].arrival <= s.time
    ensures forall i :: 0 <= i < |ps| ==> r.procs[i].p == ps[i] && ProcOk(ps, r, i)
  {
    var sl := r.gantt[|r.gantt| - 1];
    forall i | 0 <= i < |ps| ensures r.procs[i].p == ps[i] && ProcOk(ps, r, i) {
      assert ProcOk(ps, s, i);
      WorkAppend(s.gantt, sl, i);
      TimelineAppend(s.gantt, sl, i);
    }
  }

  /** A dispatch keeps the Gantt chart well formed and in time order. */
  lemma DispatchedKeepsGantt(ps: seq<Process>, s: Sim, cur: nat, e: nat, r: Sim)
    requires Accounting(ps, s) && Dispatched(s, cur, e, r)
    ensures forall k :: 0 <= k < |r.gantt| ==> SliceOk(ps, r, r.gantt[k])
    ensures Ordered(r.gantt)
  {
    forall k | 0 <= k < |r.gantt| ensures SliceOk(ps, r, r.gantt[k]) {
      if k < |s.gantt| {
        assert SliceOk(ps, s, s.gantt[k]);
      }
    }
    forall j, k | 0 <= j < k < |r.gantt| ensures r.gantt[j].end <= r.gantt[k].start {
      if k < |s.gantt| {
        assert s.gantt[j].end <= s.gantt[k].start;
      } else {
        assert SliceOk(ps, s, s.gantt[j]);
      }
    }
  }

  /** A dispatch of a process that has arrived keeps the bookkeeping, and the
      backlog drops by `e`. */
  lemma ExecuteKeepsAccounting(ps: seq<Process>, s: Sim, cur: nat, e: nat)
    requires Accounting(ps, s)
    requires cur < |s.procs| && e <= s.procs[cur].remainingBurst && ps[cur].arrival <= s.time
    ensures Accounting(ps, Execute(s, cur, e))
    ensures Backlog(Execute(s, cur, e).procs) + e == Backlog(s.procs)
  {
    var r := Execute(s, cur, e);
    ExecuteDispatched(s, cur, e);
    DispatchedKeepsProcs(ps, s, cur, e, r);
    DispatchedKeepsGantt(ps, s, cur, e, r);
    BacklogUpdate(s.procs, cur, r.procs[cur]);
    assert s.procs[cur := r.procs[cur]] == r.procs;
  }

  /** What a finished simulation guarantees of every process: its slices add up
      to its burst; its first response is the start of its first slice, no
      earlier than its arrival; its completion is the end of its last slice,
      no earlier than its arrival plus its burst; the clock has moved. */
  lemma Finished(ps: seq<Process>, s: Sim)
    requires ValidInput(ps) && Accounting(ps, s) && !Pending(s.procs)
    ensures forall i :: 0 <= i < |ps| ==>
      Work(s.gantt, i) == ps[i].burst
      && s.procs[i].firstResponse.Some? && s.procs[i].completionTime.Some?
      && s.procs[i].firstResponse == FirstStart(s.gantt, i)
      && s.procs[i].completionTime == LastEnd(s.gantt, i)
      && ps[i].arrival <= s.procs[i].firstResponse.value
      && ps[i].arrival + ps[i].burst <= s.procs[i].completionTime.value
    ensures s.time > 0
  {
    forall i | 0 <= i < |ps|
      ensures Work(s.gantt, i) == ps[i].burst && s.procs[i].firstResponse.Some? && s.procs[i].completionTime.Some?
    {
      assert ProcOk(ps, s, i);
      assert s.procs[i].remainingBurst == 0;
    }
    assert ProcOk(ps, s, 0);
  }
}
