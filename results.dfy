/// The tail every simulator shares: the completed records with their derived
/// times, the aggregate metrics, and the result object.
module Results {
  import opened Scheduling

  /** `{...p, turnaroundTime, waitingTime, responseTime}`. `waitingTime` is
      computed as `p.turnaroundTime - p.burst` on the runtime copy, which has
      no `turnaroundTime` field: the result is NaN, modelled as `None`. */
  datatype Completed = Completed(rp: RuntimeProcess, turnaroundTime: int, waitingTime: Option<int>, responseTime: int)

  /** The metrics object, as exact numbers (the two-decimal formatting is not
      modelled); `None` stands for NaN. */
  datatype Metrics = Metrics(
    avgWaitingTime: Option<real>,
    avgTurnaroundTime: real,
    avgResponseTime: real,
    throughput: real,
    contextSwitches: nat)

  /** `{ ganttData, metrics, processes }`; round robin adds its `quantum`. */
  datatype Outcome = Outcome(ganttData: seq<Slice>, metrics: Metrics, processes: seq<Completed>, quantum: Option<nat>)

  /** A runtime copy whose first response and completion are both defined. */
  predicate Settled(rp: RuntimeProcess) {
    rp.firstResponse.Some? && rp.completionTime.Some?
  }

  function Complete(rp: RuntimeProcess): Completed
    requires Settled(rp)
  {
    Completed(rp, rp.completionTime.value - rp.p.arrival, None, rp.firstResponse.value - rp.p.arrival)
  }

  /** The waiting time the metrics evidently intend: turnaround minus burst. */
  function IntendedWaitingTime(c: Completed): int {
    c.turnaroundTime - c.rp.p.burst
  }

  /** The sum of the turnaround times of the completed records. */
  function TotalTurnaround(cs: seq<Completed>): int {
    if cs == [] then 0 else TotalTurnaround(cs[..|cs| - 1]) + cs[|cs| - 1].turnaroundTime
  }

  /** The sum of the response times of the completed records. */
  function TotalResponse(cs: seq<Completed>): int {
    if cs == [] then 0 else TotalResponse(cs[..|cs| - 1]) + cs[|cs| - 1].responseTime
  }

  /** The sum of the waiting times of the completed records; a single NaN
      (`None`) among them makes the sum NaN. */
  function TotalWaiting(cs: seq<Completed>): Option<int> {
    if cs == [] then Some(0)
    else
      match (TotalWaiting(cs[..|cs| - 1]), cs[|cs| - 1].waitingTime)
      case (Some(a), Some(b)) => Some(a + b)
      case _ => None
  }

  /** The same sum over the intended waiting times. */
  function TotalIntendedWaiting(cs: seq<Completed>): int {
    if cs == [] then 0 else TotalIntendedWaiting(cs[..|cs| - 1]) + IntendedWaitingTime(cs[|cs| - 1])
  }

  /** The completed records of a finished simulation and its metrics. */
  function Report(s: Sim, quantum: Option<nat>): (o: Outcome)
    requires |s.procs| > 0 && s.time > 0
    requires forall i :: 0 <= i < |s.procs| ==> Settled(s.procs[i])
    ensures |o.processes| == |s.procs|
    ensures forall i :: 0 <= i < |s.procs| ==> o.processes[i].rp == s.procs[i] && o.processes[i].waitingTime.None?
    ensures forall i :: 0 <= i < |s.procs| ==>
      && Settled(s.procs[i])
      && o.processes[i].turnaroundTime == s.procs[i].completionTime.value - s.procs[i].p.arrival
      && o.processes[i].responseTime == s.procs[i].firstResponse.value - s.procs[i].p.arrival
    ensures o.metrics.avgTurnaroundTime == TotalTurnaround(o.processes) as real / |s.procs| as real
    ensures o.metrics.avgResponseTime == TotalResponse(o.processes) as real / |s.procs| as real
    ensures o.metrics.throughput == |s.procs| as real / s.time as real
    ensures o.ganttData == s.gantt && o.metrics.contextSwitches == |s.gantt| && o.quantum == quantum
  {
    var completed := seq(|s.procs|, i requires 0 <= i < |s.procs| => Complete(s.procs[i]));
    var n := |completed| as real;
    var wt := TotalWaiting(completed);
    Outcome(
      s.gantt,
      Metrics(
        if wt.Some? then Some(wt.value as real / n) else None,
        TotalTurnaround(completed) as real / n,
        TotalResponse(completed) as real / n,
        n / s.time as real,
        |s.gantt|),
      completed,
      quantum)
  }

  /** Lower bounds on the totals from lower bounds on their terms. */
  lemma {:induction false} TotalsBounded(cs: seq<Completed>)
    requires forall i :: 0 <= i < |cs| ==>
      cs[i].turnaroundTime >= cs[i].rp.p.burst >= 1 && cs[i].responseTime >= 0
    ensures TotalTurnaround(cs) >= |cs| && TotalResponse(cs) >= 0 && TotalIntendedWaiting(cs) >= 0
  {
    if cs != [] {
      TotalsBounded(cs[..|cs| - 1]);
    }
  }

  lemma QuotientAtLeast(x: real, n: real, lo: real)
    requires n > 0.0 && x >= lo * n
    ensures x / n >= lo
  {
  }

  /** The sums behind the averages, given bounds on every record: the
      waiting times sum to NaN, the turnaround times to at least one per
      record and the response times to a non-negative number. */
  lemma AveragesBounded(cs: seq<Completed>)
    requires cs != []
    requires forall i :: 0 <= i < |cs| ==>
      cs[i].turnaroundTime >= cs[i].rp.p.burst >= 1 && cs[i].responseTime >= 0 && cs[i].waitingTime == None
    ensures TotalWaiting(cs) == None
    ensures TotalTurnaround(cs) as real / |cs| as real >= 1.0
    ensures TotalResponse(cs) as real / |cs| as real >= 0.0
  {
    TotalsBounded(cs);
    var n := |cs| as real;
    QuotientAtLeast(TotalTurnaround(cs) as real, n, 1.0);
    QuotientAtLeast(TotalResponse(cs) as real, n, 0.0);
  }

  /** The completed records of a finished simulation: each is that of its
      input; its response time is the start of its first slice minus its
      arrival, and not negative; its turnaround is the end of its last slice
      minus its arrival, and at least its burst; its slices add up to its
      burst; its waiting time is NaN while the intended one is not
      negative. */
  lemma ReportRecords(ps: seq<Process>, s: Sim, quantum: Option<nat>)
    requires ValidInput(ps) && Accounting(ps, s) && !Pending(s.procs)
    ensures forall i :: 0 <= i < |s.procs| ==> Settled(s.procs[i])
    ensures s.time > 0
    ensures var cs := Report(s, quantum).processes;
      && |cs| == |ps|
      && forall i :: 0 <= i < |ps| ==>
            && cs[i].rp.p == ps[i]
            && cs[i].turnaroundTime >= ps[i].burst
            && cs[i].responseTime >= 0
            && FirstStart(s.gantt, i).Some? && LastEnd(s.gantt, i).Some?
            && cs[i].responseTime == FirstStart(s.gantt, i).value - ps[i].arrival
            && cs[i].turnaroundTime == LastEnd(s.gantt, i).value - ps[i].arrival
            && Work(s.gantt, i) == ps[i].burst
            && cs[i].waitingTime == None
            && IntendedWaitingTime(cs[i]) >= 0
  {
    Finished(ps, s);
    var cs := Report(s, quantum).processes;
    forall i | 0 <= i < |ps|
      ensures cs[i].rp.p == ps[i] && cs[i].turnaroundTime >= ps[i].burst && cs[i].responseTime >= 0
      ensures FirstStart(s.gantt, i).Some? && LastEnd(s.gantt, i).Some?
      ensures cs[i].responseTime == FirstStart(s.gantt, i).value - ps[i].arrival
      ensures cs[i].turnaroundTime == LastEnd(s.gantt, i).value - ps[i].arrival
    {
      assert cs[i] == Complete(s.procs[i]);
    }
  }

  /** What the result of a finished simulation reports. Per process: the
      facts of `ReportRecords`. Overall:
      the Gantt chart is in time order without overlaps, the context switches
      count its slices, the throughput is the process count over the end of
      the last slice, the average waiting time is NaN, and the average
      turnaround and response times are the means of the records' times; the
      first is at least 1 and the second is not negative. */
  lemma ReportFinished(ps: seq<Process>, s: Sim, quantum: Option<nat>)
    requires ValidInput(ps) && Accounting(ps, s) && !Pending(s.procs)
    ensures forall i :: 0 <= i < |s.procs| ==> Settled(s.procs[i])
    ensures s.time > 0
    ensures var o := Report(s, quantum);
      && |o.processes| == |ps|
      && (forall i :: 0 <= i < |ps| ==>
            && o.processes[i].rp.p == ps[i]
            && o.processes[i].turnaroundTime >= ps[i].burst
            && o.processes[i].responseTime >= 0
            && FirstStart(o.ganttData, i).Some? && LastEnd(o.ganttData, i).Some?
            && o.processes[i].responseTime == FirstStart(o.ganttData, i).value - ps[i].arrival
            && o.processes[i].turnaroundTime == LastEnd(o.ganttData, i).value - ps[i].arrival
            && Work(o.ganttData, i) == ps[i].burst
            && o.processes[i].waitingTime == None
            && IntendedWaitingTime(o.processes[i]) >= 0)
      && Ordered(o.ganttData)
      && o.metrics.contextSwitches == |o.ganttData|
      && o.ganttData != []
      && o.ganttData[|o.ganttData| - 1].end == s.time
      && o.metrics.throughput == |ps| as real / o.ganttData[|o.ganttData| - 1].end as real
      && o.metrics.avgWaitingTime == None
      && o.metrics.avgTurnaroundTime == TotalTurnaround(o.processes) as real / |ps| as real
      && o.metrics.avgResponseTime == TotalResponse(o.processes) as real / |ps| as real
      && o.metrics.avgTurnaroundTime >= 1.0
      && o.metrics.avgResponseTime >= 0.0
  {
    ReportRecords(ps, s, quantum);
    var o := Report(s, quantum);
    assert o.ganttData == s.gantt;
    AveragesBounded(o.processes);
  }
}
