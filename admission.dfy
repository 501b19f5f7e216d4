/// The admission pass every simulator runs at the top of its loop: walk the
/// runtime copies in input order and append to a ready queue every process
/// that has arrived, still has work, and is not in that queue yet.
module Admission {
  import opened Scheduling

  /** Arrived by `time` and not finished. */
  predicate Eligible(rp: RuntimeProcess, time: nat) {
    rp.p.arrival <= time && rp.remainingBurst > 0
  }

  /** Every entry of `q` indexes a runtime copy. */
  predicate Indexes(procs: seq<RuntimeProcess>, q: seq<nat>) {
    forall k :: 0 <= k < |q| ==> q[k] < |procs|
  }

  ghost predicate Distinct(q: seq<nat>) {
    forall j, k :: 0 <= j < k < |q| ==> q[j] != q[k]
  }

  /** A ready queue holds eligible processes, each at most once. */
  ghost predicate ReadyOk(procs: seq<RuntimeProcess>, time: nat, q: seq<nat>) {
    Indexes(procs, q)
    && (forall k :: 0 <= k < |q| ==> Eligible(procs[q[k]], time))
    && Distinct(q)
  }

  /** Reference definition of what a pass over the first `k` processes adds
      to `q`: the eligible processes among them that `q` does not hold, in
      increasing index order. */
  function Arrivals(procs: seq<RuntimeProcess>, time: nat, q: seq<nat>, k: nat): (a: seq<nat>)
    requires k <= |procs|
    ensures forall x: nat :: x in a <==> x < k && Eligible(procs[x], time) && x !in q
    ensures forall j, l :: 0 <= j < l < |a| ==> a[j] < a[l]
  {
    if k == 0 then []
    else
      var a' := Arrivals(procs, time, q, k - 1);
      assert forall j :: 0 <= j < |a'| ==> a'[j] < k - 1 by {
        forall j | 0 <= j < |a'| ensures a'[j] < k - 1 {
          assert a'[j] in a';
        }
      }
      a' + (if Eligible(procs[k - 1], time) && k - 1 !in q then [k - 1] else [])
  }

  /** The admission loop over the first `k` processes, checking membership in
      the queue as it grows. It only appends, and what it appends is exactly
      `Arrivals`. */
  function AdmitUpTo(procs: seq<RuntimeProcess>, time: nat, q: seq<nat>, k: nat): (r: seq<nat>)
    requires k <= |procs|
    ensures r == q + Arrivals(procs, time, q, k)
  {
    if k == 0 then q
    else
      var r' := AdmitUpTo(procs, time, q, k - 1);
      assert k - 1 in r' <==> k - 1 in q;
      if Eligible(procs[k - 1], time) && k - 1 !in r' then r' + [k - 1] else r'
  }

  /** One full admission pass: it keeps the queue at the front and afterwards
      the queue holds a process exactly when it held it before or the
      process is eligible. */
  function Admit(procs: seq<RuntimeProcess>, time: nat, q: seq<nat>): (r: seq<nat>)
    requires Indexes(procs, q)
    ensures Indexes(procs, r)
    ensures |q| <= |r| && r[..|q|] == q
    ensures forall i :: 0 <= i < |procs| ==> (i in r <==> i in q || Eligible(procs[i], time))
  {
    var a := Arrivals(procs, time, q, |procs|);
    var r := AdmitUpTo(procs, time, q, |procs|);
    assert r[..|q|] == q;
    assert forall k :: |q| <= k < |r| ==> r[k] == a[k - |q|] && a[k - |q|] in a;
    r
  }

  /** One more process in the pass: it is appended exactly when it is
      eligible and not queued yet. */
  lemma AdmitUpToNext(procs: seq<RuntimeProcess>, time: nat, q: seq<nat>, k: nat)
    requires k < |procs|
    ensures var r := AdmitUpTo(procs, time, q, k);
      AdmitUpTo(procs, time, q, k + 1) == if Eligible(procs[k], time) && k !in r then r + [k] else r
  {
  }

  lemma AdmitIsFullPass(procs: seq<RuntimeProcess>, time: nat, q: seq<nat>)
    requires Indexes(procs, q)
    ensures Admit(procs, time, q) == AdmitUpTo(procs, time, q, |procs|)
  {
  }

  /** The admission loop `for (const p of remaining) if (...) queue.push(p)`
      over the array of runtime copies. */
  method AdmissionPass(remaining: array<RuntimeProcess>, currentTime: nat, queue: seq<nat>) returns (q: seq<nat>)
    requires Indexes(remaining[..], queue)
    ensures q == Admit(remaining[..], currentTime, queue)
  {
    ghost var procs := remaining[..];
    q := queue;
    for i := 0 to remaining.Length
      invariant q == AdmitUpTo(procs, currentTime, queue, i)
    {
      AdmitUpToNext(procs, currentTime, queue, i);
      assert remaining[i] == procs[i];
      if remaining[i].p.arrival <= currentTime && i !in q && remaining[i].remainingBurst > 0 {
        q := q + [i];
      }
    }
    AdmitIsFullPass(procs, currentTime, queue);
  }

  /** After an admission pass over a well-formed ready queue, the queue holds
      every arrived unfinished process exactly once and nothing else, and
      what was queued before keeps its place at the front. */
  lemma AdmitReady(procs: seq<RuntimeProcess>, time: nat, q: seq<nat>)
    requires ReadyOk(procs, time, q)
    ensures ReadyOk(procs, time, Admit(procs, time, q))
    ensures forall i :: 0 <= i < |procs| ==> (i in Admit(procs, time, q) <==> Eligible(procs[i], time))
    ensures Admit(procs, time, q)[..|q|] == q
  {
    var a := Arrivals(procs, time, q, |procs|);
    var r := Admit(procs, time, q);
    assert r == q + a;
    forall j, k | 0 <= j < k < |r| ensures r[j] != r[k] {
      if k < |q| {
      } else if j < |q| {
        assert r[k] == a[k - |q|];
        assert r[k] in a;
      } else {
        assert r[j] == a[j - |q|] && r[k] == a[k - |q|];
      }
    }
    forall k | 0 <= k < |r| ensures r[k] < |procs| && Eligible(procs[r[k]], time) {
      if k >= |q| {
        assert r[k] == a[k - |q|];
        assert r[k] in a;
      }
    }
    forall i | 0 <= i < |procs| ensures i in r <==> Eligible(procs[i], time) {
      if i in r && i !in a {
        var k :| 0 <= k < |q| && q[k] == i;
      }
    }
  }

  /** An admission pass over a ready queue leaves it empty exactly when no
      process is eligible. */
  lemma AdmitEmpty(procs: seq<RuntimeProcess>, time: nat, q: seq<nat>)
    requires ReadyOk(procs, time, q)
    ensures Admit(procs, time, q) == [] <==> forall i :: 0 <= i < |procs| ==> !Eligible(procs[i], time)
  {
    var r := Admit(procs, time, q);
    if r != [] {
      assert r[0] in r;
      if r[0] in q {
        var k :| 0 <= k < |q| && q[k] == r[0];
      }
    }
  }

  /** Running the head of a ready queue and advancing the clock keeps the
      rest of the queue ready; the head may stay, at the front or at the
      tail, as long as it still has work. */
  lemma ReadyAfterRun(procs: seq<RuntimeProcess>, t: nat, q: seq<nat>, procs': seq<RuntimeProcess>, t': nat)
    requires ReadyOk(procs, t, q) && q != [] && t <= t' && |procs'| == |procs|
    requires forall i :: 0 <= i < |procs| && i != q[0] ==> procs'[i] == procs[i]
    requires procs'[q[0]].p == procs[q[0]].p
    ensures ReadyOk(procs', t', q[1..])
    ensures procs'[q[0]].remainingBurst > 0 ==> ReadyOk(procs', t', q[1..] + [q[0]]) && ReadyOk(procs', t', q)
  {
    var rest := q[1..];
    assert forall k :: 0 <= k < |rest| ==> rest[k] == q[k + 1] && rest[k] != q[0];
    if procs'[q[0]].remainingBurst > 0 {
      var tail := rest + [q[0]];
      assert forall k :: 0 <= k < |rest| ==> tail[k] == rest[k];
    }
  }
}
