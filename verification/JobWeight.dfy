/** The attempts a table still grants: the measure by which draining ends. */
module JobWeight {
  import opened JobTable
  import opened JobIndex

  /** Runs a row can still start without outside help: at least one while it is pending. */
  function RowWeight(j: Job): nat {
    if !IsPending(j) then 0 else if j.maxAttempts - j.attempts < 1 then 1 else j.maxAttempts - j.attempts
  }

  function Weight(jobs: Table): nat {
    if jobs == [] then 0 else Weight(jobs[..|jobs| - 1]) + RowWeight(jobs[|jobs| - 1])
  }

  lemma {:induction false} WeightAfterUpdate(jobs: Table, id: JobId, j: Job)
    requires id < |jobs|
    ensures Weight(jobs[id := j]) == Weight(jobs) - RowWeight(jobs[id]) + RowWeight(j)
  {
    var last := |jobs| - 1;
    if id == last {
      assert jobs[id := j][..last] == jobs[..last];
    } else {
      assert jobs[id := j][..last] == jobs[..last][id := j];
      WeightAfterUpdate(jobs[..last], id, j);
    }
  }

  /** Serving one job, whatever its handler answers, lowers the weight by at least one. */
  lemma ServeSpends(q: Queue, jobs: Table, now: int, t: string, handler: Handler)
    ensures var (_, jobs', done) := Serve(q, jobs, now, t, handler);
      |jobs'| == |jobs| && if done.None? then jobs' == jobs else Weight(jobs') < Weight(jobs)
  {
    var (_, jobs', done) := Serve(q, jobs, now, t, handler);
    if done.Some? {
      var id := done.value;
      assert jobs' == jobs[id := jobs'[id]];
      WeightAfterUpdate(jobs, id, jobs'[id]);
    }
  }

  /** Draining, round by round: while entries are listed and time is left, serve the most urgent
  type; a round that finds nothing to claim is the last. `n` rounds have processed a job so far. */
  function Drained(q: Queue, jobs: Table, now: int, handler: Handler, late: nat -> bool, n: nat): (Queue, Table, nat)
    decreases Weight(jobs)
  {
    var t := BestType(q.types, q.heaps);
    if Pending(q) == 0 || late(n) || t.None? then (q, jobs, n)
    else
      var (q', jobs', done) := Serve(q, jobs, now, t.value, handler);
      ServeSpends(q, jobs, now, t.value, handler);
      if done.None? then (q', jobs', n) else Drained(q', jobs', now, handler, late, n + 1)
  }

  /** No job is processed once time is up. */
  lemma {:induction false} NothingAfterDeadline(q: Queue, jobs: Table, now: int, handler: Handler, late: nat -> bool,
      n: nat, k: nat)
    requires n <= k && late(k)
    ensures Drained(q, jobs, now, handler, late, n).2 <= k
    decreases Weight(jobs)
  {
    var t := BestType(q.types, q.heaps);
    if Pending(q) != 0 && !late(n) && t.Some? {
      var (q', jobs', done) := Serve(q, jobs, now, t.value, handler);
      ServeSpends(q, jobs, now, t.value, handler);
      if done.Some? {
        NothingAfterDeadline(q', jobs', now, handler, late, n + 1, k);
      }
    }
  }

  /** However the handlers answer, draining processes no more jobs than the attempts its table
  still grants, and adds no row. */
  lemma {:induction false} DrainedSpends(q: Queue, jobs: Table, now: int, handler: Handler, late: nat -> bool, n: nat)
    ensures var (_, jobs', m) := Drained(q, jobs, now, handler, late, n);
      m >= n && m - n + Weight(jobs') <= Weight(jobs) && |jobs'| == |jobs|
    decreases Weight(jobs)
  {
    var t := BestType(q.types, q.heaps);
    if Pending(q) != 0 && !late(n) && t.Some? {
      var (q', jobs', done) := Serve(q, jobs, now, t.value, handler);
      ServeSpends(q, jobs, now, t.value, handler);
      if done.Some? {
        DrainedSpends(q', jobs', now, handler, late, n + 1);
      }
    }
  }
}
