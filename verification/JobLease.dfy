/** Lease mutual exclusion, over every timely run of the job system. */
module JobLease {
  import opened Options
  import opened JobTable
  import opened JobIndex
  import opened JobSystem

  function DeadlineOf(s: Sys, i: nat, k: nat): int
    requires IsBusy(s, i, k)
  {
    s.insts[i].slots[k].deadline
  }

  /** A busy worker's row is RUNNING under the lease the worker last asked for, not yet over. */
  ghost predicate HoldsLease(s: Sys, i: nat, k: nat)
    requires IsBusy(s, i, k)
  {
    var id := JobOf(s, i, k);
    && id < |s.jobs|
    && s.jobs[id].state == Running
    && s.jobs[id].lease == Some(DeadlineOf(s, i, k))
    && s.now <= DeadlineOf(s, i, k)
  }

  ghost predicate Exclusive(s: Sys) {
    forall i: nat, k: nat, i': nat, k': nat |
      IsBusy(s, i, k) && IsBusy(s, i', k') && JobOf(s, i, k) == JobOf(s, i', k') :: i == i' && k == k'
  }

  ghost predicate Leased(s: Sys) {
    && Shaped(s)
    && (forall i | 0 <= i < |s.insts| :: s.insts[i].q.leaseS >= 0)
    && (forall i: nat, k: nat | IsBusy(s, i, k) :: HoldsLease(s, i, k))
    && Exclusive(s)
  }

  /** Time passes no busy worker's deadline: every live worker's beats are at most a lease apart. */
  ghost predicate TimelyStep(s: Sys, e: Event) {
    e.Tick? ==> forall i: nat, k: nat | IsBusy(s, i, k) :: s.now + e.d <= DeadlineOf(s, i, k)
  }

  ghost predicate Timely(s: Sys, es: seq<Event>)
    requires Shaped(s) && Legal(s, es)
    decreases |es|
  {
    es == [] || (TimelyStep(s, es[0]) && (StepKeepsShape(s, es[0]); Timely(Step(s, es[0]), es[1..])))
  }

  /** No other worker touches the row of a busy worker in time. */
  lemma BusyRowAmongWorkers(s: Sys, e: Event, i: nat, k: nat)
    requires Leased(s) && Enabled(s, e) && IsBusy(s, i, k) && (e.Take? || e.TakeRemote? || e.Beat? || e.End? || e.Die?)
    requires e.Beat? || e.End? ==> !(e.i == i && e.k == k)
    ensures var id := JobOf(s, i, k); id < |Step(s, e).jobs| && Step(s, e).jobs[id] == s.jobs[id]
  {
    assert HoldsLease(s, i, k);
    if e.Beat? || e.End? {
      assert JobOf(s, e.i, e.k) != JobOf(s, i, k);
    } else if !e.Die? {
      var claimed := RowsAfterTake(s, e);
    }
  }

  /** Nor does any other operation. */
  lemma BusyRowStays(s: Sys, e: Event, i: nat, k: nat)
    requires Leased(s) && Enabled(s, e) && IsBusy(s, i, k)
    requires e.Beat? || e.End? ==> !(e.i == i && e.k == k)
    ensures var id := JobOf(s, i, k); id < |Step(s, e).jobs| && Step(s, e).jobs[id] == s.jobs[id]
  {
    assert HoldsLease(s, i, k);
    if e.Take? || e.TakeRemote? || e.Beat? || e.End? || e.Die? {
      BusyRowAmongWorkers(s, e, i, k);
    }
  }

  lemma BusySlotStays(s: Sys, e: Event, i: nat, k: nat)
    requires Leased(s) && Enabled(s, e) && IsBusy(s, i, k) && IsBusy(Step(s, e), i, k)
    requires e.Beat? || e.End? ==> !(e.i == i && e.k == k)
    ensures Step(s, e).insts[i].slots[k] == s.insts[i].slots[k]
  {
    if !e.Tick? {
      OthersAfterStep(s, e);
      if i == e.i && !(e.Take? || e.TakeRemote? || e.Beat? || e.End? || e.Die? || e.Crash?) {
        assert Step(s, e).insts[i].slots == s.insts[i].slots;
      }
    }
  }

  /** A claim and a beat start a full lease. */
  lemma LeaseStarts(s: Sys, e: Event, i: nat, k: nat)
    requires Leased(s) && Enabled(s, e) && IsBusy(Step(s, e), i, k)
    requires if IsBusy(s, i, k) then e == Beat(i, k) else (e.Take? || e.TakeRemote?) && e.i == i && e.k == k
    ensures HoldsLease(Step(s, e), i, k)
  {
    assert s.insts[i].q.leaseS >= 0;
    if IsBusy(s, i, k) {
      assert HoldsLease(s, i, k);
    }
  }

  /** Every busy worker, acting or not, has its lease afterwards. */
  lemma LeaseAfterStep(s: Sys, e: Event, i: nat, k: nat)
    requires Leased(s) && Enabled(s, e) && TimelyStep(s, e)
    requires IsBusy(Step(s, e), i, k)
    ensures HoldsLease(Step(s, e), i, k)
  {
    SlotAfterStep(s, e, i, k);
    if IsBusy(s, i, k) && e != Beat(i, k) {
      assert e.End? ==> !(e.i == i && e.k == k);
      assert HoldsLease(s, i, k);
      BusyRowStays(s, e, i, k);
      BusySlotStays(s, e, i, k);
      NowAfterStep(s, e);
    } else {
      LeaseStarts(s, e, i, k);
    }
  }

  lemma NowAfterStep(s: Sys, e: Event)
    requires Shaped(s) && Enabled(s, e)
    ensures Step(s, e).now == s.now + if e.Tick? then e.d else 0
  {
  }

  lemma StepKeepsLeased(s: Sys, e: Event)
    requires Leased(s) && Enabled(s, e) && TimelyStep(s, e)
    ensures Leased(Step(s, e))
  {
    StepKeepsShape(s, e);
    var s' := Step(s, e);
    forall i: nat, k: nat | IsBusy(s', i, k) ensures HoldsLease(s', i, k) {
      LeaseAfterStep(s, e, i, k);
    }
    SlotsAfterStep(s, e);
    forall i: nat, k: nat, i': nat, k': nat |
      IsBusy(s', i, k) && IsBusy(s', i', k') && JobOf(s', i, k) == JobOf(s', i', k')
      ensures i == i' && k == k'
    {
      assert SlotOrigin(s, e, i, k) && SlotOrigin(s, e, i', k');
      assert IsBusy(s, i, k) ==> HoldsLease(s, i, k);
      assert IsBusy(s, i', k') ==> HoldsLease(s, i', k');
    }
  }

  /** A recovery sweep takes back no job of a worker whose deadline has not passed. */
  lemma RecoveryIsSafe(s: Sys, i: nat, k: nat)
    requires Leased(s) && IsBusy(s, i, k)
    ensures JobOf(s, i, k) !in Select(s.jobs, ZombieAt(s.now))
    ensures Recover(s.jobs, s.now)[JobOf(s, i, k)] == s.jobs[JobOf(s, i, k)]
  {
    assert HoldsLease(s, i, k);
  }

  lemma FinalRowStays(s: Sys, e: Event, id: JobId)
    requires Leased(s) && Enabled(s, e) && id < |s.jobs| && IsFinal(s.jobs[id])
    ensures id < |Step(s, e).jobs| && Step(s, e).jobs[id] == s.jobs[id]
  {
    if e.End? || e.Beat? {
      assert HoldsLease(s, e.i, e.k);
    } else if e.Take? || e.TakeRemote? {
      var claimed := RowsAfterTake(s, e);
    }
  }

  /** In every timely run: at most one worker holds any job, it holds a RUNNING row under an
  unexpired lease, and a SUCCEEDED, CANCELLED or EXPIRED row never changes again. */
  lemma {:induction false} LeasesExclude(s: Sys, es: seq<Event>)
    requires Leased(s) && Legal(s, es) && Timely(s, es)
    ensures Leased(Run(s, es))
    ensures |s.jobs| <= |Run(s, es).jobs|
    ensures forall id | 0 <= id < |s.jobs| && IsFinal(s.jobs[id]) :: Run(s, es).jobs[id] == s.jobs[id]
    decreases |es|
  {
    if es != [] {
      var s' := Step(s, es[0]);
      StepKeepsLeased(s, es[0]);
      StepKeepsShape(s, es[0]);
      forall id | 0 <= id < |s.jobs| && IsFinal(s.jobs[id]) ensures s'.jobs[id] == s.jobs[id] {
        FinalRowStays(s, es[0], id);
      }
      LeasesExclude(s', es[1..]);
    }
  }

  /** Timeliness is needed: once time passes a busy worker's deadline, the next sweep of any
  instance takes the job from under it. */
  lemma LateWorkerLosesJob(s: Sys, d: nat, sweeper: nat, i: nat, k: nat)
    requires Leased(s) && sweeper < |s.insts| && IsBusy(s, i, k)
    requires s.now + d > DeadlineOf(s, i, k)
    ensures var late := Step(s, Tick(d));
      IsBusy(late, i, k) && Step(late, RecoverZombies(sweeper)).jobs[JobOf(s, i, k)].state == Queued
  {
    assert HoldsLease(s, i, k);
  }

  /** And then nothing protects the row: whoever still works on a finished job changes its state,
  unless its success meets a success. No other step of any run changes a final state, in time or not. */
  lemma FinalStateChangesIff(s: Sys, e: Event, id: JobId)
    requires Shaped(s) && Enabled(s, e) && id < |s.jobs| && IsFinal(s.jobs[id])
    ensures id < |Step(s, e).jobs|
    ensures Step(s, e).jobs[id].state != s.jobs[id].state <==>
      e.End? && JobOf(s, e.i, e.k) == id && !(e.error.None? && s.jobs[id].state == Succeeded)
  {
    if e.End? {
      EndChangesFinalIff(s, e, id);
    } else {
      OthersKeepFinal(s, e, id);
    }
  }

  lemma EndChangesFinalIff(s: Sys, e: Event, id: JobId)
    requires Shaped(s) && Enabled(s, e) && e.End? && id < |s.jobs| && IsFinal(s.jobs[id])
    ensures id < |Step(s, e).jobs|
    ensures Step(s, e).jobs[id].state != s.jobs[id].state <==>
      JobOf(s, e.i, e.k) == id && !(e.error.None? && s.jobs[id].state == Succeeded)
  {
  }

  lemma OthersKeepFinal(s: Sys, e: Event, id: JobId)
    requires Shaped(s) && Enabled(s, e) && !e.End? && id < |s.jobs| && IsFinal(s.jobs[id])
    ensures id < |Step(s, e).jobs| && Step(s, e).jobs[id].state == s.jobs[id].state
  {
    if e.Take? || e.TakeRemote? {
      var claimed := RowsAfterTake(s, e);
    }
  }

  /** A failing end makes a finished job wait again exactly if it has attempts left. */
  lemma LateFailureRevives(s: Sys, i: nat, k: nat, error: string)
    requires Shaped(s) && IsBusy(s, i, k) && IsFinal(s.jobs[JobOf(s, i, k)])
    ensures var id := JobOf(s, i, k);
      && id < |Step(s, End(i, k, Some(error))).jobs|
      && (IsPending(Step(s, End(i, k, Some(error))).jobs[id]) <==> s.jobs[id].attempts < s.jobs[id].maxAttempts)
  {
  }

  // ---------- single flight ----------

  predicate SameKey(a: Job, b: Job) {
    && a.dedupe.Some? && a.dedupe.value != ""
    && a.tenant == b.tenant && a.jobType == b.jobType && a.dedupe == b.dedupe
  }

  ghost predicate SingleFlight(jobs: Table) {
    forall a, b | 0 <= a < |jobs| && 0 <= b < |jobs| && a != b ::
      !(SameKey(jobs[a], jobs[b]) && IsActive(jobs[a]) && IsActive(jobs[b]))
  }

  /** A row becomes active only by being created or requeued. */
  lemma ActiveAfterStep(s: Sys, e: Event, id: JobId)
    requires Leased(s) && Enabled(s, e) && !e.RequeueDead?
    requires id < |s.jobs| && id < |Step(s, e).jobs| && IsActive(Step(s, e).jobs[id])
    ensures IsActive(s.jobs[id])
  {
    if e.End? || e.Beat? {
      assert HoldsLease(s, e.i, e.k);
    }
  }

  /** A row is only added where no active row has its key. */
  lemma NewRowFliesSingly(s: Sys, e: Event, id: JobId)
    requires Leased(s) && Enabled(s, e) && |Step(s, e).jobs| > |s.jobs| && id < |s.jobs|
    ensures var jobs', n := Step(s, e).jobs, |s.jobs|;
      !(IsActive(jobs'[id]) && (SameKey(jobs'[id], jobs'[n]) || SameKey(jobs'[n], jobs'[id])))
  {
    assert e.Enqueue? && FindActive(s.jobs, e.r).None?;
    assert !MatchesKey(s.jobs[id], e.r);
  }

  lemma StepKeepsSingleFlight(s: Sys, e: Event)
    requires Leased(s) && Enabled(s, e) && !e.RequeueDead? && SingleFlight(s.jobs)
    ensures SingleFlight(Step(s, e).jobs)
  {
    RowsAfterStep(s, e);
    var jobs' := Step(s, e).jobs;
    forall a, b | 0 <= a < |jobs'| && 0 <= b < |jobs'| && a != b
      ensures !(SameKey(jobs'[a], jobs'[b]) && IsActive(jobs'[a]) && IsActive(jobs'[b]))
    {
      if a < |s.jobs| && b < |s.jobs| {
        assert SameKey(jobs'[a], jobs'[b]) ==> SameKey(s.jobs[a], s.jobs[b]);
        if IsActive(jobs'[a]) && IsActive(jobs'[b]) {
          ActiveAfterStep(s, e, a);
          ActiveAfterStep(s, e, b);
        }
      } else {
        NewRowFliesSingly(s, e, if a < |s.jobs| then a else b);
      }
    }
  }

  /** Replaying a dead letter keeps single flight exactly when no active row has its key. */
  lemma RequeueSingleFlight(jobs: Table, id: JobId)
    requires SingleFlight(jobs) && Requeueable(jobs, id)
    ensures SingleFlight(Requeue(jobs, id)) <==>
      forall b | 0 <= b < |jobs| :: !(SameKey(jobs[id], jobs[b]) && IsActive(jobs[b]))
  {
    var jobs' := Requeue(jobs, id);
    if b :| 0 <= b < |jobs| && SameKey(jobs[id], jobs[b]) && IsActive(jobs[b]) {
      assert SameKey(jobs'[id], jobs'[b]) && IsActive(jobs'[id]) && IsActive(jobs'[b]);
    } else {
      forall a, b | 0 <= a < |jobs| && 0 <= b < |jobs| && a != b
        ensures !(SameKey(jobs'[a], jobs'[b]) && IsActive(jobs'[a]) && IsActive(jobs'[b]))
      {
        assert SameKey(jobs'[a], jobs'[b]) ==> SameKey(jobs[a], jobs[b]) && SameKey(jobs[b], jobs[a]);
      }
    }
  }

  /** In every timely run without requeue, a dedupe key has at most one active job. */
  lemma {:induction false} KeysFlySingly(s: Sys, es: seq<Event>)
    requires Leased(s) && Legal(s, es) && Timely(s, es) && SingleFlight(s.jobs)
    requires forall e | e in es :: !e.RequeueDead?
    ensures SingleFlight(Run(s, es).jobs)
    decreases |es|
  {
    if es != [] {
      StepKeepsSingleFlight(s, es[0]);
      StepKeepsLeased(s, es[0]);
      KeysFlySingly(Step(s, es[0]), es[1..]);
    }
  }

  lemma InitiallyLeased(s: Sys)
    requires Initial(s) && forall i | 0 <= i < |s.insts| :: s.insts[i].q.leaseS >= 0
    ensures Leased(s) && SingleFlight(s.jobs)
  {
    forall i | 0 <= i < |s.insts| ensures ValidQueue(s.insts[i].q) {
      assert s.insts[i].q == EmptyQueue(s.insts[i].q.capacity, s.insts[i].q.leaseS);
    }
  }
}
