/** How often jobs can be claimed at all: over every timely run no more often than enqueues, requeues
and recoveries have granted. */
module JobBudget {
  import opened JobTable
  import opened JobIndex
  import opened JobWeight
  import opened JobSystem
  import opened JobRuns
  import opened JobLease

  /** The claims a row can still have without outside help: a waiting row has one at least, a row
  that a worker has may come back if it fails with attempts left. */
  function RowPotential(j: Job): nat {
    if j.state == Running then (if j.attempts < j.maxAttempts then j.maxAttempts - j.attempts else 0)
    else RowWeight(j)
  }

  function Potential(jobs: Table): nat {
    if jobs == [] then 0 else Potential(jobs[..|jobs| - 1]) + RowPotential(jobs[|jobs| - 1])
  }

  /** A zombie with no attempts left: taking it back grants it one more. */
  function SpentZombieAt(now: int): Job -> bool {
    j => IsZombie(j, now) && j.attempts >= j.maxAttempts
  }

  /** What a step adds to the claims that can still be made. */
  function Grant(s: Sys, e: Event): nat
    requires Enabled(s, e)
  {
    match e
    case Enqueue(i, r) =>
      if Admits(s.insts[i].q, r.priority) && FindActive(s.jobs, r).None? then AtLeastOne(r.maxAttempts) else 0
    case RequeueDead(i, id) => if Requeueable(s.jobs, id) then AtLeastOne(s.jobs[id].maxAttempts) else 0
    case RecoverZombies(i) => |Select(s.jobs, SpentZombieAt(s.now))|
    case _ => 0
  }

  function ClaimsOf(s: Sys, e: Event): nat
    requires Enabled(s, e) && |s.owner| == |s.recovered| == |s.jobs| && |s.extra| == |s.insts|
  {
    if (e.Take? || e.TakeRemote?) && IsBusy(Step(s, e), e.i, e.k) then 1 else 0
  }

  // ---------- tables ----------

  lemma {:induction false} PotentialAfterUpdate(jobs: Table, id: JobId, j: Job)
    requires id < |jobs|
    ensures Potential(jobs[id := j]) == Potential(jobs) - RowPotential(jobs[id]) + RowPotential(j)
  {
    var last := |jobs| - 1;
    if id == last {
      assert jobs[id := j][..last] == jobs[..last];
    } else {
      assert jobs[id := j][..last] == jobs[..last][id := j];
      PotentialAfterUpdate(jobs[..last], id, j);
    }
  }

  /** Rows that change one by one, some gaining one. */
  lemma {:induction false} PotentialPointwise(a: Table, b: Table, p: Job -> bool)
    requires |a| == |b|
    requires forall id | 0 <= id < |a| :: RowPotential(b[id]) <= RowPotential(a[id]) + if p(a[id]) then 1 else 0
    ensures Potential(b) <= Potential(a) + |Select(a, p)|
  {
    if a != [] {
      PotentialPointwise(a[..|a| - 1], b[..|b| - 1], p);
    }
  }

  lemma {:induction false} SelectsNone(jobs: Table, p: Job -> bool)
    requires forall j :: !p(j)
    ensures Select(jobs, p) == []
  {
    if jobs != [] {
      SelectsNone(jobs[..|jobs| - 1], p);
    }
  }

  // ---------- every step ----------

  ghost predicate Pays(s: Sys, e: Event)
    requires Shaped(s) && Enabled(s, e)
  {
    ClaimsOf(s, e) + Potential(Step(s, e).jobs) <= Potential(s.jobs) + Grant(s, e)
  }

  lemma TakePays(s: Sys, e: Event)
    requires Leased(s) && Enabled(s, e) && (e.Take? || e.TakeRemote?)
    ensures Pays(s, e)
  {
    if IsBusy(Step(s, e), e.i, e.k) {
      var id := JobOf(Step(s, e), e.i, e.k);
      SlotAfterStep(s, e, e.i, e.k);
      var j := ClaimJob(s.jobs[id], s.now, s.insts[e.i].q.leaseS);
      assert Step(s, e).jobs == s.jobs[id := j];
      PotentialAfterUpdate(s.jobs, id, j);
    } else {
      assert Step(s, e).jobs == s.jobs;
    }
  }

  lemma WorkPays(s: Sys, e: Event)
    requires Leased(s) && Enabled(s, e) && (e.Beat? || e.End? || e.Die?)
    ensures Pays(s, e)
  {
    if !e.Die? {
      var id := JobOf(s, e.i, e.k);
      assert HoldsLease(s, e.i, e.k);
      var j := Step(s, e).jobs[id];
      assert Step(s, e).jobs == s.jobs[id := j];
      PotentialAfterUpdate(s.jobs, id, j);
    }
  }

  lemma EnqueuePays(s: Sys, e: Event)
    requires Leased(s) && Enabled(s, e) && e.Enqueue?
    ensures Pays(s, e)
  {
    var jobs' := Step(s, e).jobs;
    if |jobs'| > |s.jobs| {
      assert jobs'[..|s.jobs|] == s.jobs;
    }
  }

  lemma SweepPays(s: Sys, e: Event)
    requires Leased(s) && Enabled(s, e) && (e.RecoverZombies? || e.ExpireOld?)
    ensures Pays(s, e)
  {
    if e.RecoverZombies? {
      PotentialPointwise(s.jobs, Step(s, e).jobs, SpentZombieAt(s.now));
    } else {
      var never: Job -> bool := _ => false;
      SelectsNone(s.jobs, never);
      PotentialPointwise(s.jobs, Step(s, e).jobs, never);
    }
  }

  lemma RowPays(s: Sys, e: Event)
    requires Leased(s) && Enabled(s, e) && (e.RequeueDead? || e.CancelJob?)
    ensures Pays(s, e)
  {
    if e.id < |s.jobs| {
      var j := Step(s, e).jobs[e.id];
      assert Step(s, e).jobs == s.jobs[e.id := j];
      PotentialAfterUpdate(s.jobs, e.id, j);
    }
  }

  lemma StepPays(s: Sys, e: Event)
    requires Leased(s) && Enabled(s, e)
    ensures Pays(s, e)
  {
    match e
    case Enqueue(_, _) => EnqueuePays(s, e);
    case Take(_, _, _) => TakePays(s, e);
    case TakeRemote(_, _, _) => TakePays(s, e);
    case Beat(_, _) => WorkPays(s, e);
    case End(_, _, _) => WorkPays(s, e);
    case Die(_, _) => WorkPays(s, e);
    case RecoverZombies(_) => SweepPays(s, e);
    case ExpireOld(_, _) => SweepPays(s, e);
    case RequeueDead(_, _) => RowPays(s, e);
    case CancelJob(_, _) => RowPays(s, e);
    case Crash(_) =>
    case Tick(_) =>
  }

  // ---------- every run ----------

  ghost function ClaimsIn(s: Sys, es: seq<Event>): nat
    requires Shaped(s) && Legal(s, es)
    decreases |es|
  {
    if es == [] then 0 else StepKeepsShape(s, es[0]); ClaimsOf(s, es[0]) + ClaimsIn(Step(s, es[0]), es[1..])
  }

  ghost function GrantsIn(s: Sys, es: seq<Event>): nat
    requires Shaped(s) && Legal(s, es)
    decreases |es|
  {
    if es == [] then 0 else StepKeepsShape(s, es[0]); Grant(s, es[0]) + GrantsIn(Step(s, es[0]), es[1..])
  }

  /** In every timely run, claims of all workers and instances together, and the claims still possible
  at its end, are at most those possible at its start and those granted on the way: the attempts of
  each enqueued or requeued job, and one for each job taken back that had none left. */
  lemma {:induction false} ClaimsAreGranted(s: Sys, es: seq<Event>)
    requires Leased(s) && Legal(s, es) && Timely(s, es)
    ensures ClaimsIn(s, es) + Potential(Run(s, es).jobs) <= Potential(s.jobs) + GrantsIn(s, es)
    decreases |es|
  {
    if es != [] {
      StepPays(s, es[0]);
      StepKeepsLeased(s, es[0]);
      ClaimsAreGranted(Step(s, es[0]), es[1..]);
    }
  }
}
