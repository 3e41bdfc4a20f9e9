/** A run in which a worker is late and a finished job comes back, step by step. */
module JobLate {
  import opened Options
  import opened JobTable
  import opened JobIndex
  import opened JobSystem
  import opened JobLease

  /** One row, the heap of its type listing it or nothing, and the two workers. */
  ghost predicate Stands(s: Sys, i: nat, r: Request, j: Job, listed: bool, first: Slot, second: Slot) {
    && Shaped(s) && i < |s.insts| && |s.insts[i].slots| >= 2
    && s.jobs == [j] && j.jobType == r.jobType && j.maxAttempts == r.maxAttempts
    && s.insts[i].slots[0] == first && s.insts[i].slots[1] == second
    && (if listed then |HeapOf(s.insts[i].q, r.jobType)| == 1 && HeapOf(s.insts[i].q, r.jobType)[0].id == 0
        else HeapOf(s.insts[i].q, r.jobType) == [])
  }

  lemma Enqueued(s: Sys, i: nat, r: Request)
    requires Initial(s) && Shaped(s) && i < |s.insts| && |s.insts[i].slots| >= 2
    ensures Stands(Step(s, Enqueue(i, r)), i, r, NewJob(r, s.now), true, Idle, Idle)
    ensures Step(s, Enqueue(i, r)).now == s.now
    ensures Step(s, Enqueue(i, r)).insts[i].q.leaseS == s.insts[i].q.leaseS
  {
    var e := Enqueue(i, r);
    StepKeepsShape(s, e);
    var q := s.insts[i].q;
    assert q == EmptyQueue(q.capacity, q.leaseS);
    assert Admits(q, r.priority);
  }

  lemma Taken(s: Sys, i: nat, k: nat, r: Request, j: Job, first: Slot, second: Slot)
    requires Stands(s, i, r, j, true, first, second) && IsPending(j) && k < 2
    requires (if k == 0 then first else second) == Idle
    ensures var e := Take(i, k, Some(r.jobType)); var lease := s.insts[i].q.leaseS; var busy := Busy(0, s.now + lease);
      && Enabled(s, e) && Step(s, e).now == s.now && Step(s, e).insts[i].q.leaseS == lease
      && Stands(Step(s, e), i, r, ClaimJob(j, s.now, lease), false,
                if k == 0 then busy else first, if k == 0 then second else busy)
  {
    var e := Take(i, k, Some(r.jobType));
    StepKeepsShape(s, e);
    var h := HeapOf(s.insts[i].q, r.jobType);
    assert FirstClaimable(h, s.jobs) == 0 && h[1..] == [];
  }

  lemma OnlyZombie(j: Job, now: int)
    requires IsZombie(j, now)
    ensures Select([j], ZombieAt(now)) == [0] && Recover([j], now) == [j.(state := Queued)]
  {
    assert [j][..0] == [];
  }

  lemma PushOne(q: Queue, jobs: Table, id: JobId)
    requires id < |jobs|
    ensures PushAll(q, jobs, [id]) == Push(q, jobs[id].jobType, jobs[id].priority, id)
  {
    assert [id][..0] == [];
  }

  lemma Swept(s: Sys, i: nat, r: Request, j: Job, first: Slot, second: Slot)
    requires Stands(s, i, r, j, false, first, second) && IsZombie(j, s.now)
    ensures var e := RecoverZombies(i);
      && Enabled(s, e) && Step(s, e).now == s.now && Step(s, e).insts[i].q.leaseS == s.insts[i].q.leaseS
      && Stands(Step(s, e), i, r, j.(state := Queued), true, first, second)
  {
    var s', j' := Step(s, RecoverZombies(i)), j.(state := Queued);
    StepKeepsShape(s, RecoverZombies(i));
    OnlyZombie(j, s.now);
    PushOne(s.insts[i].q, [j'], 0);
    assert s'.insts[i].q == Push(s.insts[i].q, r.jobType, j.priority, 0);
    assert s'.insts[i].slots == s.insts[i].slots && s'.jobs == [j'];
  }

  lemma Passed(s: Sys, i: nat, r: Request, j: Job, first: Slot, second: Slot, d: nat)
    requires Stands(s, i, r, j, false, first, second)
    ensures Stands(Step(s, Tick(d)), i, r, j, false, first, second)
    ensures Step(s, Tick(d)).now == s.now + d && Step(s, Tick(d)).insts == s.insts
  {
    StepKeepsShape(s, Tick(d));
  }

  lemma Succeeds(s: Sys, i: nat, r: Request, j: Job, first: Slot, deadline: int)
    requires Stands(s, i, r, j, false, first, Busy(0, deadline))
    ensures var e := End(i, 1, None);
      Enabled(s, e) && Stands(Step(s, e), i, r, j.(state := Succeeded), false, first, Idle)
  {
    StepKeepsShape(s, End(i, 1, None));
  }

  /** One more event at the end of a run, in time or not. */
  lemma {:induction false} TimelyOneMore(s: Sys, es: seq<Event>, e: Event)
    requires Shaped(s) && Legal(s, es) && Enabled(Run(s, es), e)
    ensures Legal(s, es + [e]) && Run(s, es + [e]) == Step(Run(s, es), e)
    ensures Timely(s, es + [e]) ==> Timely(s, es) && TimelyStep(Run(s, es), e)
    decreases |es|
  {
    if es == [] {
      StepKeepsShape(s, e);
      assert ([] + [e])[1..] == [];
    } else {
      StepKeepsShape(s, es[0]);
      TimelyOneMore(Step(s, es[0]), es[1..], e);
      assert (es + [e])[1..] == es[1..] + [e];
    }
  }

  function FirstClaims(i: nat, r: Request): seq<Event> {
    [] + [Enqueue(i, r)] + [Take(i, 0, Some(r.jobType))]
  }

  function SweptAndDone(i: nat, r: Request, es: seq<Event>): seq<Event> {
    es + [RecoverZombies(i)] + [Take(i, 1, Some(r.jobType))] + [End(i, 1, None)]
  }

  /** A claim, silence past the lease, a sweep, a second claim and its success. */
  function SecondWorkerWins(i: nat, r: Request, d: nat): seq<Event> {
    SweptAndDone(i, r, FirstClaims(i, r) + [Tick(d)])
  }

  /** A legal run, not in time, behind which the job is done and the late worker still at it. */
  ghost predicate DoneBehindLate(s: Sys, es: seq<Event>, i: nat, r: Request)
    requires Shaped(s)
  {
    && Legal(s, es) && !Timely(s, es)
    && exists j: Job, deadline: int ::
         j.attempts == 2 && j.state == Succeeded && Stands(Run(s, es), i, r, j, false, Busy(0, deadline), Idle)
  }

  lemma RunsEnqueued(s: Sys, i: nat, r: Request)
    requires Initial(s) && Shaped(s) && i < |s.insts| && |s.insts[i].slots| >= 2
    ensures var es := [] + [Enqueue(i, r)];
      && Legal(s, es) && Run(s, es).now == s.now
      && Stands(Run(s, es), i, r, NewJob(r, s.now), true, Idle, Idle)
      && Run(s, es).insts[i].q.leaseS == s.insts[i].q.leaseS
  {
    TimelyOneMore(s, [], Enqueue(i, r));
    Enqueued(s, i, r);
  }

  lemma RunsTaken(s: Sys, es: seq<Event>, i: nat, r: Request, j: Job, now: int, lease: int)
    requires Shaped(s) && Legal(s, es) && Stands(Run(s, es), i, r, j, true, Idle, Idle) && IsPending(j)
    requires Run(s, es).now == now && Run(s, es).insts[i].q.leaseS == lease
    ensures var es' := es + [Take(i, 0, Some(r.jobType))];
      && Legal(s, es') && Run(s, es').now == now
      && Stands(Run(s, es'), i, r, ClaimJob(j, now, lease), false, Busy(0, now + lease), Idle)
  {
    Taken(Run(s, es), i, 0, r, j, Idle, Idle);
    TimelyOneMore(s, es, Take(i, 0, Some(r.jobType)));
  }

  lemma FirstWorkerStarts(s: Sys, i: nat, r: Request)
    requires Initial(s) && Shaped(s) && i < |s.insts| && |s.insts[i].slots| >= 2
    ensures var es := FirstClaims(i, r); var lease := s.insts[i].q.leaseS;
      && Legal(s, es) && Run(s, es).now == s.now
      && Stands(Run(s, es), i, r, ClaimJob(NewJob(r, s.now), s.now, lease), false, Busy(0, s.now + lease), Idle)
  {
    RunsEnqueued(s, i, r);
    RunsTaken(s, [] + [Enqueue(i, r)], i, r, NewJob(r, s.now), s.now, s.insts[i].q.leaseS);
  }

  lemma FirstWorkerIsLate(s: Sys, i: nat, r: Request, es: seq<Event>, j: Job, late: Slot, d: nat)
    requires Shaped(s) && Legal(s, es) && Stands(Run(s, es), i, r, j, false, late, Idle)
    requires j.state == Running && late.Busy? && j.lease == Some(late.deadline) && Run(s, es).now + d > late.deadline
    ensures var es' := es + [Tick(d)];
      && Legal(s, es') && !Timely(s, es')
      && Stands(Run(s, es'), i, r, j, false, late, Idle) && IsZombie(j, Run(s, es').now)
  {
    var s2 := Run(s, es);
    Passed(s2, i, r, j, late, Idle, d);
    TimelyOneMore(s, es, Tick(d));
    assert IsBusy(s2, i, 0) && !TimelyStep(s2, Tick(d));
  }

  lemma RunsSwept(s: Sys, es: seq<Event>, i: nat, r: Request, j: Job, late: Slot)
    requires Shaped(s) && Legal(s, es) && Stands(Run(s, es), i, r, j, false, late, Idle) && IsZombie(j, Run(s, es).now)
    ensures var es' := es + [RecoverZombies(i)];
      && Legal(s, es') && (Timely(s, es') ==> Timely(s, es))
      && Stands(Run(s, es'), i, r, j.(state := Queued), true, late, Idle)
  {
    Swept(Run(s, es), i, r, j, late, Idle);
    TimelyOneMore(s, es, RecoverZombies(i));
  }

  lemma RunsDone(s: Sys, es: seq<Event>, i: nat, r: Request, j: Job, late: Slot)
    requires Shaped(s) && Legal(s, es) && !Timely(s, es) && Stands(Run(s, es), i, r, j, true, late, Idle)
    requires IsPending(j) && j.attempts == 1 && late.Busy? && late.job == 0
    ensures DoneBehindLate(s, es + [Take(i, 1, Some(r.jobType))] + [End(i, 1, None)], i, r)
  {
    var s4 := Run(s, es);
    Taken(s4, i, 1, r, j, late, Idle);
    TimelyOneMore(s, es, Take(i, 1, Some(r.jobType)));
    var es5, lease := es + [Take(i, 1, Some(r.jobType))], s4.insts[i].q.leaseS;
    var j5 := ClaimJob(j, s4.now, lease);
    Succeeds(Run(s, es5), i, r, j5, late, s4.now + lease);
    TimelyOneMore(s, es5, End(i, 1, None));
    assert Stands(Run(s, es5 + [End(i, 1, None)]), i, r, j5.(state := Succeeded), false, Busy(0, late.deadline), Idle);
  }

  /** From the sweep on, after any run that has left a late worker behind. */
  lemma LateWorkerIsSwept(s: Sys, i: nat, r: Request, es: seq<Event>, j: Job, late: Slot)
    requires Shaped(s) && Legal(s, es) && !Timely(s, es) && Stands(Run(s, es), i, r, j, false, late, Idle)
    requires IsZombie(j, Run(s, es).now) && j.attempts == 1 && late.Busy? && late.job == 0
    ensures DoneBehindLate(s, SweptAndDone(i, r, es), i, r)
  {
    RunsSwept(s, es, i, r, j, late);
    RunsDone(s, es + [RecoverZombies(i)], i, r, j.(state := Queued), late);
  }

  lemma SecondWorkerDoesWin(s: Sys, i: nat, r: Request, d: nat)
    requires Initial(s) && Shaped(s) && i < |s.insts| && |s.insts[i].slots| >= 2 && d > s.insts[i].q.leaseS
    ensures DoneBehindLate(s, SecondWorkerWins(i, r, d), i, r)
  {
    var es, now, lease := FirstClaims(i, r), s.now, s.insts[i].q.leaseS;
    var j, late := ClaimJob(NewJob(r, now), now, lease), Busy(0, now + lease);
    FirstWorkerStarts(s, i, r);
    FirstWorkerIsLate(s, i, r, es, j, late, d);
    LateWorkerIsSwept(s, i, r, es + [Tick(d)], j, late);
  }

  /** From any initial state, with any queue of two workers and any job of more than two attempts:
  the job succeeds, and the end of the worker that was late makes it wait again. */
  lemma FinishedJobComesBack(s: Sys, i: nat, r: Request, d: nat, error: string)
    requires Initial(s) && Shaped(s) && i < |s.insts| && |s.insts[i].slots| >= 2 && d > s.insts[i].q.leaseS
    requires r.maxAttempts > 2
    ensures var es := SecondWorkerWins(i, r, d); var last := End(i, 0, Some(error));
      && Legal(s, es) && !Timely(s, es) && |Run(s, es).jobs| == 1 && Run(s, es).jobs[0].state == Succeeded
      && Legal(s, es + [last]) && |Run(s, es + [last]).jobs| == 1 && IsPending(Run(s, es + [last]).jobs[0])
  {
    SecondWorkerDoesWin(s, i, r, d);
    LateEndRevives(s, SecondWorkerWins(i, r, d), i, r, error);
  }

  lemma LateEndRevives(s: Sys, es: seq<Event>, i: nat, r: Request, error: string)
    requires Shaped(s) && DoneBehindLate(s, es, i, r) && r.maxAttempts > 2
    ensures var last := End(i, 0, Some(error));
      && |Run(s, es).jobs| == 1 && Run(s, es).jobs[0].state == Succeeded
      && Legal(s, es + [last]) && |Run(s, es + [last]).jobs| == 1 && IsPending(Run(s, es + [last]).jobs[0])
  {
    var s6 := Run(s, es);
    assert IsBusy(s6, i, 0) && JobOf(s6, i, 0) == 0;
    TimelyOneMore(s, es, End(i, 0, Some(error)));
    LateFailureRevives(s6, i, 0, error);
  }
}
