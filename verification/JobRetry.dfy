/** A run in which a retried job is claimed from the shared table, by an instance that lists nothing, although
another job of its type and priority stands before it in the heap of its own instance. */
module JobRetry {
  import opened Options
  import opened JobTable
  import opened JobIndex
  import opened JobSystem
  import opened JobOrder
  import opened JobTurns

  /** Two instances, each with a worker. */
  ghost predicate TwoInstances(s: Sys, i: nat, m: nat) {
    i < |s.insts| && m < |s.insts| && i != m && |s.insts[i].slots| >= 1 && |s.insts[m].slots| >= 1
  }

  /** Instance i has one heap and its first worker is as given; m lists nothing and its first worker is free. */
  ghost predicate Scene(s: Sys, i: nat, m: nat, jobs: Table, t: string, h: Heap, n: nat, first: Slot) {
    && Shaped(s) && TwoInstances(s, i, m)
    && s.insts[i].slots[0] == first
    && s.insts[m].slots[0] == Idle && s.insts[m].q.types == []
    && s.jobs == jobs
    && s.insts[i].q.types == [t] && s.insts[i].q.heaps == map[t := h] && s.insts[i].q.nextSeq == n
  }

  lemma PushOnly(q: Queue, t: string, h: Heap, priority: int, id: JobId)
    requires q.types == [t] && q.heaps == map[t := h] && forall e | e in h :: Before(e, Entry(priority, q.nextSeq, id))
    ensures var q' := Push(q, t, priority, id);
      q'.types == [t] && q'.heaps == map[t := h + [Entry(priority, q.nextSeq, id)]]
  {
    PushLast(h, Entry(priority, q.nextSeq, id));
    assert Push(q, t, priority, id).heaps[t] == h + [Entry(priority, q.nextSeq, id)];
  }

  lemma {:induction false} PushLast(h: Heap, e: Entry)
    requires forall x | x in h :: Before(x, e)
    ensures PushHeap(h, e) == h + [e]
  {
    if h != [] {
      assert h[0] in h && forall x | x in h[1..] :: x in h;
      PushLast(h[1..], e);
      assert h == [h[0]] + h[1..];
    }
  }

  lemma FirstEnqueued(s: Sys, i: nat, m: nat, r: Request)
    requires Initial(s) && Shaped(s) && TwoInstances(s, i, m)
    ensures var e := Enqueue(i, r);
      && Scene(Step(s, e), i, m, [NewJob(r, s.now)], r.jobType, [Entry(r.priority, 0, 0)], 1, Idle)
      && Step(s, e).now == s.now
  {
    StepKeepsShape(s, Enqueue(i, r));
    OthersAfterStep(s, Enqueue(i, r));
    var q := s.insts[i].q;
    assert q == EmptyQueue(q.capacity, q.leaseS);
    assert Admits(q, r.priority);
    PushFirst(q, r.jobType, r.priority);
  }

  lemma PushFirst(q: Queue, t: string, priority: int)
    requires q == EmptyQueue(q.capacity, q.leaseS)
    ensures Push(q, t, priority, 0).types == [t] && Push(q, t, priority, 0).heaps == map[t := [Entry(priority, 0, 0)]]
  {
    assert HeapOf(q, t) == [];
    PushLast([], Entry(priority, 0, 0));
    assert PushHeap([], Entry(priority, 0, 0)) == [Entry(priority, 0, 0)];
    assert map[][t := [Entry(priority, 0, 0)]] == map[t := [Entry(priority, 0, 0)]];
  }

  lemma FirstTaken(s: Sys, i: nat, m: nat, t: string, j: Job, e: Entry)
    requires Scene(s, i, m, [j], t, [e], 1, Idle) && e.id == 0 && IsPending(j)
    ensures var take := Take(i, 0, Some(t)); var lease := s.insts[i].q.leaseS;
      && Enabled(s, take) && Step(s, take).now == s.now
      && Scene(Step(s, take), i, m, [ClaimJob(j, s.now, lease)], t, [], 1, Busy(0, s.now + lease))
  {
    StepKeepsShape(s, Take(i, 0, Some(t)));
    OthersAfterStep(s, Take(i, 0, Some(t)));
    assert FirstClaimable([e], s.jobs) == 0 && [e][1..] == [];
  }

  lemma TimePassed(s: Sys, i: nat, m: nat, t: string, j: Job, first: Slot, d: nat)
    requires Scene(s, i, m, [j], t, [], 1, first)
    ensures Scene(Step(s, Tick(d)), i, m, [j], t, [], 1, first) && Step(s, Tick(d)).now == s.now + d
  {
    StepKeepsShape(s, Tick(d));
  }

  lemma SecondEnqueued(s: Sys, i: nat, m: nat, r: Request, j: Job, first: Slot)
    requires Scene(s, i, m, [j], r.jobType, [], 1, first) && r.dedupe.None?
    ensures var e := Enqueue(i, r);
      Scene(Step(s, e), i, m, [j, NewJob(r, s.now)], r.jobType, [Entry(r.priority, 1, 1)], 2, first)
  {
    StepKeepsShape(s, Enqueue(i, r));
    OthersAfterStep(s, Enqueue(i, r));
    PushOnly(s.insts[i].q, r.jobType, [], r.priority, 1);
    assert [] + [Entry(r.priority, 1, 1)] == [Entry(r.priority, 1, 1)];
    assert PendingOver([r.jobType], map[r.jobType := []]) == 0;
    assert Admits(s.insts[i].q, r.priority);
    assert s.jobs[..0] == [];
    assert FindActive(s.jobs, r).None?;
  }

  lemma FirstFailed(s: Sys, i: nat, m: nat, t: string, j: Job, k: Job, deadline: int, error: string)
    requires Scene(s, i, m, [j, k], t, [Entry(j.priority, 1, 1)], 2, Busy(0, deadline))
    requires j.jobType == t && j.attempts < j.maxAttempts
    ensures var e := End(i, 0, Some(error)); var h := [Entry(j.priority, 1, 1), Entry(j.priority, 2, 0)];
      Enabled(s, e) && Scene(Step(s, e), i, m, [FailJob(j, error), k], t, h, 3, Idle)
  {
    StepKeepsShape(s, End(i, 0, Some(error)));
    OthersAfterStep(s, End(i, 0, Some(error)));
    PushOnly(s.insts[i].q, t, [Entry(j.priority, 1, 1)], j.priority, 0);
    assert [Entry(j.priority, 1, 1)] + [Entry(j.priority, 2, 0)] == [Entry(j.priority, 1, 1), Entry(j.priority, 2, 0)];
  }

  /** The retried job is behind the other one, and a claim from the table hands it out. */
  lemma RetriedIsOvertaking(s: Sys, i: nat, m: nat, t: string, j: Job, k: Job)
    requires Scene(s, i, m, [j, k], t, [Entry(j.priority, 1, 1), Entry(j.priority, 2, 0)], 3, Idle)
    requires j.jobType == t == k.jobType && j.priority == k.priority && j.created < k.created
    requires IsPending(j) && IsPending(k)
    ensures AheadAt(s, i, t, Entry(j.priority, 1, 1), 0)
    ensures Enabled(s, TakeRemote(m, 0, None)) && Claims(s, TakeRemote(m, 0, None), 0)
  {
    var jobs, ea, eb := s.jobs, Entry(j.priority, 1, 1), Entry(j.priority, 2, 0);
    var h := [ea, eb];
    assert HeapOf(s.insts[i].q, t) == h && ea == h[0];
    assert BestPending(jobs, None) == Some(0) by {
      assert Eligible(jobs[0], None) && ServedBefore(jobs[0], jobs[1]);
    }
  }

  function FirstRetried(i: nat, r: Request, later: Request, d: nat, error: string): seq<Event> {
    [] + [Enqueue(i, r)] + [Take(i, 0, Some(r.jobType))] + [Tick(d)] + [Enqueue(i, later)] + [End(i, 0, Some(error))]
  }

  /** A legal run behind which row 1 stands before row 0 in the heap of i, and the worker of m, finding
  nothing in its own heaps, is handed row 0 from the table. */
  ghost predicate Overtaken(s: Sys, es: seq<Event>, i: nat, m: nat, t: string, ea: Entry)
    requires Shaped(s)
  {
    && Legal(s, es) && AheadAt(Run(s, es), i, t, ea, 0) && ea.id == 1
    && IsPending(Run(s, es).jobs[1]) && IsPending(Run(s, es).jobs[0])
    && Enabled(Run(s, es), Take(m, 0, None)) && Step(Run(s, es), Take(m, 0, None)) == Run(s, es)
    && Enabled(Run(s, es), TakeRemote(m, 0, None)) && Claims(Run(s, es), TakeRemote(m, 0, None), 0)
  }

  /** From any initial state: the first job fails once while the second is enqueued, and then a worker
  of another instance is given the first from the table although the heap has the second before it. */
  lemma TablePrefersRetried(s: Sys, i: nat, m: nat, r: Request, later: Request, d: nat, error: string)
    requires Initial(s) && Shaped(s) && TwoInstances(s, i, m) && d > 0
    requires r.jobType == later.jobType && r.priority == later.priority && later.dedupe.None? && r.maxAttempts > 1
    ensures Overtaken(s, FirstRetried(i, r, later, d, error), i, m, r.jobType, Entry(r.priority, 1, 1))
  {
    var lease := s.insts[i].q.leaseS;
    var j := ClaimJob(NewJob(r, s.now), s.now, lease);
    var es := FirstWaits(s, i, m, r, d);
    RetriedBehind(s, es, i, m, r, later, j, s.now + lease, error);
  }

  lemma RunsEnqueued(s: Sys, i: nat, m: nat, r: Request)
    requires Initial(s) && Shaped(s) && TwoInstances(s, i, m)
    ensures var es := [] + [Enqueue(i, r)]; var e := Entry(r.priority, 0, 0);
      && Legal(s, es) && Scene(Run(s, es), i, m, [NewJob(r, s.now)], r.jobType, [e], 1, Idle)
      && Run(s, es).now == s.now && Run(s, es).insts[i].q.leaseS == s.insts[i].q.leaseS
  {
    RunOneMore(s, [], Enqueue(i, r));
    FirstEnqueued(s, i, m, r);
    StepKeepsShape(s, Enqueue(i, r));
  }

  lemma RunsTaken(s: Sys, es: seq<Event>, i: nat, m: nat, t: string, j: Job, e: Entry, now: int, lease: int)
    requires Shaped(s) && Legal(s, es) && Scene(Run(s, es), i, m, [j], t, [e], 1, Idle) && e.id == 0 && IsPending(j)
    requires Run(s, es).now == now && Run(s, es).insts[i].q.leaseS == lease
    ensures var es' := es + [Take(i, 0, Some(t))];
      && Legal(s, es') && Run(s, es').now == now
      && Scene(Run(s, es'), i, m, [ClaimJob(j, now, lease)], t, [], 1, Busy(0, now + lease))
  {
    FirstTaken(Run(s, es), i, m, t, j, e);
    RunOneMore(s, es, Take(i, 0, Some(t)));
  }

  lemma RunsWaited(s: Sys, es: seq<Event>, i: nat, m: nat, t: string, j: Job, first: Slot, d: nat)
    requires Shaped(s) && Legal(s, es) && Scene(Run(s, es), i, m, [j], t, [], 1, first)
    ensures var es' := es + [Tick(d)];
      Legal(s, es') && Scene(Run(s, es'), i, m, [j], t, [], 1, first) && Run(s, es').now == Run(s, es).now + d
  {
    TimePassed(Run(s, es), i, m, t, j, first, d);
    RunOneMore(s, es, Tick(d));
  }

  lemma FirstWaits(s: Sys, i: nat, m: nat, r: Request, d: nat) returns (es: seq<Event>)
    requires Initial(s) && Shaped(s) && TwoInstances(s, i, m)
    ensures es == [] + [Enqueue(i, r)] + [Take(i, 0, Some(r.jobType))] + [Tick(d)]
    ensures var lease := s.insts[i].q.leaseS;
      && Legal(s, es) && Run(s, es).now == s.now + d
      && Scene(Run(s, es), i, m, [ClaimJob(NewJob(r, s.now), s.now, lease)], r.jobType, [], 1, Busy(0, s.now + lease))
  {
    var t, lease, j := r.jobType, s.insts[i].q.leaseS, NewJob(r, s.now);
    RunsEnqueued(s, i, m, r);
    es := [] + [Enqueue(i, r)];
    RunsTaken(s, es, i, m, t, j, Entry(r.priority, 0, 0), s.now, lease);
    es := es + [Take(i, 0, Some(t))];
    RunsWaited(s, es, i, m, t, ClaimJob(j, s.now, lease), Busy(0, s.now + lease), d);
    es := es + [Tick(d)];
  }

  lemma RunsSecond(s: Sys, es: seq<Event>, i: nat, m: nat, r: Request, j: Job, first: Slot)
    requires Shaped(s) && Legal(s, es) && Scene(Run(s, es), i, m, [j], r.jobType, [], 1, first) && r.dedupe.None?
    ensures var es' := es + [Enqueue(i, r)]; var k := NewJob(r, Run(s, es).now);
      Legal(s, es') && Scene(Run(s, es'), i, m, [j, k], r.jobType, [Entry(r.priority, 1, 1)], 2, first)
  {
    SecondEnqueued(Run(s, es), i, m, r, j, first);
    RunOneMore(s, es, Enqueue(i, r));
  }

  lemma RunsFailed(s: Sys, es: seq<Event>, i: nat, m: nat, t: string, j: Job, k: Job, deadline: int, error: string)
    requires Shaped(s) && Legal(s, es)
    requires Scene(Run(s, es), i, m, [j, k], t, [Entry(j.priority, 1, 1)], 2, Busy(0, deadline))
    requires j.jobType == t == k.jobType && j.priority == k.priority && j.created < k.created
    requires j.attempts < j.maxAttempts && IsPending(k)
    ensures Overtaken(s, es + [End(i, 0, Some(error))], i, m, t, Entry(j.priority, 1, 1))
  {
    FirstFailed(Run(s, es), i, m, t, j, k, deadline, error);
    RunOneMore(s, es, End(i, 0, Some(error)));
    RetriedIsOvertaking(Run(s, es + [End(i, 0, Some(error))]), i, m, t, FailJob(j, error), k);
  }

  lemma RetriedBehind(s: Sys, es: seq<Event>, i: nat, m: nat, r: Request, later: Request, j: Job, deadline: int,
      error: string)
    requires Shaped(s) && Legal(s, es) && Scene(Run(s, es), i, m, [j], r.jobType, [], 1, Busy(0, deadline))
    requires r.jobType == later.jobType == j.jobType && r.priority == later.priority == j.priority
    requires later.dedupe.None? && j.attempts < j.maxAttempts && j.created < Run(s, es).now
    ensures Overtaken(s, es + [Enqueue(i, later)] + [End(i, 0, Some(error))], i, m, r.jobType, Entry(r.priority, 1, 1))
  {
    RunsSecond(s, es, i, m, later, j, Busy(0, deadline));
    RunsFailed(s, es + [Enqueue(i, later)], i, m, r.jobType, j, NewJob(later, Run(s, es).now), deadline, error);
  }
}
