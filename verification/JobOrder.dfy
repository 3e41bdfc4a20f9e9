/** A heap hands jobs out in the order they were pushed, over every run: as long as the earlier one waits,
its instance never pops one pushed later at the same or a lesser urgency. What other instances and claims
from the shared table do is the matter of JobTurns. */
module JobOrder {
  import opened Options
  import opened JobTable
  import opened JobIndex
  import opened JobSystem
  import opened JobListing

  /** In the heap of its type the entry stands before every entry of row b. */
  ghost predicate AheadIn(q: Queue, t: string, ea: Entry, b: JobId) {
    && ea.id != b && ea in HeapOf(q, t)
    && forall e | e in HeapOf(q, t) && e.id == b :: Before(ea, e)
  }

  /** Row b is of that type and no more urgent, so that any push of it goes behind. */
  ghost predicate NoMoreUrgent(jobs: Table, t: string, ea: Entry, b: JobId) {
    && b < |jobs| && jobs[b].jobType == t && jobs[b].priority >= ea.priority
    && ea.id < |jobs| && jobs[ea.id].jobType == t
  }

  ghost predicate AheadAt(s: Sys, i: nat, t: string, ea: Entry, b: JobId) {
    i < |s.insts| && NoMoreUrgent(s.jobs, t, ea, b) && AheadIn(s.insts[i].q, t, ea, b)
  }

  // ---------- one queue operation ----------

  lemma PushKeepsAhead(q: Queue, jobs: Table, id: JobId, t: string, ea: Entry, b: JobId)
    requires ValidQueue(q) && AheadIn(q, t, ea, b) && NoMoreUrgent(jobs, t, ea, b)
    ensures AheadIn(PushJob(q, jobs, id), t, ea, b)
  {
    assert ea.seqNo < q.nextSeq;
  }

  lemma {:induction false} PushAllKeepsAhead(q: Queue, jobs: Table, ids: seq<JobId>, t: string, ea: Entry, b: JobId)
    requires ValidQueue(q) && AheadIn(q, t, ea, b) && NoMoreUrgent(jobs, t, ea, b)
    ensures AheadIn(PushAll(q, jobs, ids), t, ea, b)
  {
    if ids != [] {
      var init := ids[..|ids| - 1];
      PushAllKeepsAhead(q, jobs, init, t, ea, b);
      PushAllValid(q, jobs, init);
      PushKeepsAhead(PushAll(q, jobs, init), jobs, ids[|ids| - 1], t, ea, b);
    }
  }

  /** While the earlier job waits, popping its heap serves it or something before it, and not row b. */
  lemma PoppingKeepsAhead(q: Queue, jobs: Table, t: string, ea: Entry, b: JobId)
    requires ValidQueue(q) && AheadIn(q, t, ea, b) && Claimable(jobs, ea.id)
    ensures var (q', found) := Next(q, t, jobs);
      found != Some(b) && (found != Some(ea.id) ==> AheadIn(q', t, ea, b))
  {
    var h := q.heaps[t];
    var i, p := FirstClaimable(h, jobs), PlaceOf(h, ea);
    assert i <= p && (i < p ==> Before(h[i], ea));
    assert h[i] in h;
    if i < p {
      assert h[i + 1..][p - i - 1] == ea;
      assert forall e | e in h[i + 1..] :: e in h;
    }
  }

  function PlaceOf(h: Heap, e: Entry): (p: nat)
    requires e in h
    ensures p < |h| && h[p] == e
  {
    if h[0] == e then 0 else 1 + PlaceOf(h[1..], e)
  }

  lemma NextKeepsAhead(q: Queue, u: string, jobs: Table, t: string, ea: Entry, b: JobId)
    requires ValidQueue(q) && AheadIn(q, t, ea, b) && NoMoreUrgent(jobs, t, ea, b) && Faithful(q, jobs)
    requires Claimable(jobs, ea.id)
    ensures var (q', found) := Next(q, u, jobs);
      found != Some(b) && (found != Some(ea.id) ==> AheadIn(q', t, ea, b))
  {
    if u == t {
      PoppingKeepsAhead(q, jobs, t, ea, b);
    } else if Next(q, u, jobs).1.Some? {
      ServedIsOfType(q, u, jobs);
    }
  }

  lemma ServedIsOfType(q: Queue, u: string, jobs: Table)
    requires Faithful(q, jobs) && Next(q, u, jobs).1.Some?
    ensures Next(q, u, jobs).1.value < |jobs| && jobs[Next(q, u, jobs).1.value].jobType == u
  {
    var h := q.heaps[u];
    assert h[FirstClaimable(h, jobs)] in h;
  }

  lemma {:induction false} DropAllKeepsAhead(q: Queue, ids: seq<JobId>, t: string, ea: Entry, b: JobId)
    requires AheadIn(q, t, ea, b) && ea.id !in ids
    ensures AheadIn(DropAll(q, ids), t, ea, b)
  {
    if ids != [] {
      var init, last := ids[..|ids| - 1], ids[|ids| - 1];
      assert forall id | id in init :: id in ids;
      DropAllKeepsAhead(q, init, t, ea, b);
      assert last in ids;
    }
  }

  // ---------- every step ----------

  /** The step is a claim by instance i from its own heaps that hands row b to its worker. */
  ghost predicate Serves(s: Sys, e: Event, i: nat, b: JobId)
    requires Shaped(s) && Enabled(s, e)
  {
    e.Take? && e.i == i && IsBusy(Step(s, e), i, e.k) && JobOf(Step(s, e), i, e.k) == b
  }

  lemma TakeKeepsAhead(s: Sys, e: Event, t: string, ea: Entry, b: JobId)
    requires Indexed(s) && Enabled(s, e) && e.Take? && AheadAt(s, e.i, t, ea, b) && IsPending(s.jobs[ea.id])
    requires ea.id < |Step(s, e).jobs| && IsPending(Step(s, e).jobs[ea.id])
    ensures AheadIn(Step(s, e).insts[e.i].q, t, ea, b) && !Serves(s, e, e.i, b)
  {
    var q := s.insts[e.i].q;
    var u := if e.jobType.Some? then e.jobType else BestType(q.types, q.heaps);
    if u.Some? {
      NextKeepsAhead(q, u.value, s.jobs, t, ea, b);
    }
  }

  lemma EndKeepsAhead(s: Sys, e: Event, t: string, ea: Entry, b: JobId)
    requires Indexed(s) && Enabled(s, e) && e.End? && AheadAt(s, e.i, t, ea, b)
    ensures AheadIn(Step(s, e).insts[e.i].q, t, ea, b)
  {
    var q, jobs', id := s.insts[e.i].q, Step(s, e).jobs, JobOf(s, e.i, e.k);
    RowsAfterStep(s, e);
    PushKeepsAhead(q, jobs', id, t, ea, b);
    assert Step(s, e).insts[e.i].q == q || Step(s, e).insts[e.i].q == PushJob(q, jobs', id);
  }

  lemma PushStepKeepsAhead(s: Sys, e: Event, t: string, ea: Entry, b: JobId)
    requires Indexed(s) && Enabled(s, e) && (e.Enqueue? || e.RecoverZombies? || e.RequeueDead?)
    requires AheadAt(s, e.i, t, ea, b)
    ensures AheadIn(Step(s, e).insts[e.i].q, t, ea, b)
  {
    var q, jobs' := s.insts[e.i].q, Step(s, e).jobs;
    RowsAfterStep(s, e);
    assert NoMoreUrgent(jobs', t, ea, b);
    match e
    case Enqueue(i, r) =>
      if |jobs'| > |s.jobs| {
        PushKeepsAhead(q, jobs', |s.jobs|, t, ea, b);
      }
    case RecoverZombies(i) => PushAllKeepsAhead(q, jobs', Select(s.jobs, ZombieAt(s.now)), t, ea, b);
    case RequeueDead(i, id) => PushKeepsAhead(q, jobs', id, t, ea, b);
  }

  lemma DropStepKeepsAhead(s: Sys, e: Event, t: string, ea: Entry, b: JobId)
    requires Indexed(s) && Enabled(s, e) && (e.CancelJob? || e.ExpireOld?) && AheadAt(s, e.i, t, ea, b)
    requires ea.id < |Step(s, e).jobs| && IsPending(Step(s, e).jobs[ea.id])
    ensures AheadIn(Step(s, e).insts[e.i].q, t, ea, b)
  {
    if e.ExpireOld? {
      DropAllKeepsAhead(s.insts[e.i].q, Select(s.jobs, OverdueAt(s.now, e.ttl)), t, ea, b);
    }
  }

  lemma StepKeepsAhead(s: Sys, e: Event, i: nat, t: string, ea: Entry, b: JobId)
    requires Indexed(s) && Enabled(s, e) && AheadAt(s, i, t, ea, b) && IsPending(s.jobs[ea.id]) && e != Crash(i)
    requires ea.id < |Step(s, e).jobs| && IsPending(Step(s, e).jobs[ea.id])
    ensures AheadAt(Step(s, e), i, t, ea, b) && !Serves(s, e, i, b)
  {
    RowsAfterStep(s, e);
    if !e.Tick? {
      OthersAfterStep(s, e);
    }
    if e.Take? && e.i == i {
      TakeKeepsAhead(s, e, t, ea, b);
    } else if (e.Enqueue? || e.RecoverZombies? || e.RequeueDead?) && e.i == i {
      PushStepKeepsAhead(s, e, t, ea, b);
    } else if e.End? && e.i == i {
      EndKeepsAhead(s, e, t, ea, b);
    } else if (e.CancelJob? || e.ExpireOld?) && e.i == i {
      DropStepKeepsAhead(s, e, t, ea, b);
    }
  }

  // ---------- every run ----------

  /** Row a waits throughout, and the instance does not crash. */
  ghost predicate WaitsThroughout(s: Sys, es: seq<Event>, i: nat, a: JobId)
    requires Shaped(s) && Legal(s, es)
    decreases |es|
  {
    && a < |s.jobs| && IsPending(s.jobs[a])
    && (es == [] || (es[0] != Crash(i) && (StepKeepsShape(s, es[0]); WaitsThroughout(Step(s, es[0]), es[1..], i, a))))
  }

  /** No claim by instance i from its own heaps ever hands row b to a worker. */
  ghost predicate NeverServes(s: Sys, es: seq<Event>, i: nat, b: JobId)
    requires Shaped(s) && Legal(s, es)
    decreases |es|
  {
    es == [] ||
    (!Serves(s, es[0], i, b) && (StepKeepsShape(s, es[0]); NeverServes(Step(s, es[0]), es[1..], i, b)))
  }

  /** Over every run, whatever is retried, requeued, recovered, cancelled or claimed elsewhere: while
  the earlier job waits and its instance lives, that instance pops no job that is behind it. */
  lemma {:induction false} ClaimedInOrder(s: Sys, es: seq<Event>, i: nat, t: string, ea: Entry, b: JobId)
    requires Indexed(s) && Legal(s, es) && AheadAt(s, i, t, ea, b) && WaitsThroughout(s, es, i, ea.id)
    ensures AheadAt(Run(s, es), i, t, ea, b) && NeverServes(s, es, i, b)
    decreases |es|
  {
    if es != [] {
      var s' := Step(s, es[0]);
      StepKeepsShape(s, es[0]);
      assert WaitsThroughout(s', es[1..], i, ea.id);
      StepKeepsAhead(s, es[0], i, t, ea, b);
      StepKeepsIndexed(s, es[0]);
      ClaimedInOrder(s', es[1..], i, t, ea, b);
    }
  }

  /** A job enqueued while another of its type and at least its urgency is listed is behind it. */
  lemma EnqueuedBehind(s: Sys, i: nat, r: Request, ea: Entry)
    requires Indexed(s) && i < |s.insts| && |Step(s, Enqueue(i, r)).jobs| > |s.jobs|
    requires ea in HeapOf(s.insts[i].q, r.jobType) && r.priority >= ea.priority
    ensures AheadAt(Step(s, Enqueue(i, r)), i, r.jobType, ea, |s.jobs|)
  {
    var q, b := s.insts[i].q, |s.jobs|;
    RowsAfterStep(s, Enqueue(i, r));
    assert Names(ea, r.jobType, s.jobs);
    forall e | e in HeapOf(q, r.jobType) ensures e.id != b {
      assert Names(e, r.jobType, s.jobs);
    }
    assert ea.seqNo < q.nextSeq;
  }

  /** So one instance pops jobs of one type and urgency in the order they were enqueued there: the later
  one not before the earlier one has stopped waiting, on any run that follows. */
  lemma EnqueueOrderIsClaimOrder(s: Sys, i: nat, r: Request, ea: Entry, es: seq<Event>)
    requires Indexed(s) && i < |s.insts| && |Step(s, Enqueue(i, r)).jobs| > |s.jobs|
    requires ea in HeapOf(s.insts[i].q, r.jobType) && r.priority == ea.priority
    requires Shaped(Step(s, Enqueue(i, r))) && Legal(Step(s, Enqueue(i, r)), es)
    requires WaitsThroughout(Step(s, Enqueue(i, r)), es, i, ea.id)
    ensures NeverServes(Step(s, Enqueue(i, r)), es, i, |s.jobs|)
  {
    EnqueuedBehind(s, i, r, ea);
    StepKeepsIndexed(s, Enqueue(i, r));
    ClaimedInOrder(Step(s, Enqueue(i, r)), es, i, r.jobType, ea, |s.jobs|);
  }
}
