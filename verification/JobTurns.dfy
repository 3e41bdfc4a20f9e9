/** No instance at all, by its heap or from the shared table, claims a job out of turn: a fresh job that was
enqueued behind an earlier one of its type and priority stays untouched for as long as that one waits. */
module JobTurns {
  import opened Options
  import opened JobTable
  import opened JobIndex
  import opened JobSystem
  import opened JobListing
  import opened JobOrder

  ghost predicate Unlisted(q: Queue, b: JobId) {
    forall t, e | t in q.heaps && e in q.heaps[t] :: e.id != b
  }

  ghost predicate Unheld(s: Sys, b: JobId) {
    forall j: nat, k: nat | IsBusy(s, j, k) :: JobOf(s, j, k) != b
  }

  /** The row was never claimed, and no sweep or requeue concerns it. */
  predicate Unclaimed(j: Job) {
    j.attempts == 0 && j.state != Running && j.state != DeadLetter
  }

  /** Row b stands behind row a in the only heap that lists it and in the order of the table, and no
  worker has ever had it. */
  ghost predicate Untouched(s: Sys, i: nat, t: string, ea: Entry, b: JobId) {
    && AheadAt(s, i, t, ea, b) && ServedBefore(s.jobs[ea.id], s.jobs[b])
    && Unclaimed(s.jobs[b]) && Unheld(s, b)
    && forall j | 0 <= j < |s.insts| && j != i :: Unlisted(s.insts[j].q, b)
  }

  // ---------- one queue operation ----------

  lemma PushUnlisted(q: Queue, t: string, priority: int, id: JobId, b: JobId)
    requires Unlisted(q, b) && id != b
    ensures Unlisted(Push(q, t, priority, id), b)
  {
  }

  lemma {:induction false} PushAllUnlisted(q: Queue, jobs: Table, ids: seq<JobId>, b: JobId)
    requires Unlisted(q, b) && b !in ids
    ensures Unlisted(PushAll(q, jobs, ids), b)
  {
    if ids != [] {
      var init, last := ids[..|ids| - 1], ids[|ids| - 1];
      assert last in ids && forall id | id in init :: id in ids;
      PushAllUnlisted(q, jobs, init, b);
    }
  }

  lemma NextUnlisted(q: Queue, t: string, jobs: Table, b: JobId)
    requires Unlisted(q, b)
    ensures Unlisted(Next(q, t, jobs).0, b) && Next(q, t, jobs).1 != Some(b)
  {
    if t in q.heaps {
      var h := q.heaps[t];
      var i := FirstClaimable(h, jobs);
      if i < |h| {
        assert h[i] in h && forall e | e in h[i + 1..] :: e in h;
      }
    }
  }

  lemma {:induction false} DropAllUnlisted(q: Queue, ids: seq<JobId>, b: JobId)
    requires Unlisted(q, b)
    ensures Unlisted(DropAll(q, ids), b)
  {
    if ids != [] {
      DropAllUnlisted(q, ids[..|ids| - 1], b);
    }
  }

  // ---------- every step ----------

  /** The step is a claim, by whichever instance and way, that hands row b to a worker. */
  ghost predicate Claims(s: Sys, e: Event, b: JobId)
    requires Shaped(s) && Enabled(s, e)
  {
    (e.Take? || e.TakeRemote?) && IsBusy(Step(s, e), e.i, e.k) && JobOf(Step(s, e), e.i, e.k) == b
  }

  /** A poll of the table never prefers b to a. */
  lemma RemoteTakesNot(s: Sys, e: Event, i: nat, t: string, ea: Entry, b: JobId)
    requires Shaped(s) && Enabled(s, e) && e.TakeRemote? && Untouched(s, i, t, ea, b) && IsPending(s.jobs[ea.id])
    ensures !Claims(s, e, b)
  {
    var best := BestPending(s.jobs, e.jobType);
    if best == Some(b) {
      assert Eligible(s.jobs[ea.id], e.jobType);
    }
  }

  lemma TakesNot(s: Sys, e: Event, i: nat, t: string, ea: Entry, b: JobId)
    requires Indexed(s) && Enabled(s, e) && e.Take? && Untouched(s, i, t, ea, b) && IsPending(s.jobs[ea.id])
    requires ea.id < |Step(s, e).jobs| && IsPending(Step(s, e).jobs[ea.id])
    ensures !Claims(s, e, b)
  {
    if e.i == i {
      StepKeepsAhead(s, e, i, t, ea, b);
    } else {
      var q := s.insts[e.i].q;
      var u := if e.jobType.Some? then e.jobType else BestType(q.types, q.heaps);
      if u.Some? {
        NextUnlisted(q, u.value, s.jobs, b);
      }
    }
  }

  lemma ClaimsNot(s: Sys, e: Event, i: nat, t: string, ea: Entry, b: JobId)
    requires Indexed(s) && Enabled(s, e) && Untouched(s, i, t, ea, b) && IsPending(s.jobs[ea.id]) && e != Crash(i)
    requires ea.id < |Step(s, e).jobs| && IsPending(Step(s, e).jobs[ea.id])
    ensures !Claims(s, e, b)
  {
    if e.Take? {
      TakesNot(s, e, i, t, ea, b);
    } else if e.TakeRemote? {
      RemoteTakesNot(s, e, i, t, ea, b);
    }
  }

  lemma StaysUnheld(s: Sys, e: Event, b: JobId)
    requires Shaped(s) && Enabled(s, e) && Unheld(s, b) && !Claims(s, e, b)
    ensures Unheld(Step(s, e), b)
  {
    SlotsAfterStep(s, e);
  }

  /** What a worker does to the rows it does not have. */
  lemma WorkStaysUnclaimed(s: Sys, e: Event, b: JobId)
    requires Shaped(s) && Enabled(s, e) && (e.Take? || e.TakeRemote? || e.Beat? || e.End? || e.Die?)
    requires b < |s.jobs| && Unclaimed(s.jobs[b]) && Unheld(s, b) && !Claims(s, e, b)
    ensures b < |Step(s, e).jobs| && Step(s, e).jobs[b] == s.jobs[b]
  {
  }

  lemma StaysUnclaimed(s: Sys, e: Event, b: JobId)
    requires Shaped(s) && Enabled(s, e)
    requires b < |s.jobs| && Unclaimed(s.jobs[b]) && Unheld(s, b) && !Claims(s, e, b)
    ensures b < |Step(s, e).jobs| && Unclaimed(Step(s, e).jobs[b])
  {
    if e.Take? || e.TakeRemote? || e.Beat? || e.End? || e.Die? {
      WorkStaysUnclaimed(s, e, b);
    }
  }

  lemma WorkStaysUnlisted(s: Sys, e: Event, b: JobId)
    requires Shaped(s) && Enabled(s, e) && (e.Take? || e.TakeRemote? || e.Beat? || e.End? || e.Die?)
    requires Unheld(s, b) && Unlisted(s.insts[e.i].q, b)
    ensures |Step(s, e).insts| == |s.insts| && Unlisted(Step(s, e).insts[e.i].q, b)
  {
    var q := s.insts[e.i].q;
    if e.Take? {
      var u := if e.jobType.Some? then e.jobType else BestType(q.types, q.heaps);
      if u.Some? {
        NextUnlisted(q, u.value, s.jobs, b);
      }
    } else if e.End? {
      var id := JobOf(s, e.i, e.k);
      PushUnlisted(q, s.jobs[id].jobType, s.jobs[id].priority, id, b);
    }
  }

  lemma ActorStaysUnlisted(s: Sys, e: Event, b: JobId)
    requires Shaped(s) && Enabled(s, e) && !e.Tick?
    requires b < |s.jobs| && Unclaimed(s.jobs[b]) && Unheld(s, b) && Unlisted(s.insts[e.i].q, b)
    ensures |Step(s, e).insts| == |s.insts| && Unlisted(Step(s, e).insts[e.i].q, b)
  {
    var q := s.insts[e.i].q;
    match e
    case Enqueue(_, r) => PushUnlisted(q, r.jobType, r.priority, |s.jobs|, b);
    case RecoverZombies(_) => PushAllUnlisted(q, Recover(s.jobs, s.now), Select(s.jobs, ZombieAt(s.now)), b);
    case RequeueDead(_, id) =>
      if Requeueable(s.jobs, id) {
        PushUnlisted(q, s.jobs[id].jobType, s.jobs[id].priority, id, b);
      }
    case CancelJob(_, _) =>
    case ExpireOld(_, ttl) => DropAllUnlisted(q, Select(s.jobs, OverdueAt(s.now, ttl)), b);
    case Crash(_) =>
    case _ => WorkStaysUnlisted(s, e, b);
  }

  lemma OthersStayUnlisted(s: Sys, e: Event, i: nat, b: JobId)
    requires Shaped(s) && Enabled(s, e) && i < |s.insts|
    requires b < |s.jobs| && Unclaimed(s.jobs[b]) && Unheld(s, b)
    requires forall j | 0 <= j < |s.insts| && j != i :: Unlisted(s.insts[j].q, b)
    ensures |Step(s, e).insts| == |s.insts|
    ensures forall j | 0 <= j < |s.insts| && j != i :: Unlisted(Step(s, e).insts[j].q, b)
  {
    if !e.Tick? {
      OthersAfterStep(s, e);
      if e.i != i {
        ActorStaysUnlisted(s, e, b);
      }
    }
  }

  lemma StepKeepsUntouched(s: Sys, e: Event, i: nat, t: string, ea: Entry, b: JobId)
    requires Indexed(s) && Enabled(s, e) && Untouched(s, i, t, ea, b) && IsPending(s.jobs[ea.id]) && e != Crash(i)
    requires ea.id < |Step(s, e).jobs| && IsPending(Step(s, e).jobs[ea.id])
    ensures Untouched(Step(s, e), i, t, ea, b) && !Claims(s, e, b)
  {
    ClaimsNot(s, e, i, t, ea, b);
    StepKeepsAhead(s, e, i, t, ea, b);
    RowsAfterStep(s, e);
    StaysUnheld(s, e, b);
    StaysUnclaimed(s, e, b);
    OthersStayUnlisted(s, e, i, b);
  }

  // ---------- every run ----------

  /** No claim of any instance ever hands row b to a worker. */
  ghost predicate NeverClaimed(s: Sys, es: seq<Event>, b: JobId)
    requires Shaped(s) && Legal(s, es)
    decreases |es|
  {
    es == [] ||
    (!Claims(s, es[0], b) && (StepKeepsShape(s, es[0]); NeverClaimed(Step(s, es[0]), es[1..], b)))
  }

  /** Over every run, while the earlier job waits and its instance lives, nobody claims the other. */
  lemma {:induction false} NobodyOvertakes(s: Sys, es: seq<Event>, i: nat, t: string, ea: Entry, b: JobId)
    requires Indexed(s) && Legal(s, es) && Untouched(s, i, t, ea, b) && WaitsThroughout(s, es, i, ea.id)
    ensures Untouched(Run(s, es), i, t, ea, b) && NeverClaimed(s, es, b)
    decreases |es|
  {
    if es != [] {
      var s' := Step(s, es[0]);
      StepKeepsShape(s, es[0]);
      assert WaitsThroughout(s', es[1..], i, ea.id);
      StepKeepsUntouched(s, es[0], i, t, ea, b);
      StepKeepsIndexed(s, es[0]);
      NobodyOvertakes(s', es[1..], i, t, ea, b);
    }
  }

  /** A fresh row is listed and held by nobody but the heap it was just pushed to. */
  lemma NewRowIsUnknown(s: Sys, i: nat, r: Request)
    requires Indexed(s) && i < |s.insts| && |Step(s, Enqueue(i, r)).jobs| > |s.jobs|
    ensures var s' := Step(s, Enqueue(i, r));
      && |s'.insts| == |s.insts| && Unheld(s', |s.jobs|)
      && forall j | 0 <= j < |s.insts| && j != i :: Unlisted(s'.insts[j].q, |s.jobs|)
  {
    var b := |s.jobs|;
    OthersAfterStep(s, Enqueue(i, r));
    SlotsAfterStep(s, Enqueue(i, r));
    forall j | 0 <= j < |s.insts| ensures Unlisted(s.insts[j].q, b) {
      forall t, e | t in s.insts[j].q.heaps && e in s.insts[j].q.heaps[t] ensures e.id != b {
        assert Names(e, t, s.jobs);
      }
    }
  }

  /** A job enqueued after another of its type and priority, at the instance that lists that one, is
  behind it everywhere. */
  lemma EnqueuedUntouched(s: Sys, i: nat, r: Request, ea: Entry)
    requires Indexed(s) && i < |s.insts| && |Step(s, Enqueue(i, r)).jobs| > |s.jobs|
    requires ea in HeapOf(s.insts[i].q, r.jobType) && r.priority == ea.priority
    requires ea.id < |s.jobs| && s.jobs[ea.id].created < s.now
    ensures Untouched(Step(s, Enqueue(i, r)), i, r.jobType, ea, |s.jobs|)
  {
    EnqueuedBehind(s, i, r, ea);
    NewRowIsUnknown(s, i, r);
    assert Names(ea, r.jobType, s.jobs);
  }

  /** So of two jobs of one type and priority the one enqueued later is claimed by nobody, from any
  heap or the shared table, before the earlier one has stopped waiting. */
  lemma NobodyClaimsOutOfTurn(s: Sys, i: nat, r: Request, ea: Entry, es: seq<Event>)
    requires Indexed(s) && i < |s.insts| && |Step(s, Enqueue(i, r)).jobs| > |s.jobs|
    requires ea in HeapOf(s.insts[i].q, r.jobType) && r.priority == ea.priority
    requires ea.id < |s.jobs| && s.jobs[ea.id].created < s.now
    requires Shaped(Step(s, Enqueue(i, r))) && Legal(Step(s, Enqueue(i, r)), es)
    requires WaitsThroughout(Step(s, Enqueue(i, r)), es, i, ea.id)
    ensures NeverClaimed(Step(s, Enqueue(i, r)), es, |s.jobs|)
    ensures var d := Run(Step(s, Enqueue(i, r)), es);
      |s.jobs| < |d.jobs| && d.jobs[|s.jobs|].attempts == 0 && Unheld(d, |s.jobs|)
  {
    EnqueuedUntouched(s, i, r, ea);
    StepKeepsIndexed(s, Enqueue(i, r));
    NobodyOvertakes(Step(s, Enqueue(i, r)), es, i, r.jobType, ea, |s.jobs|);
  }

  // ---------- where heap and table disagree ----------

  /** A job that is behind another in a heap but was created before it, as one that failed and was
  pushed again: the heap serves it last, a claim from the table never serves the other first. */
  lemma HeapAndTableDisagree(s: Sys, i: nat, t: string, ea: Entry, b: JobId, jobType: Option<string>)
    requires Indexed(s) && AheadAt(s, i, t, ea, b) && IsPending(s.jobs[ea.id])
    requires Eligible(s.jobs[b], jobType) && ServedBefore(s.jobs[b], s.jobs[ea.id])
    ensures Next(s.insts[i].q, t, s.jobs).1 != Some(b)
    ensures BestPending(s.jobs, jobType).Some? && BestPending(s.jobs, jobType) != Some(ea.id)
  {
    NextKeepsAhead(s.insts[i].q, t, s.jobs, t, ea, b);
  }
}
