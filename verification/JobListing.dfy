/** No job is lost: the heaps are an index that covers every pending row its instance is
responsible for, however stale its other entries are. */
module JobListing {
  import opened Options
  import opened JobTable
  import opened JobIndex
  import opened JobSystem

  ghost predicate Listed(q: Queue, jobs: Table, id: JobId) {
    id < |jobs| && exists e :: e in HeapOf(q, jobs[id].jobType) && e.id == id
  }

  /** The entry names a row of that type and priority. */
  predicate Names(e: Entry, t: string, jobs: Table) {
    e.id < |jobs| && jobs[e.id].jobType == t && jobs[e.id].priority == e.priority
  }

  ghost predicate Faithful(q: Queue, jobs: Table) {
    forall t, e | t in q.heaps && e in q.heaps[t] :: Names(e, t, jobs)
  }

  ghost predicate OwnedIsListed(s: Sys, id: JobId)
    requires id < |s.jobs| && |s.owner| == |s.jobs|
  {
    IsPending(s.jobs[id]) && s.owner[id].Some? ==>
      s.owner[id].value < |s.insts| && Listed(s.insts[s.owner[id].value].q, s.jobs, id)
  }

  ghost predicate Indexed(s: Sys) {
    && Shaped(s)
    && (forall id | 0 <= id < |s.jobs| :: OwnedIsListed(s, id))
    && (forall i | 0 <= i < |s.insts| :: Faithful(s.insts[i].q, s.jobs))
  }

  // ---------- what one queue operation does to the listing ----------

  lemma PushListing(q: Queue, jobs: Table, id: JobId)
    requires id < |jobs|
    ensures Listed(PushJob(q, jobs, id), jobs, id)
    ensures forall x: JobId | Listed(q, jobs, x) :: Listed(PushJob(q, jobs, id), jobs, x)
    ensures Faithful(q, jobs) ==> Faithful(PushJob(q, jobs, id), jobs)
  {
    var q' := PushJob(q, jobs, id);
    assert Entry(jobs[id].priority, q.nextSeq, id) in HeapOf(q', jobs[id].jobType);
    forall x: JobId | Listed(q, jobs, x) ensures Listed(q', jobs, x) {
      var e :| e in HeapOf(q, jobs[x].jobType) && e.id == x;
      assert e in HeapOf(q', jobs[x].jobType);
    }
  }

  lemma {:induction false} PushAllListing(q: Queue, jobs: Table, ids: seq<JobId>)
    requires forall id | id in ids :: id < |jobs|
    ensures forall id | id in ids :: Listed(PushAll(q, jobs, ids), jobs, id)
    ensures forall x: JobId | Listed(q, jobs, x) :: Listed(PushAll(q, jobs, ids), jobs, x)
    ensures Faithful(q, jobs) ==> Faithful(PushAll(q, jobs, ids), jobs)
  {
    if ids != [] {
      var init, last := ids[..|ids| - 1], ids[|ids| - 1];
      assert forall id | id in init :: id in ids;
      PushAllListing(q, jobs, init);
      assert last in ids;
      PushListing(PushAll(q, jobs, init), jobs, last);
      assert forall id | id in ids :: id == last || id in init;
    }
  }

  /** Popping loses no entry of a row that stays claimable, except the one it claims. */
  lemma NextListing(q: Queue, t: string, jobs: Table)
    requires ValidQueue(q)
    ensures var (q', found) := Next(q, t, jobs);
      && (forall x: JobId | Listed(q, jobs, x) && IsPending(jobs[x]) && found != Some(x) :: Listed(q', jobs, x))
      && (Faithful(q, jobs) ==> Faithful(q', jobs))
  {
    var (q', found) := Next(q, t, jobs);
    NextServesLeast(q, t, jobs);
    forall x: JobId | Listed(q, jobs, x) && IsPending(jobs[x]) && found != Some(x) ensures Listed(q', jobs, x) {
      var e :| e in HeapOf(q, jobs[x].jobType) && e.id == x;
      assert Claimable(jobs, e.id);
      assert e in HeapOf(q', jobs[x].jobType);
    }
    if t in q.heaps {
      var h := q.heaps[t];
      var i := FirstClaimable(h, jobs);
      if i < |h| {
        assert forall e | e in h[i + 1..] :: e in h;
      }
    }
  }

  lemma {:induction false} DropAllListing(q: Queue, jobs: Table, ids: seq<JobId>)
    ensures forall x: JobId | Listed(q, jobs, x) && x !in ids :: Listed(DropAll(q, ids), jobs, x)
    ensures Faithful(q, jobs) ==> Faithful(DropAll(q, ids), jobs)
  {
    if ids != [] {
      var init, last := ids[..|ids| - 1], ids[|ids| - 1];
      DropAllListing(q, jobs, init);
      var q' := DropAll(q, init);
      forall x: JobId | Listed(q, jobs, x) && x !in ids ensures Listed(Drop(q', last), jobs, x) {
        assert x !in init && x != last;
        var e :| e in HeapOf(q', jobs[x].jobType) && e.id == x;
        assert e in HeapOf(Drop(q', last), jobs[x].jobType);
      }
    }
  }

  /** Listing looks only at a row's type and priority, which never change. */
  lemma ListingIgnoresProgress(q: Queue, a: Table, b: Table)
    requires |a| <= |b| && forall id | 0 <= id < |a| :: SameIdentity(a[id], b[id])
    ensures forall x: JobId | Listed(q, a, x) :: Listed(q, b, x)
    ensures Faithful(q, a) ==> Faithful(q, b)
  {
    forall x: JobId | Listed(q, a, x) ensures Listed(q, b, x) {
      var e :| e in HeapOf(q, a[x].jobType) && e.id == x;
      assert e in HeapOf(q, b[x].jobType);
    }
  }

  // ---------- every step ----------

  /** What a step of instance i leaves of the listing of one row: if it was listed and still
  waits, it is listed; if it has just begun to wait, or changed its owner, i owns and lists it. */
  ghost predicate RowLists(s: Sys, i: nat, q': Queue, jobs': Table, owner': seq<Option<nat>>, x: JobId)
    requires i < |s.insts| && |s.owner| == |s.jobs| <= |jobs'| == |owner'|
  {
    x < |jobs'| ==>
      && (IsPending(jobs'[x]) && x < |s.jobs| && IsPending(s.jobs[x]) && Listed(s.insts[i].q, s.jobs, x) ==>
            Listed(q', jobs', x))
      && ((IsPending(jobs'[x]) && (x >= |s.jobs| || !IsPending(s.jobs[x]))) ==>
            owner'[x] == Some(i) && Listed(q', jobs', x))
      && (x < |s.jobs| && owner'[x] != s.owner[x] ==> owner'[x] == Some(i) && Listed(q', jobs', x))
  }

  ghost predicate ActorLists(s: Sys, i: nat, q': Queue, jobs': Table, owner': seq<Option<nat>>)
    requires i < |s.insts| && |s.owner| == |s.jobs| <= |jobs'| == |owner'|
  {
    Faithful(q', jobs') && forall x: JobId :: RowLists(s, i, q', jobs', owner', x)
  }

  ghost predicate StepLists(s: Sys, e: Event)
    requires Shaped(s) && Enabled(s, e) && !e.Tick?
  {
    var s' := Step(s, e);
    && |s'.owner| == |s'.jobs| >= |s.jobs| && |s'.insts| == |s.insts|
    && ActorLists(s, e.i, s'.insts[e.i].q, s'.jobs, s'.owner)
  }

  lemma EnqueueLists(s: Sys, e: Event)
    requires Indexed(s) && Enabled(s, e) && e.Enqueue?
    ensures StepLists(s, e)
  {
    var s' := Step(s, e);
    RowsAfterStep(s, e);
    ListingIgnoresProgress(s.insts[e.i].q, s.jobs, s'.jobs);
    if |s'.jobs| > |s.jobs| {
      PushListing(s.insts[e.i].q, s'.jobs, |s.jobs|);
    }
  }

  /** Claiming, beating and dying: the heap may shrink, nothing begins to wait. */
  lemma TakeLists(s: Sys, e: Event)
    requires Indexed(s) && Enabled(s, e) && e.Take?
    ensures StepLists(s, e)
  {
    var s', q := Step(s, e), s.insts[e.i].q;
    RowsAfterStep(s, e);
    var t := if e.jobType.Some? then e.jobType else BestType(q.types, q.heaps);
    if t.Some? {
      NextListing(q, t.value, s.jobs);
      var (q', found) := Next(q, t.value, s.jobs);
      assert s'.insts[e.i].q == q' && s'.owner == s.owner;
      assert found.None? ==> s'.jobs == s.jobs;
      ListingIgnoresProgress(q', s.jobs, s'.jobs);
      forall x: JobId ensures RowLists(s, e.i, q', s'.jobs, s'.owner, x) {
        assert found.Some? ==> s'.jobs == Claim(s.jobs, found.value, s.now, q.leaseS);
      }
    }
  }

  lemma WorkLists(s: Sys, e: Event)
    requires Indexed(s) && Enabled(s, e) && (e.TakeRemote? || e.Beat? || e.Die?)
    ensures StepLists(s, e)
  {
    var s', q := Step(s, e), s.insts[e.i].q;
    RowsAfterStep(s, e);
    ListingIgnoresProgress(q, s.jobs, s'.jobs);
    assert s'.insts[e.i].q == q && s'.owner == s.owner;
    forall x: JobId ensures RowLists(s, e.i, q, s'.jobs, s'.owner, x) {
    }
  }

  /** A failed job that waits again is pushed by the instance that ran it. */
  lemma EndLists(s: Sys, e: Event)
    requires Indexed(s) && Enabled(s, e) && e.End?
    ensures StepLists(s, e)
  {
    var s', q := Step(s, e), s.insts[e.i].q;
    var id := JobOf(s, e.i, e.k);
    RowsAfterStep(s, e);
    var q' := s'.insts[e.i].q;
    ListingIgnoresProgress(q, s.jobs, s'.jobs);
    PushListing(q, s'.jobs, id);
    assert s'.jobs[id].state == Queued ==> q' == PushJob(q, s'.jobs, id) && s'.owner == s.owner[id := Some(e.i)];
    assert s'.jobs[id].state != Queued ==> q' == q && s'.owner == s.owner && !IsPending(s'.jobs[id]);
    forall x: JobId ensures RowLists(s, e.i, q', s'.jobs, s'.owner, x) {
      assert x < |s.jobs| && x != id ==> s'.jobs[x] == s.jobs[x];
    }
  }

  lemma RecoverLists(s: Sys, e: Event)
    requires Indexed(s) && Enabled(s, e) && (e.RecoverZombies? || e.RequeueDead?)
    ensures StepLists(s, e)
  {
    var s' := Step(s, e);
    RowsAfterStep(s, e);
    ListingIgnoresProgress(s.insts[e.i].q, s.jobs, s'.jobs);
    if e.RecoverZombies? {
      PushAllListing(s.insts[e.i].q, s'.jobs, Select(s.jobs, ZombieAt(s.now)));
    } else if Requeueable(s.jobs, e.id) {
      PushListing(s.insts[e.i].q, s'.jobs, e.id);
    }
  }

  lemma CancelLists(s: Sys, e: Event)
    requires Indexed(s) && Enabled(s, e) && e.CancelJob?
    ensures StepLists(s, e)
  {
    var s', q := Step(s, e), s.insts[e.i].q;
    RowsAfterStep(s, e);
    ListingIgnoresProgress(q, s.jobs, s'.jobs);
    DropAllListing(q, s'.jobs, [e.id]);
    assert DropAll(q, [e.id]) == Drop(q, e.id) by {
      assert [e.id][..0] == [];
    }
    forall x: JobId ensures RowLists(s, e.i, s'.insts[e.i].q, s'.jobs, s'.owner, x) {
      assert x < |s.jobs| && x != e.id ==> s'.jobs[x] == s.jobs[x];
    }
  }

  lemma ExpireLists(s: Sys, e: Event)
    requires Indexed(s) && Enabled(s, e) && e.ExpireOld?
    ensures StepLists(s, e)
  {
    var s', q := Step(s, e), s.insts[e.i].q;
    RowsAfterStep(s, e);
    ListingIgnoresProgress(q, s.jobs, s'.jobs);
    var ids := Select(s.jobs, OverdueAt(s.now, e.ttl));
    DropAllListing(q, s'.jobs, ids);
    forall x: JobId ensures RowLists(s, e.i, s'.insts[e.i].q, s'.jobs, s'.owner, x) {
      assert x < |s.jobs| && x !in ids ==> s'.jobs[x] == s.jobs[x];
    }
  }

  lemma ActorListing(s: Sys, e: Event)
    requires Indexed(s) && Enabled(s, e) && !e.Tick? && !e.Crash?
    ensures StepLists(s, e)
  {
    match e
    case Enqueue(_, _) => EnqueueLists(s, e);
    case End(_, _, _) => EndLists(s, e);
    case RecoverZombies(_) => RecoverLists(s, e);
    case RequeueDead(_, _) => RecoverLists(s, e);
    case CancelJob(_, _) => CancelLists(s, e);
    case ExpireOld(_, _) => ExpireLists(s, e);
    case Take(_, _, _) => TakeLists(s, e);
    case _ => WorkLists(s, e);
  }

  lemma ActorRow(s: Sys, e: Event, id: JobId)
    requires Indexed(s) && Enabled(s, e) && !e.Tick? && !e.Crash?
    ensures RowsKept(s, Step(s, e))
    ensures RowLists(s, e.i, Step(s, e).insts[e.i].q, Step(s, e).jobs, Step(s, e).owner, id)
  {
    ActorListing(s, e);
    RowsAfterStep(s, e);
  }

  lemma StepKeepsFaithful(s: Sys, e: Event, i: nat)
    requires Indexed(s) && Enabled(s, e) && i < |s.insts|
    ensures |Step(s, e).insts| == |s.insts| && Faithful(Step(s, e).insts[i].q, Step(s, e).jobs)
  {
    RowsAfterStep(s, e);
    ListingIgnoresProgress(s.insts[i].q, s.jobs, Step(s, e).jobs);
    if !e.Tick? {
      OthersAfterStep(s, e);
      if i == e.i && !e.Crash? {
        ActorListing(s, e);
      }
    }
  }

  /** What the owner of a waiting row was before: itself, or the row was just pushed. */
  ghost predicate OwnerOrigin(s: Sys, e: Event, id: JobId)
    requires Shaped(s) && Enabled(s, e) && Shaped(Step(s, e)) && id < |Step(s, e).jobs|
  {
    var s' := Step(s, e);
    || (id < |s.jobs| && IsPending(s.jobs[id]) && s'.owner[id] == s.owner[id]
        && (s.owner[id].Some? && e.Crash? ==> s.owner[id] != Some(e.i)))
    || (!e.Tick? && !e.Crash? && e.i < |s'.insts| && s'.owner[id] == Some(e.i) && Listed(s'.insts[e.i].q, s'.jobs, id))
    || (e.Crash? && s'.owner[id].None?)
  }

  /** A row's owner changes only with a push by the acting instance, or by its crash. */
  lemma OwnerAfterStep(s: Sys, e: Event, id: JobId)
    requires Indexed(s) && Enabled(s, e) && id < |Step(s, e).jobs| && IsPending(Step(s, e).jobs[id])
    ensures Shaped(Step(s, e)) && OwnerOrigin(s, e, id)
  {
    StepKeepsShape(s, e);
    if !e.Tick? && !e.Crash? {
      ActorRow(s, e, id);
    }
  }

  /** A row that had and keeps its owner stays listed there. */
  lemma StaysListed(s: Sys, e: Event, id: JobId, i: nat)
    requires Indexed(s) && Enabled(s, e) && id < |s.jobs| && i < |s.insts| && |s.insts| == |Step(s, e).insts|
    requires IsPending(s.jobs[id]) && Listed(s.insts[i].q, s.jobs, id)
    requires id < |Step(s, e).jobs| && IsPending(Step(s, e).jobs[id]) && !(e.Crash? && e.i == i)
    ensures Listed(Step(s, e).insts[i].q, Step(s, e).jobs, id)
  {
    RowsAfterStep(s, e);
    ListingIgnoresProgress(s.insts[i].q, s.jobs, Step(s, e).jobs);
    if !e.Tick? {
      OthersAfterStep(s, e);
      if i == e.i {
        ActorRow(s, e, id);
      }
    }
  }

  lemma StepKeepsOwned(s: Sys, e: Event, id: JobId)
    requires Indexed(s) && Enabled(s, e) && Shaped(Step(s, e)) && id < |Step(s, e).jobs|
    ensures OwnedIsListed(Step(s, e), id)
  {
    var s' := Step(s, e);
    RowsAfterStep(s, e);
    if IsPending(s'.jobs[id]) && s'.owner[id].Some? {
      OwnerAfterStep(s, e, id);
      if id < |s.jobs| && IsPending(s.jobs[id]) && s'.owner[id] == s.owner[id] {
        assert OwnedIsListed(s, id);
        if !(e.Crash? && s.owner[id] == Some(e.i)) {
          StaysListed(s, e, id, s.owner[id].value);
        }
      }
    }
  }

  lemma StepKeepsIndexed(s: Sys, e: Event)
    requires Indexed(s) && Enabled(s, e)
    ensures Indexed(Step(s, e))
  {
    var s' := Step(s, e);
    StepKeepsShape(s, e);
    forall i | 0 <= i < |s'.insts| ensures Faithful(s'.insts[i].q, s'.jobs) {
      StepKeepsFaithful(s, e, i);
    }
    forall id | 0 <= id < |s'.jobs| ensures OwnedIsListed(s', id) {
      StepKeepsOwned(s, e, id);
    }
  }

  /** In every run, each pending row with an owner has an entry of its type in the owner's
  heap, and every heap entry of every instance names an existing row of that type and priority. */
  lemma {:induction false} NoLostJobs(s: Sys, es: seq<Event>)
    requires Indexed(s) && Legal(s, es)
    ensures Indexed(Run(s, es))
    decreases |es|
  {
    if es != [] {
      StepKeepsIndexed(s, es[0]);
      NoLostJobs(Step(s, es[0]), es[1..]);
    }
  }

  ghost predicate AllOwned(s: Sys)
    requires |s.owner| == |s.jobs|
  {
    forall id | 0 <= id < |s.jobs| && IsPending(s.jobs[id]) :: s.owner[id].Some?
  }

  /** Unless an instance crashes, every pending row stays listed at some instance. */
  lemma {:induction false} NoLostJobsWithoutCrash(s: Sys, es: seq<Event>)
    requires Indexed(s) && AllOwned(s) && Legal(s, es)
    requires forall e | e in es :: !e.Crash?
    ensures AllOwned(Run(s, es))
    ensures forall id | 0 <= id < |Run(s, es).jobs| && IsPending(Run(s, es).jobs[id]) ::
      exists i :: 0 <= i < |Run(s, es).insts| && Listed(Run(s, es).insts[i].q, Run(s, es).jobs, id)
    decreases |es|
  {
    if es == [] {
      forall id | 0 <= id < |s.jobs| && IsPending(s.jobs[id])
        ensures exists i :: 0 <= i < |s.insts| && Listed(s.insts[i].q, s.jobs, id)
      {
        assert OwnedIsListed(s, id);
      }
    } else {
      StepKeepsIndexed(s, es[0]);
      forall id | 0 <= id < |Step(s, es[0]).jobs| && IsPending(Step(s, es[0]).jobs[id])
        ensures Step(s, es[0]).owner[id].Some?
      {
        OwnerAfterStep(s, es[0], id);
      }
      NoLostJobsWithoutCrash(Step(s, es[0]), es[1..]);
    }
  }

  lemma InitiallyIndexed(s: Sys)
    requires Initial(s)
    ensures Indexed(s)
  {
    forall i | 0 <= i < |s.insts| ensures ValidQueue(s.insts[i].q) && Faithful(s.insts[i].q, s.jobs) {
      assert s.insts[i].q == EmptyQueue(s.insts[i].q.capacity, s.insts[i].q.leaseS);
    }
  }
}
