/** app/queue/queue.py: one queue instance, its heaps updated in place over the shared store. */
module JobQueue {
  import opened Options
  import opened JobTable
  import opened JobIndex
  import opened JobStore
  import opened JobWeight

  /** Type k has the most urgent first entry, and of equally urgent ones it is listed first. */
  predicate IsFirstOfBest(types: seq<string>, heaps: map<string, Heap>, k: nat) {
    && k < |types| && types[k] in heaps && heaps[types[k]] != []
    && forall i | 0 <= i < |types| && types[i] in heaps && heaps[types[i]] != [] ::
         if i < k then heaps[types[k]][0].priority < heaps[types[i]][0].priority
         else heaps[types[k]][0].priority <= heaps[types[i]][0].priority
  }

  class Instance {
    const store: Store
    const capacity: int
    const leaseS: int
    var heaps: map<string, Heap>
    var types: seq<string>
    var nextSeq: nat

    ghost function Abs(): Queue
      reads this
    {
      Queue(heaps, types, nextSeq, capacity, leaseS)
    }

    ghost predicate Valid()
      reads this
    {
      ValidQueue(Abs())
    }

    constructor (store: Store, capacity: int, leaseS: int)
      ensures Valid() && Abs() == EmptyQueue(capacity, leaseS) && this.store == store
    {
      this.store := store;
      this.capacity := capacity;
      this.leaseS := leaseS;
      heaps, types, nextSeq := map[], [], 0;
    }

    method PendingCount() returns (n: nat)
      ensures n == Pending(Abs())
    {
      n := 0;
      for k := |types| downto 0
        invariant n == PendingOver(types[k..], heaps)
      {
        assert types[k..][0] == types[k] && types[k..][1..] == types[k + 1..];
        n := n + if types[k] in heaps then |heaps[types[k]]| else 0;
      }
    }

    /** Accepted without a capacity, and else exactly up to the watermark of the priority's class. */
    method AdmissionAllowed(priority: int) returns (ok: bool)
      ensures ok == Admits(Abs(), priority)
      ensures ok <==> capacity <= 0 || Pending(Abs()) + 1 <= CeilPercent(
        if priority == 0 then 95 else if priority <= 1 then 85 else 70, capacity)
    {
      if capacity > 0 {
        AdmittedIffWithinWatermark(Abs(), priority);
      }
      var pending := PendingCount();
      if capacity <= 0 || 100 * pending < 70 * capacity {
        return true;
      }
      if 100 * pending < 85 * capacity {
        return priority <= 1;
      }
      if 100 * pending < 95 * capacity {
        return priority == 0;
      }
      return false;
    }

    method PushEntry(t: string, priority: int, id: JobId)
      requires Valid()
      modifies this
      ensures Valid() && Abs() == Push(old(Abs()), t, priority, id)
    {
      PushValid(Abs(), t, priority, id);
      var h := if t in heaps then heaps[t] else [];
      if t !in types {
        types := types + [t];
      }
      heaps := heaps[t := PushHeap(h, Entry(priority, nextSeq, id))];
      nextSeq := nextSeq + 1;
    }

    /** None where the source raises QueueFullError; else the job's id, merged or new. */
    method Enqueue(r: Request) returns (id: Option<JobId>)
      requires Valid()
      modifies this, store`jobs
      ensures Valid()
      ensures id.None? <==> capacity > 0 && Pending(old(Abs())) + 1 > CeilPercent(
        if r.priority == 0 then 95 else if r.priority <= 1 then 85 else 70, capacity)
      ensures !Admits(old(Abs()), r.priority) ==>
        id == None && Abs() == old(Abs()) && store.jobs == old(store.jobs)
      ensures Admits(old(Abs()), r.priority) ==>
        var found := JobTable.FindActive(old(store.jobs), r);
        if found.Some? then id == found && Abs() == old(Abs()) && store.jobs == old(store.jobs)
        else
          && id == Some(|old(store.jobs)|)
          && store.jobs == old(store.jobs) + [NewJob(r, store.now)]
          && Abs() == Push(old(Abs()), r.jobType, r.priority, |old(store.jobs)|)
    {
      var ok := AdmissionAllowed(r.priority);
      if !ok {
        return None;
      }
      var existing := store.FindActive(r);
      if existing.Some? {
        return existing;
      }
      var newId := store.Create(r);
      PushEntry(r.jobType, r.priority, newId);
      id := Some(newId);
    }

    /** Pop until a claim succeeds. */
    method NextJob(t: string) returns (found: Option<JobId>)
      requires Valid()
      modifies this`heaps, store`jobs
      ensures Valid()
      ensures (Abs(), found) == JobIndex.Next(old(Abs()), t, old(store.jobs))
      ensures store.jobs ==
        if found.Some? && Claimable(old(store.jobs), found.value)
        then JobTable.Claim(old(store.jobs), found.value, store.now, leaseS) else old(store.jobs)
    {
      ghost var q := Abs();
      NextValid(q, t, store.jobs);
      if t !in heaps {
        return None;
      }
      ghost var h := heaps[t];
      ghost var popped := 0;
      ghost var first := FirstClaimable(h, store.jobs);
      while heaps[t] != []
        invariant t in heaps && heaps == q.heaps[t := heaps[t]]
        invariant popped <= |h| && heaps[t] == h[popped..]
        invariant store.jobs == old(store.jobs) && unchanged(this`types) && unchanged(this`nextSeq)
        invariant first >= popped
        decreases |heaps[t]|
      {
        var id := heaps[t][0].id;
        assert h[popped..][0] == h[popped];
        heaps := heaps[t := heaps[t][1..]];
        popped := popped + 1;
        var ok := store.Claim(id, leaseS);
        if ok {
          assert first == popped - 1 && heaps == q.heaps[t := h[first + 1..]];
          return Some(id);
        }
      }
      assert first == |h| && heaps == q.heaps[t := []];
      return None;
    }

    /** What follows the handler in `_process_job`. */
    method FinishJob(id: JobId, error: Option<string>)
      requires Valid() && id < |store.jobs|
      modifies this, store`jobs
      ensures Valid()
      ensures (Abs(), store.jobs) == Finish(old(Abs()), old(store.jobs), id, error)
    {
      var jobType, priority := store.jobs[id].jobType, store.jobs[id].priority;
      if error.None? {
        store.Succeed(id);
      } else {
        var state := store.Fail(id, error.value);
        if state == Some(Queued) {
          PushEntry(jobType, priority, id);
        }
      }
    }

    method RecoverZombies() returns (count: nat)
      requires Valid()
      modifies this, store`jobs
      ensures Valid()
      ensures var expired := Select(old(store.jobs), ZombieAt(store.now));
        && count == |expired|
        && store.jobs == Recover(old(store.jobs), store.now)
        && Abs() == PushAll(old(Abs()), store.jobs, expired)
    {
      var expired := store.RecoverZombies();
      for i := 0 to |expired|
        invariant Valid() && Abs() == PushAll(old(Abs()), store.jobs, expired[..i])
        invariant store.jobs == Recover(old(store.jobs), store.now)
      {
        assert expired[..i + 1][..i] == expired[..i] && expired[i] in expired;
        var row := store.jobs[expired[i]];
        if row.state == Queued {
          PushEntry(row.jobType, row.priority, expired[i]);
        }
      }
      assert expired[..|expired|] == expired;
      count := |expired|;
    }

    method RequeueJob(id: JobId) returns (requeued: bool)
      requires Valid()
      modifies this, store`jobs
      ensures Valid() && requeued == Requeueable(old(store.jobs), id)
      ensures store.jobs == JobTable.Requeue(old(store.jobs), id)
      ensures Abs() == if requeued then PushJob(old(Abs()), store.jobs, id) else old(Abs())
    {
      requeued := store.Requeue(id);
      if requeued {
        PushEntry(store.jobs[id].jobType, store.jobs[id].priority, id);
      }
    }

    static method FilterHeaps(heaps: map<string, Heap>, types: seq<string>, id: JobId)
      returns (kept: map<string, Heap>)
      requires Distinct(types) && forall t :: t in types <==> t in heaps
      ensures kept.Keys == heaps.Keys
      ensures forall t | t in heaps :: kept[t] == DropId(heaps[t], id)
    {
      kept := heaps;
      for k := 0 to |types|
        invariant kept.Keys == heaps.Keys
        invariant forall m | 0 <= m < k :: kept[types[m]] == DropId(heaps[types[m]], id)
        invariant forall m | k <= m < |types| :: kept[types[m]] == heaps[types[m]]
      {
        var t := types[k];
        assert t in types;
        kept := FilterHeap(kept, t, id);
        assert forall m | 0 <= m < |types| && m != k :: types[m] != t && types[m] in types;
      }
    }

    static method FilterHeap(heaps: map<string, Heap>, t: string, id: JobId) returns (kept: map<string, Heap>)
      requires t in heaps
      ensures kept.Keys == heaps.Keys && kept[t] == DropId(heaps[t], id)
      ensures forall u | u in heaps && u != t :: kept[u] == heaps[u]
    {
      kept := heaps[t := DropId(heaps[t], id)];
    }

    /** Rebuild every heap without the entries of one job. */
    method DropEntries(id: JobId)
      requires Valid()
      modifies this`heaps
      ensures Valid() && Abs() == Drop(old(Abs()), id)
    {
      ghost var q := Abs();
      DropValid(q, id);
      heaps := FilterHeaps(heaps, types, id);
      FilteredIsDropped(q, heaps, id);
    }

    method CancelJob(id: JobId) returns (state: Option<JobState>)
      requires Valid()
      modifies this`heaps, store`jobs
      ensures Valid() && store.jobs == JobTable.Cancel(old(store.jobs), id)
      ensures state == if id < |store.jobs| then Some(store.jobs[id].state) else None
      ensures Abs() == if state == Some(JobState.Cancelled) then Drop(old(Abs()), id) else old(Abs())
    {
      state := store.Cancel(id);
      if state == Some(JobState.Cancelled) {
        DropEntries(id);
      }
    }

    method ExpireOld(ttl: int) returns (expired: seq<JobId>)
      requires Valid()
      modifies this`heaps, store`jobs
      ensures Valid() && store.jobs == Expire(old(store.jobs), store.now, ttl)
      ensures expired == Select(old(store.jobs), OverdueAt(store.now, ttl))
      ensures Abs() == DropAll(old(Abs()), expired)
    {
      expired := store.ExpireOld(ttl);
      for i := 0 to |expired|
        invariant Valid() && Abs() == DropAll(old(Abs()), expired[..i])
        invariant store.jobs == Expire(old(store.jobs), store.now, ttl)
      {
        assert expired[..i + 1][..i] == expired[..i];
        DropEntries(expired[i]);
      }
      assert expired[..|expired|] == expired;
    }

    /** The type whose heap has the most urgent first entry. */
    method MostUrgentType() returns (best: Option<string>)
      requires Valid()
      ensures best == BestType(types, heaps)
      ensures best.Some? ==> exists k :: 0 <= k < |types| && best == Some(types[k]) && IsFirstOfBest(types, heaps, k)
      ensures best.None? ==> forall t | t in heaps :: heaps[t] == []
    {
      best := None;
      for k := 0 to |types|
        invariant best == BestType(types[..k], heaps)
      {
        assert types[..k + 1][..k] == types[..k];
        var t := types[k];
        if heaps[t] != [] && (best.None? || heaps[t][0].priority < heaps[best.value][0].priority) {
          best := Some(t);
        }
      }
      assert types[..|types|] == types;
      if best.Some? {
        ghost var k := EarliestOfTheBest(types, heaps);
      }
    }

    /** Claim the next job of one type and process it to the end. */
    method Process(t: string, handler: Handler) returns (done: Option<JobId>)
      requires Valid()
      modifies this, store`jobs
      ensures Valid()
      ensures (Abs(), store.jobs, done) == Serve(old(Abs()), old(store.jobs), store.now, t, handler)
    {
      done := NextJob(t);
      if done.Some? {
        FinishJob(done.value, handler(done.value, store.jobs[done.value].attempts));
      }
    }

    /** Process one job of the given type, or of the most urgent type. */
    method ProcessOnce(jobType: Option<string>, handler: Handler) returns (done: Option<JobId>)
      requires Valid()
      modifies this, store`jobs
      ensures Valid()
      ensures var t := if jobType.Some? then jobType else BestType(old(types), old(heaps));
        if t.None? then done == None && Abs() == old(Abs()) && store.jobs == old(store.jobs)
        else (Abs(), store.jobs, done) == Serve(old(Abs()), old(store.jobs), store.now, t.value, handler)
    {
      var t := jobType;
      if t.None? {
        t := MostUrgentType();
      }
      if t.None? {
        return None;
      }
      done := Process(t.value, handler);
    }

    /** Process jobs until nothing is listed, nothing could be claimed or time is up.
    `late(k)` is the clock's answer before the k-th round. */
    method Drain(handler: Handler, late: nat -> bool) returns (processed: nat)
      requires Valid()
      modifies this, store`jobs
      ensures Valid()
      ensures (Abs(), store.jobs, processed) == Drained(old(Abs()), old(store.jobs), store.now, handler, late, 0)
      ensures processed + Weight(store.jobs) <= Weight(old(store.jobs))
    {
      processed := 0;
      DrainedSpends(Abs(), store.jobs, store.now, handler, late, 0);
      var pending := PendingCount();
      while pending > 0 && !late(processed)
        invariant Valid() && pending == Pending(Abs())
        invariant Drained(Abs(), store.jobs, store.now, handler, late, processed)
          == Drained(old(Abs()), old(store.jobs), store.now, handler, late, 0)
        decreases Weight(store.jobs)
      {
        ghost var q, jobs := Abs(), store.jobs;
        var done := ProcessOnce(None, handler);
        if done.None? {
          break;
        }
        ServeSpends(q, jobs, store.now, BestType(q.types, q.heaps).value, handler);
        processed := processed + 1;
        pending := PendingCount();
      }
    }
  }

  /** Heaps filtered one by one are the heaps of the queue without the job. */
  lemma FilteredIsDropped(q: Queue, kept: map<string, Heap>, id: JobId)
    requires kept.Keys == q.heaps.Keys && forall t | t in q.heaps :: kept[t] == DropId(q.heaps[t], id)
    ensures q.(heaps := kept) == Drop(q, id)
  {
    var dropped := Drop(q, id).heaps;
    assert kept.Keys == dropped.Keys;
    forall t | t in kept ensures kept[t] == dropped[t] {
      assert t in q.heaps.Keys;
    }
  }
}
