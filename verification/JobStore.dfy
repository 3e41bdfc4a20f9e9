/** app/queue/store.py: the job table with its state machine, updated in place.

Each method is one short transaction of the source and is atomic here. `now` is the clock the
store reads. */
module JobStore {
  import opened Options
  import opened JobTable

  /** The row is an unfinished job under this key, of which there is none without a name. */
  predicate Flies(j: Job, tenant: string, jobType: string, key: Option<string>) {
    && key.Some? && key.value != "" && j.tenant == tenant && j.jobType == jobType && j.dedupe == key
    && j.state in {JobState.Created, Queued, Running}
  }

  /** The row waits, and is of the type asked for; no type, or an empty one, asks for any. */
  predicate Waits(j: Job, jobType: Option<string>) {
    && j.state in {JobState.Created, Queued}
    && (jobType.Some? && jobType.value != "" ==> j.jobType == jobType.value)
  }

  /** Row a before row b: by priority, then by age, then as they stand in the table. */
  predicate IsServedFirst(jobs: Table, a: JobId, b: JobId)
    requires a < |jobs| && b < |jobs|
  {
    || jobs[a].priority < jobs[b].priority
    || (jobs[a].priority == jobs[b].priority && jobs[a].created < jobs[b].created)
    || (jobs[a].priority == jobs[b].priority && jobs[a].created == jobs[b].created && a <= b)
  }

  class Store {
    var jobs: Table
    var now: int

    constructor (now: int)
      ensures jobs == [] && this.now == now
    {
      jobs := [];
      this.now := now;
    }

    method Create(r: Request) returns (id: JobId)
      modifies this`jobs
      ensures id == |old(jobs)| && jobs == old(jobs) + [NewJob(r, now)]
      ensures jobs[id] ==
        Job(r.tenant, r.jobType, r.priority, r.maxAttempts, r.dedupe, now, JobState.Created, 0, None, None)
    {
      id := |jobs|;
      jobs := jobs + [NewJob(r, now)];
    }

    method FindActive(r: Request) returns (found: Option<JobId>)
      ensures found == JobTable.FindActive(jobs, r)
      ensures found.Some? ==> found.value < |jobs| && Flies(jobs[found.value], r.tenant, r.jobType, r.dedupe)
      ensures forall i | 0 <= i < (if found.Some? then found.value else |jobs|) ::
        !Flies(jobs[i], r.tenant, r.jobType, r.dedupe)
    {
      for i := 0 to |jobs|
        invariant JobTable.FindActive(jobs[..i], r) == None
      {
        assert jobs[..i + 1][..i] == jobs[..i];
        if MatchesKey(jobs[i], r) {
          FirstMatchStays(jobs, r, i);
          return Some(i);
        }
      }
      assert jobs[..|jobs|] == jobs;
      return None;
    }

    /** Compare-and-set CREATED/QUEUED to RUNNING: false, and nothing written, otherwise. */
    method Claim(id: JobId, lease: int) returns (ok: bool)
      modifies this`jobs
      ensures ok == Claimable(old(jobs), id)
      ensures jobs == if ok then JobTable.Claim(old(jobs), id, now, lease) else old(jobs)
      ensures ok <==> id < |old(jobs)| && old(jobs)[id].state in {JobState.Created, Queued}
      ensures ok ==> jobs[id] == old(jobs)[id].(
        state := Running, attempts := old(jobs)[id].attempts + 1, lease := Some(now + lease))
    {
      if id >= |jobs| || !IsPending(jobs[id]) {
        return false;
      }
      jobs := jobs[id := ClaimJob(jobs[id], now, lease)];
      ok := true;
    }

    /** Poll the table for the most urgent pending row and claim it. */
    method ClaimQueued(jobType: Option<string>, lease: int) returns (found: Option<JobId>)
      modifies this`jobs
      ensures found == BestPending(old(jobs), jobType)
      ensures found.Some? ==> found.value < |old(jobs)| && Waits(old(jobs)[found.value], jobType)
      ensures forall i | 0 <= i < |old(jobs)| && Waits(old(jobs)[i], jobType) ::
        found.Some? && IsServedFirst(old(jobs), found.value, i)
      ensures jobs == if found.Some? then JobTable.Claim(old(jobs), found.value, now, lease) else old(jobs)
    {
      found := None;
      for i := 0 to |jobs|
        invariant found == BestPending(jobs[..i], jobType)
      {
        assert jobs[..i + 1][..i] == jobs[..i];
        if Eligible(jobs[i], jobType) && (found.None? || ServedBefore(jobs[i], jobs[found.value])) {
          found := Some(i);
        }
      }
      assert jobs[..|jobs|] == jobs;
      if found.Some? {
        var ok := Claim(found.value, lease);
      }
    }

    method Heartbeat(id: JobId, lease: int)
      modifies this`jobs
      ensures jobs == JobTable.Heartbeat(old(jobs), id, now, lease)
      ensures |jobs| == |old(jobs)| && forall i | 0 <= i < |jobs| ::
        jobs[i] == if i == id && old(jobs)[i].state == Running then old(jobs)[i].(lease := Some(now + lease))
                   else old(jobs)[i]
    {
      if id < |jobs| && jobs[id].state == Running {
        jobs := jobs[id := jobs[id].(lease := Some(now + lease))];
      }
    }

    /** Every RUNNING row with an expired lease goes back to QUEUED; the ids in row order. */
    method RecoverZombies() returns (expired: seq<JobId>)
      modifies this`jobs
      ensures jobs == Recover(old(jobs), now)
      ensures expired == Select(old(jobs), ZombieAt(now))
    {
      var before := jobs;
      expired := [];
      for i := 0 to |before|
        invariant |jobs| == |before|
        invariant jobs[..i] == Recover(before, now)[..i] && jobs[i..] == before[i..]
        invariant expired == Select(before[..i], ZombieAt(now))
      {
        assert before[..i + 1][..i] == before[..i];
        assert jobs[i] == jobs[i..][0] == before[i];
        if IsZombie(jobs[i], now) {
          jobs := jobs[i := jobs[i].(state := Queued)];
          expired := expired + [i];
        }
        assert jobs[..i + 1] == jobs[..i] + [jobs[i]];
      }
      assert before[..|before|] == before;
      assert jobs == jobs[..|before|] && Recover(before, now) == Recover(before, now)[..|before|];
    }

    method Succeed(id: JobId)
      modifies this`jobs
      ensures jobs == JobTable.Succeed(old(jobs), id)
      ensures |jobs| == |old(jobs)| && forall i | 0 <= i < |jobs| ::
        jobs[i] == if i == id then old(jobs)[i].(state := Succeeded) else old(jobs)[i]
    {
      if id < |jobs| {
        jobs := jobs[id := jobs[id].(state := Succeeded)];
      }
    }

    /** The new state, or None where the source answers "FAILED" for a missing row. */
    method Fail(id: JobId, error: string) returns (state: Option<JobState>)
      modifies this`jobs
      ensures jobs == JobTable.Fail(old(jobs), id, error)
      ensures id < |old(jobs)| ==> id < |jobs| && jobs[id] == old(jobs)[id].(error := Some(error),
        state := if old(jobs)[id].attempts < old(jobs)[id].maxAttempts then Queued else DeadLetter)
      ensures state == if id < |jobs| then Some(jobs[id].state) else None
    {
      if id >= |jobs| {
        return None;
      }
      if jobs[id].attempts >= jobs[id].maxAttempts {
        jobs := jobs[id := jobs[id].(state := DeadLetter, error := Some(error))];
      } else {
        jobs := jobs[id := jobs[id].(state := Queued, error := Some(error))];
      }
      state := Some(jobs[id].state);
    }

    method Cancel(id: JobId) returns (state: Option<JobState>)
      modifies this`jobs
      ensures jobs == JobTable.Cancel(old(jobs), id)
      ensures |jobs| == |old(jobs)| && forall i | 0 <= i < |jobs| ::
        var was := old(jobs)[i];
        jobs[i] == if i == id && was.state in {JobState.Created, Queued} then was.(state := JobState.Cancelled)
                   else was
      ensures state == if id < |jobs| then Some(jobs[id].state) else None
    {
      if id >= |jobs| {
        return None;
      }
      if IsPending(jobs[id]) {
        jobs := jobs[id := jobs[id].(state := JobState.Cancelled)];
      }
      state := Some(jobs[id].state);
    }

    method ExpireOld(ttl: int) returns (expired: seq<JobId>)
      modifies this`jobs
      ensures jobs == Expire(old(jobs), now, ttl)
      ensures expired == Select(old(jobs), OverdueAt(now, ttl))
    {
      var before := jobs;
      expired := [];
      for i := 0 to |before|
        invariant |jobs| == |before|
        invariant jobs[..i] == Expire(before, now, ttl)[..i] && jobs[i..] == before[i..]
        invariant expired == Select(before[..i], OverdueAt(now, ttl))
      {
        assert before[..i + 1][..i] == before[..i];
        assert jobs[i] == jobs[i..][0] == before[i];
        if IsOverdue(jobs[i], now, ttl) {
          jobs := jobs[i := jobs[i].(state := JobState.Expired)];
          expired := expired + [i];
        }
        assert jobs[..i + 1] == jobs[..i] + [jobs[i]];
      }
      assert before[..|before|] == before;
      assert jobs == jobs[..|before|] && Expire(before, now, ttl) == Expire(before, now, ttl)[..|before|];
    }

    /** DEAD_LETTER back to CREATED with a fresh attempt count; any other row is skipped. */
    method Requeue(id: JobId) returns (requeued: bool)
      modifies this`jobs
      ensures requeued == Requeueable(old(jobs), id)
      ensures jobs == JobTable.Requeue(old(jobs), id)
      ensures requeued <==> id < |old(jobs)| && old(jobs)[id].state == DeadLetter
      ensures requeued ==> jobs[id] == old(jobs)[id].(
        state := JobState.Created, attempts := 0, error := None, lease := None)
    {
      if id >= |jobs| || jobs[id].state != DeadLetter {
        return false;
      }
      jobs := jobs[id := RequeueJob(jobs[id])];
      requeued := true;
    }
  }

  /** What a sweep does: the RUNNING rows whose lease is strictly past wait again, whatever else is in them,
  and are the ones listed. */
  lemma WhatRecovers(jobs: Table, now: int, i: nat)
    requires i < |jobs|
    ensures Recover(jobs, now)[i] == (
      if jobs[i].state == Running && jobs[i].lease.Some? && jobs[i].lease.value < now
      then jobs[i].(state := Queued) else jobs[i])
    ensures i in Select(jobs, ZombieAt(now)) <==> Recover(jobs, now)[i] != jobs[i]
  {
  }

  /** What expires: the rows that wait and are at least that old, and they are the ones listed. */
  lemma WhatExpires(jobs: Table, now: int, ttl: int, i: nat)
    requires i < |jobs|
    ensures Expire(jobs, now, ttl)[i] == (
      if jobs[i].state in {JobState.Created, Queued} && jobs[i].created + ttl <= now
      then jobs[i].(state := JobState.Expired) else jobs[i])
    ensures i in Select(jobs, OverdueAt(now, ttl)) <==> Expire(jobs, now, ttl)[i] != jobs[i]
  {
  }

  /** Rows behind the first match do not change what is found. */
  lemma {:induction false} FirstMatchStays(jobs: Table, r: Request, i: nat)
    requires i < |jobs| && MatchesKey(jobs[i], r)
    requires JobTable.FindActive(jobs[..i], r) == None
    ensures JobTable.FindActive(jobs, r) == Some(i)
  {
    if i + 1 == |jobs| {
      assert jobs[..|jobs| - 1] == jobs[..i];
    } else {
      assert jobs[..|jobs| - 1][..i] == jobs[..i];
      FirstMatchStays(jobs[..|jobs| - 1], r, i);
    }
  }
}
