/** The shared job table of app/queue/store.py, on values.

A row's id is its position: rows are only ever appended, never deleted, and ids are never
reused. `started_at` and `finished_at` are written but never read by a decision, so a row
leaves them out. */
module JobTable {
  import opened Options

  datatype JobState = Created | Queued | Running | Succeeded | DeadLetter | Cancelled | Expired

  datatype Job = Job(
    tenant: string,
    jobType: string,
    priority: int,
    maxAttempts: int,
    dedupe: Option<string>,
    created: int,
    state: JobState,
    attempts: nat,
    lease: Option<int>,
    error: Option<string>)

  /** What a caller of `enqueue` supplies. */
  datatype Request = Request(
    tenant: string, jobType: string, priority: int, maxAttempts: int, dedupe: Option<string>)

  type JobId = nat
  type Table = seq<Job>

  predicate IsPending(j: Job) {
    j.state == Created || j.state == Queued
  }

  predicate IsActive(j: Job) {
    IsPending(j) || j.state == Running
  }

  /** The states no operation of a timely run ever leaves (DEAD_LETTER can be requeued). */
  predicate IsFinal(j: Job) {
    j.state == Succeeded || j.state == Cancelled || j.state == Expired
  }

  /** The columns no operation ever rewrites. */
  predicate SameIdentity(a: Job, b: Job) {
    && a.tenant == b.tenant && a.jobType == b.jobType && a.priority == b.priority
    && a.maxAttempts == b.maxAttempts && a.dedupe == b.dedupe && a.created == b.created
  }

  predicate Claimable(jobs: Table, id: JobId) {
    id < |jobs| && IsPending(jobs[id])
  }

  function NewJob(r: Request, now: int): Job {
    Job(r.tenant, r.jobType, r.priority, r.maxAttempts, r.dedupe, now, Created, 0, None, None)
  }

  function ClaimJob(j: Job, now: int, lease: int): Job {
    j.(state := Running, attempts := j.attempts + 1, lease := Some(now + lease))
  }

  function FailJob(j: Job, error: string): Job {
    j.(state := if j.attempts >= j.maxAttempts then DeadLetter else Queued, error := Some(error))
  }

  function RequeueJob(j: Job): Job {
    j.(state := Created, attempts := 0, error := None, lease := None)
  }

  /** A RUNNING row whose lease lies strictly in the past. */
  predicate IsZombie(j: Job, now: int) {
    j.state == Running && j.lease.Some? && j.lease.value < now
  }

  /** A pending row at least `ttl` old. */
  predicate IsOverdue(j: Job, now: int, ttl: int) {
    IsPending(j) && j.created <= now - ttl
  }

  function ZombieAt(now: int): Job -> bool {
    j => IsZombie(j, now)
  }

  function OverdueAt(now: int, ttl: int): Job -> bool {
    j => IsOverdue(j, now, ttl)
  }

  function Claim(jobs: Table, id: JobId, now: int, lease: int): (r: Table)
    requires Claimable(jobs, id)
  {
    jobs[id := ClaimJob(jobs[id], now, lease)]
  }

  function Heartbeat(jobs: Table, id: JobId, now: int, lease: int): Table {
    if id < |jobs| && jobs[id].state == Running
    then jobs[id := jobs[id].(lease := Some(now + lease))] else jobs
  }

  function Succeed(jobs: Table, id: JobId): Table {
    if id < |jobs| then jobs[id := jobs[id].(state := Succeeded)] else jobs
  }

  function Fail(jobs: Table, id: JobId, error: string): Table {
    if id < |jobs| then jobs[id := FailJob(jobs[id], error)] else jobs
  }

  function Cancel(jobs: Table, id: JobId): Table {
    if Claimable(jobs, id) then jobs[id := jobs[id].(state := JobState.Cancelled)] else jobs
  }

  predicate Requeueable(jobs: Table, id: JobId) {
    id < |jobs| && jobs[id].state == DeadLetter
  }

  function Requeue(jobs: Table, id: JobId): Table {
    if Requeueable(jobs, id) then jobs[id := RequeueJob(jobs[id])] else jobs
  }

  function Recover(jobs: Table, now: int): (r: Table)
    ensures |r| == |jobs|
  {
    seq(|jobs|, i requires 0 <= i < |jobs| =>
      if IsZombie(jobs[i], now) then jobs[i].(state := Queued) else jobs[i])
  }

  function Expire(jobs: Table, now: int, ttl: int): (r: Table)
    ensures |r| == |jobs|
  {
    seq(|jobs|, i requires 0 <= i < |jobs| =>
      if IsOverdue(jobs[i], now, ttl) then jobs[i].(state := JobState.Expired) else jobs[i])
  }

  /** The positions, in order, at which `p` holds. */
  function Select(jobs: Table, p: Job -> bool): (ids: seq<JobId>)
    ensures forall id: JobId :: id in ids <==> id < |jobs| && p(jobs[id])
    ensures forall a, b | 0 <= a < b < |ids| :: ids[a] < ids[b]
  {
    if jobs == [] then []
    else
      var last := |jobs| - 1;
      var earlier := Select(jobs[..last], p);
      assert forall a | 0 <= a < |earlier| :: earlier[a] in earlier;
      if p(jobs[last]) then earlier + [last] else earlier
  }

  predicate MatchesKey(j: Job, r: Request) {
    && r.dedupe.Some? && r.dedupe.value != ""
    && j.tenant == r.tenant && j.jobType == r.jobType && j.dedupe == r.dedupe && IsActive(j)
  }

  /** The first active row with the request's dedupe key; an absent or empty key matches nothing. */
  function FindActive(jobs: Table, r: Request): (found: Option<JobId>)
    ensures found.Some? ==> found.value < |jobs| && MatchesKey(jobs[found.value], r)
    ensures found.None? ==> forall i | 0 <= i < |jobs| :: !MatchesKey(jobs[i], r)
  {
    if jobs == [] then None
    else
      var earlier := FindActive(jobs[..|jobs| - 1], r);
      if earlier.Some? then earlier
      else if MatchesKey(jobs[|jobs| - 1], r) then Some(|jobs| - 1) else None
  }

  /** `None` and the empty string both mean "any type" to `claim_queued`. */
  predicate TypeMatches(j: Job, jobType: Option<string>) {
    jobType.None? || jobType.value == "" || j.jobType == jobType.value
  }

  /** The order `claim_queued` asks the database for. */
  predicate ServedBefore(a: Job, b: Job) {
    a.priority < b.priority || (a.priority == b.priority && a.created < b.created)
  }

  predicate Eligible(j: Job, jobType: Option<string>) {
    IsPending(j) && TypeMatches(j, jobType)
  }

  /** The row a poll of the shared table claims: the first of the best ones. */
  function BestPending(jobs: Table, jobType: Option<string>): (best: Option<JobId>)
    ensures best.Some? ==> best.value < |jobs| && Eligible(jobs[best.value], jobType)
    ensures best.Some? ==> forall i | 0 <= i < |jobs| ::
      Eligible(jobs[i], jobType) ==> !ServedBefore(jobs[i], jobs[best.value])
    ensures best.Some? ==> forall i | 0 <= i < best.value ::
      Eligible(jobs[i], jobType) ==> ServedBefore(jobs[best.value], jobs[i])
    ensures best.None? ==> forall i | 0 <= i < |jobs| :: !Eligible(jobs[i], jobType)
  {
    if jobs == [] then None
    else
      var last := |jobs| - 1;
      var earlier := BestPending(jobs[..last], jobType);
      if !Eligible(jobs[last], jobType) then earlier
      else if earlier.Some? && !ServedBefore(jobs[last], jobs[earlier.value]) then earlier
      else Some(last)
  }
}
