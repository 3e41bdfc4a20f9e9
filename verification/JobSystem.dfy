/** Several queue instances and their workers over one job table, as a step machine.

A worker claims a job, beats while its handler runs, and finishes or dies; in between, any
other operation of any instance may run. `owner`, `recovered` and `extra` are bookkeeping the
properties speak about and no step reads: which instance last listed a row, how often it was
taken back from a worker since its last requeue, and how many entries or jobs reached an
instance without passing its admission check. */
module JobSystem {
  import opened Options
  import opened JobTable
  import opened JobIndex

  datatype Slot = Idle | Busy(job: JobId, deadline: int)

  datatype Inst = Inst(q: Queue, slots: seq<Slot>)

  datatype Sys = Sys(
    jobs: Table, insts: seq<Inst>, now: int,
    owner: seq<Option<nat>>, recovered: seq<nat>, extra: seq<nat>)

  datatype Event =
    | Enqueue(i: nat, r: Request)
    | Take(i: nat, k: nat, jobType: Option<string>)
    | TakeRemote(i: nat, k: nat, jobType: Option<string>)
    | Beat(i: nat, k: nat)
    | End(i: nat, k: nat, error: Option<string>)
    | Die(i: nat, k: nat)
    | RecoverZombies(i: nat)
    | RequeueDead(i: nat, id: JobId)
    | CancelJob(i: nat, id: JobId)
    | ExpireOld(i: nat, ttl: int)
    | Crash(i: nat)
    | Tick(d: nat)

  predicate IsBusy(s: Sys, i: nat, k: nat) {
    i < |s.insts| && k < |s.insts[i].slots| && s.insts[i].slots[k].Busy?
  }

  function JobOf(s: Sys, i: nat, k: nat): JobId
    requires IsBusy(s, i, k)
  {
    s.insts[i].slots[k].job
  }

  ghost predicate Shaped(s: Sys) {
    && |s.owner| == |s.recovered| == |s.jobs|
    && |s.extra| == |s.insts|
    && (forall i | 0 <= i < |s.insts| :: ValidQueue(s.insts[i].q))
    && (forall i: nat, k: nat | IsBusy(s, i, k) :: JobOf(s, i, k) < |s.jobs|)
  }

  ghost predicate Initial(s: Sys) {
    && s.jobs == [] && s.owner == [] && s.recovered == []
    && |s.extra| == |s.insts|
    && (forall i | 0 <= i < |s.insts| ::
          && s.extra[i] == 0
          && s.insts[i].q == EmptyQueue(s.insts[i].q.capacity, s.insts[i].q.leaseS)
          && forall k | 0 <= k < |s.insts[i].slots| :: s.insts[i].slots[k].Idle?)
  }

  predicate Enabled(s: Sys, e: Event) {
    match e
    case Tick(_) => true
    case Take(i, k, _) => i < |s.insts| && k < |s.insts[i].slots| && s.insts[i].slots[k].Idle?
    case TakeRemote(i, k, _) => i < |s.insts| && k < |s.insts[i].slots| && s.insts[i].slots[k].Idle?
    case Beat(i, k) => IsBusy(s, i, k)
    case End(i, k, _) => IsBusy(s, i, k)
    case Die(i, k) => IsBusy(s, i, k)
    case _ => e.i < |s.insts|
  }

  function WithQueue(s: Sys, i: nat, q: Queue): Sys
    requires i < |s.insts|
  {
    s.(insts := s.insts[i := s.insts[i].(q := q)])
  }

  function WithSlot(s: Sys, i: nat, k: nat, slot: Slot): Sys
    requires i < |s.insts| && k < |s.insts[i].slots|
  {
    s.(insts := s.insts[i := s.insts[i].(slots := s.insts[i].slots[k := slot])])
  }

  function StepEnqueue(s: Sys, i: nat, r: Request): Sys
    requires i < |s.insts|
  {
    var q := s.insts[i].q;
    if !Admits(q, r.priority) || FindActive(s.jobs, r).Some? then s
    else WithQueue(s, i, Push(q, r.jobType, r.priority, |s.jobs|)).(
      jobs := s.jobs + [NewJob(r, s.now)], owner := s.owner + [Some(i)], recovered := s.recovered + [0])
  }

  /** `_next` and the claim: the heap loses what it popped, the slot holds what it claimed. */
  function StepTake(s: Sys, i: nat, k: nat, t: string): Sys
    requires i < |s.insts| && k < |s.insts[i].slots|
  {
    var q := s.insts[i].q;
    var (q', found) := Next(q, t, s.jobs);
    if found.None? then WithQueue(s, i, q')
    else
      assert Claimable(s.jobs, found.value);
      WithSlot(WithQueue(s, i, q'), i, k, Busy(found.value, s.now + q.leaseS)).(
        jobs := Claim(s.jobs, found.value, s.now, q.leaseS))
  }

  function StepTakeRemote(s: Sys, i: nat, k: nat, jobType: Option<string>): Sys
    requires i < |s.insts| && k < |s.insts[i].slots| && |s.extra| == |s.insts|
  {
    var best := BestPending(s.jobs, jobType);
    if best.None? then s
    else
      var lease := s.insts[i].q.leaseS;
      WithSlot(s, i, k, Busy(best.value, s.now + lease)).(
        jobs := Claim(s.jobs, best.value, s.now, lease), extra := s.extra[i := s.extra[i] + 1])
  }

  function StepEnd(s: Sys, i: nat, k: nat, error: Option<string>): Sys
    requires IsBusy(s, i, k) && |s.owner| == |s.jobs|
  {
    var id := JobOf(s, i, k);
    var (q', jobs') := Finish(s.insts[i].q, s.jobs, id, error);
    WithSlot(WithQueue(s, i, q'), i, k, Idle).(
      jobs := jobs',
      owner := if id < |jobs'| && jobs'[id].state == Queued then s.owner[id := Some(i)] else s.owner)
  }

  function StepRecover(s: Sys, i: nat): Sys
    requires i < |s.insts| && |s.owner| == |s.recovered| == |s.jobs| && |s.extra| == |s.insts|
  {
    var ids := Select(s.jobs, ZombieAt(s.now));
    var jobs' := Recover(s.jobs, s.now);
    WithQueue(s, i, PushAll(s.insts[i].q, jobs', ids)).(
      jobs := jobs',
      owner := seq(|s.owner|, x requires 0 <= x < |s.owner| =>
        if IsZombie(s.jobs[x], s.now) then Some(i) else s.owner[x]),
      recovered := seq(|s.recovered|, x requires 0 <= x < |s.recovered| =>
        s.recovered[x] + if IsZombie(s.jobs[x], s.now) then 1 else 0),
      extra := s.extra[i := s.extra[i] + |ids|])
  }

  function StepRequeue(s: Sys, i: nat, id: JobId): Sys
    requires i < |s.insts| && |s.owner| == |s.recovered| == |s.jobs| && |s.extra| == |s.insts|
  {
    if !Requeueable(s.jobs, id) then s
    else
      var jobs' := Requeue(s.jobs, id);
      WithQueue(s, i, PushJob(s.insts[i].q, jobs', id)).(
        jobs := jobs', owner := s.owner[id := Some(i)], recovered := s.recovered[id := 0],
        extra := s.extra[i := s.extra[i] + 1])
  }

  function StepCancel(s: Sys, i: nat, id: JobId): Sys
    requires i < |s.insts|
  {
    var jobs' := Cancel(s.jobs, id);
    var q := s.insts[i].q;
    var q' := if id < |jobs'| && jobs'[id].state == JobState.Cancelled then Drop(q, id) else q;
    WithQueue(s, i, q').(jobs := jobs')
  }

  function StepExpire(s: Sys, i: nat, ttl: int): Sys
    requires i < |s.insts|
  {
    WithQueue(s, i, DropAll(s.insts[i].q, Select(s.jobs, OverdueAt(s.now, ttl)))).(
      jobs := Expire(s.jobs, s.now, ttl))
  }

  /** The process dies: its heaps and its workers are gone, the table is not. */
  function StepCrash(s: Sys, i: nat): Sys
    requires i < |s.insts|
  {
    var me := s.insts[i];
    s.(insts := s.insts[i := Inst(
        EmptyQueue(me.q.capacity, me.q.leaseS), seq(|me.slots|, _ => Idle))],
       owner := seq(|s.owner|, x requires 0 <= x < |s.owner| =>
         if s.owner[x] == Some(i) then None else s.owner[x]))
  }

  function Step(s: Sys, e: Event): Sys
    requires Enabled(s, e) && |s.owner| == |s.recovered| == |s.jobs| && |s.extra| == |s.insts|
  {
    match e
    case Enqueue(i, r) => StepEnqueue(s, i, r)
    case Take(i, k, jobType) =>
      var t := if jobType.Some? then jobType else BestType(s.insts[i].q.types, s.insts[i].q.heaps);
      if t.None? then s else StepTake(s, i, k, t.value)
    case TakeRemote(i, k, jobType) => StepTakeRemote(s, i, k, jobType)
    case Beat(i, k) =>
      var lease := s.insts[i].q.leaseS;
      WithSlot(s, i, k, Busy(JobOf(s, i, k), s.now + lease)).(
        jobs := Heartbeat(s.jobs, JobOf(s, i, k), s.now, lease))
    case End(i, k, error) => StepEnd(s, i, k, error)
    case Die(i, k) => WithSlot(s, i, k, Idle)
    case RecoverZombies(i) => StepRecover(s, i)
    case RequeueDead(i, id) => StepRequeue(s, i, id)
    case CancelJob(i, id) => StepCancel(s, i, id)
    case ExpireOld(i, ttl) => StepExpire(s, i, ttl)
    case Crash(i) => StepCrash(s, i)
    case Tick(d) => s.(now := s.now + d)
  }

  /** Every step keeps the table's length from shrinking, its columns fixed and the heaps sorted. */
  lemma StepKeepsShape(s: Sys, e: Event)
    requires Shaped(s) && Enabled(s, e)
    ensures Shaped(Step(s, e))
    ensures |Step(s, e).insts| == |s.insts| && |Step(s, e).jobs| >= |s.jobs|
    ensures forall id | 0 <= id < |s.jobs| :: SameIdentity(s.jobs[id], Step(s, e).jobs[id])
    ensures forall i | 0 <= i < |s.insts| ::
      && |Step(s, e).insts[i].slots| == |s.insts[i].slots|
      && Step(s, e).insts[i].q.capacity == s.insts[i].q.capacity
      && Step(s, e).insts[i].q.leaseS == s.insts[i].q.leaseS
  {
    RowsAfterStep(s, e);
    InstsAfterStep(s, e);
    SlotsAfterStep(s, e);
  }

  /** The table and the bookkeeping keep pace, and every row keeps its identity. */
  ghost predicate RowsKept(s: Sys, s': Sys) {
    && |s'.owner| == |s'.recovered| == |s'.jobs| && |s'.jobs| >= |s.jobs|
    && |s'.extra| == |s.extra| && |s'.insts| == |s.insts|
    && forall id | 0 <= id < |s.jobs| :: SameIdentity(s.jobs[id], s'.jobs[id])
  }

  /** A worker that looks for a job changes at most the one row it claims. */
  lemma RowsAfterTake(s: Sys, e: Event) returns (claimed: Option<JobId>)
    requires Shaped(s) && Enabled(s, e) && (e.Take? || e.TakeRemote?)
    ensures var s' := Step(s, e);
      && s'.owner == s.owner && s'.recovered == s.recovered && |s'.extra| == |s.extra| && |s'.insts| == |s.insts|
      && s'.jobs == if claimed.Some? && Claimable(s.jobs, claimed.value)
                    then Claim(s.jobs, claimed.value, s.now, s.insts[e.i].q.leaseS) else s.jobs
  {
    var q := s.insts[e.i].q;
    if e.TakeRemote? {
      claimed := BestPending(s.jobs, e.jobType);
    } else {
      var t := if e.jobType.Some? then e.jobType else BestType(q.types, q.heaps);
      claimed := if t.Some? then Next(q, t.value, s.jobs).1 else None;
    }
  }

  lemma RowsAfterWork(s: Sys, e: Event)
    requires Shaped(s) && Enabled(s, e) && (e.Take? || e.TakeRemote? || e.Beat? || e.End? || e.Die?)
    ensures RowsKept(s, Step(s, e))
  {
    if e.Take? || e.TakeRemote? {
      var claimed := RowsAfterTake(s, e);
    }
  }

  lemma RowsAfterStep(s: Sys, e: Event)
    requires Shaped(s) && Enabled(s, e)
    ensures RowsKept(s, Step(s, e))
  {
    match e
    case Enqueue(_, _) =>
    case RecoverZombies(_) =>
    case RequeueDead(_, _) =>
    case CancelJob(_, _) =>
    case ExpireOld(_, _) =>
    case Crash(_) =>
    case Tick(_) =>
    case _ => RowsAfterWork(s, e);
  }

  lemma InstsAfterStep(s: Sys, e: Event)
    requires Shaped(s) && Enabled(s, e)
    ensures var s' := Step(s, e);
      |s'.insts| == |s.insts| && forall i | 0 <= i < |s.insts| ::
        && ValidQueue(s'.insts[i].q)
        && |s'.insts[i].slots| == |s.insts[i].slots|
        && s'.insts[i].q.capacity == s.insts[i].q.capacity
        && s'.insts[i].q.leaseS == s.insts[i].q.leaseS
  {
    if !e.Tick? {
      QueueAfterStep(s, e);
      OthersAfterStep(s, e);
    }
  }

  /** Only instance i changes, and it keeps its number of workers. */
  ghost predicate OnlyActs(s: Sys, i: nat, s': Sys)
    requires i < |s.insts|
  {
    && |s'.insts| == |s.insts| && |s'.insts[i].slots| == |s.insts[i].slots|
    && forall j | 0 <= j < |s.insts| && j != i :: s'.insts[j] == s.insts[j]
  }

  lemma OthersAfterWork(s: Sys, e: Event)
    requires Shaped(s) && Enabled(s, e) && (e.Take? || e.TakeRemote? || e.Beat? || e.End? || e.Die?)
    ensures OnlyActs(s, e.i, Step(s, e))
  {
    match e
    case Take(_, _, _) =>
    case TakeRemote(_, _, _) =>
    case Beat(_, _) =>
    case End(_, _, _) =>
    case Die(_, _) =>
  }

  lemma OthersAfterStep(s: Sys, e: Event)
    requires Shaped(s) && Enabled(s, e) && !e.Tick?
    ensures OnlyActs(s, e.i, Step(s, e))
  {
    match e
    case Enqueue(_, _) =>
    case RecoverZombies(_) =>
    case RequeueDead(_, _) =>
    case CancelJob(_, _) =>
    case ExpireOld(_, _) =>
    case Crash(_) =>
    case _ => OthersAfterWork(s, e);
  }

  /** A slot that is busy afterwards either was busy with that job or holds a row just claimed. */
  lemma SlotsAfterStep(s: Sys, e: Event)
    requires Shaped(s) && Enabled(s, e)
    ensures forall i: nat, k: nat | IsBusy(Step(s, e), i, k) :: SlotOrigin(s, e, i, k)
  {
    forall i: nat, k: nat | IsBusy(Step(s, e), i, k) ensures SlotOrigin(s, e, i, k) {
      SlotAfterStep(s, e, i, k);
    }
  }

  lemma SlotAfterStep(s: Sys, e: Event, i: nat, k: nat)
    requires Shaped(s) && Enabled(s, e) && IsBusy(Step(s, e), i, k)
    ensures SlotOrigin(s, e, i, k)
  {
    if IsBusy(s, i, k) {
      assert JobOf(s, i, k) < |s.jobs|;
    }
    if !e.Tick? {
      OthersAfterStep(s, e);
      if i == e.i && (e.Take? || e.TakeRemote?) {
        SlotAfterTake(s, e, i, k);
      } else if i == e.i && !e.Beat? && !e.End? && !e.Die? && !e.Crash? {
        assert Step(s, e).insts[i].slots == s.insts[i].slots;
      }
    }
  }

  lemma SlotAfterTake(s: Sys, e: Event, i: nat, k: nat)
    requires Shaped(s) && Enabled(s, e) && IsBusy(Step(s, e), i, k) && (e.Take? || e.TakeRemote?) && e.i == i
    ensures SlotOrigin(s, e, i, k)
  {
    if k != e.k {
      assert Step(s, e).insts[i].slots[k] == s.insts[i].slots[k];
      assert JobOf(s, i, k) < |s.jobs|;
    }
  }

  ghost predicate SlotOrigin(s: Sys, e: Event, i: nat, k: nat)
    requires Enabled(s, e) && Shaped(s) && IsBusy(Step(s, e), i, k)
  {
    && JobOf(Step(s, e), i, k) < |s.jobs|
    && if IsBusy(s, i, k) then JobOf(Step(s, e), i, k) == JobOf(s, i, k)
       else (e.Take? || e.TakeRemote?) && e.i == i && e.k == k && Claimable(s.jobs, JobOf(Step(s, e), i, k))
  }

  /** A queue that is valid and has kept its settings. */
  ghost predicate QueueKept(q: Queue, q': Queue) {
    ValidQueue(q') && q'.capacity == q.capacity && q'.leaseS == q.leaseS
  }

  lemma QueueAfterTake(s: Sys, e: Event)
    requires Shaped(s) && Enabled(s, e) && e.Take?
    ensures QueueKept(s.insts[e.i].q, Step(s, e).insts[e.i].q)
  {
    var q := s.insts[e.i].q;
    var t := if e.jobType.Some? then e.jobType else BestType(q.types, q.heaps);
    if t.Some? {
      NextValid(q, t.value, s.jobs);
    }
  }

  lemma QueueAfterEnd(s: Sys, e: Event)
    requires Shaped(s) && Enabled(s, e) && e.End?
    ensures QueueKept(s.insts[e.i].q, Step(s, e).insts[e.i].q)
  {
    var id := JobOf(s, e.i, e.k);
    PushValid(s.insts[e.i].q, s.jobs[id].jobType, s.jobs[id].priority, id);
  }

  lemma QueueAfterStep(s: Sys, e: Event)
    requires Shaped(s) && Enabled(s, e) && !e.Tick?
    ensures QueueKept(s.insts[e.i].q, Step(s, e).insts[e.i].q)
  {
    var q := s.insts[e.i].q;
    match e
    case Enqueue(i, r) => PushValid(q, r.jobType, r.priority, |s.jobs|);
    case RecoverZombies(i) =>
      PushAllValid(q, Recover(s.jobs, s.now), Select(s.jobs, ZombieAt(s.now)));
      PushAllSettings(q, Recover(s.jobs, s.now), Select(s.jobs, ZombieAt(s.now)));
    case RequeueDead(i, id) =>
      if id < |s.jobs| {
        PushValid(q, s.jobs[id].jobType, s.jobs[id].priority, id);
      }
    case CancelJob(i, id) => DropValid(q, id);
    case ExpireOld(i, ttl) =>
      DropAllValid(q, Select(s.jobs, OverdueAt(s.now, ttl)));
      DropAllCounts(q, Select(s.jobs, OverdueAt(s.now, ttl)));
    case Crash(_) =>
    case Take(_, _, _) => QueueAfterTake(s, e);
    case End(_, _, _) => QueueAfterEnd(s, e);
    case _ =>
  }

  lemma {:induction false} PushAllSettings(q: Queue, jobs: Table, ids: seq<JobId>)
    ensures PushAll(q, jobs, ids).capacity == q.capacity && PushAll(q, jobs, ids).leaseS == q.leaseS
  {
    if ids != [] {
      PushAllSettings(q, jobs, ids[..|ids| - 1]);
    }
  }

  // ---------- runs ----------

  ghost predicate Legal(s: Sys, es: seq<Event>)
    requires Shaped(s)
    decreases |es|
  {
    es == [] || (Enabled(s, es[0]) && (StepKeepsShape(s, es[0]); Legal(Step(s, es[0]), es[1..])))
  }

  ghost function Run(s: Sys, es: seq<Event>): (r: Sys)
    requires Shaped(s) && Legal(s, es)
    ensures Shaped(r)
    decreases |es|
  {
    if es == [] then s else StepKeepsShape(s, es[0]); Run(Step(s, es[0]), es[1..])
  }

  /** One more event at the end of a run. */
  lemma {:induction false} RunOneMore(s: Sys, es: seq<Event>, e: Event)
    requires Shaped(s) && Legal(s, es) && Enabled(Run(s, es), e)
    ensures Legal(s, es + [e]) && Run(s, es + [e]) == Step(Run(s, es), e)
    decreases |es|
  {
    if es == [] {
      StepKeepsShape(s, e);
      assert ([] + [e])[1..] == [];
    } else {
      StepKeepsShape(s, es[0]);
      RunOneMore(Step(s, es[0]), es[1..], e);
      assert (es + [e])[1..] == es[1..] + [e];
    }
  }
}
