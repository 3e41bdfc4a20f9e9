/** Attempt accounting and admission, over every run of the job system. */
module JobRuns {
  import opened JobTable
  import opened JobIndex
  import opened JobSystem

  // ---------- attempts ----------

  function AtLeastOne(n: int): nat {
    if n < 1 then 1 else n
  }

  /** The attempt bound of one row, strict while the row waits to be claimed again. */
  predicate WithinAttempts(j: Job, recovered: nat) {
    && j.attempts <= AtLeastOne(j.maxAttempts) + recovered
    && (IsPending(j) ==> j.attempts < AtLeastOne(j.maxAttempts) + recovered)
  }

  ghost predicate Accounted(s: Sys) {
    && Shaped(s)
    && forall id | 0 <= id < |s.jobs| :: WithinAttempts(s.jobs[id], s.recovered[id])
  }

  lemma WorkKeepsAccounted(s: Sys, e: Event, id: JobId)
    requires Accounted(s) && Enabled(s, e) && (e.Take? || e.TakeRemote? || e.Beat? || e.End? || e.Die?)
    requires id < |Step(s, e).jobs| == |Step(s, e).recovered| == |s.jobs|
    ensures WithinAttempts(Step(s, e).jobs[id], Step(s, e).recovered[id])
  {
    assert WithinAttempts(s.jobs[id], s.recovered[id]);
    if e.Take? || e.TakeRemote? {
      var claimed := RowsAfterTake(s, e);
    }
  }

  lemma StepKeepsAccounted(s: Sys, e: Event)
    requires Accounted(s) && Enabled(s, e)
    ensures Accounted(Step(s, e))
  {
    StepKeepsShape(s, e);
    var s' := Step(s, e);
    forall id | 0 <= id < |s'.jobs| ensures WithinAttempts(s'.jobs[id], s'.recovered[id]) {
      if id < |s.jobs| {
        assert WithinAttempts(s.jobs[id], s.recovered[id]);
      }
      if e.Take? || e.TakeRemote? || e.Beat? || e.End? || e.Die? {
        WorkKeepsAccounted(s, e, id);
      }
    }
  }

  /** In every run, timely or not, a row's attempts never exceed its limit (taken as at least
  one) by more than the times it was taken back from a worker since its last requeue. */
  lemma {:induction false} AttemptsBounded(s: Sys, es: seq<Event>)
    requires Accounted(s) && Legal(s, es)
    ensures Accounted(Run(s, es))
    decreases |es|
  {
    if es != [] {
      StepKeepsAccounted(s, es[0]);
      AttemptsBounded(Step(s, es[0]), es[1..]);
    }
  }

  // ---------- admission ----------

  function BusyCount(slots: seq<Slot>): (n: nat)
    ensures n <= |slots|
  {
    if slots == [] then 0
    else BusyCount(slots[..|slots| - 1]) + if slots[|slots| - 1].Busy? then 1 else 0
  }

  lemma {:induction false} BusyAfterUpdate(slots: seq<Slot>, k: nat, slot: Slot)
    requires k < |slots|
    ensures BusyCount(slots[k := slot]) ==
      BusyCount(slots) + (if slot.Busy? then 1 else 0) - (if slots[k].Busy? then 1 else 0)
  {
    var last := |slots| - 1;
    if k == last {
      assert slots[k := slot][..last] == slots[..last];
    } else {
      assert slots[k := slot][..last] == slots[..last][k := slot];
      BusyAfterUpdate(slots[..last], k, slot);
    }
  }

  lemma {:induction false} IdleCount(slots: seq<Slot>)
    requires forall k | 0 <= k < |slots| :: slots[k].Idle?
    ensures BusyCount(slots) == 0
  {
    if slots != [] {
      IdleCount(slots[..|slots| - 1]);
    }
  }

  /** Entries waiting plus jobs in flight at one instance. */
  function Load(me: Inst): nat {
    Pending(me.q) + BusyCount(me.slots)
  }

  predicate WithinCapacity(me: Inst, extra: nat) {
    me.q.capacity > 0 ==> Load(me) <= CeilPercent(95, me.q.capacity) + |me.slots| + extra
  }

  ghost predicate Bounded(s: Sys) {
    && Shaped(s)
    && forall i | 0 <= i < |s.insts| :: WithinCapacity(s.insts[i], s.extra[i])
  }

  /** How much one step may add to the load of the acting instance. */
  function Growth(s: Sys, e: Event): nat
    requires Enabled(s, e)
  {
    match e
    case Enqueue(i, r) => if Admits(s.insts[i].q, r.priority) then 1 else 0
    case TakeRemote(i, k, jobType) => if BestPending(s.jobs, jobType).Some? then 1 else 0
    case RecoverZombies(i) => |Select(s.jobs, ZombieAt(s.now))|
    case RequeueDead(i, id) => if Requeueable(s.jobs, id) then 1 else 0
    case _ => 0
  }

  lemma WorkerLoad(s: Sys, e: Event)
    requires Shaped(s) && Enabled(s, e) && (e.Take? || e.TakeRemote? || e.Beat? || e.Die?)
    ensures |Step(s, e).insts| == |s.insts|
    ensures Load(Step(s, e).insts[e.i]) <= Load(s.insts[e.i]) + Growth(s, e)
  {
    var me, me' := s.insts[e.i], Step(s, e).insts[e.i];
    BusyAfterUpdate(me.slots, e.k, me'.slots[e.k]);
    assert me.slots[e.k := me.slots[e.k]] == me.slots;
    if e.Take? {
      var t := if e.jobType.Some? then e.jobType else BestType(me.q.types, me.q.heaps);
      if t.Some? {
        NextCounts(me.q, t.value, s.jobs);
      }
    }
  }

  lemma EndLoad(s: Sys, e: Event)
    requires Shaped(s) && Enabled(s, e) && e.End?
    ensures |Step(s, e).insts| == |s.insts|
    ensures Load(Step(s, e).insts[e.i]) <= Load(s.insts[e.i])
  {
    var me, me' := s.insts[e.i], Step(s, e).insts[e.i];
    var id := JobOf(s, e.i, e.k);
    BusyAfterUpdate(me.slots, e.k, Idle);
    PushCounts(me.q, s.jobs[id].jobType, s.jobs[id].priority, id);
    assert me'.slots == me.slots[e.k := Idle];
    assert me'.q == me.q || me'.q == Push(me.q, s.jobs[id].jobType, s.jobs[id].priority, id);
  }

  lemma PushLoad(s: Sys, e: Event)
    requires Shaped(s) && Enabled(s, e) && (e.Enqueue? || e.RecoverZombies? || e.RequeueDead?)
    ensures |Step(s, e).insts| == |s.insts|
    ensures Load(Step(s, e).insts[e.i]) <= Load(s.insts[e.i]) + Growth(s, e)
  {
    var q := s.insts[e.i].q;
    match e
    case Enqueue(i, r) => PushCounts(q, r.jobType, r.priority, |s.jobs|);
    case RecoverZombies(i) => PushAllCounts(q, Recover(s.jobs, s.now), Select(s.jobs, ZombieAt(s.now)));
    case RequeueDead(i, id) =>
      if Requeueable(s.jobs, id) {
        PushCounts(q, s.jobs[id].jobType, s.jobs[id].priority, id);
      }
  }

  lemma DropLoad(s: Sys, e: Event)
    requires Shaped(s) && Enabled(s, e) && (e.CancelJob? || e.ExpireOld? || e.Crash?)
    ensures |Step(s, e).insts| == |s.insts|
    ensures Load(Step(s, e).insts[e.i]) <= Load(s.insts[e.i])
  {
    var q := s.insts[e.i].q;
    match e
    case CancelJob(i, id) => PendingShrinks(q.types, q.heaps, Drop(q, id).heaps);
    case ExpireOld(i, ttl) => DropAllCounts(q, Select(s.jobs, OverdueAt(s.now, ttl)));
    case Crash(i) => IdleCount(Step(s, e).insts[i].slots);
  }

  lemma LoadGrows(s: Sys, e: Event)
    requires Shaped(s) && Enabled(s, e) && !e.Tick?
    ensures |Step(s, e).insts| == |s.insts|
    ensures Load(Step(s, e).insts[e.i]) <= Load(s.insts[e.i]) + Growth(s, e)
  {
    match e
    case Take(_, _, _) => WorkerLoad(s, e);
    case TakeRemote(_, _, _) => WorkerLoad(s, e);
    case Beat(_, _) => WorkerLoad(s, e);
    case Die(_, _) => WorkerLoad(s, e);
    case End(_, _, _) => EndLoad(s, e);
    case Enqueue(_, _) => PushLoad(s, e);
    case RecoverZombies(_) => PushLoad(s, e);
    case RequeueDead(_, _) => PushLoad(s, e);
    case _ => DropLoad(s, e);
  }

  /** All that adds load without asking for admission is counted in `extra`. */
  lemma ExtraGrows(s: Sys, e: Event)
    requires Shaped(s) && Enabled(s, e) && !e.Tick?
    ensures |Step(s, e).extra| == |s.extra|
    ensures Step(s, e).extra[e.i] == s.extra[e.i] + if e.Enqueue? then 0 else Growth(s, e)
  {
  }

  /** An enqueue that adds load was admitted, and leaves no more than 95 per cent waiting. */
  lemma EnqueueLoad(s: Sys, e: Event)
    requires Shaped(s) && Enabled(s, e) && e.Enqueue? && s.insts[e.i].q.capacity > 0
    ensures Growth(s, e) > 0 ==>
      Load(s.insts[e.i]) + Growth(s, e) <= CeilPercent(95, s.insts[e.i].q.capacity) + |s.insts[e.i].slots|
  {
    if Growth(s, e) > 0 {
      AdmittedIffWithinWatermark(s.insts[e.i].q, e.r.priority);
    }
  }

  /** Only an accepted enqueue, a recovery, a requeue or a remote claim adds load, and all but
  the first are counted in `extra`. */
  lemma LoadAfterStep(s: Sys, e: Event)
    requires Bounded(s) && Enabled(s, e) && !e.Tick?
    ensures |Step(s, e).insts| == |s.insts| && |Step(s, e).extra| == |s.extra|
    ensures WithinCapacity(Step(s, e).insts[e.i], Step(s, e).extra[e.i])
  {
    assert WithinCapacity(s.insts[e.i], s.extra[e.i]);
    InstsAfterStep(s, e);
    LoadGrows(s, e);
    ExtraGrows(s, e);
    if e.Enqueue? && s.insts[e.i].q.capacity > 0 {
      EnqueueLoad(s, e);
    }
  }

  lemma StepKeepsBounded(s: Sys, e: Event)
    requires Bounded(s) && Enabled(s, e)
    ensures Bounded(Step(s, e))
  {
    StepKeepsShape(s, e);
    if !e.Tick? {
      LoadAfterStep(s, e);
      OthersAfterStep(s, e);
      ExtraAfterStep(s, e);
    }
  }

  /** Only requeues, recoveries and remote claims of an instance add to its `extra`. */
  lemma ExtraAfterStep(s: Sys, e: Event)
    requires Shaped(s) && Enabled(s, e)
    ensures |Step(s, e).extra| == |s.extra|
    ensures forall i | 0 <= i < |s.extra| :: Step(s, e).extra[i] != s.extra[i] ==>
      (e.TakeRemote? || e.RecoverZombies? || e.RequeueDead?) && e.i == i
  {
  }

  /** With a positive capacity, waiting plus in-flight work of an instance never exceeds 95 per
  cent of capacity, rounded up, plus its workers, plus what bypassed its admission check. */
  lemma {:induction false} LoadBounded(s: Sys, es: seq<Event>)
    requires Bounded(s) && Legal(s, es)
    ensures Bounded(Run(s, es))
    decreases |es|
  {
    if es != [] {
      StepKeepsBounded(s, es[0]);
      LoadBounded(Step(s, es[0]), es[1..]);
    }
  }

  predicate BypassesAdmission(e: Event) {
    e.TakeRemote? || e.RecoverZombies? || e.RequeueDead?
  }

  /** Without requeue, zombie recovery or remote claims nothing bypasses admission. */
  lemma {:induction false} NothingBypasses(s: Sys, es: seq<Event>)
    requires Shaped(s) && Legal(s, es)
    requires forall e | e in es :: !BypassesAdmission(e)
    ensures Run(s, es).extra == s.extra
    decreases |es|
  {
    if es != [] {
      StepKeepsShape(s, es[0]);
      ExtraAfterStep(s, es[0]);
      assert es[0] in es && Step(s, es[0]).extra == s.extra;
      NothingBypasses(Step(s, es[0]), es[1..]);
    }
  }

  lemma InitiallyAccountedAndBounded(s: Sys)
    requires Initial(s)
    ensures Accounted(s) && Bounded(s)
  {
    forall i | 0 <= i < |s.insts|
      ensures ValidQueue(s.insts[i].q) && WithinCapacity(s.insts[i], s.extra[i])
    {
      assert s.insts[i].q == EmptyQueue(s.insts[i].q.capacity, s.insts[i].q.leaseS);
      IdleCount(s.insts[i].slots);
    }
  }

  /** A capacity of zero or less admits everything: no bound holds. */
  lemma NoCapacityNoBound(q: Queue, t: string, priority: int, id: JobId)
    requires q.capacity <= 0 && ValidQueue(q)
    ensures Admits(q, priority) && Admits(Push(q, t, priority, id), priority)
    ensures Pending(Push(q, t, priority, id)) == Pending(q) + 1
  {
    PushCounts(q, t, priority, id);
  }
}
