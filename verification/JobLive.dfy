/** The queue code itself, any number of instances over one store, event after event: it is always in the
state that the step machine reaches, so what holds of every run of the machine holds of the code. */
module JobLive {
  import opened Options
  import opened JobTable
  import opened JobIndex
  import opened JobStore
  import opened JobQueue
  import opened JobSystem
  import opened JobListing
  import opened JobRuns
  import opened JobLease

  /** The objects and the workers' slots are those of the machine's state. */
  ghost predicate Mirrors(s: Sys, insts: seq<Instance>, store: Store, workers: seq<seq<Slot>>)
    reads set i | 0 <= i < |insts| :: insts[i], store
  {
    && Shaped(s) && s.jobs == store.jobs && s.now == store.now
    && |s.insts| == |insts| == |workers|
    && (forall i | 0 <= i < |insts| :: insts[i].store == store && s.insts[i] == Inst(insts[i].Abs(), workers[i]))
    && forall i, j | 0 <= i < j < |insts| :: insts[i] != insts[j]
  }

  /** The effect of an event of instance i that leaves the workers alone. */
  ghost predicate QueueEffect(s: Sys, s': Sys, i: nat, q: Queue, jobs: Table)
    requires i < |s.insts|
  {
    && |s'.insts| == |s.insts| && s'.now == s.now
    && s'.jobs == jobs && s'.insts[i] == s.insts[i].(q := q)
  }

  // ---------- the operations of one instance ----------

  /** Everything but looking for a job, ending one and dying. */
  method Operate(me: Instance, e: Event, ghost s: Sys)
    requires e.Enqueue? || e.RecoverZombies? || e.RequeueDead? || e.CancelJob? || e.ExpireOld?
    requires Shaped(s) && Enabled(s, e) && me.Valid() && s.insts[e.i].q == me.Abs()
    requires s.jobs == me.store.jobs && s.now == me.store.now
    modifies me, me.store`jobs
    ensures me.Valid() && QueueEffect(s, Step(s, e), e.i, me.Abs(), me.store.jobs)
  {
    match e {
      case Enqueue(i, r) => var id := me.Enqueue(r);
      case RecoverZombies(i) => var n := me.RecoverZombies();
      case RequeueDead(i, id) => var ok := me.RequeueJob(id);
      case CancelJob(i, id) => var state := me.CancelJob(id);
      case ExpireOld(i, ttl) => var expired := me.ExpireOld(ttl);
    }
  }

  /** What a worker's look or work does to the machine. */
  ghost predicate WorkerEffect(s: Sys, s': Sys, i: nat, k: nat, q: Queue, jobs: Table, slot: Slot)
    requires i < |s.insts| && k < |s.insts[i].slots|
  {
    && |s'.insts| == |s.insts| && s'.now == s.now
    && s'.jobs == jobs && s'.insts[i] == Inst(q, s.insts[i].slots[k := slot])
  }

  /** The type a worker looks for: its own, or the most urgent one. */
  function TypeOf(q: Queue, jobType: Option<string>): Option<string> {
    if jobType.Some? then jobType else BestType(q.types, q.heaps)
  }

  lemma NothingToTake(s: Sys, i: nat, k: nat, jobType: Option<string>)
    requires Shaped(s) && Enabled(s, Take(i, k, jobType)) && TypeOf(s.insts[i].q, jobType).None?
    ensures WorkerEffect(s, Step(s, Take(i, k, jobType)), i, k, s.insts[i].q, s.jobs, Idle)
  {
    assert s.insts[i].slots[k := Idle] == s.insts[i].slots;
  }

  /** What the machine makes of a look for jobs of one type, told by what the heap gave. */
  lemma TakeStep(s: Sys, i: nat, k: nat, jobType: Option<string>, t: string, q: Queue, found: Option<JobId>,
                 jobs: Table)
    requires Shaped(s) && Enabled(s, Take(i, k, jobType)) && TypeOf(s.insts[i].q, jobType) == Some(t)
    requires (q, found) == Next(s.insts[i].q, t, s.jobs)
    requires jobs == if found.Some? && Claimable(s.jobs, found.value)
                     then Claim(s.jobs, found.value, s.now, s.insts[i].q.leaseS) else s.jobs
    ensures WorkerEffect(s, Step(s, Take(i, k, jobType)), i, k, q, jobs,
                         if found.Some? then Busy(found.value, s.now + s.insts[i].q.leaseS) else Idle)
  {
    assert s.insts[i].slots[k := Idle] == s.insts[i].slots;
  }

  method PickType(me: Instance, jobType: Option<string>) returns (t: Option<string>)
    requires me.Valid()
    ensures t == TypeOf(me.Abs(), jobType)
  {
    t := jobType;
    if t.None? {
      t := me.MostUrgentType();
    }
  }

  /** A worker looks for a job in the heaps of its instance. */
  method Look(me: Instance, e: Event, ghost s: Sys) returns (slot: Slot)
    requires e.Take?
    requires Shaped(s) && Enabled(s, e) && me.Valid() && s.insts[e.i].q == me.Abs()
    requires s.jobs == me.store.jobs && s.now == me.store.now
    modifies me, me.store`jobs
    ensures me.Valid() && WorkerEffect(s, Step(s, e), e.i, e.k, me.Abs(), me.store.jobs, slot)
  {
    var t := PickType(me, e.jobType);
    if t.None? {
      NothingToTake(s, e.i, e.k, e.jobType);
      return Idle;
    }
    var found := me.NextJob(t.value);
    TakeStep(s, e.i, e.k, e.jobType, t.value, me.Abs(), found, me.store.jobs);
    slot := if found.Some? then Busy(found.value, me.store.now + me.leaseS) else Idle;
  }

  /** Or in the shared table. */
  method Poll(me: Instance, e: Event, ghost s: Sys) returns (slot: Slot)
    requires e.TakeRemote?
    requires Shaped(s) && Enabled(s, e) && me.Valid() && s.insts[e.i].q == me.Abs()
    requires s.jobs == me.store.jobs && s.now == me.store.now
    modifies me.store`jobs
    ensures me.Valid() && WorkerEffect(s, Step(s, e), e.i, e.k, me.Abs(), me.store.jobs, slot)
  {
    var found := me.store.ClaimQueued(e.jobType, me.leaseS);
    slot := if found.Some? then Busy(found.value, me.store.now + me.leaseS) else Idle;
    assert s.insts[e.i].slots[e.k := Idle] == s.insts[e.i].slots;
  }

  /** A busy worker beats, ends or dies. */
  method Work(me: Instance, e: Event, slot: Slot, ghost s: Sys) returns (slot': Slot)
    requires e.Beat? || e.End? || e.Die?
    requires Shaped(s) && Enabled(s, e) && me.Valid() && s.insts[e.i].q == me.Abs()
    requires s.jobs == me.store.jobs && s.now == me.store.now && s.insts[e.i].slots[e.k] == slot
    modifies me, me.store`jobs
    ensures me.Valid() && WorkerEffect(s, Step(s, e), e.i, e.k, me.Abs(), me.store.jobs, slot')
  {
    match e {
      case Beat(i, k) =>
        me.store.Heartbeat(slot.job, me.leaseS);
        slot' := Busy(slot.job, me.store.now + me.leaseS);
      case End(i, k, error) =>
        me.FinishJob(slot.job, error);
        slot' := Idle;
      case Die(i, k) =>
        slot' := Idle;
    }
  }

  // ---------- one event ----------

  lemma MirrorsAfter(s: Sys, e: Event, insts: seq<Instance>, store: Store, workers: seq<seq<Slot>>)
    requires Shaped(s) && Enabled(s, e) && !e.Tick? && |s.insts| == |insts| == |workers|
    requires |Step(s, e).insts| == |s.insts| && Step(s, e).jobs == store.jobs && Step(s, e).now == store.now
    requires forall i | 0 <= i < |insts| :: insts[i].store == store
    requires forall i, j | 0 <= i < j < |insts| :: insts[i] != insts[j]
    requires forall i | 0 <= i < |insts| && i != e.i :: s.insts[i] == Inst(insts[i].Abs(), workers[i])
    requires Step(s, e).insts[e.i] == Inst(insts[e.i].Abs(), workers[e.i])
    ensures Mirrors(Step(s, e), insts, store, workers)
  {
    StepKeepsShape(s, e);
    OthersAfterStep(s, e);
  }

  /** The code does what the machine does, at any event. */
  method Perform(insts: seq<Instance>, store: Store, workers: seq<seq<Slot>>, e: Event, ghost s: Sys)
    returns (insts': seq<Instance>, workers': seq<seq<Slot>>)
    requires Mirrors(s, insts, store, workers) && Enabled(s, e)
    modifies set i | 0 <= i < |insts| :: insts[i], store
    ensures Mirrors(Step(s, e), insts', store, workers')
    ensures forall i | 0 <= i < |insts'| :: (i < |insts| && insts'[i] == insts[i]) || fresh(insts'[i])
  {
    insts', workers' := insts, workers;
    if e.Tick? {
      store.now := store.now + e.d;
      StepKeepsShape(s, e);
      return;
    }
    var me := insts[e.i];
    assert s.insts[e.i] == Inst(me.Abs(), workers[e.i]);
    if e.Crash? {
      var reborn := new Instance(store, me.capacity, me.leaseS);
      insts' := insts[e.i := reborn];
      workers' := workers[e.i := seq(|workers[e.i]|, _ => Idle)];
    } else if e.Take? {
      var slot := Look(me, e, s);
      workers' := workers[e.i := workers[e.i][e.k := slot]];
    } else if e.TakeRemote? {
      var slot := Poll(me, e, s);
      workers' := workers[e.i := workers[e.i][e.k := slot]];
    } else if e.Beat? || e.End? || e.Die? {
      var slot := Work(me, e, workers[e.i][e.k], s);
      workers' := workers[e.i := workers[e.i][e.k := slot]];
    } else {
      Operate(me, e, s);
    }
    MirrorsAfter(s, e, insts', store, workers');
  }

  /** What holds after any events: no waiting row drops out of its owner's heap, attempts and load stay
  within their bounds; and if no worker was late, nobody else has its job. */
  ghost predicate Sound(s0: Sys, events: seq<Event>, s: Sys)
    requires Shaped(s0) && Legal(s0, events)
  {
    && Indexed(s) && Accounted(s) && Bounded(s)
    && (Timely(s0, events) && (forall i | 0 <= i < |s0.insts| :: s0.insts[i].q.leaseS >= 0) ==> Leased(s))
  }

  lemma EveryRunIsSound(s0: Sys, events: seq<Event>)
    requires Initial(s0) && Shaped(s0) && Legal(s0, events)
    ensures Sound(s0, events, Run(s0, events))
  {
    InitiallyIndexed(s0);
    NoLostJobs(s0, events);
    InitiallyAccountedAndBounded(s0);
    AttemptsBounded(s0, events);
    LoadBounded(s0, events);
    if Timely(s0, events) && (forall i | 0 <= i < |s0.insts| :: s0.insts[i].q.leaseS >= 0) {
      InitiallyLeased(s0);
      LeasesExclude(s0, events);
    }
  }

  /** Any number of instances, from an empty table through any events that can happen: the code ends in the
  state of the machine, and so all of that holds of it. */
  method LiveThrough(capacities: seq<(int, int)>, workers: seq<nat>, now: int, events: seq<Event>)
    returns (insts: seq<Instance>, store: Store, slots: seq<seq<Slot>>, ghost s: Sys)
    requires |capacities| == |workers|
    requires Legal(Empty(capacities, workers, now), events)
    ensures s == Run(Empty(capacities, workers, now), events) && Mirrors(s, insts, store, slots)
    ensures Sound(Empty(capacities, workers, now), events, s)
  {
    EveryRunIsSound(Empty(capacities, workers, now), events);
    store := new Store(now);
    insts, slots := [], [];
    for i := 0 to |capacities|
      invariant |insts| == |slots| == i && store.jobs == [] && store.now == now && fresh(store)
      invariant forall j | 0 <= j < i :: fresh(insts[j]) && insts[j].store == store
      invariant forall j | 0 <= j < i :: insts[j].Abs() == EmptyQueue(capacities[j].0, capacities[j].1)
      invariant forall j | 0 <= j < i :: slots[j] == seq(workers[j], _ => Idle)
      invariant forall j, k | 0 <= j < k < i :: insts[j] != insts[k]
    {
      var me := new Instance(store, capacities[i].0, capacities[i].1);
      insts, slots := insts + [me], slots + [seq(workers[i], _ => Idle)];
    }
    s := Empty(capacities, workers, now);
    for n := 0 to |events|
      invariant fresh(store) && forall i | 0 <= i < |insts| :: fresh(insts[i])
      invariant Mirrors(s, insts, store, slots) && Legal(s, events[n..])
      invariant Run(s, events[n..]) == Run(Empty(capacities, workers, now), events)
    {
      assert events[n..][0] == events[n] && events[n..][1..] == events[n + 1..];
      insts, slots := Perform(insts, store, slots, events[n], s);
      s := Step(s, events[n]);
    }
  }

  /** Fresh instances with so many workers each, over an empty table. */
  ghost function Empty(capacities: seq<(int, int)>, workers: seq<nat>, now: int): (s: Sys)
    requires |capacities| == |workers|
    ensures Initial(s) && Shaped(s) && s.now == now
  {
    var insts := seq(|capacities|, i requires 0 <= i < |capacities| =>
      Inst(EmptyQueue(capacities[i].0, capacities[i].1), seq(workers[i], _ => Idle)));
    var extra := seq(|capacities|, _ => 0);
    assert forall i | 0 <= i < |insts| :: ValidQueue(insts[i].q);
    Sys([], insts, now, [], [], extra)
  }
}
