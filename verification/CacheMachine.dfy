/** app/knowledge/cache.py: the in-process retrieval cache with single flight, as a machine whose
steps are the stretches of code between two awaits. */
module CacheMachine {

  type Key = string
  type LoadId = nat
  type CallerId = nat

  /** A loader begins some time after its task was made; `began` counts the clears before that. */
  datatype Phase = Spawned | Running(began: nat) | Loaded(began: nat) | Failed(began: nat)

  /** An asyncio task that runs `_load`; its value is known by its number. */
  datatype Load = Load(key: Key, warm: bool, phase: Phase)

  datatype Stage = Waiting(load: LoadId, leads: bool) | Returned(value: LoadId) | Raised

  /** One call of `get_or_load`. */
  datatype Caller = Caller(key: Key, stage: Stage)

  datatype Entry = Entry(at: real, value: LoadId)

  datatype Cache = Cache(store: map<Key, Entry>, inflight: map<Key, LoadId>,
    loads: seq<Load>, callers: seq<Caller>, clears: nat)

  datatype Config = Config(ttl: real, maxSize: nat)

  datatype Event =
    | Call(key: Key, now: real)
    | Begin(load: LoadId)
    | Finish(load: LoadId, now: real)
    | Fail(load: LoadId)
    | Wake(caller: CallerId)
    | Warm(key: Key)
    | Clear

  predicate IsHit(c: Config, s: Cache, key: Key, now: real) {
    key in s.store && now - s.store[key].at < c.ttl
  }

  function AfterCall(c: Config, s: Cache, key: Key, now: real): Cache {
    if key in s.inflight then
      s.(callers := s.callers + [Caller(key, Waiting(s.inflight[key], false))])
    else if IsHit(c, s, key, now) then
      s.(callers := s.callers + [Caller(key, Returned(s.store[key].value))])
    else
      s.(loads := s.loads + [Load(key, false, Spawned)],
         inflight := s.inflight[key := |s.loads|],
         callers := s.callers + [Caller(key, Waiting(|s.loads|, true))])
  }

  /** Past twice its size the store drops what has expired. */
  function Evicted(c: Config, store: map<Key, Entry>, now: real): map<Key, Entry> {
    if |store| > 2 * c.maxSize then map k | k in store && now - store[k].at < c.ttl :: store[k] else store
  }

  function AfterFinish(c: Config, s: Cache, l: LoadId, now: real): Cache
    requires l < |s.loads| && s.loads[l].phase.Running?
  {
    var load := s.loads[l];
    s.(loads := s.loads[l := load.(phase := Loaded(load.phase.began))],
       store := Evicted(c, s.store[load.key := Entry(now, l)], now))
  }

  predicate Over(phase: Phase) {
    phase.Loaded? || phase.Failed?
  }

  predicate CanWake(s: Cache, i: CallerId) {
    && i < |s.callers| && s.callers[i].stage.Waiting?
    && s.callers[i].stage.load < |s.loads| && Over(s.loads[s.callers[i].stage.load].phase)
  }

  /** The awaited task is over: the leader forgets it, and the caller returns or raises. */
  function AfterWake(s: Cache, i: CallerId): Cache
    requires CanWake(s, i)
  {
    var caller := s.callers[i];
    var l := caller.stage.load;
    s.(callers := s.callers[i := caller.(stage := if s.loads[l].phase.Loaded? then Returned(l) else Raised)],
       inflight := if caller.stage.leads then s.inflight - {caller.key} else s.inflight)
  }

  function Step(c: Config, s: Cache, e: Event): Cache {
    match e
    case Call(key, now) => AfterCall(c, s, key, now)
    case Begin(l) =>
      if l < |s.loads| && s.loads[l].phase.Spawned? then
        s.(loads := s.loads[l := s.loads[l].(phase := Running(s.clears))])
      else s
    case Finish(l, now) => if l < |s.loads| && s.loads[l].phase.Running? then AfterFinish(c, s, l, now) else s
    case Fail(l) =>
      if l < |s.loads| && s.loads[l].phase.Running? then
        s.(loads := s.loads[l := s.loads[l].(phase := Failed(s.loads[l].phase.began))])
      else s
    case Wake(i) => if CanWake(s, i) then AfterWake(s, i) else s
    case Warm(key) => if key in s.store then s else s.(loads := s.loads + [Load(key, true, Spawned)])
    case Clear => s.(store := map[], clears := s.clears + 1)
  }

  function Run(c: Config, s: Cache, events: seq<Event>): Cache {
    if events == [] then s else Step(c, Run(c, s, events[..|events| - 1]), events[|events| - 1])
  }

  const INITIAL := Cache(map[], map[], [], [], 0)

  // ---------- single flight ----------

  predicate Leads(caller: Caller) {
    caller.stage.Waiting? && caller.stage.leads
  }

  /** Every unfinished get_or_load task is the one the map names for its key. */
  ghost predicate Owned(s: Cache) {
    forall l: LoadId | l < |s.loads| && !s.loads[l].warm && !Over(s.loads[l].phase) ::
      s.loads[l].key in s.inflight && s.inflight[s.loads[l].key] == l
  }

  /** Every named task is a get_or_load task for that key, awaited by one leader and no second. */
  ghost predicate Named(s: Cache) {
    && (forall k | k in s.inflight :: s.inflight[k] < |s.loads|)
    && (forall k | k in s.inflight :: s.loads[s.inflight[k]].key == k && !s.loads[s.inflight[k]].warm)
    && (forall k | k in s.inflight :: exists i: CallerId :: IsLeader(s, i, k))
  }

  predicate IsLeader(s: Cache, i: CallerId, k: Key) {
    i < |s.callers| && Leads(s.callers[i]) && s.callers[i].key == k
  }

  ghost predicate Led(s: Cache) {
    && (forall i: CallerId | i < |s.callers| && Leads(s.callers[i]) ::
          s.callers[i].key in s.inflight && s.inflight[s.callers[i].key] == s.callers[i].stage.load)
    && (forall i: CallerId, j: CallerId | i < j < |s.callers| && Leads(s.callers[i]) && Leads(s.callers[j]) ::
          s.callers[i].key != s.callers[j].key)
  }

  ghost predicate Wired(s: Cache) {
    Owned(s) && Named(s) && Led(s)
  }

  /** Tasks keep their key and kind; only their phase moves on. */
  predicate SameTasks(s: Cache, s': Cache) {
    && |s.loads| == |s'.loads|
    && forall l: LoadId | l < |s.loads| :: s'.loads[l].key == s.loads[l].key && s'.loads[l].warm == s.loads[l].warm
        && (Over(s.loads[l].phase) ==> s'.loads[l] == s.loads[l])
  }

  lemma PhasesKeepWired(s: Cache, s': Cache)
    requires Wired(s) && SameTasks(s, s') && s'.inflight == s.inflight && s'.callers == s.callers
    ensures Wired(s')
  {
    forall k | k in s'.inflight ensures exists i: CallerId :: IsLeader(s', i, k) {
      var i: CallerId :| IsLeader(s, i, k);
      assert IsLeader(s', i, k);
    }
  }

  lemma FollowerKeepsWired(s: Cache, s': Cache, caller: Caller)
    requires Wired(s) && !Leads(caller) && s' == s.(callers := s.callers + [caller])
    ensures Wired(s')
  {
    forall k | k in s'.inflight ensures exists i: CallerId :: IsLeader(s', i, k) {
      var i: CallerId :| IsLeader(s, i, k);
      assert IsLeader(s', i, k);
    }
  }

  /** A call without a task or a fresh entry for its key starts a task and leads it. */
  ghost predicate Joins(s: Cache, s': Cache, key: Key) {
    s' == s.(loads := s.loads + [Load(key, false, Spawned)], inflight := s.inflight[key := |s.loads|],
             callers := s.callers + [Caller(key, Waiting(|s.loads|, true))])
  }

  lemma LeaderIsNamed(s: Cache, s': Cache, key: Key)
    requires Named(s) && key !in s.inflight && Joins(s, s', key)
    ensures Named(s')
  {
    forall k | k in s'.inflight ensures exists i: CallerId :: IsLeader(s', i, k) {
      if k != key {
        var i: CallerId :| IsLeader(s, i, k);
        assert IsLeader(s', i, k);
      } else {
        assert IsLeader(s', |s.callers|, k);
      }
    }
  }

  lemma LeaderKeepsWired(s: Cache, s': Cache, key: Key)
    requires Wired(s) && key !in s.inflight && Joins(s, s', key)
    ensures Wired(s')
  {
    LeaderIsNamed(s, s', key);
  }

  lemma CallKeepsWired(c: Config, s: Cache, key: Key, now: real)
    requires Wired(s)
    ensures Wired(AfterCall(c, s, key, now))
  {
    var s' := AfterCall(c, s, key, now);
    if key in s.inflight || IsHit(c, s, key, now) {
      FollowerKeepsWired(s, s', s'.callers[|s.callers|]);
    } else {
      LeaderKeepsWired(s, s', key);
    }
  }

  lemma WakeKeepsWired(s: Cache, i: CallerId)
    requires Wired(s) && CanWake(s, i)
    ensures Wired(AfterWake(s, i))
  {
    var s' := AfterWake(s, i);
    forall k | k in s'.inflight ensures exists j: CallerId :: IsLeader(s', j, k) {
      var j: CallerId :| IsLeader(s, j, k);
      assert IsLeader(s', j, k);
    }
  }

  lemma TaskKeepsWired(c: Config, s: Cache, e: Event)
    requires Wired(s) && (e.Begin? || e.Finish? || e.Fail? || e.Clear?)
    ensures Wired(Step(c, s, e))
  {
    assert SameTasks(s, Step(c, s, e));
    PhasesKeepWired(s, Step(c, s, e));
  }

  lemma StepKeepsWired(c: Config, s: Cache, e: Event)
    requires Wired(s)
    ensures Wired(Step(c, s, e))
  {
    match e
    case Call(key, now) => CallKeepsWired(c, s, key, now);
    case Wake(i) => if CanWake(s, i) { WakeKeepsWired(s, i); }
    case Warm(key) => WarmKeepsWired(c, s, key);
    case _ => TaskKeepsWired(c, s, e);
  }

  lemma WarmKeepsWired(c: Config, s: Cache, key: Key)
    requires Wired(s)
    ensures Wired(Step(c, s, Warm(key)))
  {
    var s' := Step(c, s, Warm(key));
    forall k | k in s'.inflight ensures exists i: CallerId :: IsLeader(s', i, k) {
      var i: CallerId :| IsLeader(s, i, k);
      assert IsLeader(s', i, k);
    }
  }

  /** In every run at most one get_or_load task per key is unfinished. */
  lemma {:induction false} SingleFlight(c: Config, events: seq<Event>)
    ensures Wired(Run(c, INITIAL, events))
    ensures forall l: LoadId, m: LoadId |
      Unfinished(Run(c, INITIAL, events), l) && Unfinished(Run(c, INITIAL, events), m)
      && Run(c, INITIAL, events).loads[l].key == Run(c, INITIAL, events).loads[m].key :: l == m
  {
    if events != [] {
      var init := events[..|events| - 1];
      SingleFlight(c, init);
      StepKeepsWired(c, Run(c, INITIAL, init), events[|events| - 1]);
    }
  }

  predicate Unfinished(s: Cache, l: LoadId) {
    l < |s.loads| && !s.loads[l].warm && !Over(s.loads[l].phase)
  }

  // ---------- every value comes from a load of its key ----------

  predicate Yields(s: Cache, l: LoadId, key: Key) {
    l < |s.loads| && s.loads[l].key == key && s.loads[l].phase.Loaded?
  }

  predicate IsFor(s: Cache, caller: Caller) {
    match caller.stage
    case Waiting(l, _) => l < |s.loads| && s.loads[l].key == caller.key
    case Returned(l) => Yields(s, l, caller.key)
    case Raised => true
  }

  /** Nobody waits for, holds or was given anything but a task for the same key. */
  ghost predicate Matched(s: Cache) {
    && (forall i: CallerId | i < |s.callers| :: IsFor(s, s.callers[i]))
    && (forall k | k in s.store :: Yields(s, s.store[k].value, k))
  }

  /** No task is lost or renamed, and a loaded one stays loaded. */
  predicate Goes(s: Cache, s': Cache) {
    && |s.loads| <= |s'.loads|
    && forall l: LoadId | l < |s.loads| :: s'.loads[l].key == s.loads[l].key
        && (s.loads[l].phase.Loaded? ==> s'.loads[l].phase == s.loads[l].phase)
  }

  lemma StepGoes(c: Config, s: Cache, e: Event)
    ensures Goes(s, Step(c, s, e))
  {
  }

  lemma MatchedGoes(s: Cache, s': Cache)
    requires Matched(s) && Goes(s, s') && |s.callers| <= |s'.callers|
    requires forall i: CallerId | i < |s'.callers| ::
      (i < |s.callers| && s'.callers[i] == s.callers[i]) || IsFor(s', s'.callers[i])
    requires forall k | k in s'.store :: (k in s.store && s'.store[k] == s.store[k]) || Yields(s', s'.store[k].value, k)
    ensures Matched(s')
  {
    forall i: CallerId | i < |s'.callers| ensures IsFor(s', s'.callers[i]) {
      if i < |s.callers| && s'.callers[i] == s.callers[i] {
        assert IsFor(s, s.callers[i]);
      }
    }
  }

  lemma CallKeepsMatched(c: Config, s: Cache, key: Key, now: real)
    requires Named(s) && Matched(s)
    ensures Matched(AfterCall(c, s, key, now))
  {
    StepGoes(c, s, Call(key, now));
    MatchedGoes(s, AfterCall(c, s, key, now));
  }

  lemma WakeKeepsMatched(s: Cache, i: CallerId)
    requires Matched(s) && CanWake(s, i)
    ensures Matched(AfterWake(s, i))
  {
    assert IsFor(s, s.callers[i]);
    MatchedGoes(s, AfterWake(s, i));
  }

  lemma FinishKeepsMatched(c: Config, s: Cache, l: LoadId, now: real)
    requires Matched(s) && l < |s.loads| && s.loads[l].phase.Running?
    ensures Matched(AfterFinish(c, s, l, now))
  {
    MatchedGoes(s, AfterFinish(c, s, l, now));
  }

  lemma StepKeepsMatched(c: Config, s: Cache, e: Event)
    requires Named(s) && Matched(s)
    ensures Matched(Step(c, s, e))
  {
    match e
    case Call(key, now) => CallKeepsMatched(c, s, key, now);
    case Wake(i) => if CanWake(s, i) { WakeKeepsMatched(s, i); }
    case Finish(l, now) => if l < |s.loads| && s.loads[l].phase.Running? { FinishKeepsMatched(c, s, l, now); }
    case _ =>
      StepGoes(c, s, e);
      MatchedGoes(s, Step(c, s, e));
  }

  /** In every run each returned or stored value was produced by a load of that very key. */
  lemma {:induction false} ValuesMatchKeys(c: Config, events: seq<Event>)
    ensures Matched(Run(c, INITIAL, events))
  {
    if events != [] {
      var init := events[..|events| - 1];
      ValuesMatchKeys(c, init);
      SingleFlight(c, init);
      StepKeepsMatched(c, Run(c, INITIAL, init), events[|events| - 1]);
    }
  }
}
