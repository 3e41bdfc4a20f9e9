/** When does clearing the retrieval cache really hide the old results?

`clear` empties the store but not the loads under way. A call made later is safe from a value read
before the clear exactly if, at the clear, no load of its key had begun that could still deliver. */
module CacheFresh {
  import opened CacheMachine

  /** This load cannot hand a value read before the given clear to anyone who still waits for it. */
  predicate Harmless(phase: Phase, era: nat) {
    phase.Spawned? || phase.Failed? || phase.began >= era
  }

  predicate LoadedSince(s: Cache, l: LoadId, era: nat) {
    l < |s.loads| && s.loads[l].phase.Loaded? && s.loads[l].phase.began >= era
  }

  /** The load the map names cannot deliver an old value. */
  predicate NamedHarmless(s: Cache, key: Key, era: nat) {
    key in s.inflight && s.inflight[key] < |s.loads| ==> Harmless(s.loads[s.inflight[key]].phase, era)
  }

  /** No load of the key has begun before the clear and is unfinished or still named by the map. */
  ghost predicate Quiet(s: Cache, key: Key, era: nat) {
    && NamedHarmless(s, key, era)
    && (forall l: LoadId | l < |s.loads| && s.loads[l].key == key && !Over(s.loads[l].phase) ::
      Harmless(s.loads[l].phase, era))
  }

  /** What a clear has to find to be effective: with entries that never live, only the named load counts. */
  ghost predicate Calm(c: Config, s: Cache, key: Key, era: nat) {
    if c.ttl > 0.0 then Quiet(s, key, era) else NamedHarmless(s, key, era)
  }

  predicate SafeCaller(s: Cache, caller: Caller, era: nat) {
    match caller.stage
    case Waiting(l, _) => l < |s.loads| && Harmless(s.loads[l].phase, era)
    case Returned(l) => LoadedSince(s, l, era)
    case Raised => true
  }

  ghost predicate SafeCallers(s: Cache, key: Key, era: nat, n: nat) {
    forall i: CallerId | n <= i < |s.callers| && s.callers[i].key == key :: SafeCaller(s, s.callers[i], era)
  }

  /** All that a call of the key made from caller number `n` on can see stems from after the clear. */
  ghost predicate Pure(s: Cache, key: Key, era: nat, n: nat) {
    && era <= s.clears && Quiet(s, key, era)
    && (key in s.store ==> LoadedSince(s, s.store[key].value, era))
    && SafeCallers(s, key, era, n)
  }

  // ---------- once pure, always pure ----------

  /** Phases move forward: what is harmless stays so. */
  predicate Forward(s: Cache, s': Cache) {
    && |s.loads| <= |s'.loads| && s.clears <= s'.clears
    && forall l: LoadId | l < |s.loads| :: s'.loads[l].key == s.loads[l].key
        && (Over(s.loads[l].phase) ==> s'.loads[l].phase == s.loads[l].phase)
        && (forall era: nat | era <= s.clears && Harmless(s.loads[l].phase, era) :: Harmless(s'.loads[l].phase, era))
  }

  lemma StepIsForward(c: Config, s: Cache, e: Event)
    ensures Forward(s, Step(c, s, e))
  {
  }

  lemma QuietForward(s: Cache, s': Cache, key: Key, era: nat)
    requires Wired(s) && Quiet(s, key, era) && Forward(s, s') && era <= s.clears
    requires forall l: LoadId | |s.loads| <= l < |s'.loads| :: s'.loads[l].phase.Spawned?
    requires key in s'.inflight ==>
      s'.inflight[key] < |s'.loads| &&
        ((key in s.inflight && s'.inflight[key] == s.inflight[key]) || s'.inflight[key] >= |s.loads|)
    ensures Quiet(s', key, era)
  {
    forall l: LoadId | l < |s'.loads| && s'.loads[l].key == key && !Over(s'.loads[l].phase)
      ensures Harmless(s'.loads[l].phase, era)
    {
      if l < |s.loads| {
        assert Harmless(s.loads[l].phase, era);
      }
    }
  }

  lemma CallersForward(s: Cache, s': Cache, key: Key, era: nat, n: nat)
    requires era <= s.clears && SafeCallers(s, key, era, n) && Forward(s, s') && |s.callers| <= |s'.callers|
    requires forall i: CallerId | i < |s'.callers| && s'.callers[i].key == key ::
      (i < |s.callers| && s'.callers[i] == s.callers[i]) || i < n || SafeCaller(s', s'.callers[i], era)
    ensures SafeCallers(s', key, era, n)
  {
    forall i: CallerId | n <= i < |s'.callers| && s'.callers[i].key == key ensures SafeCaller(s', s'.callers[i], era) {
      if i < |s.callers| && s'.callers[i] == s.callers[i] {
        assert SafeCaller(s, s.callers[i], era);
      }
    }
  }

  lemma CallKeepsPure(c: Config, s: Cache, key: Key, era: nat, n: nat, k: Key, now: real)
    requires Wired(s) && Pure(s, key, era, n)
    ensures Pure(AfterCall(c, s, k, now), key, era, n)
  {
    var s' := AfterCall(c, s, k, now);
    StepIsForward(c, s, Call(k, now));
    QuietForward(s, s', key, era);
    CallersForward(s, s', key, era, n);
  }

  lemma WakeKeepsPure(s: Cache, key: Key, era: nat, n: nat, i: CallerId)
    requires Wired(s) && Pure(s, key, era, n) && CanWake(s, i)
    ensures Pure(AfterWake(s, i), key, era, n)
  {
    var s' := AfterWake(s, i);
    assert Forward(s, s');
    QuietForward(s, s', key, era);
    if i >= n && s.callers[i].key == key {
      assert SafeCaller(s, s.callers[i], era);
    }
    CallersForward(s, s', key, era, n);
  }

  lemma FinishKeepsPure(c: Config, s: Cache, key: Key, era: nat, n: nat, l: LoadId, now: real)
    requires Wired(s) && Pure(s, key, era, n) && l < |s.loads| && s.loads[l].phase.Running?
    ensures Pure(AfterFinish(c, s, l, now), key, era, n)
  {
    var s' := AfterFinish(c, s, l, now);
    assert Forward(s, s');
    QuietForward(s, s', key, era);
    CallersForward(s, s', key, era, n);
  }

  lemma StepKeepsPure(c: Config, s: Cache, key: Key, era: nat, n: nat, e: Event)
    requires Wired(s) && Pure(s, key, era, n)
    ensures Pure(Step(c, s, e), key, era, n)
  {
    match e
    case Call(k, now) => CallKeepsPure(c, s, key, era, n, k, now);
    case Wake(i) => if CanWake(s, i) { WakeKeepsPure(s, key, era, n, i); }
    case Finish(l, now) => if l < |s.loads| && s.loads[l].phase.Running? { FinishKeepsPure(c, s, key, era, n, l, now); }
    case _ =>
      StepIsForward(c, s, e);
      QuietForward(s, Step(c, s, e), key, era);
      CallersForward(s, Step(c, s, e), key, era, n);
  }

  lemma {:induction false} RunKeepsPure(c: Config, s: Cache, key: Key, era: nat, n: nat, events: seq<Event>)
    requires Wired(s) && Pure(s, key, era, n)
    ensures Wired(Run(c, s, events)) && Pure(Run(c, s, events), key, era, n)
  {
    if events != [] {
      var init := events[..|events| - 1];
      RunKeepsPure(c, s, key, era, n, init);
      StepKeepsWired(c, Run(c, s, init), events[|events| - 1]);
      StepKeepsPure(c, Run(c, s, init), key, era, n, events[|events| - 1]);
    }
  }

  /** A caller that came after state `s` and was given a value whose load began before its clear. */
  predicate IsStale(s: Cache, t: Cache, i: CallerId, key: Key) {
    && |s.callers| <= i < |t.callers| && t.callers[i].key == key && t.callers[i].stage.Returned?
    && !LoadedSince(t, t.callers[i].stage.value, s.clears)
  }

  lemma QuietIsSafe(c: Config, s: Cache, key: Key, events: seq<Event>, i: CallerId)
    requires Wired(s) && key !in s.store && Quiet(s, key, s.clears)
    ensures !IsStale(s, Run(c, s, events), i, key)
  {
    RunKeepsPure(c, s, key, s.clears, |s.callers|, events);
    var t := Run(c, s, events);
    assert |s.callers| <= i < |t.callers| && t.callers[i].key == key ==> SafeCaller(t, t.callers[i], s.clears);
  }

  // ---------- and if it is not quiet, the old value can come back ----------

  lemma {:induction false} RunConcat(c: Config, s: Cache, a: seq<Event>, b: seq<Event>)
    ensures Run(c, s, a + b) == Run(c, Run(c, s, a), b)
  {
    if b == [] {
      assert a + b == a;
    } else {
      assert (a + b)[..|a + b| - 1] == a + b[..|b| - 1];
      RunConcat(c, s, a, b[..|b| - 1]);
    }
  }

  lemma RunOne(c: Config, s: Cache, e: Event)
    ensures Run(c, s, [e]) == Step(c, s, e)
  {
    assert [e][..0] == [];
  }

  /** The clock shows this time at each of the events that read it. */
  predicate AllAt(events: seq<Event>, now: real) {
    forall e | e in events :: (e.Call? || e.Finish?) ==> e.now == now
  }

  /** Some run from `s`, all at this time, gives a new call of the key a value from before the clear. */
  ghost predicate CanGoStale(c: Config, s: Cache, key: Key, now: real) {
    exists events: seq<Event>, i: CallerId :: AllAt(events, now) && IsStale(s, Run(c, s, events), i, key)
  }

  /** The old value can still come back after one more step that keeps callers and clears. */
  lemma GoesStaleLater(c: Config, s: Cache, e: Event, key: Key, now: real)
    requires AllAt([e], now)
    requires CanGoStale(c, Step(c, s, e), key, now)
    requires |Step(c, s, e).callers| == |s.callers| && Step(c, s, e).clears == s.clears
    ensures CanGoStale(c, s, key, now)
  {
    var s' := Step(c, s, e);
    var events: seq<Event>, i: CallerId :| AllAt(events, now) && IsStale(s', Run(c, s', events), i, key);
    RunConcat(c, s, [e], events);
    RunOne(c, s, e);
    assert AllAt([e] + events, now) && IsStale(s, Run(c, s, [e] + events), i, key);
  }

  /** A task that is done but not yet given up by its leader serves every call that joins it. */
  lemma JoinGoesStale(c: Config, s: Cache, key: Key, now: real)
    requires key in s.inflight && s.inflight[key] < |s.loads|
    requires s.loads[s.inflight[key]].phase.Loaded? && s.loads[s.inflight[key]].phase.began < s.clears
    ensures CanGoStale(c, s, key, now)
  {
    var n := |s.callers|;
    var call, wake := Call(key, now), Wake(n);
    RunConcat(c, s, [call], [wake]);
    RunOne(c, s, call);
    RunOne(c, Step(c, s, call), wake);
    assert CanWake(Step(c, s, call), n);
    assert AllAt([call] + [wake], now) && IsStale(s, Run(c, s, [call] + [wake]), n, key);
  }

  /** A running task that the map names ends and is joined. */
  lemma RunningGoesStale(c: Config, s: Cache, key: Key, now: real)
    requires key in s.inflight && s.inflight[key] < |s.loads| && s.loads[s.inflight[key]].key == key
    requires s.loads[s.inflight[key]].phase.Running? && s.loads[s.inflight[key]].phase.began < s.clears
    ensures CanGoStale(c, s, key, now)
  {
    JoinGoesStale(c, Step(c, s, Finish(s.inflight[key], now)), key, now);
    GoesStaleLater(c, s, Finish(s.inflight[key], now), key, now);
  }

  /** A running task that the map does not name, a warming one, stores its value after the clear. */
  lemma StoreGoesStale(c: Config, s: Cache, key: Key, l: LoadId, now: real)
    requires c.ttl > 0.0 && key !in s.inflight && l < |s.loads| && s.loads[l].key == key
    requires s.loads[l].phase.Running? && s.loads[l].phase.began < s.clears
    ensures CanGoStale(c, s, key, now)
  {
    var finish, call := Finish(l, now), Call(key, now);
    var s' := Step(c, s, finish);
    assert key in s'.store && s'.store[key] == Entry(now, l);
    assert IsHit(c, s', key, now);
    RunConcat(c, s, [finish], [call]);
    RunOne(c, s, finish);
    RunOne(c, s', call);
    assert AllAt([finish] + [call], now) && IsStale(s, Run(c, s, [finish] + [call]), |s.callers|, key);
  }

  /** The leader of a failed task gives it up, and the key is free. */
  lemma LeaderLeaves(c: Config, s: Cache, key: Key) returns (i: CallerId)
    requires Wired(s) && key in s.inflight && Over(s.loads[s.inflight[key]].phase)
    ensures CanWake(s, i) && Step(c, s, Wake(i)).inflight == s.inflight - {key}
    ensures Step(c, s, Wake(i)).loads == s.loads
  {
    i :| IsLeader(s, i, key);
  }

  lemma FailedIsFollowed(c: Config, s: Cache, key: Key, l: LoadId, now: real)
    requires Wired(s) && c.ttl > 0.0 && l < |s.loads| && s.loads[l].key == key
    requires s.loads[l].phase.Running? && s.loads[l].phase.began < s.clears
    requires key in s.inflight && s.loads[s.inflight[key]].phase.Failed?
    ensures CanGoStale(c, s, key, now)
  {
    var i := LeaderLeaves(c, s, key);
    StoreGoesStale(c, Step(c, s, Wake(i)), key, l, now);
    GoesStaleLater(c, s, Wake(i), key, now);
  }

  /** Only the phase of task m differs. */
  ghost predicate OnlyPhase(s: Cache, s': Cache, m: LoadId) {
    && s'.callers == s.callers && s'.clears == s.clears && s'.inflight == s.inflight && |s'.loads| == |s.loads|
    && forall l: LoadId | l < |s.loads| && l != m :: s'.loads[l] == s.loads[l]
  }

  lemma BeginsAndFails(c: Config, s: Cache, m: LoadId)
    requires m < |s.loads|
    ensures s.loads[m].phase.Spawned? ==>
      OnlyPhase(s, Step(c, s, Begin(m)), m) && Step(c, s, Begin(m)).loads[m].phase.Running?
    ensures s.loads[m].phase.Running? ==>
      OnlyPhase(s, Step(c, s, CacheMachine.Fail(m)), m) && Step(c, s, CacheMachine.Fail(m)).loads[m].phase.Failed?
  {
  }

  lemma SpawnedIsFollowed(c: Config, s: Cache, key: Key, l: LoadId, now: real)
    requires Wired(s) && c.ttl > 0.0 && l < |s.loads| && s.loads[l].key == key
    requires s.loads[l].phase.Running? && s.loads[l].phase.began < s.clears
    requires key in s.inflight && s.loads[s.inflight[key]].phase.Spawned?
    ensures CanGoStale(c, s, key, now)
  {
    var m := s.inflight[key];
    var s1 := Step(c, s, Begin(m));
    BeginsAndFails(c, s, m);
    StepKeepsWired(c, s, Begin(m));
    RunningIsFollowed(c, s1, key, l, now);
    GoesStaleLater(c, s, Begin(m), key, now);
  }

  lemma RunningIsFollowed(c: Config, s: Cache, key: Key, l: LoadId, now: real)
    requires Wired(s) && c.ttl > 0.0 && l < |s.loads| && s.loads[l].key == key
    requires s.loads[l].phase.Running? && s.loads[l].phase.began < s.clears
    requires key in s.inflight && s.inflight[key] != l && s.loads[s.inflight[key]].phase.Running?
    ensures CanGoStale(c, s, key, now)
  {
    var m := s.inflight[key];
    BeginsAndFails(c, s, m);
    StepKeepsWired(c, s, CacheMachine.Fail(m));
    FailedIsFollowed(c, Step(c, s, CacheMachine.Fail(m)), key, l, now);
    GoesStaleLater(c, s, CacheMachine.Fail(m), key, now);
  }

  /** Every load begun so far began before this moment's last clear. */
  predicate AllBegunBefore(s: Cache, era: nat) {
    forall l: LoadId | l < |s.loads| && !s.loads[l].phase.Spawned? :: s.loads[l].phase.began < era
  }

  /** A load begun before the clear that can still deliver does so in some run, to a later call. */
  lemma UnquietGoesStale(c: Config, s: Cache, key: Key, now: real)
    requires Wired(s) && AllBegunBefore(s, s.clears) && !Calm(c, s, key, s.clears)
    ensures CanGoStale(c, s, key, now)
  {
    if !NamedHarmless(s, key, s.clears) {
      if s.loads[s.inflight[key]].phase.Loaded? {
        JoinGoesStale(c, s, key, now);
      } else {
        RunningGoesStale(c, s, key, now);
      }
    } else {
      var l: LoadId :| l < |s.loads| && s.loads[l].key == key && !Over(s.loads[l].phase)
        && !Harmless(s.loads[l].phase, s.clears);
      if key !in s.inflight {
        StoreGoesStale(c, s, key, l, now);
      } else if s.loads[s.inflight[key]].phase.Failed? {
        FailedIsFollowed(c, s, key, l, now);
      } else {
        SpawnedIsFollowed(c, s, key, l, now);
      }
    }
  }

  lemma {:induction false} BegunByNow(c: Config, events: seq<Event>)
    ensures AllBegunBefore(Run(c, INITIAL, events), Run(c, INITIAL, events).clears + 1)
  {
    if events != [] {
      BegunByNow(c, events[..|events| - 1]);
    }
  }

  // ---------- entries that expire at once ----------

  predicate IsTimed(e: Event) {
    e.Call? || e.Finish?
  }

  /** The clock never goes back. */
  predicate InOrder(events: seq<Event>) {
    forall i, j | 0 <= i < j < |events| && IsTimed(events[i]) && IsTimed(events[j]) :: events[i].now <= events[j].now
  }

  /** Every entry was stored by one of these events. */
  ghost predicate StoredBy(events: seq<Event>, s: Cache) {
    forall k | k in s.store :: exists i :: 0 <= i < |events| && IsTimed(events[i]) && events[i].now == s.store[k].at
  }

  lemma StepStoredBy(c: Config, s: Cache, init: seq<Event>, e: Event)
    requires StoredBy(init, s)
    ensures StoredBy(init + [e], Step(c, s, e))
  {
    var s', events := Step(c, s, e), init + [e];
    forall k | k in s'.store
      ensures exists i :: 0 <= i < |events| && IsTimed(events[i]) && events[i].now == s'.store[k].at
    {
      if k in s.store && s'.store[k] == s.store[k] {
        var i :| 0 <= i < |init| && IsTimed(init[i]) && init[i].now == s.store[k].at;
        assert events[i] == init[i];
      } else {
        assert events[|init|] == e && IsTimed(e) && e.now == s'.store[k].at;
      }
    }
  }

  /** An entry without a lifetime is never a hit. */
  lemma NothingHits(c: Config, s: Cache, init: seq<Event>, e: Event)
    requires c.ttl <= 0.0 && StoredBy(init, s) && InOrder(init + [e]) && e.Call?
    ensures !IsHit(c, s, e.key, e.now)
  {
    var events := init + [e];
    if e.key in s.store {
      var i :| 0 <= i < |init| && IsTimed(init[i]) && init[i].now == s.store[e.key].at;
      assert events[i] == init[i] && events[|init|] == e;
    }
  }

  ghost predicate PureNames(s: Cache, key: Key, era: nat, n: nat) {
    era <= s.clears && NamedHarmless(s, key, era) && SafeCallers(s, key, era, n)
  }

  lemma StepKeepsPureNames(c: Config, s: Cache, key: Key, era: nat, n: nat, e: Event)
    requires Wired(s) && PureNames(s, key, era, n)
    requires e.Call? ==> !IsHit(c, s, e.key, e.now)
    ensures PureNames(Step(c, s, e), key, era, n)
  {
    var s' := Step(c, s, e);
    StepIsForward(c, s, e);
    if e.Wake? && CanWake(s, e.caller) && e.caller >= n && s.callers[e.caller].key == key {
      assert SafeCaller(s, s.callers[e.caller], era);
    }
    CallersForward(s, s', key, era, n);
  }

  lemma {:induction false} RunKeepsPureNames(c: Config, s: Cache, key: Key, era: nat, n: nat, events: seq<Event>)
    requires c.ttl <= 0.0 && Wired(s) && s.store == map[] && PureNames(s, key, era, n) && InOrder(events)
    ensures Wired(Run(c, s, events)) && PureNames(Run(c, s, events), key, era, n)
    ensures StoredBy(events, Run(c, s, events))
  {
    if events != [] {
      var init, last := events[..|events| - 1], events[|events| - 1];
      assert init + [last] == events;
      RunKeepsPureNames(c, s, key, era, n, init);
      var before := Run(c, s, init);
      if last.Call? {
        NothingHits(c, before, init, last);
      }
      StepKeepsWired(c, before, last);
      StepStoredBy(c, before, init, last);
      StepKeepsPureNames(c, before, key, era, n, last);
    }
  }

  /** With a lifetime of zero or less nothing is ever served from the store; warming does not matter. */
  lemma NamedHarmlessIsSafe(c: Config, s: Cache, key: Key, events: seq<Event>, i: CallerId)
    requires c.ttl <= 0.0 && Wired(s) && s.store == map[] && NamedHarmless(s, key, s.clears) && InOrder(events)
    ensures !IsStale(s, Run(c, s, events), i, key)
  {
    RunKeepsPureNames(c, s, key, s.clears, |s.callers|, events);
    var t := Run(c, s, events);
    assert |s.callers| <= i < |t.callers| && t.callers[i].key == key ==> SafeCaller(t, t.callers[i], s.clears);
  }

  /** Clearing is effective for a key exactly when, at that moment, no load of the key that has begun is
  still named by the map or, unless entries never live, unfinished: then no later call, whatever happens,
  is given a value from before, and otherwise some later call can be. */
  lemma ClearIsEffective(c: Config, events: seq<Event>, key: Key, now: real)
    ensures var s := Run(c, INITIAL, events + [Clear]);
      && (Calm(c, s, key, s.clears) ==> forall later: seq<Event>, i: CallerId | c.ttl > 0.0 || InOrder(later) ::
            !IsStale(s, Run(c, s, later), i, key))
      && (!Calm(c, s, key, s.clears) ==> CanGoStale(c, s, key, now))
  {
    var s := Run(c, INITIAL, events + [Clear]);
    assert (events + [Clear])[..|events|] == events;
    SingleFlight(c, events + [Clear]);
    BegunByNow(c, events);
    if Calm(c, s, key, s.clears) {
      forall later: seq<Event>, i: CallerId | c.ttl > 0.0 || InOrder(later)
        ensures !IsStale(s, Run(c, s, later), i, key)
      {
        if c.ttl > 0.0 {
          QuietIsSafe(c, s, key, later, i);
        } else {
          NamedHarmlessIsSafe(c, s, key, later, i);
        }
      }
    } else {
      UnquietGoesStale(c, s, key, now);
    }
  }
}
