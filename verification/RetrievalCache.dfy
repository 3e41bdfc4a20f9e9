/** app/knowledge/cache.py: the class behind the machine. Each method is one stretch of code between
two awaits; `events` is the run so far. */
module RetrievalCache {
  import opened CacheMachine

  function Warms(keys: seq<Key>): seq<Event> {
    if keys == [] then [] else Warms(keys[..|keys| - 1]) + [Warm(keys[|keys| - 1])]
  }

  function Warming(keys: seq<Key>, store: map<Key, Entry>): seq<Load> {
    if keys == [] then []
    else
      var last := keys[|keys| - 1];
      Warming(keys[..|keys| - 1], store) + if last in store then [] else [Load(last, true, Spawned)]
  }

  lemma NextKey(keys: seq<Key>, n: nat, store: map<Key, Entry>)
    requires n < |keys|
    ensures Warms(keys[..n + 1]) == Warms(keys[..n]) + [Warm(keys[n])]
    ensures Warming(keys[..n + 1], store) ==
      Warming(keys[..n], store) + if keys[n] in store then [] else [Load(keys[n], true, Spawned)]
  {
    assert keys[..n + 1][..n] == keys[..n];
  }

  class Instance {
    const config: Config
    var store: map<Key, Entry>
    var inflight: map<Key, LoadId>
    var tasks: seq<Load>
    ghost var callers: seq<Caller>
    var clears: nat
    ghost var events: seq<Event>

    ghost function World(): Cache
      reads this
    {
      Cache(store, inflight, tasks, callers, clears)
    }

    ghost predicate Valid()
      reads this
    {
      World() == Run(config, INITIAL, events)
    }

    constructor (config: Config)
      ensures Valid() && events == [] && this.config == config
    {
      this.config := config;
      store, inflight, tasks := map[], map[], [];
      callers, clears, events := [], 0, [];
    }

    /** `get_or_load` up to its await. */
    method GetOrLoad(key: Key, now: real) returns (stage: Stage)
      requires Valid()
      modifies this
      ensures Valid() && events == old(events) + [Call(key, now)]
      ensures callers == old(callers) + [Caller(key, stage)] && store == old(store)
      ensures key in old(inflight) ==> stage == Waiting(old(inflight)[key], false)
      ensures key !in old(inflight) && key in store && now - store[key].at < config.ttl ==>
        stage == Returned(store[key].value)
      ensures key !in old(inflight) && (key !in store || now - store[key].at >= config.ttl) ==>
        && stage == Waiting(|old(tasks)|, true) && inflight == old(inflight)[key := |old(tasks)|]
        && tasks == old(tasks) + [Load(key, false, Spawned)]
      ensures !(stage.Waiting? && stage.leads) ==> inflight == old(inflight) && tasks == old(tasks)
    {
      assert (events + [Call(key, now)])[..|events|] == events;
      events := events + [Call(key, now)];
      if key in inflight {
        stage := Waiting(inflight[key], false);
      } else if key in store && now - store[key].at < config.ttl {
        stage := Returned(store[key].value);
      } else {
        stage := Waiting(|tasks|, true);
        inflight := inflight[key := |tasks|];
        tasks := tasks + [Load(key, false, Spawned)];
      }
      callers := callers + [Caller(key, stage)];
    }

    /** `get_or_load` behind its await: the leader's `finally`, then the value or the exception. */
    method Resume(key: Key, l: LoadId, leads: bool, ghost i: CallerId) returns (stage: Stage)
      requires Valid() && i < |callers| && callers[i] == Caller(key, Waiting(l, leads))
      requires l < |tasks| && Over(tasks[l].phase)
      modifies this
      ensures Valid() && events == old(events) + [Wake(i)]
      ensures callers == old(callers)[i := Caller(key, stage)] && !stage.Waiting?
      ensures stage == (if tasks[l].phase.Loaded? then Returned(l) else Raised) && tasks == old(tasks)
      ensures store == old(store) && inflight == if leads then old(inflight) - {key} else old(inflight)
    {
      assert (events + [Wake(i)])[..|events|] == events;
      events := events + [Wake(i)];
      if leads {
        inflight := inflight - {key};
      }
      stage := if tasks[l].phase.Loaded? then Returned(l) else Raised;
      callers := callers[i := Caller(key, stage)];
    }

    /** A task calls its loader. */
    method BeginLoad(l: LoadId)
      requires Valid() && l < |tasks| && tasks[l].phase.Spawned?
      modifies this
      ensures Valid() && events == old(events) + [Begin(l)]
    {
      assert (events + [Begin(l)])[..|events|] == events;
      events := events + [Begin(l)];
      tasks := tasks[l := tasks[l].(phase := Running(clears))];
    }

    /** The loader has returned: store the value and evict. */
    method FinishLoad(l: LoadId, now: real)
      requires Valid() && l < |tasks| && tasks[l].phase.Running?
      modifies this
      ensures Valid() && events == old(events) + [Finish(l, now)]
      ensures var grown := old(store)[tasks[l].key := Entry(now, l)];
        forall k :: k in store <==> k in grown && (|grown| <= 2 * config.maxSize || now - grown[k].at < config.ttl)
      ensures forall k | k in store :: store[k] == if k == tasks[l].key then Entry(now, l) else old(store)[k]
    {
      assert (events + [Finish(l, now)])[..|events|] == events;
      events := events + [Finish(l, now)];
      store := store[tasks[l].key := Entry(now, l)];
      tasks := tasks[l := tasks[l].(phase := Loaded(tasks[l].phase.began))];
      if |store| > 2 * config.maxSize {
        store := map k | k in store && now - store[k].at < config.ttl :: store[k];
      }
    }

    /** The loader has raised. */
    method FailLoad(l: LoadId)
      requires Valid() && l < |tasks| && tasks[l].phase.Running?
      modifies this
      ensures Valid() && events == old(events) + [Event.Fail(l)]
    {
      assert (events + [Event.Fail(l)])[..|events|] == events;
      events := events + [Event.Fail(l)];
      tasks := tasks[l := tasks[l].(phase := Failed(tasks[l].phase.began))];
    }

    /** One key of `warm`: a key that is not stored gets a load nobody waits for, under way or not. */
    method WarmKey(key: Key)
      requires Valid()
      modifies this`tasks, this`events
      ensures Valid() && events == old(events) + [Warm(key)]
      ensures tasks == old(tasks) + if key in store then [] else [Load(key, true, Spawned)]
    {
      assert (events + [Warm(key)])[..|events|] == events;
      events := events + [Warm(key)];
      if key !in store {
        tasks := tasks + [Load(key, true, Spawned)];
      }
    }

    /** A load for every key that is not stored, as often as it is named. */
    method WarmUp(keys: seq<Key>)
      requires Valid()
      modifies this`tasks, this`events
      ensures Valid() && events == old(events) + Warms(keys)
      ensures tasks == old(tasks) + Warming(keys, store)
    {
      for n := 0 to |keys|
        invariant Valid() && events == old(events) + Warms(keys[..n])
        invariant tasks == old(tasks) + Warming(keys[..n], store)
      {
        NextKey(keys, n, store);
        WarmKey(keys[n]);
      }
      assert keys[..|keys|] == keys;
    }

    method Reset()
      requires Valid()
      modifies this
      ensures Valid() && events == old(events) + [Clear]
      ensures store == map[] && inflight == old(inflight) && tasks == old(tasks) && clears == old(clears) + 1
    {
      assert (events + [Clear])[..|events|] == events;
      events := events + [Clear];
      store, clears := map[], clears + 1;
    }
  }

  /** Eviction takes away nothing that could still have been a hit. */
  lemma EvictionKeepsHits(c: Config, s: Cache, now: real, key: Key, later: real)
    requires now <= later
    ensures IsHit(c, s.(store := Evicted(c, s.store, now)), key, later) <==> IsHit(c, s, key, later)
    ensures IsHit(c, s, key, later) ==> Evicted(c, s.store, now)[key] == s.store[key]
  {
  }
}
