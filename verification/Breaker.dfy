/** app/common/circuit_breaker.py: the circuit breaker, as a class and as a machine over its calls. */
module Breaker {
  import opened Options

  datatype State = Closed | Open | HalfOpen

  datatype Config = Config(threshold: int, window: real, cooldown: real)

  datatype View = View(state: State, failures: seq<real>, openedAt: Option<real>)

  datatype Event = Allow(now: real) | Record(now: real, success: bool)

  /** The times less than one window old. */
  function Recent(c: Config, times: seq<real>, now: real): seq<real> {
    if times == [] then []
    else
      var t := times[|times| - 1];
      Recent(c, times[..|times| - 1], now) + if now - t < c.window then [t] else []
  }

  /** Of what lies within the window every time is kept, as often as it is there, and nothing else. */
  lemma {:induction false} RecentIsTheWindow(c: Config, times: seq<real>, now: real)
    ensures forall t :: multiset(Recent(c, times, now))[t] == if now - t < c.window then multiset(times)[t] else 0
  {
    if times != [] {
      RecentIsTheWindow(c, times[..|times| - 1], now);
      assert times == times[..|times| - 1] + [times[|times| - 1]];
    }
  }

  /** Does the breaker let a call through? */
  predicate Lets(c: Config, b: View, now: real) {
    b.state.Open? ==> b.openedAt.Some? && now - b.openedAt.value >= c.cooldown
  }

  function AfterAllow(c: Config, b: View, now: real): View {
    if b.state.Open? && Lets(c, b, now) then b.(state := HalfOpen) else b
  }

  function AfterRecord(c: Config, b: View, now: real, success: bool): View {
    if b.state.HalfOpen? then
      if success then b.(state := Closed, failures := []) else View(Open, [now], Some(now))
    else if success then b.(failures := [])
    else
      var failures := Recent(c, b.failures + [now], now);
      if |failures| >= c.threshold then View(Open, failures, Some(now)) else b.(failures := failures)
  }

  function After(c: Config, b: View, e: Event): View {
    match e
    case Allow(now) => AfterAllow(c, b, now)
    case Record(now, success) => AfterRecord(c, b, now, success)
  }

  function Play(c: Config, log: seq<Event>): View {
    if log == [] then View(Closed, [], None) else After(c, Play(c, log[..|log| - 1]), log[|log| - 1])
  }

  /** The clock never runs backwards. */
  ghost predicate Orderly(log: seq<Event>) {
    forall i, j | 0 <= i <= j < |log| :: log[i].now <= log[j].now
  }

  // ---------- the history ----------

  /** All failures since the last success or, if later, since the trial call that failed. */
  function Since(c: Config, log: seq<Event>): seq<real> {
    if log == [] then []
    else
      var before, e := log[..|log| - 1], log[|log| - 1];
      if e.Allow? then Since(c, before)
      else if e.success then []
      else if Play(c, before).state.HalfOpen? then [e.now]
      else Since(c, before) + [e.now]
  }

  /** The list holds the failures that were recent at the latest one, or only the failed trial. */
  predicate Summarizes(c: Config, failures: seq<real>, since: seq<real>) {
    if since == [] then failures == []
    else failures == Recent(c, since, since[|since| - 1]) || (|since| == 1 && failures == since)
  }

  lemma {:induction false} RecentTwice(c: Config, times: seq<real>, earlier: real, now: real)
    requires earlier <= now
    ensures Recent(c, Recent(c, times, earlier), now) == Recent(c, times, now)
  {
    if times != [] {
      var init, t := times[..|times| - 1], times[|times| - 1];
      RecentTwice(c, init, earlier, now);
      if earlier - t < c.window {
        assert (Recent(c, init, earlier) + [t])[..|Recent(c, init, earlier)|] == Recent(c, init, earlier);
      } else {
        assert Recent(c, times, earlier) == Recent(c, init, earlier);
      }
    }
  }

  lemma RecentOneMore(c: Config, times: seq<real>, t: real, now: real)
    ensures Recent(c, times + [t], now) == Recent(c, times, now) + if now - t < c.window then [t] else []
  {
    assert (times + [t])[..|times|] == times;
  }

  lemma {:induction false} SinceIsPast(c: Config, log: seq<Event>, now: real)
    requires forall i | 0 <= i < |log| :: log[i].now <= now
    ensures forall t | t in Since(c, log) :: t <= now
  {
    if log != [] {
      SinceIsPast(c, log[..|log| - 1], now);
    }
  }

  /** Pruning at every failure loses nothing that a later failure would count. */
  lemma PrunedCounts(c: Config, failures: seq<real>, since: seq<real>, now: real)
    requires Summarizes(c, failures, since) && forall t | t in since :: t <= now
    ensures Recent(c, failures + [now], now) == Recent(c, since + [now], now)
  {
    RecentOneMore(c, failures, now, now);
    RecentOneMore(c, since, now, now);
    if since != [] {
      var latest := since[|since| - 1];
      assert latest in since;
      RecentTwice(c, since, latest, now);
    }
  }

  /** The breaker's list is a summary of its history. */
  lemma {:induction false} ListIsSummary(c: Config, log: seq<Event>)
    requires Orderly(log)
    ensures Summarizes(c, Play(c, log).failures, Since(c, log))
  {
    if log != [] {
      var before, e := log[..|log| - 1], log[|log| - 1];
      ListIsSummary(c, before);
      if e.Record? {
        SinceIsPast(c, before, e.now);
        PrunedCounts(c, Play(c, before).failures, Since(c, before), e.now);
      }
    }
  }

  /** So the next failure is counted as if nothing had ever been pruned. */
  lemma ListCountsHistory(c: Config, log: seq<Event>, e: Event)
    requires Orderly(log + [e])
    ensures Recent(c, Play(c, log).failures + [e.now], e.now) == Recent(c, Since(c, log) + [e.now], e.now)
  {
    var all := log + [e];
    forall i, j | 0 <= i <= j < |log| ensures log[i].now <= log[j].now {
      assert all[i].now <= all[j].now;
    }
    forall i | 0 <= i < |log| ensures log[i].now <= e.now {
      assert all[i].now <= all[|log|].now;
    }
    ListIsSummary(c, log);
    SinceIsPast(c, log, e.now);
    PrunedCounts(c, Play(c, log).failures, Since(c, log), e.now);
  }

  /** A closed breaker opens at exactly those failures that make the history reach the threshold. */
  lemma OpensAtThreshold(c: Config, log: seq<Event>, e: Event)
    requires Orderly(log + [e]) && Play(c, log).state.Closed?
    ensures Play(c, log + [e]).state.Open? <==>
      e.Record? && !e.success && |Recent(c, Since(c, log) + [e.now], e.now)| >= c.threshold
    ensures !Play(c, log + [e]).state.HalfOpen?
  {
    assert (log + [e])[..|log|] == log;
    ListCountsHistory(c, log, e);
  }

  /** A success forgets all failures and closes a breaker on trial, but not an open one; a failure on trial
  opens it again at once; any other failure is counted with those of the window and opens it from the
  threshold on. */
  lemma WhatRecordDoes(c: Config, log: seq<Event>, now: real, success: bool)
    ensures var b, b' := Play(c, log), Play(c, log + [Event.Record(now, success)]);
      && (success ==> b' == View(if b.state == HalfOpen then Closed else b.state, [], b.openedAt))
      && (!success && b.state == HalfOpen ==> b' == View(Open, [now], Some(now)))
      && (!success && b.state != HalfOpen ==>
            var counted := Recent(c, b.failures + [now], now);
            if |counted| >= c.threshold then b' == View(Open, counted, Some(now)) else b' == b.(failures := counted))
  {
    assert (log + [Event.Record(now, success)])[..|log|] == log;
  }

  // ---------- the cooldown ----------

  /** Open, and not before time t. */
  predicate OpenSince(b: View, t: real) {
    b.state.Open? && b.openedAt.Some? && b.openedAt.value >= t
  }

  /** Whatever is recorded meanwhile, a breaker that opened stays open until its cooldown ends. */
  lemma {:induction false} StaysOpen(c: Config, log: seq<Event>, n: nat, m: nat)
    requires Orderly(log) && n < m <= |log|
    requires Play(c, log[..n + 1]).state.Open? && !Play(c, log[..n]).state.Open?
    requires forall i | n < i < m :: log[i].now - log[n].now < c.cooldown
    ensures OpenSince(Play(c, log[..m]), log[n].now)
  {
    assert log[..m][..m - 1] == log[..m - 1];
    if m == n + 1 {
      assert log[..n + 1][n] == log[n];
    } else {
      StaysOpen(c, log, n, m - 1);
      assert log[..m][m - 1] == log[m - 1];
    }
  }

  /** No call is let through between an opening and the end of the cooldown that it starts. */
  lemma NothingDuringCooldown(c: Config, log: seq<Event>, n: nat, m: nat)
    requires Orderly(log) && n < m < |log| && log[m].Allow?
    requires Play(c, log[..n + 1]).state.Open? && !Play(c, log[..n]).state.Open?
    requires log[m].now - log[n].now < c.cooldown
    ensures !Lets(c, Play(c, log[..m]), log[m].now)
  {
    forall i | n < i < m ensures log[i].now - log[n].now < c.cooldown {
      assert log[i].now <= log[m].now;
    }
    StaysOpen(c, log, n, m);
  }

  /** Half open is no single trial: every call is let through until the first result comes in. */
  lemma {:induction false} TrialsAreUnlimited(c: Config, log: seq<Event>, calls: seq<Event>)
    requires Play(c, log).state.HalfOpen? && forall e | e in calls :: e.Allow?
    ensures Play(c, log + calls) == Play(c, log) && forall now :: Lets(c, Play(c, log + calls), now)
  {
    if calls == [] {
      assert log + calls == log;
    } else {
      var init := calls[..|calls| - 1];
      TrialsAreUnlimited(c, log, init);
      assert (log + calls)[..|log + calls| - 1] == log + init;
      assert (log + calls)[|log + calls| - 1] == calls[|calls| - 1] && calls[|calls| - 1] in calls;
    }
  }

  /** A failure that arrives while the breaker is open restarts the cooldown exactly when the
  recent failures, counted since the last success, still reach the threshold. */
  lemma LateFailureExtends(c: Config, log: seq<Event>, now: real)
    requires Orderly(log + [Event.Record(now, false)]) && Play(c, log).state.Open?
    ensures var b' := Play(c, log + [Event.Record(now, false)]);
      b'.state.Open? && b'.openedAt ==
        if |Recent(c, Since(c, log) + [now], now)| >= c.threshold then Some(now) else Play(c, log).openedAt
  {
    var e := Event.Record(now, false);
    assert (log + [e])[..|log|] == log;
    ListCountsHistory(c, log, e);
  }

  class CircuitBreaker {
    const config: Config
    var state: State
    var failures: seq<real>
    var openedAt: Option<real>
    ghost var log: seq<Event>

    ghost predicate Valid()
      reads this
    {
      View(state, failures, openedAt) == Play(config, log)
    }

    constructor (config: Config)
      ensures Valid() && log == [] && this.config == config
    {
      this.config := config;
      state, failures, openedAt := Closed, [], None;
      log := [];
    }

    method Allow(now: real) returns (ok: bool)
      requires Valid()
      modifies this
      ensures Valid() && log == old(log) + [Event.Allow(now)]
      ensures ok <==> Lets(config, Play(config, old(log)), now)
      ensures ok <==> old(state) != Open || (openedAt.Some? && now - openedAt.value >= config.cooldown)
      ensures state == (if old(state) == Open && ok then HalfOpen else old(state))
      ensures failures == old(failures) && openedAt == old(openedAt)
    {
      ghost var log' := log + [Event.Allow(now)];
      assert log'[..|log|] == log;
      log := log';
      if state == Open {
        if openedAt.Some? && now - openedAt.value >= config.cooldown {
          state := HalfOpen;
          return true;
        }
        return false;
      }
      return true;
    }

    method Record(success: bool, now: real)
      requires Valid()
      modifies this
      ensures Valid() && log == old(log) + [Event.Record(now, success)]
      ensures Orderly(log) && !success && old(state).Closed? ==>
        (state.Open? <==> |Recent(config, Since(config, old(log)) + [now], now)| >= config.threshold)
    {
      ghost var log' := log + [Event.Record(now, success)];
      assert log'[..|log|] == log;
      if Orderly(log') && state.Closed? {
        OpensAtThreshold(config, log, Event.Record(now, success));
      }
      log := log';
      if state == HalfOpen {
        if success {
          state, failures := Closed, [];
        } else {
          state, openedAt, failures := Open, Some(now), [now];
        }
        return;
      }
      if success {
        failures := [];
        return;
      }
      failures := Recent(config, failures + [now], now);
      if |failures| >= config.threshold {
        state, openedAt := Open, Some(now);
      }
    }
  }
}
