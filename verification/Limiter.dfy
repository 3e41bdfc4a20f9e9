/** app/tool/limiter.py: the in-process sliding-window rate limiter. */
module Limiter {
  type Key = string

  datatype Call = Call(key: Key, at: real, limit: int, window: real)

  /** A call and its answer. */
  datatype Entry = Entry(call: Call, ok: bool)

  /** How many of the times lie in (lo, hi]. */
  function Within(times: seq<real>, lo: real, hi: real): nat {
    if times == [] then 0
    else Within(times[..|times| - 1], lo, hi) + if lo < times[|times| - 1] <= hi then 1 else 0
  }

  /** The times at which the key was let through. */
  function Accepted(log: seq<Entry>, key: Key): seq<real> {
    if log == [] then []
    else
      var last := log[|log| - 1];
      Accepted(log[..|log| - 1], key) + if last.call.key == key && last.ok then [last.call.at] else []
  }

  /** Up to this time a call forgets. */
  function Cut(c: Call): real {
    c.at - c.window
  }

  /** The clock has not gone past this time yet. */
  ghost predicate NotBefore(log: seq<Entry>, now: real) {
    forall i | 0 <= i < |log| :: log[i].call.at <= now
  }

  /** The clock never runs backwards. */
  ghost predicate InTime(log: seq<Entry>) {
    log == [] || (InTime(log[..|log| - 1]) && NotBefore(log[..|log| - 1], log[|log| - 1].call.at))
  }

  /** Nor does the beginning of a key's window; limits, and windows that keep to this, may vary. */
  ghost predicate Orderly(log: seq<Entry>) {
    log == [] || (Orderly(log[..|log| - 1]) && MayFollow(log[..|log| - 1], log[|log| - 1].call))
  }

  ghost predicate MayFollow(log: seq<Entry>, c: Call) {
    forall i | 0 <= i < |log| :: MayPrecede(log[i].call, c)
  }

  predicate MayPrecede(earlier: Call, c: Call) {
    earlier.at <= c.at && (earlier.key == c.key ==> Cut(earlier) <= Cut(c))
  }

  /** What the answer has to be, by the history alone: yes exactly when the window that ends now
  holds fewer accepted calls of the key than the limit. */
  predicate Due(log: seq<Entry>, c: Call) {
    Within(Accepted(log, c.key), Cut(c), c.at) < c.limit
  }

  /** Every answer was the one due. */
  ghost predicate Honest(log: seq<Entry>) {
    log == [] ||
    var before, last := log[..|log| - 1], log[|log| - 1];
    Honest(before) && (last.ok <==> Due(before, last.call))
  }

  // ---------- counting ----------

  lemma {:induction false} WithinConcat(x: seq<real>, y: seq<real>, lo: real, hi: real)
    ensures Within(x + y, lo, hi) == Within(x, lo, hi) + Within(y, lo, hi)
  {
    if y == [] {
      assert x + y == x;
    } else {
      assert (x + y)[..|x + y| - 1] == x + y[..|y| - 1];
      WithinConcat(x, y[..|y| - 1], lo, hi);
    }
  }

  /** No time lies behind lo and up to mid. */
  predicate Gap(times: seq<real>, lo: real, mid: real) {
    forall i | 0 <= i < |times| :: !(lo < times[i] <= mid)
  }

  lemma {:induction false} WithinShrinks(times: seq<real>, lo: real, mid: real, hi: real)
    requires lo <= mid
    ensures Within(times, mid, hi) <= Within(times, lo, hi)
    ensures (forall i | 0 <= i < |times| :: times[i] <= hi) ==>
      (Within(times, mid, hi) == Within(times, lo, hi) <==> Gap(times, lo, mid))
  {
    if times != [] {
      WithinShrinks(times[..|times| - 1], lo, mid, hi);
    }
  }

  /** Sorted times, none later than now. */
  predicate Past(times: seq<real>, now: real) {
    && (forall i, j | 0 <= i < j < |times| :: times[i] <= times[j])
    && (forall i | 0 <= i < |times| :: times[i] <= now)
  }

  lemma {:induction false} AllWithin(times: seq<real>, lo: real, hi: real)
    requires forall i | 0 <= i < |times| :: lo < times[i] <= hi
    ensures Within(times, lo, hi) == |times|
  {
    if times != [] {
      AllWithin(times[..|times| - 1], lo, hi);
    }
  }

  // ---------- the deque ----------

  function Held(local: map<Key, seq<real>>, key: Key): seq<real> {
    if key in local then local[key] else []
  }

  /** The deque without its leading times up to the cut. */
  function Popped(times: seq<real>, cut: real): seq<real> {
    if times != [] && times[0] <= cut then Popped(times[1..], cut) else times
  }

  predicate Admits(local: map<Key, seq<real>>, c: Call) {
    |Popped(Held(local, c.key), Cut(c))| < c.limit
  }

  function After(local: map<Key, seq<real>>, c: Call): map<Key, seq<real>> {
    var dq := Popped(Held(local, c.key), Cut(c));
    local[c.key := if Admits(local, c) then dq + [c.at] else dq]
  }

  /** What a key's deque holds after these calls. */
  function Kept(log: seq<Entry>, key: Key): seq<real> {
    if log == [] then []
    else
      var before, last := Kept(log[..|log| - 1], key), log[|log| - 1];
      if last.call.key != key then before
      else Popped(before, Cut(last.call)) + if last.ok then [last.call.at] else []
  }

  lemma {:induction false} PoppedIsPast(times: seq<real>, cut: real, now: real)
    requires Past(times, now)
    ensures Past(Popped(times, cut), now)
    ensures forall i | 0 <= i < |Popped(times, cut)| :: Popped(times, cut)[i] > cut
  {
    if times != [] && times[0] <= cut {
      PoppedIsPast(times[1..], cut, now);
    } else {
      assert forall i | 0 <= i < |times| :: times[0] <= times[i];
    }
  }

  /** Popping hides from a count exactly what lies up to the cut. */
  lemma {:induction false} PoppedCounts(times: seq<real>, cut: real, lo: real, hi: real)
    requires Past(times, hi)
    ensures Within(Popped(times, cut), lo, hi) == Within(times, if lo < cut then cut else lo, hi)
  {
    var from := if lo < cut then cut else lo;
    if times != [] && times[0] <= cut {
      PoppedCounts(times[1..], cut, lo, hi);
      assert times == [times[0]] + times[1..];
      WithinConcat([times[0]], times[1..], from, hi);
      assert [times[0]][..0] == [];
    } else if lo < cut {
      PoppedIsPast(times, cut, hi);
      AllWithin(times, cut, hi);
      AllWithin(times, lo, hi);
    }
  }

  /** In a deque in time order the length left behind the pops is the count. */
  lemma LengthIsCount(times: seq<real>, cut: real, hi: real)
    requires Past(times, hi)
    ensures |Popped(times, cut)| == Within(times, cut, hi)
  {
    PoppedCounts(times, cut, cut, hi);
    PoppedIsPast(times, cut, hi);
    AllWithin(Popped(times, cut), cut, hi);
  }

  lemma {:induction false} KeptIsPast(log: seq<Entry>, key: Key, now: real)
    requires InTime(log) && NotBefore(log, now)
    ensures Past(Kept(log, key), now)
  {
    if log != [] {
      var before, last := log[..|log| - 1], log[|log| - 1].call;
      KeptIsPast(before, key, last.at);
      PoppedIsPast(Kept(before, key), Cut(last), last.at);
      assert forall i | 0 <= i < |Kept(before, key)| :: Kept(before, key)[i] <= last.at <= now;
    }
  }

  // ---------- what it forgets ----------

  /** Call n dropped the time of the accepted call m, which lies behind `lo`. */
  predicate Drops(log: seq<Entry>, m: nat, n: nat, key: Key, lo: real) {
    && m < n < |log| && log[m].call.key == key == log[n].call.key
    && log[m].ok && lo < log[m].call.at <= Cut(log[n].call)
  }

  ghost predicate Forgotten(log: seq<Entry>, key: Key, lo: real) {
    exists m: nat, n: nat :: Drops(log, m, n, key, lo)
  }

  lemma {:induction false} AcceptedIsLogged(log: seq<Entry>, key: Key, t: real)
    ensures t in Accepted(log, key) <==>
      exists m :: 0 <= m < |log| && log[m].call.key == key && log[m].ok && log[m].call.at == t
  {
    if log != [] {
      var before, last := log[..|log| - 1], log[|log| - 1];
      AcceptedIsLogged(before, key, t);
      if m :| 0 <= m < |log| && log[m].call.key == key && log[m].ok && log[m].call.at == t {
        assert m < |before| ==> before[m] == log[m];
      }
      if t in Accepted(before, key) {
        var m :| 0 <= m < |before| && before[m].call.key == key && before[m].ok && before[m].call.at == t;
        assert log[m] == before[m];
      } else if t in Accepted(log, key) {
        assert log[|log| - 1] == last;
      }
    }
  }

  /** Something is dropped by the last call, or was before it. */
  lemma ForgottenLast(log: seq<Entry>, key: Key, lo: real)
    requires log != []
    ensures var before, last := log[..|log| - 1], log[|log| - 1].call;
      Forgotten(log, key, lo) <==>
        Forgotten(before, key, lo) || (last.key == key && !Gap(Accepted(before, key), lo, Cut(last)))
  {
    var before, last := log[..|log| - 1], log[|log| - 1].call;
    if m: nat, n: nat :| Drops(log, m, n, key, lo) {
      if n < |before| {
        assert Drops(before, m, n, key, lo);
      } else {
        assert before[m] == log[m];
        AcceptedIsLogged(before, key, log[m].call.at);
      }
    }
    if m: nat, n: nat :| Drops(before, m, n, key, lo) {
      assert Drops(log, m, n, key, lo);
    }
    if last.key == key {
      forall i | 0 <= i < |Accepted(before, key)| && lo < Accepted(before, key)[i] <= Cut(last)
        ensures Forgotten(log, key, lo)
      {
        var t := Accepted(before, key)[i];
        AcceptedIsLogged(before, key, t);
        var m :| 0 <= m < |before| && before[m].call.key == key && before[m].ok && before[m].call.at == t;
        assert Drops(log, m, |before|, key, lo);
      }
    }
  }

  lemma ForgottenEarlier(log: seq<Entry>, key: Key, lo: real, mid: real)
    requires lo <= mid && Forgotten(log, key, mid)
    ensures Forgotten(log, key, lo)
  {
    var m: nat, n: nat :| Drops(log, m, n, key, mid);
    assert Drops(log, m, n, key, lo);
  }

  /** Two counts from lo on, and from a later cut on, of which the first may not exceed the second:
  leaving out what lies up to the cut, on one side only, keeps them equal if they were and the
  other side has nothing there. */
  lemma CountsAfterPop(kept: seq<real>, accepted: seq<real>, cut: real, lo: real, hi: real)
    requires lo < cut && Past(kept, hi) && forall i | 0 <= i < |accepted| :: accepted[i] <= hi
    requires Within(kept, lo, hi) <= Within(accepted, lo, hi) && Within(kept, cut, hi) <= Within(accepted, cut, hi)
    requires Within(kept, lo, hi) == Within(accepted, lo, hi) ==> Within(kept, cut, hi) == Within(accepted, cut, hi)
    ensures Within(kept, cut, hi) <= Within(accepted, lo, hi)
    ensures Within(kept, cut, hi) == Within(accepted, lo, hi) <==>
      Within(kept, lo, hi) == Within(accepted, lo, hi) && Gap(accepted, lo, cut)
  {
    WithinShrinks(kept, lo, cut, hi);
    WithinShrinks(accepted, lo, cut, hi);
  }

  /** The deque never counts too much, and it counts right exactly if no accepted time of the
  window was dropped by an earlier call. */
  lemma {:induction false} KeptCounts(log: seq<Entry>, key: Key, lo: real, hi: real)
    requires InTime(log) && NotBefore(log, hi)
    ensures Within(Kept(log, key), lo, hi) <= Within(Accepted(log, key), lo, hi)
    ensures Within(Kept(log, key), lo, hi) == Within(Accepted(log, key), lo, hi) <==> !Forgotten(log, key, lo)
    decreases log, 1
  {
    if log != [] {
      var before, e := log[..|log| - 1], log[|log| - 1];
      ForgottenLast(log, key, lo);
      KeptCounts(before, key, lo, hi);
      if e.call.key == key {
        KeptCountsOwn(before, e, lo, hi);
      } else {
        assert Accepted(log, key) == Accepted(before, key);
      }
    }
  }

  lemma KeptCountsOwn(before: seq<Entry>, e: Entry, lo: real, hi: real)
    requires InTime(before) && NotBefore(before, hi)
    requires Within(Kept(before, e.call.key), lo, hi) <= Within(Accepted(before, e.call.key), lo, hi)
    requires Within(Kept(before, e.call.key), lo, hi) == Within(Accepted(before, e.call.key), lo, hi) <==>
      !Forgotten(before, e.call.key, lo)
    ensures var key, own := e.call.key, if e.ok then [e.call.at] else [];
      var kept, accepted := Popped(Kept(before, key), Cut(e.call)) + own, Accepted(before, key) + own;
      && Within(kept, lo, hi) <= Within(accepted, lo, hi)
      && (Within(kept, lo, hi) == Within(accepted, lo, hi) <==>
            !Forgotten(before, key, lo) && Gap(Accepted(before, key), lo, Cut(e.call)))
    decreases before, 2
  {
    var key, own, cut := e.call.key, if e.ok then [e.call.at] else [], Cut(e.call);
    KeptIsPast(before, key, hi);
    AcceptedIsPast(before, key, hi);
    WithinConcat(Popped(Kept(before, key), cut), own, lo, hi);
    WithinConcat(Accepted(before, key), own, lo, hi);
    PoppedCounts(Kept(before, key), cut, lo, hi);
    if lo < cut {
      KeptCounts(before, key, cut, hi);
      if Forgotten(before, key, cut) {
        ForgottenEarlier(before, key, lo, cut);
      }
      CountsAfterPop(Kept(before, key), Accepted(before, key), cut, lo, hi);
    }
  }

  lemma AcceptedIsPast(log: seq<Entry>, key: Key, now: real)
    requires NotBefore(log, now)
    ensures forall i | 0 <= i < |Accepted(log, key)| :: Accepted(log, key)[i] <= now
  {
    forall i | 0 <= i < |Accepted(log, key)| ensures Accepted(log, key)[i] <= now {
      AcceptedIsLogged(log, key, Accepted(log, key)[i]);
    }
  }

  // ---------- what is due ----------

  /** The answer errs only by letting a call through, and never where nothing of its window was
  dropped. */
  lemma AdmitsAgainstDue(local: map<Key, seq<real>>, log: seq<Entry>, c: Call)
    requires InTime(log) && NotBefore(log, c.at) && Held(local, c.key) == Kept(log, c.key)
    ensures Due(log, c) ==> Admits(local, c)
    ensures |Popped(Held(local, c.key), Cut(c))| == Within(Accepted(log, c.key), Cut(c), c.at) <==>
      !Forgotten(log, c.key, Cut(c))
  {
    KeptIsPast(log, c.key, c.at);
    LengthIsCount(Kept(log, c.key), Cut(c), c.at);
    KeptCounts(log, c.key, Cut(c), c.at);
  }

  lemma {:induction false} OrderlyIsInTime(log: seq<Entry>)
    requires Orderly(log)
    ensures InTime(log)
  {
    if log != [] {
      var before, c := log[..|log| - 1], log[|log| - 1].call;
      OrderlyIsInTime(before);
      assert forall i | 0 <= i < |before| :: MayPrecede(before[i].call, c);
    }
  }

  /** If windows never begin earlier than before, a call finds nothing dropped that it needs. */
  lemma OrderlyForgetsNothing(log: seq<Entry>, c: Call)
    requires MayFollow(log, c)
    ensures NotBefore(log, c.at) && !Forgotten(log, c.key, Cut(c))
  {
    forall i | 0 <= i < |log| ensures log[i].call.at <= c.at {
      assert MayPrecede(log[i].call, c);
    }
    forall m: nat, n: nat ensures !Drops(log, m, n, c.key, Cut(c)) {
      assert n < |log| ==> MayPrecede(log[n].call, c);
    }
  }

  lemma HonestGrows(local: map<Key, seq<real>>, log: seq<Entry>, e: Entry)
    requires Orderly(log + [e]) && (Orderly(log) ==> Honest(log))
    requires Held(local, e.call.key) == Kept(log, e.call.key) && (e.ok <==> Admits(local, e.call))
    ensures Honest(log + [e])
  {
    assert (log + [e])[..|log|] == log;
    OrderlyIsInTime(log);
    OrderlyForgetsNothing(log, e.call);
    AdmitsAgainstDue(local, log, e.call);
  }

  /** Only the deque of the key called changes. */
  lemma AcquireKeeps(local: map<Key, seq<real>>, log: seq<Entry>, e: Entry)
    requires forall key: Key :: Held(local, key) == Kept(log, key)
    requires e.ok <==> Admits(local, e.call)
    ensures forall key: Key :: Held(After(local, e.call), key) == Kept(log + [e], key)
  {
    assert (log + [e])[..|log|] == log;
    forall key: Key ensures Held(After(local, e.call), key) == Kept(log + [e], key) {
      assert Held(local, key) == Kept(log, key);
    }
  }

  class RateLimiter {
    var local: map<Key, seq<real>>
    ghost var log: seq<Entry>

    ghost predicate Valid()
      reads this
    {
      (forall key: Key :: Held(local, key) == Kept(log, key)) && (Orderly(log) ==> Honest(log))
    }

    constructor ()
      ensures Valid() && log == []
    {
      local := map[];
      log := [];
    }

    /** Pop what the window has left behind, refuse if the rest fills the limit, else append. */
    method Acquire(c: Call) returns (ok: bool)
      requires Valid()
      modifies this
      ensures Valid() && log == old(log) + [Entry(c, ok)]
      ensures local == After(old(local), c) && ok == Admits(old(local), c)
      ensures InTime(log) && Due(old(log), c) ==> ok
      ensures InTime(log) && !Forgotten(old(log), c.key, Cut(c)) ==> (ok <==> Due(old(log), c))
      ensures InTime(log) && !Forgotten(old(log), c.key, c.at - c.window) ==>
        (ok <==> Within(Accepted(old(log), c.key), c.at - c.window, c.at) < c.limit)
    {
      var dq := if c.key in local then local[c.key] else [];
      while dq != [] && dq[0] <= c.at - c.window
        invariant Popped(dq, Cut(c)) == Popped(Held(local, c.key), Cut(c))
      {
        dq := dq[1..];
      }
      ok := |dq| < c.limit;
      ghost var e := Entry(c, ok);
      assert (log + [e])[..|log|] == log && Held(local, c.key) == Kept(log, c.key);
      if InTime(log + [e]) {
        AdmitsAgainstDue(local, log, c);
      }
      if Orderly(log + [e]) {
        HonestGrows(local, log, e);
      }
      AcquireKeeps(local, log, e);
      local := local[c.key := if ok then dq + [c.at] else dq];
      log := log + [e];
    }
  }

  // ---------- the bound ----------

  lemma WithinOneMore(times: seq<real>, x: real, lo: real, hi: real)
    ensures Within(times + [x], lo, hi) == Within(times, lo, hi) + if lo < x <= hi then 1 else 0
  {
    assert (times + [x])[..|times|] == times;
  }

  /** No window at most as long as every call's own ever holds more accepted calls than the largest
  limit. */
  lemma {:induction false} WindowBound(log: seq<Entry>, key: Key, limit: nat, window: real, t: real)
    requires Orderly(log) && Honest(log)
    requires forall n | 0 <= n < |log| && log[n].call.key == key ::
      log[n].call.limit <= limit && log[n].call.window >= window
    ensures Within(Accepted(log, key), t - window, t) <= limit
  {
    if log != [] {
      var before, c := log[..|log| - 1], log[|log| - 1].call;
      WindowBound(before, key, limit, window, t);
      assert Accepted(before, key) + [] == Accepted(before, key);
      if c.key == key && log[|log| - 1].ok {
        var times := Accepted(before, key);
        WithinOneMore(times, c.at, t - window, t);
        if t - window < c.at <= t {
          OrderlyForgetsNothing(before, c);
          AcceptedIsPast(before, key, c.at);
          assert c.window >= window && Due(before, c);
          EarlierWindow(times, t - window, t, Cut(c), c.at);
        }
      }
    }
  }

  /** Of the times up to b, a window that begins no later and ends no earlier than b counts at
  least as many. */
  lemma {:induction false} EarlierWindow(times: seq<real>, lo: real, hi: real, a: real, b: real)
    requires a <= lo && b <= hi && forall i | 0 <= i < |times| :: times[i] <= b
    ensures Within(times, lo, hi) <= Within(times, a, b)
  {
    if times != [] {
      EarlierWindow(times[..|times| - 1], lo, hi, a, b);
    }
  }

  /** Replaying the calls of a log from nothing. */
  function Replay(log: seq<Entry>): map<Key, seq<real>> {
    if log == [] then map[] else After(Replay(log[..|log| - 1]), log[|log| - 1].call)
  }

  /** Every answer was the one the deque gave. */
  ghost predicate Replayed(log: seq<Entry>) {
    log == [] ||
    var before, last := log[..|log| - 1], log[|log| - 1];
    Replayed(before) && (last.ok <==> Admits(Replay(before), last.call))
  }

  lemma {:induction false} ReplayKeeps(log: seq<Entry>)
    requires Replayed(log)
    ensures forall key: Key :: Held(Replay(log), key) == Kept(log, key)
  {
    if log != [] {
      var before, e := log[..|log| - 1], log[|log| - 1];
      ReplayKeeps(before);
      AcquireKeeps(Replay(before), before, e);
      assert before + [e] == log;
    }
  }

  /** After any calls in time order, the deque counts too few exactly if an earlier call of the key
  dropped an accepted time that the window still holds; and the answer is then wrong, a call let
  through that should not be, exactly if what is left is below the limit and the true count is not. */
  lemma CountsRightIff(log: seq<Entry>, c: Call)
    requires Replayed(log) && InTime(log) && NotBefore(log, c.at)
    ensures var left := |Popped(Held(Replay(log), c.key), Cut(c))|;
      var count := Within(Accepted(log, c.key), Cut(c), c.at);
      && left <= count
      && (left == count <==> !Forgotten(log, c.key, Cut(c)))
      && (Admits(Replay(log), c) != Due(log, c) <==> left < c.limit <= count)
  {
    ReplayKeeps(log);
    assert Held(Replay(log), c.key) == Kept(log, c.key);
    AdmitsAgainstDue(Replay(log), log, c);
    KeptIsPast(log, c.key, c.at);
    LengthIsCount(Kept(log, c.key), Cut(c), c.at);
    KeptCounts(log, c.key, Cut(c), c.at);
  }

  /** One more answered call. */
  lemma ReplayGrows(log: seq<Entry>, e: Entry)
    requires Replayed(log) && InTime(log) && NotBefore(log, e.call.at) && (e.ok <==> Admits(Replay(log), e.call))
    ensures Replayed(log + [e]) && InTime(log + [e]) && NotBefore(log + [e], e.call.at)
    ensures Replay(log + [e]) == After(Replay(log), e.call)
    ensures e.ok ==> Accepted(log + [e], e.call.key) == Accepted(log, e.call.key) + [e.call.at]
  {
    assert (log + [e])[..|log|] == log;
  }

  /** For instance when a key's window shrinks for one call and grows again. */
  lemma ShortWindowForgets(key: Key)
    ensures var a, b, c := Call(key, 0.0, 2, 60.0), Call(key, 1.0, 2, 1.0), Call(key, 2.0, 2, 60.0);
      var log := [] + [Entry(a, true)] + [Entry(b, true)];
      Replayed(log) && InTime(log) && NotBefore(log, c.at) && Admits(Replay(log), c) && !Due(log, c)
  {
    var a, b := Call(key, 0.0, 2, 60.0), Call(key, 1.0, 2, 1.0);
    assert Popped([], -60.0) == [];
    ReplayGrows([], Entry(a, true));
    assert Held(Replay([] + [Entry(a, true)]), key) == [] + [0.0] == [0.0];
    assert Popped([0.0], 0.0) == Popped([0.0][1..], 0.0) == [];
    ReplayGrows([] + [Entry(a, true)], Entry(b, true));
    assert Held(Replay([] + [Entry(a, true)] + [Entry(b, true)]), key) == [] + [1.0] == [1.0];
    WithinOneMore([], 0.0, -58.0, 2.0);
    WithinOneMore([] + [0.0], 1.0, -58.0, 2.0);
  }
}
