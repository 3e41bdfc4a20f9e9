/** What the release operations keep, alone and over runs. */
module ReleaseLaws {
  import opened Options
  import opened Release

  // ---------- one version in full service ----------

  /** From any state whatever, publishing leaves exactly the published version in full service. */
  lemma PublishLeavesOne(rows: Rows, v: Version)
    requires Exists(rows, v)
    ensures forall w :: IsActive(Published(rows, v), w) <==> w == v
    ensures forall w | w != v && Exists(rows, w) && !IsActive(rows, w) :: Published(rows, v)[w - 1] == rows[w - 1]
  {
    var rows' := Published(rows, v);
    forall w | Exists(rows, w) ensures IsActive(rows', w) <==> w == v {
      assert rows'[w - 1].status == Active <==> w == v;
    }
  }

  /** A draft, a gray share and a halt never add one. */
  lemma OthersKeepAtMostOne(rows: Rows, v: Version, row: Row, status: Status, percentage: int)
    requires AtMostOne(rows) && row.status != Active && status != Active
    ensures AtMostOne(rows + [row])
    ensures Exists(rows, v) ==> AtMostOne(Put(rows, v, status))
    ensures Exists(rows, v) ==> AtMostOne(rows[v - 1 := rows[v - 1].(status := status, percentage := percentage)])
  {
    forall w, x | IsActive(rows + [row], w) && IsActive(rows + [row], x) ensures w == x {
      assert IsActive(rows, w) && IsActive(rows, x);
    }
    if Exists(rows, v) {
      forall w, x | IsActive(Put(rows, v, status), w) && IsActive(Put(rows, v, status), x) ensures w == x {
        assert IsActive(rows, w) && IsActive(rows, x);
      }
      var rows' := rows[v - 1 := rows[v - 1].(status := status, percentage := percentage)];
      forall w, x | IsActive(rows', w) && IsActive(rows', x) ensures w == x {
        assert IsActive(rows, w) && IsActive(rows, x);
      }
    }
  }

  /** In full service after a rollback: the target, and all that were and are not the newest. */
  lemma ActiveAfterRollback(rows: Rows, target: Version, w: Version)
    requires Exists(rows, target)
    ensures IsActive(RolledBack(rows, target), w) <==> w == target || (IsActive(rows, w) && Current(rows, 0) != Some(w))
  {
  }

  /** A rollback leaves one version in full service exactly if each that was is the one it disables,
  the newest in service, or the target itself. */
  lemma RollbackKeepsOneIff(rows: Rows, target: Version)
    requires Exists(rows, target)
    ensures AtMostOne(RolledBack(rows, target)) <==>
      forall w | IsActive(rows, w) :: w == target || Current(rows, 0) == Some(w)
  {
    var rows' := RolledBack(rows, target);
    ActiveAfterRollback(rows, target, target);
    forall w ensures IsActive(rows', w) <==> w == target || (IsActive(rows, w) && Current(rows, 0) != Some(w)) {
      ActiveAfterRollback(rows, target, w);
    }
    if w :| IsActive(rows, w) && w != target && Current(rows, 0) != Some(w) {
      assert IsActive(rows', w) && IsActive(rows', target);
    }
  }

  /** So the default rollback of a gray version whose neighbour below is not the one in full service
  puts a second version, here a draft that was never published, into service. */
  lemma DefaultRollbackAddsSecond(rows: Rows, a: Version, g: Version)
    requires 1 <= a && a + 1 < g == |rows| && IsActive(rows, a)
    requires StatusOf(rows, g) == Gray && StatusOf(rows, g - 1) == Draft
    ensures RollbackTarget(rows, None) == g - 1
    ensures IsActive(RolledBack(rows, g - 1), a) && IsActive(RolledBack(rows, g - 1), g - 1)
  {
    assert IsLive(rows, g);
    assert Current(rows, 0) == Some(g);
    ActiveAfterRollback(rows, g - 1, a);
  }

  /** Stopping a canary rolls back only to a version that is in full service already, so it never
  adds one. */
  lemma StopKeepsAtMostOne(rows: Rows, v: Version, autoRollback: bool)
    requires AtMostOne(rows) && Exists(rows, v)
    ensures AtMostOne(Stopped(rows, v, autoRollback))
    ensures forall w | w != v && IsActive(rows, w) && w < v :: IsActive(Stopped(rows, v, autoRollback), w)
  {
    var halted := Put(rows, v, Disabled);
    OthersKeepAtMostOne(rows, v, Row(Draft, {}, {}, 0), Disabled, 0);
    var prev := NewestActive(halted, v - 1);
    if autoRollback && prev.Some? {
      RollbackKeepsOneIff(halted, prev.value);
    }
    forall w | w != v && IsActive(rows, w) && w < v ensures IsActive(Stopped(rows, v, autoRollback), w) {
      assert IsActive(halted, w);
      if autoRollback && prev.Some? {
        ActiveAfterRollback(halted, prev.value, w);
      }
    }
  }

  // ---------- the surface of the version in full service ----------

  /** The operations whose runs keep the surface: new drafts, and publications that are checked. */
  datatype Step = Create(tools: set<string>, keys: set<string>, percentage: int)
    | Publish(version: Version, others: bool)

  function After(rows: Rows, e: Step): Rows {
    match e
    case Create(tools, keys, percentage) => rows + [Row(Draft, tools, keys, percentage)]
    case Publish(v, others) => if Exists(rows, v) && !ContractFails(rows, v, others) then Published(rows, v) else rows
  }

  function Run(steps: seq<Step>): Rows {
    if steps == [] then [] else After(Run(steps[..|steps| - 1]), steps[|steps| - 1])
  }

  /** At most one version in full service and none in gray. */
  ghost predicate Plain(rows: Rows) {
    AtMostOne(rows) && forall v | Exists(rows, v) :: StatusOf(rows, v) != Gray
  }

  /** What a version declares never changes. */
  predicate Grows(rows: Rows, rows': Rows) {
    && |rows| <= |rows'|
    && forall i | 0 <= i < |rows| :: rows'[i].tools == rows[i].tools && rows'[i].keys == rows[i].keys
  }

  lemma StepKeepsPlain(rows: Rows, e: Step)
    requires Plain(rows)
    ensures Plain(After(rows, e)) && Grows(rows, After(rows, e))
  {
    match e
    case Create(tools, keys, percentage) =>
      var row := Row(Draft, tools, keys, percentage);
      OthersKeepAtMostOne(rows, 0, row, Draft, 0);
      assert forall v | Exists(rows, v) :: StatusOf(rows + [row], v) == StatusOf(rows, v);
    case Publish(v, others) =>
      if Exists(rows, v) && !ContractFails(rows, v, others) {
        PublishLeavesOne(rows, v);
        forall w | Exists(Published(rows, v), w) ensures StatusOf(Published(rows, v), w) != Gray {
          assert StatusOf(rows, w) != Gray;
        }
      }
  }

  /** A checked publication replaces the version in full service only by one that covers it. */
  lemma StepCovers(rows: Rows, e: Step, p: Version)
    requires Plain(rows) && IsActive(rows, p)
    ensures exists q :: IsActive(After(rows, e), q) && Covers(After(rows, e), p, q)
  {
    var rows' := After(rows, e);
    StepKeepsPlain(rows, e);
    if e.Publish? && Exists(rows, e.version) && !ContractFails(rows, e.version, e.others) {
      PublishLeavesOne(rows, e.version);
      if e.version != p {
        assert IsLive(rows, p);
        assert Current(rows, e.version) == Some(p);
      }
      assert Covers(rows', p, e.version);
    } else {
      assert IsActive(rows', p) && Covers(rows', p, p);
    }
  }

  lemma {:induction false} RunIsPlain(steps: seq<Step>)
    ensures Plain(Run(steps))
  {
    if steps != [] {
      RunIsPlain(steps[..|steps| - 1]);
      StepKeepsPlain(Run(steps[..|steps| - 1]), steps[|steps| - 1]);
    }
  }

  /** Over every run of drafts and checked publications, once a version p is in full service there
  is always exactly one, and it declares every tool and every configuration key of p. */
  lemma {:induction false} SurfaceNeverShrinks(steps: seq<Step>, n: nat, p: Version)
    requires n <= |steps| && IsActive(Run(steps[..n]), p)
    ensures |Run(steps[..n])| <= |Run(steps)|
    ensures exists q :: IsActive(Run(steps), q) && Covers(Run(steps), p, q)
    ensures forall q, r | IsActive(Run(steps), q) && IsActive(Run(steps), r) :: q == r
  {
    RunIsPlain(steps);
    if n == |steps| {
      assert steps[..n] == steps;
      assert Covers(Run(steps), p, p);
    } else {
      var init, e := steps[..|steps| - 1], steps[|steps| - 1];
      assert init[..n] == steps[..n];
      SurfaceNeverShrinks(init, n, p);
      RunIsPlain(init);
      var q :| IsActive(Run(init), q) && Covers(Run(init), p, q);
      StepKeepsPlain(Run(init), e);
      StepCovers(Run(init), e, q);
      var r :| IsActive(Run(steps), r) && Covers(Run(steps), q, r);
      assert Covers(Run(steps), p, r);
    }
  }

  /** Whichever version is in full service then has every tool and every configuration key of p. */
  lemma NothingIsMissing(steps: seq<Step>, n: nat, p: Version, q: Version)
    requires n <= |steps| && IsActive(Run(steps[..n]), p) && IsActive(Run(steps), q)
    ensures |Run(steps[..n])| <= |Run(steps)|
    ensures Run(steps)[p - 1].tools <= Run(steps)[q - 1].tools && Run(steps)[p - 1].keys <= Run(steps)[q - 1].keys
  {
    SurfaceNeverShrinks(steps, n, p);
  }

  /** With gray versions about, the check compares with the newest version in service. A new version
  that passes it and yet drops something of p, in full service, exists exactly if that newest
  version q does. */
  lemma CheckGuardsTheNewest(rows: Rows, p: Version)
    requires IsActive(rows, p)
    ensures Current(rows, 0).Some?
    ensures Covers(rows, p, Current(rows, 0).value) <==>
      forall row: Row | row.status == Draft && !ContractFails(rows + [row], |rows| + 1, false) ::
        Covers(rows + [row], p, |rows| + 1)
  {
    assert IsLive(rows, p);
    var q := Current(rows, 0).value;
    forall row: Row | row.status == Draft ensures Current(rows + [row], |rows| + 1) == Some(q) {
      CurrentIgnoresDraft(rows, row);
    }
    if !Covers(rows, p, q) {
      var row := rows[q - 1].(status := Draft);
      assert Covers(rows + [row], q, |rows| + 1) && !Covers(rows + [row], p, |rows| + 1);
      assert !ContractFails(rows + [row], |rows| + 1, false);
    }
  }

  lemma CurrentIgnoresDraft(rows: Rows, row: Row)
    requires row.status == Draft && Current(rows, 0).Some?
    ensures Current(rows + [row], |rows| + 1) == Current(rows, 0)
  {
    var q := Current(rows, 0).value;
    forall v ensures IsLive(rows + [row], v) <==> IsLive(rows, v) {
    }
    assert IsLive(rows + [row], q);
    assert IsLive(rows, Current(rows + [row], |rows| + 1).value);
  }

  // ---------- what users get ----------

  /** A gray version that takes this user; without a user id there is no bucket and none does. */
  predicate Takes(rows: Rows, v: Version, bucket: Option<nat>) {
    Exists(rows, v) && StatusOf(rows, v) == Gray && bucket.Some? && rows[v - 1].percentage > bucket.value
  }

  function NewestTaking(rows: Rows, bucket: Option<nat>, upTo: nat): (found: Option<Version>)
    requires upTo <= |rows|
    ensures found.None? ==> forall v | Takes(rows, v, bucket) :: v > upTo
    ensures found.Some? ==> Takes(rows, found.value, bucket) && found.value <= upTo
    ensures found.Some? ==> forall v | Takes(rows, v, bucket) :: v <= found.value || v > upTo
  {
    if upTo == 0 then None else if Takes(rows, upTo, bucket) then Some(upTo) else NewestTaking(rows, bucket, upTo - 1)
  }

  /** A gray version takes its share of a hundred buckets, the first ones: none at 0, all at 100. */
  lemma GrayShare(rows: Rows, v: Version, bucket: nat)
    requires Exists(rows, v) && StatusOf(rows, v) == Gray && bucket < 100
    ensures rows[v - 1].percentage == 0 ==> !Takes(rows, v, Some(bucket))
    ensures rows[v - 1].percentage == 100 ==> Takes(rows, v, Some(bucket))
    ensures 0 <= rows[v - 1].percentage <= 100 ==> |Taken(rows, v, 100)| == rows[v - 1].percentage
  {
    if 0 <= rows[v - 1].percentage <= 100 {
      TakenCounts(rows, v, 100);
    }
  }

  function Taken(rows: Rows, v: Version, upTo: nat): (buckets: set<nat>) {
    set b: nat | b < upTo && Takes(rows, v, Some(b))
  }

  lemma {:induction false} TakenCounts(rows: Rows, v: Version, upTo: nat)
    requires Exists(rows, v) && StatusOf(rows, v) == Gray && 0 <= rows[v - 1].percentage
    ensures |Taken(rows, v, upTo)| == if upTo < rows[v - 1].percentage then upTo else rows[v - 1].percentage
  {
    if upTo > 0 {
      TakenCounts(rows, v, upTo - 1);
      assert Taken(rows, v, upTo) ==
        Taken(rows, v, upTo - 1) + if Takes(rows, v, Some(upTo - 1)) then {upTo - 1} else {};
    } else {
      assert Taken(rows, v, 0) == {};
    }
  }

  /** The version a user is served, None for the error that there is none. */
  function Resolve(rows: Rows, bucket: Option<nat>): Option<Version> {
    var gray := NewestTaking(rows, bucket, |rows|);
    if gray.Some? then gray else NewestActive(rows, |rows|)
  }

  lemma ResolvesTo(rows: Rows, bucket: Option<nat>, v: Version)
    requires IsActive(rows, v)
    ensures Resolve(rows, bucket) == Some(v) <==>
      (forall w :: !Takes(rows, w, bucket)) && forall w | IsActive(rows, w) :: w <= v
  {
  }

  /** A published version serves every user that no other gray version takes. */
  lemma PublishTakesEffectIff(rows: Rows, v: Version, bucket: Option<nat>)
    requires Exists(rows, v)
    ensures Resolve(Published(rows, v), bucket) == Some(v) <==> forall w | Takes(rows, w, bucket) :: w == v
  {
    PublishLeavesOne(rows, v);
    ResolvesTo(Published(rows, v), bucket, v);
    assert StatusOf(Published(rows, v), v) == Active;
    forall w | w != v ensures Takes(Published(rows, v), w, bucket) <==> Takes(rows, w, bucket) {
      assert Exists(rows, w) ==> (StatusOf(Published(rows, v), w) == Gray <==> StatusOf(rows, w) == Gray);
    }
  }

  /** A rollback serves the target to exactly those users whom no gray version takes besides the
  target and the newest in service, provided no newer version than the target stays in full
  service: only the newest in service is switched off. */
  lemma RollbackTakesEffectIff(rows: Rows, target: Version, bucket: Option<nat>)
    requires Exists(rows, target)
    ensures Resolve(RolledBack(rows, target), bucket) == Some(target) <==>
      && (forall w | Takes(rows, w, bucket) :: w == target || Current(rows, 0) == Some(w))
      && (forall w | IsActive(rows, w) :: w <= target || Current(rows, 0) == Some(w))
  {
    var rows' := RolledBack(rows, target);
    ActiveAfterRollback(rows, target, target);
    ResolvesTo(rows', bucket, target);
    forall w ensures Takes(rows', w, bucket) <==> Takes(rows, w, bucket) && w != target && Current(rows, 0) != Some(w) {
    }
    forall w ensures IsActive(rows', w) <==> w == target || (IsActive(rows, w) && Current(rows, 0) != Some(w)) {
      ActiveAfterRollback(rows, target, w);
    }
  }
}
