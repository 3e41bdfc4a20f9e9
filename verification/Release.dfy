/** app/release/service.py: the life of an agent's versions.

The rows of one agent; version v is at index v - 1, as versions are numbered without gaps. */
module Release {
  import opened Options

  type Version = int

  datatype Status = Draft | Active | Gray | Disabled

  /** `tools` and `keys` are what the configuration declares, `percentage` the gray share. */
  datatype Row = Row(status: Status, tools: set<string>, keys: set<string>, percentage: int)

  type Rows = seq<Row>

  datatype Error = Terminated | NotFound | ContractFailed | BadPercentage | RollbackFailed

  datatype Outcome = Done(version: Version) | Refused(error: Error)

  predicate Exists(rows: Rows, v: Version) {
    1 <= v <= |rows|
  }

  function StatusOf(rows: Rows, v: Version): Status
    requires Exists(rows, v)
  {
    rows[v - 1].status
  }

  function Put(rows: Rows, v: Version, status: Status): Rows
    requires Exists(rows, v)
  {
    rows[v - 1 := rows[v - 1].(status := status)]
  }

  predicate IsActive(rows: Rows, v: Version) {
    Exists(rows, v) && StatusOf(rows, v) == Active
  }

  predicate IsLive(rows: Rows, v: Version) {
    Exists(rows, v) && (StatusOf(rows, v) == Active || StatusOf(rows, v) == Gray)
  }

  ghost predicate AtMostOne(rows: Rows) {
    forall v, w | IsActive(rows, v) && IsActive(rows, w) :: v == w
  }

  /** Nothing but statuses differs: declarations and gray shares stay. */
  ghost predicate OnlyStatuses(rows: Rows, rows': Rows) {
    |rows'| == |rows| && forall i | 0 <= i < |rows| :: rows'[i] == rows[i].(status := rows'[i].status)
  }

  // ---------- searching ----------

  function NewestLive(rows: Rows, except: Version, upTo: nat): (found: Option<Version>)
    requires upTo <= |rows|
    ensures found.None? ==> forall v | IsLive(rows, v) :: v == except || v > upTo
    ensures found.Some? ==> IsLive(rows, found.value) && found.value != except && found.value <= upTo
    ensures found.Some? ==> forall v | IsLive(rows, v) :: v <= found.value || v == except || v > upTo
  {
    if upTo == 0 then None
    else if IsLive(rows, upTo) && upTo != except then Some(upTo)
    else NewestLive(rows, except, upTo - 1)
  }

  /** The newest version in service, apart from the given one. */
  function Current(rows: Rows, except: Version): (found: Option<Version>)
    ensures found.None? ==> forall v | IsLive(rows, v) :: v == except
    ensures found.Some? ==> IsLive(rows, found.value) && found.value != except
    ensures found.Some? ==> forall v | IsLive(rows, v) :: v <= found.value || v == except
  {
    NewestLive(rows, except, |rows|)
  }

  /** The newest of the first versions that is in full service. */
  function NewestActive(rows: Rows, upTo: nat): (found: Option<Version>)
    requires upTo <= |rows|
    ensures found.None? ==> forall v | IsActive(rows, v) :: v > upTo
    ensures found.Some? ==> IsActive(rows, found.value) && found.value <= upTo
    ensures found.Some? ==> forall v | IsActive(rows, v) :: v <= found.value || v > upTo
  {
    if upTo == 0 then None else if IsActive(rows, upTo) then Some(upTo) else NewestActive(rows, upTo - 1)
  }

  // ---------- the operations on the rows ----------

  /** Nothing that the first version declares is missing in the second. */
  predicate Covers(rows: Rows, before: Version, v: Version)
    requires Exists(rows, before) && Exists(rows, v)
  {
    rows[before - 1].tools <= rows[v - 1].tools && rows[before - 1].keys <= rows[v - 1].keys
  }

  /** The contract: no tool or configuration key of the newest other version in service is missing.
  `others` tells whether an item outside this model fails; the item that asks for a lower version
  cannot, as versions have no gaps. */
  predicate ContractFails(rows: Rows, v: Version, others: bool)
    requires Exists(rows, v)
  {
    others || (Current(rows, v).Some? && !Covers(rows, Current(rows, v).value, v))
  }

  function Published(rows: Rows, v: Version): Rows
    requires Exists(rows, v)
  {
    seq(|rows|, i requires 0 <= i < |rows| =>
      if i == v - 1 then rows[i].(status := Active)
      else if rows[i].status == Active then rows[i].(status := Disabled)
      else rows[i])
  }

  function RollbackTarget(rows: Rows, to: Option<Version>): Version {
    if to.Some? && to.value != 0 then to.value
    else
      var current := Current(rows, 0);
      if current.Some? && current.value > 1 then current.value - 1 else 1
  }

  function RolledBack(rows: Rows, target: Version): Rows
    requires Exists(rows, target)
  {
    var current := Current(rows, 0);
    Put(if current.Some? then Put(rows, current.value, Disabled) else rows, target, Active)
  }

  lemma NothingMissing(wanted: set<string>, given: set<string>)
    ensures wanted - given == {} <==> wanted <= given
  {
    assert forall x | x in wanted && x !in given :: x in wanted - given;
  }

  // ---------- the service ----------

  class Service {
    var rows: Rows
    var terminated: bool

    constructor ()
      ensures rows == [] && !terminated
    {
      rows, terminated := [], false;
    }

    /** A new draft; it reopens a terminated flow. */
    method CreateVersion(tools: set<string>, keys: set<string>, percentage: int) returns (version: Version)
      modifies this
      ensures rows == old(rows) + [Row(Draft, tools, keys, percentage)] && version == |rows|
      ensures !terminated
    {
      if terminated {
        terminated := false;
      }
      rows := rows + [Row(Draft, tools, keys, percentage)];
      version := |rows|;
    }

    method TerminateFlow()
      modifies this
      ensures terminated && rows == old(rows)
    {
      terminated := true;
    }

    /** None if nothing stands against the publication. */
    method ContractCheck(version: Version, others: bool) returns (against: Option<Error>)
      ensures against == if terminated then Some(Terminated) else if !Exists(rows, version) then Some(NotFound)
        else if ContractFails(rows, version, others) then Some(ContractFailed) else None
      ensures !terminated && Exists(rows, version) && Current(rows, version).None? ==> (against.None? <==> !others)
      ensures !terminated && Exists(rows, version) && Current(rows, version).Some? ==>
        var prev, next := rows[Current(rows, version).value - 1], rows[version - 1];
        against.None? <==> !others && prev.tools <= next.tools && prev.keys <= next.keys
    {
      if terminated {
        return Some(Terminated);
      }
      if !Exists(rows, version) {
        return Some(NotFound);
      }
      var target := rows[version - 1];
      var prev := Current(rows, version);
      var prevTools, prevKeys := {}, {};
      if prev.Some? {
        prevTools, prevKeys := rows[prev.value - 1].tools, rows[prev.value - 1].keys;
      }
      NothingMissing(prevTools, target.tools);
      NothingMissing(prevKeys, target.keys);
      if others || prevTools - target.tools != {} || prevKeys - target.keys != {} {
        return Some(ContractFailed);
      }
      return None;
    }

    method Publish(version: Version, enforce: bool, force: bool, others: bool) returns (r: Outcome)
      modifies this
      ensures terminated == old(terminated)
      ensures r.Done? <==>
        !terminated && Exists(old(rows), version) && (enforce && !force ==> !ContractFails(old(rows), version, others))
      ensures r.Done? ==> r.version == version && rows == Published(old(rows), version)
      ensures OnlyStatuses(old(rows), rows)
      ensures r.Refused? ==> rows == old(rows)
      ensures r.Refused? ==>
        r.error == if terminated then Terminated else if !Exists(rows, version) then NotFound else ContractFailed
    {
      if terminated {
        return Refused(Terminated);
      }
      if enforce && !force {
        var against := ContractCheck(version, others);
        if against.Some? {
          return Refused(against.value);
        }
      }
      if !Exists(rows, version) {
        return Refused(NotFound);
      }
      ghost var before := rows;
      for i := 0 to |rows|
        invariant |rows| == |before| && terminated == old(terminated)
        invariant forall j | i <= j < |rows| :: rows[j] == before[j]
        invariant forall j | 0 <= j < i && (j == version - 1 || before[j].status != Active) :: rows[j] == before[j]
        invariant forall j | 0 <= j < i && j != version - 1 && before[j].status == Active ::
          rows[j] == before[j].(status := Disabled)
      {
        if rows[i].status == Active && i + 1 != version {
          rows := rows[i := rows[i].(status := Disabled)];
        }
      }
      rows := rows[version - 1 := rows[version - 1].(status := Active)];
      assert rows == Published(before, version);
      return Done(version);
    }

    method GrayOut(version: Version, percentage: int) returns (r: Outcome)
      modifies this
      ensures terminated == old(terminated)
      ensures r == if terminated then Refused(Terminated) else if !(0 <= percentage <= 100) then Refused(BadPercentage)
        else if !Exists(old(rows), version) then Refused(NotFound) else Done(version)
      ensures r.Done? ==>
        rows == old(rows)[version - 1 := old(rows)[version - 1].(status := Gray, percentage := percentage)]
      ensures r.Refused? ==> rows == old(rows)
    {
      if terminated {
        return Refused(Terminated);
      }
      if !(0 <= percentage <= 100) {
        return Refused(BadPercentage);
      }
      if !Exists(rows, version) {
        return Refused(NotFound);
      }
      rows := rows[version - 1 := rows[version - 1].(status := Gray, percentage := percentage)];
      return Done(version);
    }

    method Rollback(to: Option<Version>) returns (r: Outcome)
      modifies this
      ensures terminated == old(terminated)
      ensures r == if terminated then Refused(Terminated)
        else if !Exists(old(rows), RollbackTarget(old(rows), to)) then Refused(RollbackFailed)
        else Done(RollbackTarget(old(rows), to))
      ensures rows == if r.Done? then RolledBack(old(rows), r.version) else old(rows)
      ensures OnlyStatuses(old(rows), rows)
      ensures r.Done? && to.Some? && to.value != 0 ==> r.version == to.value
      ensures r.Done? && (to.None? || to.value == 0) ==>
        r.version == 1 || (IsLive(old(rows), r.version + 1) && forall v | IsLive(old(rows), v) :: v <= r.version + 1)
      ensures r.Done? && (to.None? || to.value == 0) && r.version == 1 ==> forall v | IsLive(old(rows), v) :: v <= 2
      ensures r.Refused? && !terminated ==> rows == [] || (to.Some? && to.value != 0 && !Exists(rows, to.value))
    {
      if terminated {
        return Refused(Terminated);
      }
      var current := Current(rows, 0);
      var target := if to.Some? && to.value != 0 then to.value
        else if current.Some? && current.value > 1 then current.value - 1 else 1;
      if !Exists(rows, target) {
        return Refused(RollbackFailed);
      }
      if current.Some? {
        rows := Put(rows, current.value, Disabled);
      }
      rows := Put(rows, target, Active);
      return Done(target);
    }

    method Halt(version: Version) returns (r: Outcome)
      modifies this
      ensures terminated == old(terminated)
      ensures r == if terminated then Refused(Terminated)
        else if !Exists(old(rows), version) then Refused(NotFound) else Done(version)
      ensures rows == if r.Done? then Put(old(rows), version, Disabled) else old(rows)
      ensures OnlyStatuses(old(rows), rows) && (r.Done? ==> rows[version - 1].status == Disabled)
    {
      if terminated {
        return Refused(Terminated);
      }
      if !Exists(rows, version) {
        return Refused(NotFound);
      }
      rows := Put(rows, version, Disabled);
      return Done(version);
    }

    /** The stop branch of `canary_check`: halt the version, then go back to the last one below it
    that is in full service, if there is one. */
    method StopCanary(version: Version, autoRollback: bool) returns (r: Outcome, back: Option<Version>)
      modifies this
      ensures terminated == old(terminated)
      ensures r == if terminated then Refused(Terminated)
        else if !Exists(old(rows), version) then Refused(NotFound) else Done(version)
      ensures r.Refused? ==> rows == old(rows) && back == None
      ensures r.Done? ==> rows == Stopped(old(rows), version, autoRollback)
      ensures OnlyStatuses(old(rows), rows)
      ensures r.Done? ==>
        back == if autoRollback then NewestActive(Put(old(rows), version, Disabled), version - 1) else None
      ensures back.Some? ==> back.value < version && IsActive(old(rows), back.value)
      ensures r.Done? && autoRollback ==> forall v | IsActive(old(rows), v) && v < version ::
        back.Some? && v <= back.value
    {
      back := None;
      r := Halt(version);
      if r.Done? && autoRollback {
        var prev := NewestActive(rows, version - 1);
        if prev.Some? {
          var _ := Rollback(prev);
          back := prev;
        }
      }
    }
  }

  function Stopped(rows: Rows, v: Version, autoRollback: bool): Rows
    requires Exists(rows, v)
  {
    var halted := Put(rows, v, Disabled);
    var prev := NewestActive(halted, v - 1);
    if autoRollback && prev.Some? then RolledBack(halted, prev.value) else halted
  }
}
