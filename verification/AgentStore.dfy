/** app/agent/runtime/store.py and app/approval/service.py: the rows of one run, updated in place.
Each method is one short transaction. */
module AgentStore {
  import opened Options
  import opened AgentStates
  import opened AgentContext
  import opened AgentMachine

  class RunStore {
    var state: AgentState
    var answer: Option<string>
    var checkpoint: Option<Checkpoint>
    var steps: seq<StepRow>
    var calls: map<CallId, Option<ToolResult>>

    /** `create_run`. */
    constructor ()
      ensures state == Requested && answer == None && checkpoint == None && steps == [] && calls == map[]
    {
      state, answer, checkpoint, steps, calls := Requested, None, None, [], map[];
    }

    ghost function Abs(approvals: seq<Approval>): Store
      reads this
    {
      Store(state, answer, checkpoint, steps, calls, approvals)
    }

    method SetState(target: AgentState)
      modifies this`state
      ensures state == target
    {
      state := target;
    }

    method SetCheckpoint(cp: Checkpoint)
      modifies this`checkpoint
      ensures checkpoint == Some(cp)
    {
      checkpoint := Some(cp);
    }

    method FinishRun(terminal: AgentState, output: Option<string>)
      modifies this`state, this`answer
      ensures state == terminal && answer == output
    {
      state, answer := terminal, output;
    }

    /** `recover_stale_runs` on a run whose lock has expired. */
    method Abandon() returns (abandoned: bool)
      modifies this`state, this`answer
      ensures abandoned <==> old(checkpoint).None? && old(state) in {Planning, Running, WaitingTool}
      ensures if abandoned then state == Failed && answer == None else state == old(state) && answer == old(answer)
      ensures forall c: Config | c.pc.Asleep? && c.store == old(Abs(c.store.approvals)) ::
        AgentMachine.Abandon(c).store == Abs(c.store.approvals)
    {
      abandoned := checkpoint.None? && state in {Planning, Running, WaitingTool};
      if abandoned {
        FinishRun(Failed, None);
      }
    }

    /** False where the unique (run, seq) constraint refuses the row. */
    method AddStep(row: StepRow) returns (ok: bool)
      modifies this`steps
      ensures ok <==> forall r | r in old(steps) :: r.seqNo != row.seqNo
      ensures steps == if ok then old(steps) + [row] else old(steps)
    {
      for i := 0 to |steps|
        invariant forall k | 0 <= k < i :: steps[k].seqNo != row.seqNo
      {
        if steps[i].seqNo == row.seqNo {
          assert steps[i] in steps;
          return false;
        }
      }
      steps := steps + [row];
      ok := true;
    }

    /** The stored result of a call; None while there is no row or no result. */
    method Get(id: CallId) returns (result: Option<ToolResult>)
      ensures result == ResultOf(Abs([]), id)
    {
      result := if id in calls then calls[id] else None;
    }

    method InsertToolCall(id: CallId)
      modifies this`calls
      ensures calls == if id in old(calls) then old(calls) else old(calls)[id := None]
    {
      if id !in calls {
        calls := calls[id := None];
      }
    }

    /** `set` and `finalize_tool_call`, on a row that exists. */
    method PutResult(id: CallId, result: ToolResult)
      modifies this`calls
      ensures calls == old(calls)[id := Some(result)]
    {
      calls := calls[id := Some(result)];
    }
  }

  class ApprovalService {
    var approvals: seq<Approval>

    constructor ()
      ensures approvals == []
    {
      approvals := [];
    }

    /** The newest approval of a call. */
    method FindForCall(call: CallId) returns (found: Option<Approval>)
      ensures found == FindApproval(approvals, call)
    {
      assert approvals[..|approvals|] == approvals;
      for k := |approvals| downto 0
        invariant FindApproval(approvals, call) == FindApproval(approvals[..k], call)
      {
        assert approvals[..k + 1][..k] == approvals[..k];
        if approvals[k].call == call {
          return Some(approvals[k]);
        }
      }
      return None;
    }

    method Create(call: CallId)
      modifies this
      ensures approvals == old(approvals) + [Approval(call, Pending)]
    {
      approvals := approvals + [Approval(call, Pending)];
    }

    /** The status after deciding; None where there is no such approval. */
    method Decide(index: nat, approve: bool, expired: bool) returns (status: Option<ApprovalStatus>)
      modifies this
      ensures |approvals| == |old(approvals)|
      ensures forall k | 0 <= k < |approvals| && k != index :: approvals[k] == old(approvals)[k]
      ensures index >= |old(approvals)| ==> status == None
      ensures index < |approvals| ==>
        var before := old(approvals)[index];
        && status == Some(approvals[index].status) && approvals[index].call == before.call
        && (before.status != Pending ==> approvals[index] == before)
        && (before.status == Pending ==>
              approvals[index].status == if expired then Lapsed else if approve then Approved else Rejected)
      ensures forall c: Config | c.store.approvals == old(approvals) ::
        AgentMachine.Decide(c, index, approve, expired).store.approvals == approvals
    {
      if index >= |approvals| {
        return None;
      }
      var row := approvals[index];
      if row.status != Pending {
        return Some(row.status);
      }
      var decided := if expired then Lapsed else if approve then Approved else Rejected;
      approvals := approvals[index := row.(status := decided)];
      status := Some(decided);
    }
  }
}
