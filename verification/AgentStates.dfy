/** app/agent/runtime/state.py: the run states, the table of adjacent states and the machine. */
module AgentStates {
  datatype AgentState =
    | Requested | Planning | Running | WaitingTool | Observing | Reflecting | Completed | Failed
    | Retrying | Cancelled | TimedOut | WaitingApproval | Unknown | Paused

  function Allowed(s: AgentState): set<AgentState> {
    match s
    case Requested => {Planning, Cancelled, Failed}
    case Planning => {Running, Retrying, Failed, Cancelled, TimedOut}
    case Running => {WaitingTool, Reflecting, WaitingApproval, TimedOut, Cancelled, Failed, Unknown, Paused}
    case WaitingTool => {Observing, WaitingApproval, Cancelled, TimedOut, Failed, Unknown, Paused}
    case WaitingApproval => {Running, Cancelled, TimedOut, Failed}
    case Observing => {Reflecting, Failed, Cancelled, TimedOut, Unknown, Paused}
    case Reflecting => {Running, Completed, Cancelled, Failed, TimedOut, Paused}
    case Retrying => {Planning, Running, WaitingTool, Failed, Cancelled, TimedOut}
    case Paused => {Running}
    case _ => {}
  }

  predicate IsTerminal(s: AgentState) {
    s == Completed || s == Failed || s == Cancelled || s == TimedOut || s == Unknown
  }

  /** A walk along allowed edges from REQUESTED, listed with its starting point. */
  predicate IsWalk(trail: seq<AgentState>) {
    && trail != [] && trail[0] == Requested
    && forall i | 0 < i < |trail| :: trail[i] in Allowed(trail[i - 1])
  }

  /** A state reached is the state itself or one allowed edge away. */
  predicate Near(s: AgentState, t: AgentState) {
    s == t || t in Allowed(s)
  }

  /** The machine of one drive: its current state and the states it went through. */
  class StateMachine {
    var state: AgentState
    var trail: seq<AgentState>

    ghost predicate Valid()
      reads this
    {
      IsWalk(trail) && trail[|trail| - 1] == state
    }

    constructor ()
      ensures Valid() && state == Requested && trail == [Requested]
    {
      state := Requested;
      trail := [Requested];
    }

    /** False, and no change, where the source raises InvalidStateTransition. */
    method Transition(target: AgentState) returns (ok: bool)
      requires Valid()
      modifies this
      ensures Valid()
      ensures ok == (target in Allowed(old(state)))
      ensures if ok then state == target && trail == old(trail) + [target]
              else state == old(state) && trail == old(trail)
    {
      if target !in Allowed(state) {
        return false;
      }
      trail := trail + [target];
      state := target;
      ok := true;
    }
  }

  /** The terminal states are exactly the states no walk leaves. */
  lemma TerminalStatesAreSinks(s: AgentState)
    ensures IsTerminal(s) <==> Allowed(s) == {}
  {
    match s
    case Requested => assert Planning in Allowed(s);
    case Planning => assert Running in Allowed(s);
    case Running => assert Failed in Allowed(s);
    case WaitingTool => assert Failed in Allowed(s);
    case WaitingApproval => assert Running in Allowed(s);
    case Observing => assert Failed in Allowed(s);
    case Reflecting => assert Running in Allowed(s);
    case Retrying => assert Running in Allowed(s);
    case Paused => assert Running in Allowed(s);
    case _ =>
  }

  /** The states a state can be entered from. */
  function Sources(t: AgentState): set<AgentState> {
    match t
    case Requested => {}
    case Planning => {Requested, Retrying}
    case Running => {Planning, WaitingApproval, Reflecting, Retrying, Paused}
    case WaitingTool => {Running, Retrying}
    case Observing => {WaitingTool}
    case Reflecting => {Running, Observing}
    case Completed => {Reflecting}
    case Retrying => {Planning}
    case WaitingApproval => {Running, WaitingTool}
    case Unknown => {Running, WaitingTool, Observing}
    case Paused => {Running, WaitingTool, Observing, Reflecting}
    case TimedOut => {Planning, Running, WaitingTool, WaitingApproval, Observing, Reflecting, Retrying}
    case Cancelled => {Requested, Planning, Running, WaitingTool, WaitingApproval, Observing, Reflecting, Retrying}
    case Failed => {Requested, Planning, Running, WaitingTool, WaitingApproval, Observing, Reflecting, Retrying}
  }

  /** The table of edges read backwards: only an answer completes a run, only a decision, a finished round
  or a resume sets it running again, and everything unfinished but a pause can fail or be cancelled. */
  lemma EnteredFrom(s: AgentState, t: AgentState)
    ensures t in Allowed(s) <==> s in Sources(t)
  {
    match s
    case _ =>
  }

  /** Once terminal, always the last: a walk visits a terminal state only at its end. */
  lemma WalkEndsAtTerminal(trail: seq<AgentState>, i: nat)
    requires IsWalk(trail) && i < |trail| && IsTerminal(trail[i])
    ensures i == |trail| - 1
  {
    if i + 1 < |trail| {
      assert trail[i + 1] in Allowed(trail[i + 1 - 1]);
      TerminalStatesAreSinks(trail[i]);
    }
  }
}
