/** One agent run as a step machine: app/agent/runtime/runtime.py with the tool pipeline of
app/tool/runtime.py and app/tool/registry.py, between store writes.

Each `Advance` performs at most one store write or one outside call, so a crash may fall
between any two of them. Everything the outside decides - the clock, cancellation, the model,
the gates, the tool - is read from one `Input` per step. `Ledger` counts what happened; no step
reads it. */
module AgentMachine {
  import opened Options
  import opened AgentStates
  import opened AgentContext

  // ---------- what is persisted ----------

  /** Spending against the budget; `cost` in exact reals. */
  datatype Spent = Spent(steps: nat, tokens: nat, cost: real, toolCalls: nat)

  datatype Budget = Budget(maxSteps: int, maxTokens: int, maxCost: real, maxToolCalls: int)

  datatype Checkpoint = Checkpoint(messages: seq<Msg>, spent: Spent)

  datatype ApprovalStatus = Pending | Approved | Rejected | Lapsed

  datatype Approval = Approval(call: CallId, status: ApprovalStatus)

  /** The run row, its steps, its tool calls (None while no result is stored) and its approvals. */
  datatype Store = Store(
    state: AgentState,
    answer: Option<string>,
    checkpoint: Option<Checkpoint>,
    steps: seq<StepRow>,
    calls: map<CallId, Option<ToolResult>>,
    approvals: seq<Approval>)

  // ---------- what a drive holds in memory ----------

  type Fingerprint = multiset<(string, string)>

  datatype Local = Local(
    sm: AgentState,
    trail: seq<AgentState>,
    raised: bool,
    messages: seq<Msg>,
    spent: Spent,
    recent: seq<Fingerprint>)

  /** A round of tool calls: what was asked, what came back so far. */
  datatype Round = Round(drafts: seq<Draft>, observations: seq<Observation>)

  /** Where a drive stands; each constructor names what happens next. */
  datatype Pc =
    | Asleep
    | Start
    | Head
    | Replied(reply: Reply)
    | Planned(drafts: seq<Draft>)
    | Announced(drafts: seq<Draft>)
    | NextTool(round: Round)
    | Gate(round: Round)
    | Ask(round: Round)
    | InFn(round: Round, left: nat, risky: bool)
    | StoreResult(round: Round, data: string)
    | Refuse(round: Round, entered: bool)
    | Deliver(round: Round, result: ToolResult)
    | AddStep(round: Round)
    | SaveStep(round: Round)
    | Back
    | AddFinal(text: string)
    | Finish(terminal: AgentState, answer: Option<string>)

  datatype Reply = Reply(drafts: seq<Draft>, text: string, tokens: nat, cost: real)

  datatype ModelAnswer = Answered(reply: Reply) | ModelCancelled | ModelFailed

  datatype FnOutcome = FnOk(data: string) | FnFailed | FnToolError | FnTimedOut | FnCancelled

  datatype Input = Input(
    late: bool, cancelled: bool, paused: bool,
    answer: ModelAnswer, slow: bool,
    registered: bool, permitted: bool, withinRate: bool,
    risky: bool, approvals: bool, breakerOpen: bool, valid: bool, cancelledLate: bool,
    retry: nat, outcome: FnOutcome, tooBig: bool)

  /** Per call: rounds of execution begun, rounds that ended without a stored result, calls of
  the tool function, and the calls those rounds allow. */
  datatype Count = Count(rounds: nat, lost: nat, entries: nat, allowance: nat)

  datatype Ledger = Ledger(
    drives: nat, llm: nat, counts: map<CallId, Count>,
    dropped: set<nat>, compressed: bool, firstRow: nat)

  /** `base` is what `execute_run` builds first; it is kept in the run row for rebuilding. */
  datatype Run = Run(base: seq<Msg>, budget: Budget, measure: Measure)

  datatype Config = Config(run: Run, store: Store, pc: Pc, local: Local, ledger: Ledger)

  // ---------- small pieces ----------

  predicate Exceeded(b: Budget, s: Spent, late: bool) {
    s.steps >= b.maxSteps || s.tokens >= b.maxTokens || s.cost >= b.maxCost ||
    s.toolCalls >= b.maxToolCalls || late
  }

  /** How often the reply asks for this tool with these arguments, as it wrote them. */
  function Times(drafts: seq<Draft>, call: (string, string)): nat {
    if drafts == [] then 0
    else
      var last := drafts[|drafts| - 1];
      Times(drafts[..|drafts| - 1], call) + if last.name == call.0 && last.raw == call.1 then 1 else 0
  }

  /** The tool calls of one reply, their order forgotten. */
  function FingerprintOf(drafts: seq<Draft>): (fp: Fingerprint)
    ensures |fp| == |drafts|
    ensures forall call :: fp[call] == Times(drafts, call)
  {
    if drafts == [] then multiset{}
    else FingerprintOf(drafts[..|drafts| - 1]) + multiset{(drafts[|drafts| - 1].name, drafts[|drafts| - 1].raw)}
  }

  const LOOP_LENGTH := 3

  /** The deque of at most three newest fingerprints. */
  function Remember(recent: seq<Fingerprint>, fp: Fingerprint): seq<Fingerprint> {
    var all := recent + [fp];
    if |all| > LOOP_LENGTH then all[|all| - LOOP_LENGTH..] else all
  }

  predicate Looping(recent: seq<Fingerprint>) {
    |recent| == LOOP_LENGTH && recent[0] == recent[1] == recent[2]
  }

  /** The newest approval of a call. */
  function FindApproval(approvals: seq<Approval>, call: CallId): (found: Option<Approval>)
    ensures found.Some? ==> found.value in approvals && found.value.call == call
    ensures found.None? ==> forall a | a in approvals :: a.call != call
  {
    if approvals == [] then None
    else
      var last := approvals[|approvals| - 1];
      if last.call == call then Some(last) else FindApproval(approvals[..|approvals| - 1], call)
  }

  function ResultOf(s: Store, call: CallId): Option<ToolResult> {
    if call in s.calls then s.calls[call] else None
  }

  function CountOf(l: Ledger, call: CallId): Count {
    if call in l.counts then l.counts[call] else Count(0, 0, 0, 0)
  }

  /** The call a round is at. */
  function CurrentDraft(r: Round): Draft
    requires |r.observations| < |r.drafts|
  {
    r.drafts[|r.observations|]
  }

  function CallOf(r: Round): CallId
    requires |r.observations| < |r.drafts|
  {
    var d := CurrentDraft(r);
    CallId(d.name, if d.arguments.Object? then d.arguments.canonical else "")
  }

  function NextSeq(c: Config): nat {
    c.local.spent.steps
  }

  /** Two calls of a run are one and the same exactly if tool and arguments are, however they are written. */
  lemma SameCallIff(a: Round, b: Round)
    requires |a.observations| < |a.drafts| && |b.observations| < |b.drafts|
    requires CurrentDraft(a).arguments.Object? && CurrentDraft(b).arguments.Object?
    ensures CallOf(a) == CallOf(b) <==>
      CurrentDraft(a).name == CurrentDraft(b).name && CurrentDraft(a).arguments == CurrentDraft(b).arguments
  {
  }

  predicate SeqTaken(s: Store, n: nat) {
    exists r | r in s.steps :: r.seqNo == n
  }

  /** Move the state machine; a refused move is recorded and changes nothing. */
  function Move(l: Local, target: AgentState): Local {
    if target in Allowed(l.sm) then l.(sm := target, trail := l.trail + [target]) else l.(raised := true)
  }

  // ---------- drives ----------

  const NOTHING_SPENT := Spent(0, 0, 0.0, 0)

  /** A new drive: REQUESTED to PLANNING to RUNNING, and the context budget applied once. */
  function Wake(run: Run, messages: seq<Msg>, spent: Spent): Local {
    var unborn := Local(Requested, [Requested], false, ApplyBudget(run.measure, messages), spent, []);
    Move(Move(unborn, Planning), Running)
  }

  /** `execute_run` with its run row just created and the lock taken. */
  function Begin(run: Run): Config {
    Config(run, Store(Requested, None, None, [], map[], []), Start,
      Wake(run, run.base, NOTHING_SPENT),
      Ledger(1, 0, map[], {}, ApplyBudget(run.measure, run.base) != run.base, 0))
  }

  /** `resume_run`: a completed run is not replayed; without a checkpoint the run is failed. */
  function Resume(c: Config): Config {
    if !c.pc.Asleep? || c.store.state == Completed then c
    else if c.store.checkpoint.None? then
      c.(pc := Finish(Failed, None),
         local := Local(Requested, [Requested], false, [], NOTHING_SPENT, []),
         ledger := c.ledger.(drives := c.ledger.drives + 1, firstRow := |c.store.steps|))
    else
      var cp := c.store.checkpoint.value;
      c.(pc := Start,
         local := Wake(c.run, cp.messages, cp.spent),
         ledger := c.ledger.(drives := c.ledger.drives + 1, firstRow := |c.store.steps|,
           compressed := c.ledger.compressed || ApplyBudget(c.run.measure, cp.messages) != cp.messages))
  }

  /** The call whose execution round is open, if any: begun, and no result stored yet. */
  function OpenCall(pc: Pc): Option<CallId> {
    match pc
    case InFn(r, _, _) => if |r.observations| < |r.drafts| then Some(CallOf(r)) else None
    case StoreResult(r, _) => if |r.observations| < |r.drafts| then Some(CallOf(r)) else None
    case Refuse(r, entered) => if entered && |r.observations| < |r.drafts| then Some(CallOf(r)) else None
    case _ => None
  }

  function Lose(l: Ledger, call: CallId): Ledger {
    l.(counts := l.counts[call := CountOf(l, call).(lost := CountOf(l, call).lost + 1)])
  }

  /** The process dies: only the store is left. */
  function Crash(c: Config): Config {
    var open := OpenCall(c.pc);
    var ledger := if open.Some? && ResultOf(c.store, open.value).None? then Lose(c.ledger, open.value) else c.ledger;
    var ledger' := if c.pc.SaveStep? then ledger.(dropped := ledger.dropped + {NextSeq(c)}) else ledger;
    c.(pc := Asleep, ledger := ledger')
  }

  /** `recover_stale_runs`: a run left mid-way without a checkpoint is failed for good. */
  function Abandon(c: Config): Config {
    if c.pc.Asleep? && c.store.checkpoint.None? && c.store.state in {Planning, Running, WaitingTool}
    then c.(store := c.store.(state := Failed, answer := None)) else c
  }

  /** An approver decides, or is too late; a decision taken stands. */
  function Decide(c: Config, index: nat, approve: bool, expired: bool): Config {
    if index >= |c.store.approvals| || c.store.approvals[index].status != Pending then c
    else
      var status := if expired then Lapsed else if approve then Approved else Rejected;
      c.(store := c.store.(approvals := c.store.approvals[index := c.store.approvals[index].(status := status)]))
  }

  // ---------- the loop ----------

  /** Leave the loop, the machine moved or left where it is. */
  function Leave(c: Config, terminal: AgentState, moves: bool): Config {
    c.(pc := Finish(terminal, None), local := if moves then Move(c.local, terminal) else c.local)
  }

  function StepHead(c: Config, x: Input): Config {
    if Exceeded(c.run.budget, c.local.spent, x.late) then Leave(c, TimedOut, true)
    else if x.cancelled then Leave(c, Cancelled, true)
    else if x.paused then Leave(c, Paused, true)
    else
      match x.answer
      case ModelCancelled => Leave(c, Cancelled, false)
      case ModelFailed => Leave(c, Failed, false)
      case Answered(reply) =>
        var called := c.(ledger := c.ledger.(llm := c.ledger.llm + 1));
        if x.slow then Leave(called, TimedOut, true) else called.(pc := Replied(reply))
  }

  function StepReplied(c: Config, reply: Reply): Config {
    var s := c.local.spent;
    var paid := c.local.(spent := s.(steps := s.steps + 1, tokens := s.tokens + reply.tokens,
      cost := s.cost + reply.cost));
    if reply.drafts != [] then c.(pc := Planned(reply.drafts), local := paid)
    else c.(pc := AddFinal(reply.text), local := Move(Move(paid, Reflecting), Completed))
  }

  function SetCheckpoint(c: Config): Config {
    c.(store := c.store.(checkpoint := Some(Checkpoint(c.local.messages, c.local.spent))))
  }

  function StepAnnounced(c: Config, drafts: seq<Draft>): Config {
    c.(store := c.store.(state := c.local.sm),
       local := c.local.(messages := c.local.messages + [ToolCalls(drafts)]),
       pc := NextTool(Round(drafts, [])))
  }

  function StepNextTool(c: Config, r: Round): Config
    requires |r.observations| < |r.drafts|
  {
    var s := c.local.spent;
    var counted := c.(local := c.local.(spent := s.(toolCalls := s.toolCalls + 1)));
    match CurrentDraft(r).arguments
    case Malformed => Leave(counted, Failed, false)
    case NotObject =>
      Observe(counted, r, Observation(CurrentDraft(r).name, None, ToolResult(false, None)))
    case Object(_) =>
      counted.(
        store := if CallOf(r) in c.store.calls then c.store
                 else c.store.(calls := c.store.calls[CallOf(r) := None]),
        pc := Gate(r))
  }

  /** The checks before a tool runs, in their order. */
  function StepGate(c: Config, r: Round, x: Input): Config
    requires |r.observations| < |r.drafts|
  {
    var call := CallOf(r);
    var found := FindApproval(c.store.approvals, call);
    var cached := ResultOf(c.store, call);
    if x.cancelled then Leave(c, Cancelled, false)
    else if !x.registered || !x.permitted || !x.withinRate then c.(pc := Refuse(r, false))
    else if x.risky && (!x.approvals || (found.Some? && found.value.status != Approved)) then
      Leave(c, WaitingApproval, false)
    else if x.risky && found.None? then c.(pc := Ask(r))
    else if x.breakerOpen then c.(pc := Refuse(r, false))
    else if cached.Some? then
      if cached.value.ok && x.tooBig then c.(pc := Refuse(r, false)) else c.(pc := Deliver(r, cached.value))
    else if !x.valid then c.(pc := Refuse(r, false))
    else if x.cancelledLate then Leave(c, Cancelled, false)
    else
      var n := CountOf(c.ledger, call);
      c.(pc := InFn(r, x.retry, x.risky),
         ledger := c.ledger.(counts := c.ledger.counts[call :=
           Count(n.rounds + 1, n.lost, n.entries + 1, n.allowance + x.retry + 1)]))
  }

  /** `approvals.create`, then the run waits. */
  function StepAsk(c: Config, r: Round): Config
    requires |r.observations| < |r.drafts|
  {
    Leave(c.(store := c.store.(approvals := c.store.approvals + [Approval(CallOf(r), Pending)])),
      WaitingApproval, false)
  }

  /** One call of the tool function ends. */
  function StepFn(c: Config, r: Round, left: nat, risky: bool, x: Input): Config
    requires |r.observations| < |r.drafts|
  {
    var call := CallOf(r);
    match x.outcome
    case FnOk(data) => c.(pc := StoreResult(r, data))
    case FnToolError => c.(pc := Refuse(r, true))
    case FnTimedOut => Leave(c.(ledger := Lose(c.ledger, call)), Unknown, true)
    case FnCancelled => Leave(c.(ledger := Lose(c.ledger, call)), Cancelled, false)
    case FnFailed =>
      if left == 0 then c.(pc := Refuse(r, true))
      else
        var n := CountOf(c.ledger, call);
        c.(pc := InFn(r, left - 1, risky),
           ledger := c.ledger.(counts := c.ledger.counts[call := n.(entries := n.entries + 1)]))
  }

  function WriteResult(c: Config, r: Round, result: ToolResult): Config
    requires |r.observations| < |r.drafts|
  {
    c.(store := c.store.(calls := c.store.calls[CallOf(r) := Some(result)]))
  }

  /** The failure record an error leaves behind. */
  const REFUSED := ToolResult(false, None)

  /** Append an observation; after the last one reflect, and stop a repeating run. */
  function Observe(c: Config, r: Round, o: Observation): Config
    requires |r.observations| < |r.drafts|
  {
    var r' := r.(observations := r.observations + [o]);
    var told := c.local.(messages := c.local.messages + [ToolReply(ReplyId(r.drafts, |r.observations|, o), o)]);
    if |r'.observations| < |r.drafts| then c.(local := told, pc := NextTool(r'))
    else
      var recent := Remember(told.recent, FingerprintOf(r.drafts));
      var reflected := Move(Move(told, Observing), Reflecting).(recent := recent);
      if Looping(recent) then c.(local := reflected, pc := Finish(Failed, None))
      else c.(local := reflected, pc := AddStep(r'))
  }

  function StepAddStep(c: Config, r: Round): Config {
    if SeqTaken(c.store, NextSeq(c)) then Leave(c, Failed, false)
    else
      c.(store := c.store.(steps := c.store.steps + [StepRow(NextSeq(c), r.drafts, r.observations)]),
         pc := SaveStep(r))
  }

  /** The last step of an answered run; the answer is kept even if the row is refused. */
  function StepAddFinal(c: Config, text: string): Config {
    if SeqTaken(c.store, NextSeq(c)) then c.(pc := Finish(Failed, Some(text)))
    else
      c.(store := c.store.(steps := c.store.steps + [StepRow(NextSeq(c), [], [])]),
         pc := Finish(Completed, Some(text)))
  }

  predicate InRound(pc: Pc) {
    match pc
    case NextTool(r) => |r.observations| < |r.drafts|
    case Gate(r) => |r.observations| < |r.drafts|
    case Ask(r) => |r.observations| < |r.drafts|
    case InFn(r, _, _) => |r.observations| < |r.drafts|
    case StoreResult(r, _) => |r.observations| < |r.drafts|
    case Refuse(r, _) => |r.observations| < |r.drafts|
    case Deliver(r, _) => |r.observations| < |r.drafts|
    case Announced(drafts) => drafts != []
    case Planned(drafts) => drafts != []
    case AddStep(r) => r.drafts != [] && |r.observations| == |r.drafts|
    case SaveStep(r) => r.drafts != [] && |r.observations| == |r.drafts|
    case _ => true
  }

  predicate BeforeTools(pc: Pc) {
    pc.Start? || pc.Head? || pc.Replied? || pc.Planned? || pc.Announced?
  }

  predicate InTools(pc: Pc) {
    pc.NextTool? || pc.Gate? || pc.Ask? || pc.InFn? || pc.StoreResult? || pc.Refuse? || pc.Deliver?
  }

  function AdvanceModel(c: Config, x: Input): Config
    requires InRound(c.pc) && BeforeTools(c.pc)
  {
    match c.pc
    case Start => c.(store := c.store.(state := c.local.sm), pc := Head)
    case Head => StepHead(c, x)
    case Replied(reply) => StepReplied(c, reply)
    case Planned(drafts) => SetCheckpoint(c).(pc := Announced(drafts), local := Move(c.local, WaitingTool))
    case Announced(drafts) => StepAnnounced(c, drafts)
  }

  function AdvanceTool(c: Config, x: Input): Config
    requires InRound(c.pc) && InTools(c.pc)
  {
    match c.pc
    case NextTool(r) => StepNextTool(c, r)
    case Gate(r) => StepGate(c, r, x)
    case Ask(r) => StepAsk(c, r)
    case InFn(r, left, risky) => StepFn(c, r, left, risky, x)
    case StoreResult(r, data) =>
      var stored := WriteResult(c, r, ToolResult(true, Some(data)));
      if x.tooBig then stored.(pc := Refuse(r, true)) else stored.(pc := Deliver(r, ToolResult(true, Some(data))))
    case Refuse(r, _) => StepDeliver(c, r, REFUSED)
    case Deliver(r, result) => StepDeliver(c, r, result)
  }

  /** `finalize_tool_call`, then the observation. */
  function StepDeliver(c: Config, r: Round, result: ToolResult): Config
    requires |r.observations| < |r.drafts|
  {
    Observe(WriteResult(c, r, result), r, Observation(CurrentDraft(r).name, Some(CallOf(r)), result))
  }

  function AdvanceSave(c: Config): Config
    requires InRound(c.pc) && !BeforeTools(c.pc) && !InTools(c.pc)
  {
    match c.pc
    case Asleep => c
    case AddStep(r) => StepAddStep(c, r)
    case SaveStep(r) => SetCheckpoint(c).(pc := Back, local := Move(c.local, Running))
    case Back => c.(store := c.store.(state := c.local.sm), pc := Head)
    case AddFinal(text) => StepAddFinal(c, text)
    case Finish(terminal, answer) => c.(store := c.store.(state := terminal, answer := answer), pc := Asleep)
  }

  function Advance(c: Config, x: Input): Config
    requires InRound(c.pc)
  {
    if BeforeTools(c.pc) then AdvanceModel(c, x)
    else if InTools(c.pc) then AdvanceTool(c, x)
    else AdvanceSave(c)
  }

  // ---------- events and runs ----------

  datatype Event =
    | Work(x: Input)
    | Die
    | ResumeRun
    | AbandonRun
    | DecideApproval(index: nat, approve: bool, expired: bool)

  function Step(c: Config, e: Event): Config
    requires InRound(c.pc)
  {
    match e
    case Work(x) => Advance(c, x)
    case Die => Crash(c)
    case ResumeRun => Resume(c)
    case AbandonRun => Abandon(c)
    case DecideApproval(index, approve, expired) => Decide(c, index, approve, expired)
  }

  lemma ObserveStaysInRound(c: Config, r: Round, o: Observation)
    requires |r.observations| < |r.drafts|
    ensures InRound(Observe(c, r, o).pc)
  {
  }

  lemma ToolStaysInRound(c: Config, x: Input)
    requires InRound(c.pc) && InTools(c.pc)
    ensures InRound(AdvanceTool(c, x).pc)
  {
    match c.pc
    case Refuse(r, _) =>
      ObserveStaysInRound(WriteResult(c, r, REFUSED), r, Observation(CurrentDraft(r).name, Some(CallOf(r)), REFUSED));
    case Deliver(r, result) =>
      ObserveStaysInRound(WriteResult(c, r, result), r, Observation(CurrentDraft(r).name, Some(CallOf(r)), result));
    case _ =>
  }

  lemma StepStaysInRound(c: Config, e: Event)
    requires InRound(c.pc)
    ensures InRound(Step(c, e).pc)
  {
    if e.Work? && InTools(c.pc) {
      ToolStaysInRound(c, e.x);
    }
  }

  ghost function Play(c: Config, es: seq<Event>): (r: Config)
    requires InRound(c.pc)
    ensures InRound(r.pc)
    decreases |es|
  {
    if es == [] then c else StepStaysInRound(c, es[0]); Play(Step(c, es[0]), es[1..])
  }

  lemma {:induction false} PlayAppend(c: Config, a: seq<Event>, b: seq<Event>)
    requires InRound(c.pc)
    ensures Play(c, a + b) == Play(Play(c, a), b)
    decreases |a|
  {
    if a == [] {
      assert a + b == b;
    } else {
      StepStaysInRound(c, a[0]);
      assert (a + b)[1..] == a[1..] + b;
      PlayAppend(Step(c, a[0]), a[1..], b);
    }
  }

  lemma PlayOneMore(c: Config, es: seq<Event>, e: Event)
    requires InRound(c.pc)
    ensures Play(c, es + [e]) == Step(Play(c, es), e)
  {
    PlayAppend(c, es, [e]);
    StepStaysInRound(Play(c, es), e);
    assert Play(Step(Play(c, es), e), [e][1..]) == Step(Play(c, es), e);
  }

  /** One drive on a script of inputs, up to its end or to the end of the script. */
  ghost function Drive(c: Config, script: seq<Input>): (r: Config)
    requires InRound(c.pc)
    ensures InRound(r.pc)
    decreases |script|
  {
    if script == [] || c.pc.Asleep? then c
    else StepStaysInRound(c, Work(script[0])); Drive(Advance(c, script[0]), script[1..])
  }
}
