/** How drives end: each cause, told by the fields of the store and of the input, and the state that is
persisted for it. */
module AgentOutcomes {
  import opened Options
  import opened AgentStates
  import opened AgentContext
  import opened AgentMachine
  import opened AgentCalls
  import opened AgentReplay

  /** Some dimension of the budget is used up. */
  predicate LimitReached(c: Config, x: Input) {
    || c.local.spent.steps >= c.run.budget.maxSteps
    || c.local.spent.tokens >= c.run.budget.maxTokens
    || c.local.spent.cost >= c.run.budget.maxCost
    || c.local.spent.toolCalls >= c.run.budget.maxToolCalls
    || x.late
  }

  /** At the head of the loop nothing stands against asking the model. */
  predicate AsksModel(c: Config, x: Input) {
    c.pc.Head? && !LimitReached(c, x) && !x.cancelled && !x.paused
  }

  /** A model call is completed exactly at the head of the loop, within every limit, in time, neither
  cancelled nor paused, and if the model answers. */
  lemma ModelCalledIff(c: Config, e: Event)
    requires InRound(c.pc)
    ensures Step(c, e).ledger.llm == c.ledger.llm +
      if e.Work? && AsksModel(c, e.x) && e.x.answer.Answered? then 1 else 0
  {
    if e.Work? && InTools(c.pc) {
      ToolCallsNoModel(c, e.x);
    }
  }

  lemma ToolCallsNoModel(c: Config, x: Input)
    requires InRound(c.pc) && InTools(c.pc)
    ensures AdvanceTool(c, x).ledger.llm == c.ledger.llm
  {
    match c.pc
    case NextTool(r) =>
      if CurrentDraft(r).arguments.NotObject? {
        var s := c.local.spent;
        var counted := c.(local := c.local.(spent := s.(toolCalls := s.toolCalls + 1)));
        ObserveStores(counted, r, Observation(CurrentDraft(r).name, None, ToolResult(false, None)));
      }
    case Refuse(r, _) => DeliverStores(c, r, REFUSED);
    case Deliver(r, result) => DeliverStores(c, r, result);
    case _ =>
  }

  lemma DeliverStores(c: Config, r: Round, result: ToolResult)
    requires |r.observations| < |r.drafts|
    ensures var d := StepDeliver(c, r, result);
      && d.ledger == c.ledger && d.run == c.run && d.local.spent == c.local.spent
      && d.store == c.store.(calls := c.store.calls[CallOf(r) := Some(result)])
      && (d.pc.NextTool? || d.pc.AddStep? || d.pc == Finish(Failed, None))
  {
    ObserveStores(WriteResult(c, r, result), r, Observation(CurrentDraft(r).name, Some(CallOf(r)), result));
  }

  /** What a call has come to is stored and told to the model under the id it asked with: the result, or the
  failure record. */
  lemma CallIsTold(c: Config, x: Input)
    requires InRound(c.pc) && (c.pc.Refuse? || c.pc.Deliver?)
    ensures var r, d := c.pc.round, Advance(c, x); var draft := CurrentDraft(r);
      var result := if c.pc.Refuse? then ToolResult(false, None) else c.pc.result;
      && d.store.calls == c.store.calls[CallOf(r) := Some(result)]
      && d.local.messages ==
           c.local.messages + [ToolReply(draft.id, Observation(draft.name, Some(CallOf(r)), result))]
  {
    var r, result := c.pc.round, if c.pc.Refuse? then REFUSED else c.pc.result;
    ObserveStores(WriteResult(c, r, result), r, Observation(CurrentDraft(r).name, Some(CallOf(r)), result));
  }

  // ---------- the gates ----------

  /** Nothing before the approval stands against the call. */
  predicate PassesFirst(x: Input) {
    !x.cancelled && x.registered && x.permitted && x.withinRate
  }

  /** Some approval of the call is not given: undecided, rejected or lapsed. */
  predicate Withheld(c: Config, call: CallId) {
    exists a :: a in c.store.approvals && a.call == call && a.status != Approved
  }

  predicate Asked(c: Config, call: CallId) {
    exists a :: a in c.store.approvals && a.call == call
  }

  /** The tool may run as far as approvals go. */
  predicate Licensed(c: Config, call: CallId, x: Input) {
    x.risky ==> x.approvals && Asked(c, call) && !Withheld(c, call)
  }

  lemma FoundIsTheOne(c: Config, call: CallId)
    requires OnePerCall(c.store.approvals)
    ensures FindApproval(c.store.approvals, call).Some? <==> Asked(c, call)
    ensures Asked(c, call) ==> (Withheld(c, call) <==> FindApproval(c.store.approvals, call).value.status != Approved)
  {
    var rows, found := c.store.approvals, FindApproval(c.store.approvals, call);
    if found.Some? {
      var i :| 0 <= i < |rows| && rows[i] == found.value;
      forall a | a in rows && a.call == call ensures a == found.value {
        var j :| 0 <= j < |rows| && rows[j] == a;
        assert i == j;
      }
    }
  }

  /** Every check up to the breaker is passed. */
  predicate PassesAll(c: Config, call: CallId, x: Input) {
    PassesFirst(x) && Licensed(c, call, x) && !x.breakerOpen
  }

  /** The call is cancelled at its gate: before anything else, or just before the tool would run. */
  predicate CancelledAtGate(c: Config, call: CallId, x: Input) {
    x.cancelled || (PassesAll(c, call, x) && ResultOf(c.store, call).None? && x.valid && x.cancelledLate)
  }

  /** An error is recorded: by a first check, the breaker, the size of a stored result or the arguments. */
  predicate RefusedAtGate(c: Config, call: CallId, x: Input) {
    var stored := ResultOf(c.store, call);
    || (!x.cancelled && !(x.registered && x.permitted && x.withinRate))
    || (PassesFirst(x) && Licensed(c, call, x) && x.breakerOpen)
    || (PassesAll(c, call, x) && (if stored.Some? then stored.value.ok && x.tooBig else !x.valid))
  }

  predicate WaitsAtGate(c: Config, call: CallId, x: Input) {
    PassesFirst(x) && x.risky && (!x.approvals || Withheld(c, call))
  }

  /** What the gates decide, in the order in which they stand. */
  lemma GateDecides(c: Config, r: Round, x: Input)
    requires InRound(c.pc) && c.pc == Gate(r) && OnePerCall(c.store.approvals)
    ensures var call, stored := CallOf(r), ResultOf(c.store, CallOf(r)); var pc := StepGate(c, r, x).pc;
      && (pc == Finish(Cancelled, None) <==> CancelledAtGate(c, call, x))
      && (pc == Finish(WaitingApproval, None) <==> WaitsAtGate(c, call, x))
      && (pc == Ask(r) <==> PassesFirst(x) && x.risky && x.approvals && !Asked(c, call))
      && (pc == Refuse(r, false) <==> RefusedAtGate(c, call, x))
      && (pc.Deliver? <==> PassesAll(c, call, x) && stored.Some? && !(stored.value.ok && x.tooBig))
      && (pc.Deliver? ==> pc == Deliver(r, stored.value))
      && (pc.InFn? <==> PassesAll(c, call, x) && stored.None? && x.valid && !x.cancelledLate)
      && (pc.InFn? ==> pc == InFn(r, x.retry, x.risky))
  {
    FoundIsTheOne(c, CallOf(r));
  }

  // ---------- every end ----------

  /** The state under which the drive is about to be recorded, once this step has ended it. */
  predicate EndsAs(c: Config, x: Input, terminal: AgentState)
    requires InRound(c.pc)
  {
    !c.pc.Finish? && Advance(c, x).pc.Finish? && Advance(c, x).pc.terminal == terminal
  }

  /** A limit is reached at the head of the loop, or the model took too long. */
  predicate RunsOut(c: Config, x: Input) {
    c.pc.Head? && (LimitReached(c, x) || (AsksModel(c, x) && x.answer.Answered? && x.slow))
  }

  predicate IsPaused(c: Config, x: Input) {
    c.pc.Head? && !LimitReached(c, x) && !x.cancelled && x.paused
  }

  /** At the head of the loop, by a model or a tool cancelled in flight, or at a gate. */
  predicate IsCancelled(c: Config, x: Input)
    requires InRound(c.pc)
  {
    || (c.pc.Head? && !LimitReached(c, x) && (x.cancelled || (!x.paused && x.answer.ModelCancelled?)))
    || (c.pc.Gate? && CancelledAtGate(c, CallOf(c.pc.round), x))
    || (c.pc.InFn? && x.outcome.FnCancelled?)
  }

  /** A risky tool has come to its gate and there is nobody to ask, an approval that is not given, or one
  that was asked for just now. */
  predicate Waits(c: Config, x: Input)
    requires InRound(c.pc)
  {
    (c.pc.Gate? && WaitsAtGate(c, CallOf(c.pc.round), x)) || c.pc.Ask?
  }

  predicate ToolTimesOut(c: Config, x: Input) {
    c.pc.InFn? && x.outcome.FnTimedOut?
  }

  predicate RowTaken(c: Config) {
    exists r :: r in c.store.steps && r.seqNo == c.local.spent.steps
  }

  predicate Answers(c: Config) {
    c.pc.AddFinal? && !RowTaken(c)
  }

  /** The round's last call asks, as the two rounds before it, for the very same tool calls. */
  predicate RepeatsTwice(c: Config, r: Round) {
    var recent, n, fp := c.local.recent, |c.local.recent|, FingerprintOf(r.drafts);
    |r.observations| + 1 == |r.drafts| && n >= 2 && recent[n - 1] == fp && recent[n - 2] == fp
  }

  /** A call is told its outcome now: its arguments were no object, or its pipeline has ended. */
  predicate IsTold(pc: Pc)
    requires InRound(pc)
  {
    || (pc.NextTool? && CurrentDraft(pc.round).arguments.NotObject?)
    || pc.Refuse? || pc.Deliver?
  }

  /** The model failed, the arguments of a call were no JSON, three rounds in a row asked for the same
  calls, or the row was refused. */
  predicate Fails(c: Config, x: Input)
    requires InRound(c.pc)
  {
    || (AsksModel(c, x) && x.answer.ModelFailed?)
    || (c.pc.NextTool? && CurrentDraft(c.pc.round).arguments.Malformed?)
    || (IsTold(c.pc) && RepeatsTwice(c, c.pc.round))
    || ((c.pc.AddStep? || c.pc.AddFinal?) && RowTaken(c))
  }

  lemma TimedOutIff(c: Config, x: Input)
    requires InRound(c.pc)
    ensures EndsAs(c, x, TimedOut) <==> RunsOut(c, x)
  {
    ToolsEndOtherwise(c, x);
  }

  lemma PausedIff(c: Config, x: Input)
    requires InRound(c.pc)
    ensures EndsAs(c, x, Paused) <==> IsPaused(c, x)
  {
    ToolsEndOtherwise(c, x);
  }

  /** The pipeline of a tool knows no budget, no pause and no answer. */
  lemma ToolsEndOtherwise(c: Config, x: Input)
    requires InRound(c.pc)
    ensures InTools(c.pc) && AdvanceTool(c, x).pc.Finish? ==>
      AdvanceTool(c, x).pc.terminal in {Cancelled, WaitingApproval, Unknown, Failed}
      && AdvanceTool(c, x).pc.answer.None?
  {
    if InTools(c.pc) {
      match c.pc
      case NextTool(r) =>
        var s := c.local.spent;
        var counted := c.(local := c.local.(spent := s.(toolCalls := s.toolCalls + 1)));
        ObserveStores(counted, r, Observation(CurrentDraft(r).name, None, ToolResult(false, None)));
      case Refuse(r, _) => DeliverStores(c, r, REFUSED);
      case Deliver(r, result) => DeliverStores(c, r, result);
      case _ =>
    }
  }

  lemma ToldEndsFailed(c: Config, x: Input)
    requires InRound(c.pc) && (c.pc.NextTool? || c.pc.Refuse? || c.pc.Deliver? || c.pc.StoreResult?)
    ensures AdvanceTool(c, x).pc.Finish? ==> AdvanceTool(c, x).pc == Finish(Failed, None)
  {
    match c.pc
    case NextTool(r) =>
      var s := c.local.spent;
      var counted := c.(local := c.local.(spent := s.(toolCalls := s.toolCalls + 1)));
      ObserveStores(counted, r, Observation(CurrentDraft(r).name, None, ToolResult(false, None)));
    case Refuse(r, _) => DeliverStores(c, r, REFUSED);
    case Deliver(r, result) => DeliverStores(c, r, result);
    case _ =>
  }

  lemma CancelledIff(c: Config, x: Input)
    requires InRound(c.pc) && OnePerCall(c.store.approvals)
    ensures EndsAs(c, x, Cancelled) <==> IsCancelled(c, x)
  {
    if c.pc.Gate? {
      GateDecides(c, c.pc.round, x);
      GateEndsWithoutAnswer(c, c.pc.round, x);
    } else if c.pc.NextTool? || c.pc.Refuse? || c.pc.Deliver? || c.pc.StoreResult? {
      ToldEndsFailed(c, x);
    }
  }

  lemma GateEndsWithoutAnswer(c: Config, r: Round, x: Input)
    requires InRound(c.pc) && c.pc == Gate(r)
    ensures StepGate(c, r, x).pc.Finish? ==> StepGate(c, r, x).pc.answer.None?
  {
  }

  lemma WaitingIff(c: Config, x: Input)
    requires InRound(c.pc) && OnePerCall(c.store.approvals)
    ensures EndsAs(c, x, WaitingApproval) <==> Waits(c, x)
  {
    if c.pc.Gate? {
      GateDecides(c, c.pc.round, x);
      GateEndsWithoutAnswer(c, c.pc.round, x);
    } else if c.pc.NextTool? || c.pc.Refuse? || c.pc.Deliver? || c.pc.StoreResult? {
      ToldEndsFailed(c, x);
    }
  }

  lemma UnknownIff(c: Config, x: Input)
    requires InRound(c.pc)
    ensures EndsAs(c, x, Unknown) <==> ToolTimesOut(c, x)
  {
    if c.pc.NextTool? || c.pc.Refuse? || c.pc.Deliver? || c.pc.StoreResult? {
      ToldEndsFailed(c, x);
    }
  }

  lemma CompletedIff(c: Config, x: Input)
    requires InRound(c.pc)
    ensures EndsAs(c, x, Completed) <==> Answers(c)
  {
    ToolsEndOtherwise(c, x);
    if c.pc.AddFinal? {
      assert SeqTaken(c.store, NextSeq(c)) <==> RowTaken(c);
    }
  }

  lemma LoopIsFound(c: Config, r: Round, o: Observation)
    requires |r.observations| < |r.drafts|
    ensures Observe(c, r, o).pc.Finish? <==> RepeatsTwice(c, r)
  {
  }

  lemma NextToolEndsIff(c: Config, r: Round)
    requires InRound(c.pc) && c.pc == NextTool(r)
    ensures StepNextTool(c, r).pc.Finish? <==>
      CurrentDraft(r).arguments.Malformed? || (CurrentDraft(r).arguments.NotObject? && RepeatsTwice(c, r))
  {
    var s := c.local.spent;
    var counted := c.(local := c.local.(spent := s.(toolCalls := s.toolCalls + 1)));
    LoopIsFound(counted, r, Observation(CurrentDraft(r).name, None, ToolResult(false, None)));
  }

  lemma DeliverEndsIff(c: Config, r: Round, result: ToolResult)
    requires |r.observations| < |r.drafts|
    ensures StepDeliver(c, r, result).pc.Finish? <==> RepeatsTwice(c, r)
  {
    LoopIsFound(WriteResult(c, r, result), r, Observation(CurrentDraft(r).name, Some(CallOf(r)), result));
  }

  lemma ToldEndsIff(c: Config, x: Input)
    requires InRound(c.pc) && (c.pc.NextTool? || c.pc.Refuse? || c.pc.Deliver? || c.pc.StoreResult?)
    ensures AdvanceTool(c, x).pc.Finish? <==>
      (c.pc.NextTool? && CurrentDraft(c.pc.round).arguments.Malformed?)
      || (IsTold(c.pc) && RepeatsTwice(c, c.pc.round))
  {
    match c.pc
    case NextTool(r) => NextToolEndsIff(c, r);
    case Refuse(r, _) => DeliverEndsIff(c, r, REFUSED);
    case Deliver(r, result) => DeliverEndsIff(c, r, result);
    case _ =>
  }

  lemma FailedIff(c: Config, x: Input)
    requires InRound(c.pc)
    ensures EndsAs(c, x, Failed) <==> Fails(c, x)
  {
    if c.pc.NextTool? || c.pc.Refuse? || c.pc.Deliver? || c.pc.StoreResult? {
      ToldEndsFailed(c, x);
      ToldEndsIff(c, x);
    } else if c.pc.Gate? {
      GateNeverFails(c, c.pc.round, x);
    } else if c.pc.AddStep? || c.pc.AddFinal? {
      assert SeqTaken(c.store, NextSeq(c)) <==> RowTaken(c);
    }
  }

  lemma GateNeverFails(c: Config, r: Round, x: Input)
    requires InRound(c.pc) && c.pc == Gate(r)
    ensures StepGate(c, r, x).pc.Finish? ==> StepGate(c, r, x).pc.terminal in {Cancelled, WaitingApproval}
  {
  }

  /** The answer is kept exactly by the end of an answered run, refused row or not. */
  lemma AnswerIff(c: Config, x: Input)
    requires InRound(c.pc) && !c.pc.Finish? && Advance(c, x).pc.Finish?
    ensures Advance(c, x).pc.answer == if c.pc.AddFinal? then Some(c.pc.text) else None
  {
    ToolsEndOtherwise(c, x);
  }

  /** What the drive's last write leaves. */
  lemma EndIsPersisted(c: Config, y: Input)
    requires c.pc.Finish?
    ensures Advance(c, y).pc.Asleep?
    ensures Advance(c, y).store == c.store.(state := c.pc.terminal, answer := c.pc.answer)
  {
  }

  /** The state that a drive ended by this step is recorded under. */
  ghost predicate RecordedRightly(c: Config, x: Input, s: Store)
    requires InRound(c.pc)
  {
    && (s.state == TimedOut <==> RunsOut(c, x))
    && (s.state == Paused <==> IsPaused(c, x))
    && (s.state == Cancelled <==> IsCancelled(c, x))
    && (s.state == WaitingApproval <==> Waits(c, x))
    && (s.state == Unknown <==> ToolTimesOut(c, x))
    && (s.state == Completed <==> Answers(c))
    && (s.state == Failed <==> Fails(c, x))
    && s.answer == if c.pc.AddFinal? then Some(c.pc.text) else None
  }

  predicate EndsNow(c: Config, x: Input)
    requires InRound(c.pc)
  {
    !c.pc.Finish? && Advance(c, x).pc.Finish?
  }

  lemma EndIsRecorded(c: Config, x: Input, y: Input)
    requires InRound(c.pc) && OnePerCall(c.store.approvals) && EndsNow(c, x)
    ensures InRound(Advance(c, x).pc) && Advance(Advance(c, x), y).pc.Asleep?
    ensures RecordedRightly(c, x, Advance(Advance(c, x), y).store)
  {
    StepStaysInRound(c, Work(x));
    TimedOutIff(c, x);
    PausedIff(c, x);
    CancelledIff(c, x);
    WaitingIff(c, x);
    UnknownIff(c, x);
    CompletedIff(c, x);
    FailedIff(c, x);
    AnswerIff(c, x);
    EndIsPersisted(Advance(c, x), y);
  }

  /** In every run, whatever crashed before, a drive ends exactly for one of these causes, and is recorded
  under the state that belongs to it. */
  lemma EveryEndIsRecorded(run: Run, es: seq<Event>, x: Input, y: Input)
    ensures var c := Play(Begin(run), es);
      && (EndsNow(c, x) <==> HasCause(c, x))
      && (EndsNow(c, x) ==> RecordedRightly(c, x, Play(Begin(run), es + [Work(x)] + [Work(y)]).store))
  {
    var c := Play(Begin(run), es);
    ApprovalsGuard(Begin(run), es, CallId("", ""));
    EndsOnlySo(c, x);
    PlayOneMore(Begin(run), es, Work(x));
    PlayOneMore(Begin(run), es + [Work(x)], Work(y));
    if EndsNow(c, x) {
      EndIsRecorded(c, x, y);
    }
  }

  predicate HasCause(c: Config, x: Input)
    requires InRound(c.pc)
  {
    || RunsOut(c, x) || IsPaused(c, x) || IsCancelled(c, x) || Waits(c, x) || ToolTimesOut(c, x)
    || Answers(c) || Fails(c, x)
  }

  /** The states in which a step can end a drive. */
  lemma EndStates(c: Config, x: Input)
    requires InRound(c.pc) && EndsNow(c, x)
    ensures Advance(c, x).pc.terminal in {TimedOut, Paused, Cancelled, WaitingApproval, Unknown, Completed, Failed}
  {
    ToolsEndOtherwise(c, x);
  }

  lemma EndsOnlySo(c: Config, x: Input)
    requires InRound(c.pc) && OnePerCall(c.store.approvals)
    ensures EndsNow(c, x) <==> HasCause(c, x)
  {
    TimedOutIff(c, x);
    PausedIff(c, x);
    CancelledIff(c, x);
    WaitingIff(c, x);
    UnknownIff(c, x);
    CompletedIff(c, x);
    FailedIff(c, x);
    if EndsNow(c, x) {
      EndStates(c, x);
    }
  }

  // ---------- how a run goes on ----------

  /** What is persisted of a run besides its approvals, and how often the model was called. */
  predicate SameRun(c: Config, d: Config) {
    && d.store.state == c.store.state && d.store.answer == c.store.answer && d.store.checkpoint == c.store.checkpoint
    && d.store.steps == c.store.steps && d.store.calls == c.store.calls
    && d.ledger.llm == c.ledger.llm && d.ledger.counts == c.ledger.counts
  }

  /** A completed run is completed for good: no resume, crash, decision or sweep ever changes it again or
  asks a model or a tool. */
  lemma {:induction false} CompletedForGood(c: Config, es: seq<Event>)
    requires c.pc.Asleep? && c.store.state == Completed
    ensures Play(c, es).pc.Asleep? && SameRun(c, Play(c, es))
    decreases |es|
  {
    if es != [] {
      StepStaysInRound(c, es[0]);
      CompletedForGood(Step(c, es[0]), es[1..]);
    }
  }

  /** A run without a checkpoint is recorded as failed by the first drive that resumes it, without an
  answer, and nothing else of it changes; each later resume does the same. */
  lemma NothingToResume(c: Config, x: Input)
    requires c.pc.Asleep? && c.store.state != Completed && c.store.checkpoint.None?
    ensures var d := Play(c, [] + [Event.ResumeRun] + [Work(x)]);
      && d.pc.Asleep? && d.store == c.store.(state := Failed, answer := None)
      && d.ledger.llm == c.ledger.llm && d.ledger.counts == c.ledger.counts
  {
    PlayOneMore(c, [], Event.ResumeRun);
    PlayOneMore(c, [] + [Event.ResumeRun], Work(x));
  }

  /** Any other run is driven on from its checkpoint: RUNNING, at the head of the loop, with the messages
  and the spending that were saved. */
  lemma DrivenOn(c: Config, x: Input)
    requires c.pc.Asleep? && c.store.state != Completed && c.store.checkpoint.Some?
    ensures var d := Play(c, [] + [Event.ResumeRun] + [Work(x)]); var saved := c.store.checkpoint.value;
      && d.pc.Head? && d.store == c.store.(state := Running)
      && d.local.messages == ApplyBudget(c.run.measure, saved.messages) && d.local.spent == saved.spent
      && d.local.recent == []
  {
    PlayOneMore(c, [], Event.ResumeRun);
    PlayOneMore(c, [] + [Event.ResumeRun], Work(x));
  }
}
