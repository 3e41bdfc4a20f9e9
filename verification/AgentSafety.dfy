/** Safety of an agent run over every interleaving of steps, crashes, resumes and decisions:
legal transitions, bounded model calls, at-most-once tools and approvals. */
module AgentSafety {
  import opened Options
  import opened AgentStates
  import opened AgentContext
  import opened AgentMachine

  // ---------- transitions ----------

  /** The machine state each point of the loop is reached in. */
  predicate InPhase(pc: Pc, sm: AgentState) {
    match pc
    case Asleep => true
    case Start => sm == Running
    case Head => sm == Running
    case Replied(_) => sm == Running
    case Planned(_) => sm == Running
    case Back => sm == Running
    case AddStep(_) => sm == Reflecting
    case SaveStep(_) => sm == Reflecting
    case AddFinal(_) => sm == Completed
    case Finish(terminal, answer) =>
      Near(sm, terminal) || (sm == Completed && terminal == Failed && answer.Some?)
    case _ => sm == WaitingTool
  }

  predicate Moving(c: Config) {
    && InRound(c.pc)
    && (!c.pc.Asleep? ==>
          && !c.local.raised
          && IsWalk(c.local.trail) && c.local.trail[|c.local.trail| - 1] == c.local.sm
          && InPhase(c.pc, c.local.sm))
  }

  lemma MoveExtendsWalk(l: Local, target: AgentState)
    requires !l.raised && IsWalk(l.trail) && l.trail[|l.trail| - 1] == l.sm && target in Allowed(l.sm)
    ensures var l' := Move(l, target);
      && l'.sm == target && !l'.raised && l'.messages == l.messages && l'.spent == l.spent && l'.recent == l.recent
      && IsWalk(l'.trail) && l'.trail[|l'.trail| - 1] == target
  {
  }

  lemma WakeMoves(run: Run, messages: seq<Msg>, spent: Spent)
    ensures var l := Wake(run, messages, spent);
      && !l.raised && IsWalk(l.trail) && l.trail[|l.trail| - 1] == l.sm == Running
      && l.messages == ApplyBudget(run.measure, messages) && l.spent == spent && l.recent == []
  {
    var unborn := Local(Requested, [Requested], false, ApplyBudget(run.measure, messages), spent, []);
    MoveExtendsWalk(unborn, Planning);
    MoveExtendsWalk(Move(unborn, Planning), Running);
  }

  lemma ObserveMoves(c: Config, r: Round, o: Observation)
    requires |r.observations| < |r.drafts| && !c.local.raised && IsWalk(c.local.trail)
    requires c.local.trail[|c.local.trail| - 1] == c.local.sm == WaitingTool
    ensures Moving(Observe(c, r, o))
  {
    var told := c.local.(messages := c.local.messages + [ToolReply(ReplyId(r.drafts, |r.observations|, o), o)]);
    MoveExtendsWalk(told, Observing);
    MoveExtendsWalk(Move(told, Observing), Reflecting);
  }

  lemma LeaveMoves(c: Config, terminal: AgentState, moves: bool)
    requires Moving(c) && !c.pc.Asleep? && terminal in Allowed(c.local.sm)
    ensures Moving(Leave(c, terminal, moves))
  {
    if moves {
      MoveExtendsWalk(c.local, terminal);
    }
  }

  lemma HeadMoves(c: Config, x: Input)
    requires Moving(c) && c.pc.Head?
    ensures Moving(StepHead(c, x))
  {
    if Exceeded(c.run.budget, c.local.spent, x.late) {
      LeaveMoves(c, TimedOut, true);
    } else if x.cancelled {
      LeaveMoves(c, Cancelled, true);
    } else if x.paused {
      LeaveMoves(c, Paused, true);
    } else if x.answer.Answered? && x.slow {
      LeaveMoves(c.(ledger := c.ledger.(llm := c.ledger.llm + 1)), TimedOut, true);
    }
  }

  lemma ReplyMoves(c: Config, reply: Reply)
    requires Moving(c) && c.pc == Replied(reply)
    ensures Moving(StepReplied(c, reply))
  {
    if reply.drafts == [] {
      var s := c.local.spent;
      var paid := c.local.(spent := s.(steps := s.steps + 1, tokens := s.tokens + reply.tokens,
        cost := s.cost + reply.cost));
      MoveExtendsWalk(paid, Reflecting);
      MoveExtendsWalk(Move(paid, Reflecting), Completed);
    }
  }

  lemma ModelMoves(c: Config, x: Input)
    requires Moving(c) && BeforeTools(c.pc)
    ensures Moving(AdvanceModel(c, x))
  {
    match c.pc
    case Start =>
    case Head => HeadMoves(c, x);
    case Replied(reply) => ReplyMoves(c, reply);
    case Planned(_) => MoveExtendsWalk(c.local, WaitingTool);
    case Announced(_) =>
  }

  lemma DeliverMoves(c: Config, r: Round, result: ToolResult)
    requires Moving(c) && InTools(c.pc) && |r.observations| < |r.drafts|
    ensures Moving(StepDeliver(c, r, result))
  {
    ObserveMoves(WriteResult(c, r, result), r, Observation(CurrentDraft(r).name, Some(CallOf(r)), result));
  }

  lemma NextToolMoves(c: Config, r: Round)
    requires Moving(c) && c.pc == NextTool(r)
    ensures Moving(StepNextTool(c, r))
  {
    var s := c.local.spent;
    var counted := c.(local := c.local.(spent := s.(toolCalls := s.toolCalls + 1)));
    match CurrentDraft(r).arguments
    case Malformed => LeaveMoves(counted, Failed, false);
    case NotObject => ObserveMoves(counted, r, Observation(CurrentDraft(r).name, None, ToolResult(false, None)));
    case Object(_) =>
  }

  lemma GateMoves(c: Config, r: Round, x: Input)
    requires Moving(c) && c.pc == Gate(r)
    ensures Moving(StepGate(c, r, x))
  {
  }

  lemma FnMoves(c: Config, r: Round, left: nat, risky: bool, x: Input)
    requires Moving(c) && c.pc == InFn(r, left, risky)
    ensures Moving(StepFn(c, r, left, risky, x))
  {
    if x.outcome.FnTimedOut? {
      LeaveMoves(c.(ledger := Lose(c.ledger, CallOf(r))), Unknown, true);
    }
  }

  lemma ToolMoves(c: Config, x: Input)
    requires Moving(c) && InTools(c.pc)
    ensures Moving(AdvanceTool(c, x))
  {
    match c.pc
    case NextTool(r) => NextToolMoves(c, r);
    case Gate(r) => GateMoves(c, r, x);
    case Ask(r) =>
    case InFn(r, left, risky) => FnMoves(c, r, left, risky, x);
    case StoreResult(_, _) =>
    case Refuse(r, _) => DeliverMoves(c, r, REFUSED);
    case Deliver(r, result) => DeliverMoves(c, r, result);
  }

  lemma SaveMoves(c: Config)
    requires Moving(c) && !BeforeTools(c.pc) && !InTools(c.pc)
    ensures Moving(AdvanceSave(c))
  {
    if c.pc.SaveStep? {
      MoveExtendsWalk(c.local, Running);
    }
  }

  lemma AdvanceMoves(c: Config, x: Input)
    requires Moving(c)
    ensures Moving(Advance(c, x))
  {
    if BeforeTools(c.pc) {
      ModelMoves(c, x);
    } else if InTools(c.pc) {
      ToolMoves(c, x);
    } else {
      SaveMoves(c);
    }
  }

  lemma StepMoves(c: Config, e: Event)
    requires Moving(c)
    ensures Moving(Step(c, e))
  {
    StepStaysInRound(c, e);
    if e.Work? {
      AdvanceMoves(c, e.x);
    } else if e.ResumeRun? && c.store.checkpoint.Some? {
      WakeMoves(c.run, c.store.checkpoint.value.messages, c.store.checkpoint.value.spent);
    }
  }

  /** In every run no transition of the state machine is ever refused, the machine walks allowed
  edges from REQUESTED, and the state a drive is about to persist is the machine's own or one
  allowed edge away, save for an answer whose last step row was refused. */
  lemma {:induction false} TransitionsAreLegal(c: Config, es: seq<Event>)
    requires Moving(c)
    ensures Moving(Play(c, es))
    decreases |es|
  {
    if es != [] {
      StepMoves(c, es[0]);
      TransitionsAreLegal(Step(c, es[0]), es[1..]);
    }
  }

  /** The persisted outcome of an answered run is off the state table exactly when a step row
  of its number was there already. */
  lemma AnswerOffTable(c: Config, x: Input, y: Input)
    requires Moving(c) && c.pc.AddFinal?
    ensures var done := Advance(Advance(c, x), y);
      && done.pc.Asleep? && done.store.answer == Some(c.pc.text)
      && (Near(c.local.sm, done.store.state) <==> !SeqTaken(c.store, NextSeq(c)))
      && (done.store.state == Completed <==> !SeqTaken(c.store, NextSeq(c)))
  {
  }

  lemma BeginMoves(run: Run)
    ensures Moving(Begin(run))
  {
    WakeMoves(run, run.base, NOTHING_SPENT);
  }

  // ---------- bounded work ----------

  function SavedSteps(c: Config): nat {
    if c.store.checkpoint.Some? then c.store.checkpoint.value.spent.steps else 0
  }

  function StepLimit(b: Budget): nat {
    if b.maxSteps < 0 then 0 else b.maxSteps
  }

  /** One while every model reply of the current drive is covered by the checkpoint. */
  function Credit(pc: Pc): nat {
    match pc
    case Asleep => 0
    case Replied(_) => 0
    case Planned(_) => 0
    case AddFinal(_) => 0
    case Finish(_, _) => 0
    case _ => 1
  }

  predicate StepsAt(c: Config) {
    var steps, saved := c.local.spent.steps, SavedSteps(c);
    match c.pc
    case Asleep => true
    case Finish(_, _) => true
    case Replied(_) => steps == saved < StepLimit(c.run.budget)
    case Planned(_) => steps == saved + 1 <= StepLimit(c.run.budget)
    case AddFinal(_) => steps == saved + 1 <= StepLimit(c.run.budget)
    case Start => steps == saved
    case Head => steps == saved
    case _ => steps == saved && c.store.checkpoint.Some?
  }

  predicate Economical(c: Config) {
    && InRound(c.pc)
    && c.ledger.llm + Credit(c.pc) <= SavedSteps(c) + c.ledger.drives
    && SavedSteps(c) <= StepLimit(c.run.budget)
    && StepsAt(c)
  }

  lemma WakeSpends(run: Run, messages: seq<Msg>, spent: Spent)
    ensures Wake(run, messages, spent).spent == spent
    ensures Wake(run, messages, spent).messages == ApplyBudget(run.measure, messages)
  {
  }

  lemma HeadSpends(c: Config, x: Input)
    requires Economical(c) && c.pc.Head?
    ensures var d := StepHead(c, x);
      && Economical(d) && d.run == c.run && d.ledger.drives == c.ledger.drives && SavedSteps(d) == SavedSteps(c)
  {
  }

  lemma ModelSpends(c: Config, x: Input)
    requires Economical(c) && BeforeTools(c.pc)
    ensures Economical(AdvanceModel(c, x))
    ensures AdvanceModel(c, x).run == c.run && AdvanceModel(c, x).ledger.drives == c.ledger.drives
    ensures SavedSteps(c) <= SavedSteps(AdvanceModel(c, x))
  {
    match c.pc
    case Head => HeadSpends(c, x);
    case _ =>
  }

  /** A step of the tool pipeline touches neither the checkpoint nor the step count. */
  ghost predicate SpendsNoStep(c: Config, d: Config) {
    && InRound(d.pc) && (InTools(d.pc) || d.pc.AddStep? || d.pc.Finish?)
    && d.run == c.run && d.store.checkpoint == c.store.checkpoint
    && d.local.spent.steps == c.local.spent.steps
    && d.ledger.drives == c.ledger.drives && d.ledger.llm == c.ledger.llm
  }

  lemma ObserveSpends(c: Config, r: Round, o: Observation)
    requires |r.observations| < |r.drafts|
    ensures SpendsNoStep(c, Observe(c, r, o))
  {
  }

  lemma NextToolSpends(c: Config, r: Round)
    requires InRound(c.pc) && c.pc == NextTool(r)
    ensures SpendsNoStep(c, StepNextTool(c, r))
  {
    var s := c.local.spent;
    var counted := c.(local := c.local.(spent := s.(toolCalls := s.toolCalls + 1)));
    ObserveSpends(counted, r, Observation(CurrentDraft(r).name, None, ToolResult(false, None)));
  }

  lemma GateSpends(c: Config, r: Round, x: Input)
    requires InRound(c.pc) && c.pc == Gate(r)
    ensures SpendsNoStep(c, StepGate(c, r, x))
  {
  }

  lemma FnSpends(c: Config, r: Round, left: nat, risky: bool, x: Input)
    requires InRound(c.pc) && c.pc == InFn(r, left, risky)
    ensures SpendsNoStep(c, StepFn(c, r, left, risky, x))
  {
  }

  lemma PipelineSpends(c: Config, x: Input)
    requires InRound(c.pc) && InTools(c.pc)
    ensures SpendsNoStep(c, AdvanceTool(c, x))
  {
    match c.pc
    case NextTool(r) => NextToolSpends(c, r);
    case Gate(r) => GateSpends(c, r, x);
    case InFn(r, left, risky) => FnSpends(c, r, left, risky, x);
    case Refuse(r, _) =>
      ObserveSpends(WriteResult(c, r, REFUSED), r, Observation(CurrentDraft(r).name, Some(CallOf(r)), REFUSED));
    case Deliver(r, result) =>
      ObserveSpends(WriteResult(c, r, result), r, Observation(CurrentDraft(r).name, Some(CallOf(r)), result));
    case _ =>
  }

  lemma ToolSpends(c: Config, x: Input)
    requires Economical(c) && InTools(c.pc)
    ensures Economical(AdvanceTool(c, x)) && SpendsNoStep(c, AdvanceTool(c, x))
  {
    PipelineSpends(c, x);
    StaysEconomical(c, AdvanceTool(c, x));
  }

  lemma StaysEconomical(c: Config, d: Config)
    requires Economical(c) && InTools(c.pc) && SpendsNoStep(c, d)
    ensures Economical(d)
  {
  }

  lemma SaveSpends(c: Config)
    requires Economical(c) && !BeforeTools(c.pc) && !InTools(c.pc)
    ensures Economical(AdvanceSave(c))
    ensures AdvanceSave(c).run == c.run && AdvanceSave(c).ledger.drives == c.ledger.drives
    ensures SavedSteps(c) <= SavedSteps(AdvanceSave(c))
  {
  }

  lemma StepSpends(c: Config, e: Event)
    requires Economical(c)
    ensures Economical(Step(c, e)) && Step(c, e).run == c.run
    ensures SavedSteps(c) <= SavedSteps(Step(c, e))
    ensures c.ledger.drives <= Step(c, e).ledger.drives <= c.ledger.drives + (if e.ResumeRun? then 1 else 0)
  {
    if e.Work? {
      if BeforeTools(c.pc) {
        ModelSpends(c, e.x);
      } else if InTools(c.pc) {
        ToolSpends(c, e.x);
      } else {
        SaveSpends(c);
      }
    } else if e.ResumeRun? && c.store.checkpoint.Some? {
      WakeSpends(c.run, c.store.checkpoint.value.messages, c.store.checkpoint.value.spent);
    }
  }

  function Resumes(es: seq<Event>): nat {
    if es == [] then 0 else (if es[0].ResumeRun? then 1 else 0) + Resumes(es[1..])
  }

  /** Whatever crashes, the checkpointed step count never decreases nor exceeds the limit, and a
  run driven r times completes at most limit + r model calls. */
  lemma {:induction false} WorkIsBounded(c: Config, es: seq<Event>)
    requires Economical(c)
    ensures var d := Play(c, es);
      && Economical(d) && d.run == c.run
      && SavedSteps(c) <= SavedSteps(d) <= StepLimit(c.run.budget)
      && d.ledger.drives <= c.ledger.drives + Resumes(es)
      && d.ledger.llm <= StepLimit(c.run.budget) + d.ledger.drives
    decreases |es|
  {
    if es != [] {
      StepSpends(c, es[0]);
      StepStaysInRound(c, es[0]);
      WorkIsBounded(Step(c, es[0]), es[1..]);
    }
  }

  lemma BeginSpends(run: Run)
    ensures Economical(Begin(run)) && Begin(run).ledger.drives == 1
  {
    WakeSpends(run, run.base, NOTHING_SPENT);
  }

  // ---------- termination ----------

  /** How many points of the loop are still ahead before the step counter moves again. */
  function Stage(pc: Pc): nat {
    match pc
    case Asleep => 0
    case Finish(_, _) => 1
    case AddFinal(_) => 2
    case Replied(_) => 3
    case Head => 4
    case Back => 5
    case Start => 5
    case SaveStep(_) => 6
    case AddStep(_) => 7
    case Announced(_) => 9
    case Planned(_) => 10
    case _ => 8
  }

  /** Tool calls of the round not yet observed. */
  function Unobserved(pc: Pc): nat {
    match pc
    case NextTool(r) => Left(r)
    case Gate(r) => Left(r)
    case Ask(r) => Left(r)
    case InFn(r, _, _) => Left(r)
    case StoreResult(r, _) => Left(r)
    case Refuse(r, _) => Left(r)
    case Deliver(r, _) => Left(r)
    case _ => 0
  }

  function Left(r: Round): nat {
    if |r.observations| < |r.drafts| then |r.drafts| - |r.observations| else 0
  }

  function Turn(pc: Pc): nat {
    match pc
    case NextTool(_) => 5
    case Gate(_) => 4
    case InFn(_, _, _) => 3
    case StoreResult(_, _) => 2
    case _ => 1
  }

  function RetriesLeft(pc: Pc): nat {
    if pc.InFn? then pc.left else 0
  }

  predicate Smaller(a: Config, b: Config) {
    var x, y := StepLimit(a.run.budget) - a.local.spent.steps, StepLimit(b.run.budget) - b.local.spent.steps;
    || (x < y && 0 <= y)
    || (x == y && Stage(a.pc) < Stage(b.pc))
    || (x == y && Stage(a.pc) == Stage(b.pc) && Unobserved(a.pc) < Unobserved(b.pc))
    || (x == y && Stage(a.pc) == Stage(b.pc) && Unobserved(a.pc) == Unobserved(b.pc) && Turn(a.pc) < Turn(b.pc))
    || (x == y && Stage(a.pc) == Stage(b.pc) && Unobserved(a.pc) == Unobserved(b.pc) && Turn(a.pc) == Turn(b.pc)
        && RetriesLeft(a.pc) < RetriesLeft(b.pc))
  }

  lemma ObserveDescends(c: Config, r: Round, o: Observation)
    requires |r.observations| < |r.drafts|
    ensures var d := Observe(c, r, o);
      && d.run == c.run && d.local.spent == c.local.spent
      && (Stage(d.pc) < 8 || (d.pc.NextTool? && Unobserved(d.pc) < Left(r)))
  {
    ObserveSpendsNothing(c, r, o);
    var d := Observe(c, r, o);
    if d.pc.NextTool? {
      assert d.pc.round == r.(observations := r.observations + [o]);
    }
  }

  lemma ObserveSpendsNothing(c: Config, r: Round, o: Observation)
    requires |r.observations| < |r.drafts|
    ensures var d := Observe(c, r, o);
      && d.run == c.run && d.local.spent == c.local.spent
      && (d.pc.AddStep? || d.pc.Finish? || d.pc == NextTool(r.(observations := r.observations + [o])))
  {
  }

  lemma NextToolDescends(c: Config, r: Round)
    requires InRound(c.pc) && c.pc == NextTool(r)
    ensures StepNextTool(c, r).run == c.run && Smaller(StepNextTool(c, r), c)
  {
    var s := c.local.spent;
    var counted := c.(local := c.local.(spent := s.(toolCalls := s.toolCalls + 1)));
    ObserveDescends(counted, r, Observation(CurrentDraft(r).name, None, ToolResult(false, None)));
  }

  lemma DeliverDescends(c: Config, r: Round, result: ToolResult)
    requires InRound(c.pc) && (c.pc == Deliver(r, result) || (c.pc.Refuse? && c.pc.round == r))
    ensures StepDeliver(c, r, result).run == c.run && Smaller(StepDeliver(c, r, result), c)
  {
    ObserveDescends(WriteResult(c, r, result), r, Observation(CurrentDraft(r).name, Some(CallOf(r)), result));
  }

  lemma GateDescends(c: Config, r: Round, x: Input)
    requires InRound(c.pc) && c.pc == Gate(r)
    ensures StepGate(c, r, x).run == c.run && Smaller(StepGate(c, r, x), c)
  {
  }

  lemma ToolDescends(c: Config, x: Input)
    requires InRound(c.pc) && InTools(c.pc)
    ensures AdvanceTool(c, x).run == c.run && Smaller(AdvanceTool(c, x), c)
  {
    match c.pc
    case NextTool(r) => NextToolDescends(c, r);
    case Gate(r) => GateDescends(c, r, x);
    case Refuse(r, _) => DeliverDescends(c, r, REFUSED);
    case Deliver(r, result) => DeliverDescends(c, r, result);
    case _ =>
  }

  /** Every step of a drive descends lexicographically: steps left, place in the loop, tool calls
  left, place in the tool pipeline, retries left. No drive runs forever. */
  lemma DriveDescends(c: Config, x: Input)
    requires Economical(c) && !c.pc.Asleep?
    ensures Advance(c, x).run == c.run && Smaller(Advance(c, x), c)
  {
    if InTools(c.pc) {
      ToolDescends(c, x);
    }
  }
}
