/** Runs that do what one would not expect, each from the creation of the run on: a rebuild that differs
from the live messages, an answer refused as a repeated step, a success overwritten by a refusal. */
module AgentWitness {
  import opened Options
  import opened AgentStates
  import opened AgentContext
  import opened AgentMachine
  import opened AgentCalls

  /** The run can come to this point. */
  ghost predicate Reaches(run: Run, c: Config) {
    exists es: seq<Event> :: Play(Begin(run), es) == c
  }

  lemma ReachesNext(run: Run, c: Config, e: Event)
    requires Reaches(run, c) && InRound(c.pc)
    ensures Reaches(run, Step(c, e)) && InRound(Step(c, e).pc)
  {
    var es: seq<Event> :| Play(Begin(run), es) == c;
    PlayOneMore(Begin(run), es, e);
    assert Play(Begin(run), es + [e]) == Step(c, e);
    StepStaysInRound(c, e);
  }

  /** Nothing is late, cancelled or refused, and the model answers this. */
  function Says(drafts: seq<Draft>, text: string): Input {
    Input(false, false, false, Answered(Reply(drafts, text, 0, 0.0)), false,
      true, true, true, false, true, false, true, false, 0, FnOk(text), false)
  }

  /** The budget allows two turns with one tool call each. */
  predicate HasRoom(b: Budget) {
    b.maxSteps >= 2 && b.maxTokens > 0 && b.maxCost > 0.0 && b.maxToolCalls >= 2
  }

  /** Head of the loop, with nothing asked of the budget but this. */
  ghost predicate AtHead(run: Run, c: Config, steps: nat, toolCalls: nat) {
    && Reaches(run, c) && c.run == run && c.pc.Head? && c.local.sm == Running
    && c.local.spent == Spent(steps, 0, 0.0, toolCalls) && |c.local.recent| <= 1
  }

  // ---------- stretches of a drive ----------

  lemma FirstHead(run: Run) returns (c: Config)
    ensures AtHead(run, c, 0, 0) && c.store == Begin(run).store.(state := Running)
    ensures c.local.messages == ApplyBudget(run.measure, run.base) && c.ledger == Begin(run).ledger
    ensures c.local.recent == []
  {
    assert Play(Begin(run), []) == Begin(run);
    ReachesNext(run, Begin(run), Work(Says([], "")));
    c := Step(Begin(run), Work(Says([], "")));
  }

  lemma HeadReplies(run: Run, c: Config, steps: nat, toolCalls: nat, drafts: seq<Draft>, text: string)
    returns (d: Config)
    requires AtHead(run, c, steps, toolCalls) && HasRoom(run.budget) && steps < 2 && toolCalls < 2
    ensures Reaches(run, d) && d.run == run && d.store == c.store
    ensures d.ledger == c.ledger.(llm := c.ledger.llm + 1)
    ensures d.local.spent == Spent(steps + 1, 0, 0.0, toolCalls)
    ensures d.local.messages == c.local.messages && d.local.recent == c.local.recent
    ensures d.pc == if drafts == [] then AddFinal(text) else Planned(drafts)
    ensures drafts != [] ==> d.local.sm == Running
  {
    var x := Work(Says(drafts, text));
    ReachesNext(run, c, x);
    ReachesNext(run, Step(c, x), x);
    d := Step(Step(c, x), x);
  }

  /** From the head of a turn to its first tool call. */
  lemma HeadAsks(run: Run, c: Config, steps: nat, toolCalls: nat, drafts: seq<Draft>) returns (d: Config)
    requires AtHead(run, c, steps, toolCalls) && HasRoom(run.budget) && steps < 2 && toolCalls < 2 && drafts != []
    ensures Reaches(run, d) && d.run == run && d.pc == NextTool(Round(drafts, []))
    ensures d.store.steps == c.store.steps && d.store.calls == c.store.calls && d.store.approvals == c.store.approvals
    ensures d.store.checkpoint == Some(Checkpoint(c.local.messages, Spent(steps + 1, 0, 0.0, toolCalls)))
    ensures d.ledger == c.ledger.(llm := c.ledger.llm + 1)
    ensures d.local.spent == Spent(steps + 1, 0, 0.0, toolCalls)
    ensures d.local.recent == c.local.recent && d.local.sm == WaitingTool && d.store.state == WaitingTool
  {
    var b := HeadReplies(run, c, steps, toolCalls, drafts, "");
    var x := Work(Says([], ""));
    ReachesNext(run, b, x);
    ReachesNext(run, Step(b, x), x);
    d := Step(Step(b, x), x);
  }

  /** A call whose arguments are no object is answered at once; the round's row is stored. */
  lemma RoundIsStored(run: Run, c: Config, draft: Draft) returns (d: Config, row: StepRow)
    requires Reaches(run, c) && c.run == run && c.pc == NextTool(Round([draft], [])) && draft.arguments.NotObject?
    requires |c.local.recent| <= 1 && !SeqTaken(c.store, NextSeq(c)) && c.local.sm == WaitingTool
    ensures Reaches(run, d) && d.run == run && d.pc.SaveStep?
    ensures row.seqNo == NextSeq(c) && row.drafts == [draft] && d.store == c.store.(steps := c.store.steps + [row])
    ensures d.local.spent == c.local.spent.(toolCalls := c.local.spent.toolCalls + 1)
    ensures d.ledger == c.ledger && |d.local.recent| <= |c.local.recent| + 1 && d.local.sm == Reflecting
  {
    var x := Work(Says([], ""));
    ReachesNext(run, c, x);
    var told := Step(c, x);
    assert told.pc.AddStep? && told.pc.round.drafts == [draft];
    ReachesNext(run, told, x);
    d := Step(told, x);
    row := StepRow(NextSeq(c), [draft], told.pc.round.observations);
  }

  /** The process dies and the run is resumed, up to the head of its loop. */
  lemma DiesAndResumes(run: Run, c: Config, cp: Checkpoint) returns (d: Config)
    requires Reaches(run, c) && c.run == run && (c.pc.SaveStep? || c.pc.Finish?) && InRound(c.pc)
    requires c.store.checkpoint == Some(cp) && c.store.state != Completed
    ensures Reaches(run, d) && d.run == run && d.pc.Head? && d.store == c.store.(state := Running)
    ensures d.local.spent == cp.spent && d.local.recent == [] && d.local.sm == Running
    ensures d.local.messages == ApplyBudget(run.measure, cp.messages)
    ensures d.ledger.compressed == (c.ledger.compressed || ApplyBudget(run.measure, cp.messages) != cp.messages)
  {
    ReachesNext(run, c, Die);
    ReachesNext(run, Step(c, Die), Event.ResumeRun);
    var woken := Step(Step(c, Die), Event.ResumeRun);
    ReachesNext(run, woken, Work(Says([], "")));
    d := Step(woken, Work(Says([], "")));
  }

  // ---------- a rebuild that differs ----------

  /** One round of tools from the beginning, its row stored and its checkpoint not yet. */
  lemma FirstRoundStored(run: Run, draft: Draft) returns (c: Config, row: StepRow)
    requires HasRoom(run.budget) && draft.arguments.NotObject?
    ensures Reaches(run, c) && c.run == run && c.pc.SaveStep?
    ensures c.store.state == WaitingTool && c.local.sm == Reflecting
    ensures row.seqNo == 1 && row.drafts == [draft] && c.store.steps == [row]
    ensures c.store.checkpoint == Some(Checkpoint(ApplyBudget(run.measure, run.base), Spent(1, 0, 0.0, 0)))
    ensures c.local.spent == Spent(1, 0, 0.0, 1) && |c.local.recent| <= 1
    ensures c.ledger.compressed == Begin(run).ledger.compressed
  {
    var a := FirstHead(run);
    var b := HeadAsks(run, a, 0, 0, [draft]);
    c, row := RoundIsStored(run, b, draft);
    assert b.store.steps == [];
  }

  /** A crash between the first row and its checkpoint: the next drive, whose context was never folded,
  stands at its loop head without the messages that the stored steps rebuild. */
  lemma RebuildCanDiffer(run: Run, draft: Draft) returns (c: Config)
    requires HasRoom(run.budget) && Fits(run.measure, run.base) && draft.arguments.NotObject?
    ensures Reaches(run, c) && c.run == run && c.pc.Head? && !c.ledger.compressed
    ensures c.local.messages == run.base && |Rebuild(run.base, c.store.steps)| > |run.base|
  {
    BudgetIsIdentityWhenFits(run.measure, run.base);
    var b, row := FirstRoundStored(run, draft);
    c := DiesAndResumes(run, b, Checkpoint(run.base, Spent(1, 0, 0.0, 0)));
    assert [row][..0] == [] && Rebuild(run.base, [row]) == run.base + StepMessages(row);
  }

  // ---------- an answer that is refused ----------

  lemma FirstRoundSaved(run: Run, draft: Draft) returns (c: Config, row: StepRow)
    requires HasRoom(run.budget) && draft.arguments.NotObject?
    ensures AtHead(run, c, 1, 1) && row.seqNo == 1 && c.store.steps == [row] && c.store.state == Running
    ensures c.store.checkpoint.Some? && c.store.checkpoint.value.spent == Spent(1, 0, 0.0, 1)
  {
    var a;
    a, row := FirstRoundStored(run, draft);
    var x := Work(Says([], ""));
    ReachesNext(run, a, x);
    ReachesNext(run, Step(a, x), x);
    c := Step(Step(a, x), x);
  }

  /** The model answers; the answer's row is stored, and the end of the run is about to be. */
  lemma AnswerIsStored(run: Run, c: Config, text: string) returns (d: Config)
    requires AtHead(run, c, 1, 1) && HasRoom(run.budget) && !SeqTaken(c.store, 2)
    ensures Reaches(run, d) && d.run == run && d.pc == Finish(Completed, Some(text))
    ensures d.store == c.store.(steps := c.store.steps + [StepRow(2, [], [])])
  {
    var b := HeadReplies(run, c, 1, 1, [], text);
    ReachesNext(run, b, Work(Says([], "")));
    d := Step(b, Work(Says([], "")));
  }

  lemma AnswerIsLost(run: Run, draft: Draft, lost: string) returns (c: Config)
    requires HasRoom(run.budget) && draft.arguments.NotObject?
    ensures AtHead(run, c, 1, 1) && SeqTaken(c.store, 2)
  {
    var a, row := FirstRoundSaved(run, draft);
    var b := AnswerIsStored(run, a, lost);
    c := DiesAndResumes(run, b, a.store.checkpoint.value);
    assert c.store.steps[1] == StepRow(2, [], []) && c.store.steps[1] in c.store.steps;
  }

  /** A crash between the answer's row and the end of the run: the next drive gets its own answer, its
  row is refused, and the run ends FAILED with that answer. */
  lemma AnswerCanBeRefused(run: Run, draft: Draft, lost: string, text: string) returns (c: Config, d: Config)
    requires HasRoom(run.budget) && draft.arguments.NotObject?
    ensures Reaches(run, c) && c.pc == AddFinal(text) && SeqTaken(c.store, NextSeq(c))
    ensures Reaches(run, d) && d.pc.Asleep? && d.store == c.store.(state := Failed, answer := Some(text))
  {
    var e := AnswerIsLost(run, draft, lost);
    c := HeadReplies(run, e, 1, 1, [], text);
    var x := Work(Says([], ""));
    ReachesNext(run, c, x);
    ReachesNext(run, Step(c, x), x);
    d := Step(Step(c, x), x);
  }

  // ---------- a success that is overwritten ----------

  /** A call comes to its gate. */
  lemma CallComesToGate(run: Run, c: Config, r: Round) returns (d: Config)
    requires Reaches(run, c) && c.run == run && c.pc == NextTool(r) && |r.observations| < |r.drafts|
    requires CurrentDraft(r).arguments.Object?
    ensures Reaches(run, d) && d.run == run && d.pc == Gate(r)
    ensures ResultOf(d.store, CallOf(r)) == ResultOf(c.store, CallOf(r)) && d.store.approvals == c.store.approvals
  {
    ReachesNext(run, c, Work(Says([], "")));
    d := Step(c, Work(Says([], "")));
  }

  /** A call that no gate refuses runs, and its result is stored and told. */
  lemma CallSucceeds(run: Run, c: Config, r: Round, data: string) returns (d: Config, o: Observation)
    requires Reaches(run, c) && c.run == run && c.pc == Gate(r) && |r.observations| + 1 < |r.drafts|
    requires ResultOf(c.store, CallOf(r)).None?
    ensures Reaches(run, d) && d.run == run && d.pc == NextTool(r.(observations := r.observations + [o]))
    ensures ResultOf(d.store, CallOf(r)) == Some(ToolResult(true, Some(data)))
  {
    var x := Work(Says([], data));
    ReachesNext(run, c, x);
    var entered := Step(c, x);
    ReachesNext(run, entered, x);
    var ended := Step(entered, x);
    ReachesNext(run, ended, x);
    var stored := Step(ended, x);
    ReachesNext(run, stored, x);
    d := Step(stored, x);
    o := Observation(CurrentDraft(r).name, Some(CallOf(r)), ToolResult(true, Some(data)));
  }

  /** The same call twice in one reply: the first runs and succeeds, the rate limiter refuses the
  second, and the stored success has become the failure record. */
  lemma SuccessCanBeOverwritten(run: Run, draft: Draft, data: string) returns (c: Config, d: Config)
    requires HasRoom(run.budget) && draft.arguments.Object?
    ensures var call := CallId(draft.name, draft.arguments.canonical);
      && Reaches(run, c) && ResultOf(c.store, call) == Some(ToolResult(true, Some(data)))
      && Reaches(run, d) && ResultOf(d.store, call) == Some(REFUSED)
  {
    var a := FirstHead(run);
    var b := HeadAsks(run, a, 0, 0, [draft, draft]);
    var first := CallComesToGate(run, b, Round([draft, draft], []));
    var told, o := CallSucceeds(run, first, Round([draft, draft], []), data);
    c := CallComesToGate(run, told, Round([draft, draft], [] + [o]));
    d := SecondIsRefused(run, c, data);
  }

  lemma SecondIsRefused(run: Run, c: Config, data: string) returns (d: Config)
    requires Reaches(run, c) && c.pc.Gate? && InRound(c.pc)
    requires ResultOf(c.store, CallOf(c.pc.round)) == Some(ToolResult(true, Some(data)))
    ensures Reaches(run, d) && ResultOf(d.store, CallOf(c.pc.round)) == Some(REFUSED)
  {
    var x := Says([], "").(withinRate := false);
    var es: seq<Event> :| Play(Begin(run), es) == c;
    BeginTallies(run, CallOf(c.pc.round));
    AtMostOnce(Begin(run), es, CallOf(c.pc.round));
    ReplayKeepsSuccess(c, x, x);
    ReachesNext(run, c, Work(x));
    ReachesNext(run, Step(c, Work(x)), Work(x));
    d := Step(Step(c, Work(x)), Work(x));
  }
}
