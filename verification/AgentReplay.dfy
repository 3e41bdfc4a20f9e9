/** The persisted steps of a run: their numbers, what they rebuild, and repeated steps. */
module AgentReplay {
  import opened Options
  import opened AgentStates
  import opened AgentContext
  import opened AgentMachine
  import opened AgentSafety

  // ---------- step numbers ----------

  predicate Increasing(rows: seq<StepRow>) {
    forall i, j | 0 <= i < j < |rows| :: rows[i].seqNo < rows[j].seqNo
  }

  /** While its own checkpoint is the newest, a drive has no row numbered above it. */
  predicate OwnCheckpoint(pc: Pc) {
    pc.Announced? || InTools(pc) || pc.AddStep? || pc.SaveStep? || pc.Back?
  }

  /** Rows are stored in number order; none lies more than one past the checkpoint, and one that
  does is the answer of a drive whose end was never recorded. */
  predicate Numbered(c: Config) {
    && Increasing(c.store.steps)
    && forall r | r in c.store.steps ::
         && r.seqNo <= SavedSteps(c) + 1
         && (r.seqNo == SavedSteps(c) + 1 ==> r.drafts == [] && r.observations == [] && !OwnCheckpoint(c.pc))
         && (c.pc.Announced? || InTools(c.pc) || c.pc.AddStep? ==>
               r.seqNo == SavedSteps(c) ==> r.drafts == [] && r.observations == [])
  }

  lemma ObserveStores(c: Config, r: Round, o: Observation)
    requires |r.observations| < |r.drafts|
    ensures var d := Observe(c, r, o);
      && d.store == c.store && d.ledger == c.ledger && d.run == c.run && d.local.spent == c.local.spent
      && (d.pc == NextTool(r.(observations := r.observations + [o]))
          || d.pc == AddStep(r.(observations := r.observations + [o])) || d.pc == Finish(Failed, None))
      && (d.pc.NextTool? <==> |r.observations| + 1 < |r.drafts|)
      && d.local.messages == c.local.messages + [ToolReply(ReplyId(r.drafts, |r.observations|, o), o)]
      && (d.pc.NextTool? ==> d.local.recent == c.local.recent)
      && (!d.pc.NextTool? ==> d.local.recent == Remember(c.local.recent, FingerprintOf(r.drafts)))
      && (d.pc.AddStep? ==> !Looping(d.local.recent))
  {
  }

  /** The tool pipeline writes no step, no checkpoint and nothing the ledger keeps about steps. */
  ghost predicate SameSteps(c: Config, d: Config) {
    && d.run == c.run && d.store.steps == c.store.steps && d.store.checkpoint == c.store.checkpoint
    && d.ledger.dropped == c.ledger.dropped && d.ledger.compressed == c.ledger.compressed
    && d.ledger.firstRow == c.ledger.firstRow
  }

  /** What one pipeline step does to the round: nothing, or one more observation and its message. */
  ghost predicate Advances(c: Config, r: Round, d: Config) {
    || (d.pc.Finish? && d.store.steps == c.store.steps)
    || (InTools(d.pc) && d.pc.round == r && d.local.messages == c.local.messages && d.local.recent == c.local.recent)
    || exists o :: Observed(c, r, o, d)
  }

  predicate Observed(c: Config, r: Round, o: Observation, d: Config) {
    && |r.observations| < |r.drafts|
    && (d.pc == NextTool(r.(observations := r.observations + [o]))
      || d.pc == AddStep(r.(observations := r.observations + [o])))
    && d.local.messages == c.local.messages + [ToolReply(ReplyId(r.drafts, |r.observations|, o), o)]
    && (d.pc.NextTool? ==> d.local.recent == c.local.recent)
    && (d.pc.AddStep? ==>
      d.local.recent == Remember(c.local.recent, FingerprintOf(r.drafts)) && !Looping(d.local.recent))
  }

  lemma NextToolAdvances(c: Config, r: Round)
    requires InRound(c.pc) && c.pc == NextTool(r)
    ensures SameSteps(c, StepNextTool(c, r)) && Advances(c, r, StepNextTool(c, r))
  {
    var s := c.local.spent;
    var counted := c.(local := c.local.(spent := s.(toolCalls := s.toolCalls + 1)));
    var o := Observation(CurrentDraft(r).name, None, ToolResult(false, None));
    ObserveStores(counted, r, o);
    if CurrentDraft(r).arguments.NotObject? && !StepNextTool(c, r).pc.Finish? {
      assert Observed(c, r, o, StepNextTool(c, r));
    }
  }

  lemma DeliverAdvances(c: Config, r: Round, result: ToolResult)
    requires InRound(c.pc) && InTools(c.pc) && c.pc.round == r
    ensures SameSteps(c, StepDeliver(c, r, result)) && Advances(c, r, StepDeliver(c, r, result))
  {
    var o := Observation(CurrentDraft(r).name, Some(CallOf(r)), result);
    ObserveStores(WriteResult(c, r, result), r, o);
    if !StepDeliver(c, r, result).pc.Finish? {
      assert Observed(c, r, o, StepDeliver(c, r, result));
    }
  }

  lemma ToolAdvances(c: Config, x: Input)
    requires InRound(c.pc) && InTools(c.pc)
    ensures SameSteps(c, AdvanceTool(c, x)) && Advances(c, c.pc.round, AdvanceTool(c, x))
  {
    match c.pc
    case NextTool(r) => NextToolAdvances(c, r);
    case Refuse(r, _) => DeliverAdvances(c, r, REFUSED);
    case Deliver(r, result) => DeliverAdvances(c, r, result);
    case _ =>
  }

  /** Before the round's last tool call is told, a row may still carry the checkpoint's number. */
  predicate AwaitsRow(pc: Pc) {
    pc.Announced? || InTools(pc) || pc.AddStep?
  }

  /** No row is added, and the checkpoint moves on by the one step it now covers, or not at all. */
  predicate NumbersEffect(c: Config, d: Config) {
    && d.store.steps == c.store.steps
    && (if c.pc.Planned? then SavedSteps(d) == SavedSteps(c) + 1 && d.pc.Announced?
        else SavedSteps(d) == SavedSteps(c))
    && (!c.pc.Planned? ==> (OwnCheckpoint(d.pc) ==> OwnCheckpoint(c.pc)) && (AwaitsRow(d.pc) ==> AwaitsRow(c.pc)))
  }

  lemma StaysNumbered(c: Config, d: Config)
    requires Numbered(c) && NumbersEffect(c, d)
    ensures Numbered(d)
  {
  }

  lemma ModelNumbers(c: Config, x: Input)
    requires Economical(c) && Numbered(c) && BeforeTools(c.pc)
    ensures Numbered(AdvanceModel(c, x)) && AdvanceModel(c, x).store.steps == c.store.steps
  {
    ModelHasNumbersEffect(c, x);
    StaysNumbered(c, AdvanceModel(c, x));
  }

  lemma ModelHasNumbersEffect(c: Config, x: Input)
    requires Economical(c) && BeforeTools(c.pc)
    ensures NumbersEffect(c, AdvanceModel(c, x))
  {
  }

  /** A row is stored only under a number above all others. */
  lemma AddNumbers(c: Config)
    requires Economical(c) && Numbered(c) && (c.pc.AddStep? || c.pc.AddFinal?)
    ensures Numbered(AdvanceSave(c))
  {
    var d := AdvanceSave(c);
    if |d.store.steps| > |c.store.steps| {
      forall r | r in c.store.steps ensures r.seqNo < NextSeq(c) {
        assert r.seqNo != NextSeq(c);
      }
    }
  }

  lemma SaveNumbers(c: Config)
    requires Economical(c) && Numbered(c) && !BeforeTools(c.pc) && !InTools(c.pc)
    ensures Numbered(AdvanceSave(c))
  {
    if c.pc.AddStep? || c.pc.AddFinal? {
      AddNumbers(c);
    }
  }

  lemma ToolNumbers(c: Config, x: Input)
    requires Economical(c) && Numbered(c) && InTools(c.pc)
    ensures Numbered(AdvanceTool(c, x))
  {
    ToolAdvances(c, x);
    StaysNumbered(c, AdvanceTool(c, x));
  }

  lemma RestNumbers(c: Config, e: Event)
    requires InRound(c.pc) && Numbered(c) && !e.Work?
    ensures Numbered(Step(c, e))
  {
    if !c.pc.Planned? {
      StaysNumbered(c, Step(c, e));
    }
  }

  lemma StepNumbers(c: Config, e: Event)
    requires Economical(c) && Numbered(c)
    ensures Numbered(Step(c, e))
  {
    if !e.Work? {
      RestNumbers(c, e);
    } else if BeforeTools(c.pc) {
      ModelNumbers(c, e.x);
    } else if InTools(c.pc) {
      ToolNumbers(c, e.x);
    } else {
      SaveNumbers(c);
    }
  }

  /** In every run step rows keep increasing numbers, whatever crashed in between. */
  lemma {:induction false} StepsAreNumbered(c: Config, es: seq<Event>)
    requires Economical(c) && Numbered(c)
    ensures Economical(Play(c, es)) && Numbered(Play(c, es))
    decreases |es|
  {
    if es != [] {
      StepNumbers(c, es[0]);
      StepSpends(c, es[0]);
      StepsAreNumbered(Step(c, es[0]), es[1..]);
    }
  }

  lemma LastIsGreatest(rows: seq<StepRow>, r: StepRow)
    requires Increasing(rows) && r in rows
    ensures r == rows[|rows| - 1] || r.seqNo < rows[|rows| - 1].seqNo
  {
    var i :| 0 <= i < |rows| && rows[i] == r;
  }

  /** A step row is refused exactly when an earlier drive's answer row took its number: the
  newest row is an answer numbered like the step about to be stored. */
  lemma RefusedOnlyAfterLostAnswer(c: Config)
    requires Economical(c) && Numbered(c) && (c.pc.AddStep? || c.pc.AddFinal?)
    ensures SeqTaken(c.store, NextSeq(c)) <==>
      c.store.steps != [] && c.store.steps[|c.store.steps| - 1] == StepRow(NextSeq(c), [], [])
  {
    var rows := c.store.steps;
    if SeqTaken(c.store, NextSeq(c)) {
      var r :| r in rows && r.seqNo == NextSeq(c);
      assert rows[|rows| - 1] in rows;
      LastIsGreatest(rows, r);
    }
  }

  /** The turn goes on, and has not come to storing its row yet. */
  ghost predicate WithinTurn(c: Config, es: seq<Event>)
    requires InRound(c.pc)
    decreases |es|
  {
    es == [] || (!c.pc.AddStep? && !c.pc.AddFinal? && IsSingleDrive(es[0]) &&
      (StepStaysInRound(c, es[0]); WithinTurn(Step(c, es[0]), es[1..])))
  }

  /** Where a turn stands whose row will have this number, the stored rows being these. */
  predicate ComesTo(c: Config, rows: seq<StepRow>, n: nat) {
    && c.store.steps == rows
    && if c.pc.Start? || c.pc.Head? || c.pc.Replied? then c.local.spent.steps + 1 == n
       else if c.pc.Asleep? || c.pc.Finish? then true
       else !c.pc.SaveStep? && !c.pc.Back? && c.local.spent.steps == n
  }

  lemma ToolComesTo(c: Config, x: Input, rows: seq<StepRow>, n: nat)
    requires Economical(c) && InTools(c.pc) && ComesTo(c, rows, n)
    ensures ComesTo(AdvanceTool(c, x), rows, n)
  {
    ToolAdvances(c, x);
    PipelineSpends(c, x);
  }

  lemma StepComesTo(c: Config, e: Event, rows: seq<StepRow>, n: nat)
    requires Economical(c) && ComesTo(c, rows, n) && IsSingleDrive(e) && !c.pc.AddStep? && !c.pc.AddFinal?
    ensures ComesTo(Step(c, e), rows, n)
  {
    if e.Work? && InTools(c.pc) {
      ToolComesTo(c, e.x, rows, n);
    }
  }

  lemma {:induction false} TurnComesTo(c: Config, es: seq<Event>, rows: seq<StepRow>, n: nat)
    requires Economical(c) && ComesTo(c, rows, n) && WithinTurn(c, es)
    ensures ComesTo(Play(c, es), rows, n)
    decreases |es|
  {
    if es != [] {
      StepComesTo(c, es[0], rows, n);
      StepSpends(c, es[0]);
      TurnComesTo(Step(c, es[0]), es[1..], rows, n);
    }
  }

  /** Whether the coming turn will be allowed to store its row can be told when it begins, and whatever
  the model and the tools answer: it is refused exactly if a stored row has the number after the
  checkpoint's. */
  lemma ComingRowRefusedIff(c: Config, es: seq<Event>)
    requires Economical(c) && (c.pc.Start? || c.pc.Head?) && WithinTurn(c, es)
    ensures var d := Play(c, es);
      d.pc.AddStep? || d.pc.AddFinal? ==> (SeqTaken(d.store, NextSeq(d)) <==> SeqTaken(c.store, SavedSteps(c) + 1))
  {
    TurnComesTo(c, es, c.store.steps, SavedSteps(c) + 1);
  }

  /** And before the run is resumed at all, by the store that the crash has left. */
  lemma ResumedRowRefusedIff(c: Config, es: seq<Event>)
    requires Economical(c) && c.pc.Asleep? && c.store.state != Completed && c.store.checkpoint.Some?
    requires WithinTurn(Resume(c), es)
    ensures var d := Play(Resume(c), es);
      d.pc.AddStep? || d.pc.AddFinal? ==> (SeqTaken(d.store, NextSeq(d)) <==> SeqTaken(c.store, SavedSteps(c) + 1))
  {
    StepSpends(c, Event.ResumeRun);
    WakeSpends(c.run, c.store.checkpoint.value.messages, c.store.checkpoint.value.spent);
    ComingRowRefusedIff(Resume(c), es);
  }

  // ---------- rebuilding the conversation ----------

  /** The rows whose own checkpoint was not lost to a crash. */
  function Kept(rows: seq<StepRow>, dropped: set<nat>): (kept: seq<StepRow>)
    ensures forall r | r in kept :: r in rows
  {
    if rows == [] then []
    else
      var last := rows[|rows| - 1];
      var earlier := Kept(rows[..|rows| - 1], dropped);
      if last.seqNo in dropped then earlier else earlier + [last]
  }

  lemma {:induction false} DropAnother(rows: seq<StepRow>, dropped: set<nat>, n: nat)
    requires forall r | r in rows :: r.seqNo != n
    ensures Kept(rows, dropped + {n}) == Kept(rows, dropped)
  {
    if rows != [] {
      assert forall r | r in rows[..|rows| - 1] :: r in rows;
      assert rows[|rows| - 1] in rows;
      DropAnother(rows[..|rows| - 1], dropped, n);
    }
  }

  lemma {:induction false} DropNothing(rows: seq<StepRow>)
    ensures Kept(rows, {}) == rows
  {
    if rows != [] {
      DropNothing(rows[..|rows| - 1]);
    }
  }

  /** What the kept rows rebuild. */
  function Story(c: Config): seq<Msg> {
    Rebuild(c.run.base, Kept(c.store.steps, c.ledger.dropped))
  }

  /** The story, then the round in progress. */
  function StoryInRound(c: Config, r: Round): seq<Msg> {
    Story(c) + [ToolCalls(r.drafts)] + Replies(r.drafts, r.observations)
  }

  /** A live drive's messages, point by point. */
  predicate MessagesAt(c: Config) {
    if c.pc.Asleep? || c.pc.Finish? then true
    else if InTools(c.pc) || c.pc.AddStep? then c.local.messages == StoryInRound(c, c.pc.round)
    else c.local.messages == Story(c)
  }

  /** What the checkpoint should hold: the story, without a row it does not cover yet. */
  predicate CheckpointAt(c: Config) {
    c.store.checkpoint.Some? ==>
      var rows := c.store.steps;
      var covered := if c.pc.SaveStep? && rows != [] then rows[..|rows| - 1] else rows;
      c.store.checkpoint.value.messages == Rebuild(c.run.base, Kept(covered, c.ledger.dropped))
  }

  /** The row just stored, at the one point where the checkpoint does not cover it. */
  predicate NewestAt(c: Config) {
    c.pc.SaveStep? ==>
      var rows := c.store.steps;
      && rows != [] && rows[|rows| - 1].seqNo == NextSeq(c) && rows[|rows| - 1].drafts != []
  }

  predicate DroppedAreSteps(c: Config) {
    forall n | n in c.ledger.dropped :: exists r :: r in c.store.steps && r.seqNo == n && r.drafts != []
  }

  predicate Retold(c: Config) {
    && Economical(c) && Numbered(c)
    && NewestAt(c) && DroppedAreSteps(c)
    && (!c.ledger.compressed ==> MessagesAt(c) && CheckpointAt(c))
  }

  /** What a step outside the tool pipeline and without a step row changes. */
  ghost predicate ModelEffect(c: Config, d: Config) {
    && SameStory(c, d)
    && d.store.checkpoint == (if c.pc.Planned? then Some(Checkpoint(c.local.messages, c.local.spent))
      else c.store.checkpoint)
    && d.local.messages == (if c.pc.Announced? then c.local.messages + [ToolCalls(c.pc.drafts)] else c.local.messages)
    && (if c.pc.Announced? then d.pc == NextTool(Round(c.pc.drafts, []))
        else !InTools(d.pc) && !d.pc.AddStep? && !d.pc.SaveStep?)
  }

  ghost predicate SameStory(c: Config, d: Config) {
    && d.run == c.run && d.store.steps == c.store.steps
    && d.ledger.dropped == c.ledger.dropped && d.ledger.compressed == c.ledger.compressed
  }

  lemma ModelHasEffect(c: Config, x: Input)
    requires InRound(c.pc) && BeforeTools(c.pc)
    ensures ModelEffect(c, AdvanceModel(c, x))
  {
  }

  lemma EffectKeepsMessages(c: Config, d: Config)
    requires InRound(c.pc) && BeforeTools(c.pc) && ModelEffect(c, d)
    requires MessagesAt(c) && CheckpointAt(c)
    ensures MessagesAt(d) && CheckpointAt(d)
  {
    assert Story(d) == Story(c);
    if c.pc.Announced? {
      assert StoryInRound(d, Round(c.pc.drafts, [])) == Story(c) + [ToolCalls(c.pc.drafts)];
    }
  }

  lemma EffectRetells(c: Config, d: Config)
    requires Retold(c) && BeforeTools(c.pc) && ModelEffect(c, d) && Economical(d) && Numbered(d)
    ensures Retold(d)
  {
    if !c.ledger.compressed {
      EffectKeepsMessages(c, d);
    }
  }

  lemma ModelRetells(c: Config, x: Input)
    requires Retold(c) && BeforeTools(c.pc)
    ensures Retold(AdvanceModel(c, x))
  {
    ModelNumbers(c, x);
    ModelSpends(c, x);
    ModelHasEffect(c, x);
    EffectRetells(c, AdvanceModel(c, x));
  }

  lemma ObservedRetells(c: Config, r: Round, o: Observation, d: Config)
    requires Observed(c, r, o, d) && SameSteps(c, d)
    requires c.local.messages == StoryInRound(c, r)
    ensures d.local.messages == StoryInRound(d, r.(observations := r.observations + [o]))
  {
    assert (r.observations + [o])[..|r.observations|] == r.observations;
  }

  lemma PipelineRetells(c: Config, d: Config)
    requires Retold(c) && InTools(c.pc) && Economical(d) && Numbered(d)
    requires SameSteps(c, d) && Advances(c, c.pc.round, d)
    ensures Retold(d)
  {
    assert Story(d) == Story(c);
    if !c.ledger.compressed {
      if o :| Observed(c, c.pc.round, o, d) {
        ObservedRetells(c, c.pc.round, o, d);
      }
    }
  }

  lemma ToolRetells(c: Config, x: Input)
    requires Retold(c) && InTools(c.pc)
    ensures Retold(AdvanceTool(c, x))
  {
    ToolAdvances(c, x);
    ToolSpends(c, x);
    StepNumbers(c, Work(x));
    PipelineRetells(c, AdvanceTool(c, x));
  }

  /** Storing a row adds its messages to the story. */
  lemma StoredRowExtendsStory(c: Config, row: StepRow)
    requires Increasing(c.store.steps + [row]) && DroppedAreSteps(c)
    ensures Rebuild(c.run.base, Kept(c.store.steps + [row], c.ledger.dropped)) == Story(c) + StepMessages(row)
  {
    var rows := c.store.steps + [row];
    assert rows[..|rows| - 1] == c.store.steps;
    forall r | r in c.store.steps ensures r.seqNo != row.seqNo {
      var i :| 0 <= i < |c.store.steps| && c.store.steps[i] == r;
      assert rows[i].seqNo < rows[|c.store.steps|].seqNo;
    }
    var kept := Kept(c.store.steps, c.ledger.dropped);
    assert (kept + [row])[..|kept|] == kept;
  }

  /** What storing a step row changes, if the store takes it. */
  ghost predicate AddEffect(c: Config, row: StepRow, d: Config) {
    && d.run == c.run && d.local.messages == c.local.messages && d.local.spent == c.local.spent
    && d.store.checkpoint == c.store.checkpoint
    && d.ledger == c.ledger
    && (if SeqTaken(c.store, NextSeq(c)) then d.store.steps == c.store.steps && d.pc.Finish?
        else d.store.steps == c.store.steps + [row] && (if c.pc.AddStep? then d.pc.SaveStep? else d.pc.Finish?))
  }

  lemma AddHasEffect(c: Config) returns (row: StepRow)
    requires InRound(c.pc) && (c.pc.AddStep? || c.pc.AddFinal?)
    ensures row == if c.pc.AddStep? then StepRow(NextSeq(c), c.pc.round.drafts, c.pc.round.observations)
                   else StepRow(NextSeq(c), [], [])
    ensures AddEffect(c, row, AdvanceSave(c))
  {
    row := if c.pc.AddStep? then StepRow(NextSeq(c), c.pc.round.drafts, c.pc.round.observations)
           else StepRow(NextSeq(c), [], []);
  }

  lemma StoredRetells(c: Config, row: StepRow, d: Config)
    requires Retold(c) && (c.pc.AddStep? || c.pc.AddFinal?) && Economical(d) && Numbered(d)
    requires row == if c.pc.AddStep? then StepRow(NextSeq(c), c.pc.round.drafts, c.pc.round.observations)
                    else StepRow(NextSeq(c), [], [])
    requires AddEffect(c, row, d) && !SeqTaken(c.store, NextSeq(c))
    ensures Retold(d)
  {
    StoredKeepsDropped(c, row, d);
    if !c.ledger.compressed {
      StoredKeepsMessages(c, row, d);
    }
  }

  lemma StoredKeepsDropped(c: Config, row: StepRow, d: Config)
    requires DroppedAreSteps(c) && d.store.steps == c.store.steps + [row] && d.ledger.dropped == c.ledger.dropped
    ensures DroppedAreSteps(d)
  {
    forall n | n in d.ledger.dropped ensures exists r :: r in d.store.steps && r.seqNo == n && r.drafts != [] {
      var r :| r in c.store.steps && r.seqNo == n && r.drafts != [];
      assert r in d.store.steps;
    }
  }

  lemma RoundBecomesRow(story: seq<Msg>, row: StepRow)
    requires row.drafts != []
    ensures story + StepMessages(row) == story + [ToolCalls(row.drafts)] + Replies(row.drafts, row.observations)
  {
  }

  lemma StoredKeepsMessages(c: Config, row: StepRow, d: Config)
    requires InRound(c.pc) && (c.pc.AddStep? || c.pc.AddFinal?) && DroppedAreSteps(c)
    requires Increasing(c.store.steps + [row])
    requires row == if c.pc.AddStep? then StepRow(NextSeq(c), c.pc.round.drafts, c.pc.round.observations)
                    else StepRow(NextSeq(c), [], [])
    requires AddEffect(c, row, d) && !SeqTaken(c.store, NextSeq(c))
    requires MessagesAt(c) && CheckpointAt(c)
    ensures MessagesAt(d) && CheckpointAt(d)
  {
    StoredRowExtendsStory(c, row);
    assert d.store.steps[..|d.store.steps| - 1] == c.store.steps;
    if c.pc.AddStep? {
      RoundBecomesRow(Story(c), row);
    } else {
      assert Story(c) + StepMessages(row) == Story(c);
    }
  }

  lemma AddRetells(c: Config)
    requires Retold(c) && (c.pc.AddStep? || c.pc.AddFinal?)
    ensures Retold(AdvanceSave(c))
  {
    var row := AddHasEffect(c);
    SaveSpends(c);
    SaveNumbers(c);
    var d := AdvanceSave(c);
    if SeqTaken(c.store, NextSeq(c)) {
      assert Story(d) == Story(c);
    } else {
      StoredRetells(c, row, d);
    }
  }

  lemma SaveRetells(c: Config)
    requires Retold(c) && !BeforeTools(c.pc) && !InTools(c.pc) && !c.pc.AddStep? && !c.pc.AddFinal?
    ensures Retold(AdvanceSave(c))
  {
    SaveSpends(c);
    SaveNumbers(c);
  }

  /** A crash between a row and its checkpoint drops the row from the story, and nothing else. */
  lemma CrashDropsRow(c: Config)
    requires Retold(c) && c.pc.SaveStep?
    ensures DroppedAreSteps(Crash(c)) && (!c.ledger.compressed ==> CheckpointAt(Crash(c)))
  {
    var rows, n := c.store.steps, NextSeq(c);
    var init, last := rows[..|rows| - 1], rows[|rows| - 1];
    assert last in rows && last.seqNo == n;
    forall r | r in init ensures r.seqNo != n {
      var i :| 0 <= i < |init| && init[i] == r;
      assert rows[i].seqNo < rows[|rows| - 1].seqNo;
    }
    DropAnother(init, c.ledger.dropped, n);
    assert Kept(rows, c.ledger.dropped + {n}) == Kept(init, c.ledger.dropped + {n});
  }

  lemma CrashRetells(c: Config)
    requires Retold(c)
    ensures Retold(Crash(c))
  {
    StepNumbers(c, Die);
    StepSpends(c, Die);
    if c.pc.SaveStep? {
      CrashDropsRow(c);
    }
  }

  lemma WorkRetells(c: Config, x: Input)
    requires Retold(c)
    ensures Retold(Advance(c, x))
  {
    if BeforeTools(c.pc) {
      ModelRetells(c, x);
    } else if InTools(c.pc) {
      ToolRetells(c, x);
    } else if c.pc.AddStep? || c.pc.AddFinal? {
      AddRetells(c);
    } else {
      SaveRetells(c);
    }
  }

  lemma ResumeRetells(c: Config)
    requires Retold(c)
    ensures Retold(Resume(c))
  {
    StepNumbers(c, Event.ResumeRun);
    StepSpends(c, Event.ResumeRun);
    if c.store.checkpoint.Some? {
      WakeSpends(c.run, c.store.checkpoint.value.messages, c.store.checkpoint.value.spent);
    }
  }

  /** Decisions and abandonment touch neither the messages nor the steps. */
  lemma RestRetells(c: Config, e: Event)
    requires Retold(c) && (e.AbandonRun? || e.DecideApproval?)
    ensures Retold(Step(c, e))
  {
    StepNumbers(c, e);
    StepSpends(c, e);
  }

  lemma StepRetells(c: Config, e: Event)
    requires Retold(c)
    ensures Retold(Step(c, e))
  {
    match e
    case Work(x) => WorkRetells(c, x);
    case Die => CrashRetells(c);
    case ResumeRun => ResumeRetells(c);
    case _ => RestRetells(c, e);
  }

  /** In every run none of whose drives started from a compressed context, the messages of every
  live drive and of every checkpoint are what the kept rows rebuild. */
  lemma {:induction false} StoryIsRetold(c: Config, es: seq<Event>)
    requires Retold(c)
    ensures Retold(Play(c, es))
    decreases |es|
  {
    if es != [] {
      StepRetells(c, es[0]);
      StoryIsRetold(Step(c, es[0]), es[1..]);
    }
  }

  lemma BeginRetells(run: Run)
    ensures Retold(Begin(run))
  {
    BeginSpends(run);
    WakeSpends(run, run.base, NOTHING_SPENT);
  }

  // ---------- when the plain rebuild agrees ----------

  lemma {:induction false} KeptRebuildsLess(base: seq<Msg>, rows: seq<StepRow>, dropped: set<nat>)
    ensures |Rebuild(base, Kept(rows, dropped))| <= |Rebuild(base, rows)|
    ensures (exists r :: r in rows && r.seqNo in dropped && r.drafts != []) ==>
      |Rebuild(base, Kept(rows, dropped))| < |Rebuild(base, rows)|
  {
    if rows != [] {
      var init, last := rows[..|rows| - 1], rows[|rows| - 1];
      KeptRebuildsLess(base, init, dropped);
      var kept := Kept(init, dropped);
      assert (kept + [last])[..|kept|] == kept;
      assert forall r :: r in rows <==> r == last || r in init;
    }
  }

  lemma DroppingRebuildsLess(base: seq<Msg>, rows: seq<StepRow>, dropped: set<nat>, n: nat)
    requires n in dropped && exists r :: r in rows && r.seqNo == n && r.drafts != []
    ensures Rebuild(base, Kept(rows, dropped)) != Rebuild(base, rows)
  {
    var r :| r in rows && r.seqNo == n && r.drafts != [];
    assert r in rows && r.seqNo in dropped && r.drafts != [];
    KeptRebuildsLess(base, rows, dropped);
  }

  lemma KeptIsAllIff(base: seq<Msg>, rows: seq<StepRow>, dropped: set<nat>)
    requires forall n | n in dropped :: exists r :: r in rows && r.seqNo == n && r.drafts != []
    ensures Rebuild(base, Kept(rows, dropped)) == Rebuild(base, rows) <==> dropped == {}
  {
    if n :| n in dropped {
      DroppingRebuildsLess(base, rows, dropped, n);
    } else {
      assert dropped == {};
      DropNothing(rows);
    }
  }

  /** At a loop head, `rebuild_messages_from_run` over all stored steps agrees with the live
  messages exactly when no crash ever fell between a step row and its checkpoint. */
  lemma RebuildAgreesIffNoneDropped(c: Config)
    requires Retold(c) && !c.ledger.compressed && c.pc.Head?
    ensures c.local.messages == Rebuild(c.run.base, c.store.steps) <==> c.ledger.dropped == {}
  {
    KeptIsAllIff(c.run.base, c.store.steps, c.ledger.dropped);
  }

  predicate IsSingleDrive(e: Event) {
    e.Work? || e.DecideApproval?
  }

  /** A single drive drops nothing and compresses only at its start. */
  lemma {:induction false} SingleDriveKeepsAll(c: Config, es: seq<Event>)
    requires InRound(c.pc) && forall e | e in es :: IsSingleDrive(e)
    ensures Play(c, es).ledger.dropped == c.ledger.dropped
    ensures Play(c, es).ledger.compressed == c.ledger.compressed
    ensures Play(c, es).run == c.run
    decreases |es|
  {
    if es != [] {
      StepStaysInRound(c, es[0]);
      assert es[0] in es;
      SameAfterStep(c, es[0]);
      SingleDriveKeepsAll(Step(c, es[0]), es[1..]);
    }
  }

  lemma SameAfterStep(c: Config, e: Event)
    requires InRound(c.pc) && IsSingleDrive(e)
    ensures Step(c, e).ledger.dropped == c.ledger.dropped
    ensures Step(c, e).ledger.compressed == c.ledger.compressed && Step(c, e).run == c.run
  {
    if e.Work? && InTools(c.pc) {
      ToolAdvances(c, e.x);
    }
  }

  /** The first drive of a run whose context fits: at every loop head the live messages are the
  rebuild of the run and its stored steps, and so is every checkpoint once it is written. */
  lemma FirstDriveReplays(run: Run, es: seq<Event>)
    requires Fits(run.measure, run.base) && forall e | e in es :: IsSingleDrive(e)
    ensures var c := Play(Begin(run), es);
      && (c.pc.Head? ==> c.local.messages == Rebuild(run.base, c.store.steps))
      && (c.store.checkpoint.Some? && !c.pc.SaveStep? ==>
            c.store.checkpoint.value.messages == Rebuild(run.base, c.store.steps))
  {
    BudgetIsIdentityWhenFits(run.measure, run.base);
    BeginRetells(run);
    StoryIsRetold(Begin(run), es);
    SingleDriveKeepsAll(Begin(run), es);
    DropNothing(Play(Begin(run), es).store.steps);
  }
}
