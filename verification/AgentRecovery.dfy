/** Which dead drives app/agent/runtime/recovery.py looks at: it asks for runs by their state column, and
fails those without a checkpoint and resumes the others. */
module AgentRecovery {
  import opened Options
  import opened AgentStates
  import opened AgentContext
  import opened AgentMachine
  import opened AgentSafety
  import opened AgentReplay

  /** Both sweeps select by these states. */
  predicate IsSelected(s: Store) {
    s.state in {Planning, Running, WaitingTool}
  }

  /** The drive has not written anything yet. */
  predicate JustWoken(c: Config) {
    c.pc.Start? || (c.pc.Finish? && c.local.sm == Requested)
  }

  predicate Marked(c: Config) {
    !c.pc.Asleep? && !JustWoken(c) ==> IsSelected(c.store)
  }

  /** The tool pipeline leaves the state column alone and does not end a drive by itself. */
  lemma ToolKeepsState(c: Config, x: Input)
    requires InRound(c.pc) && InTools(c.pc)
    ensures AdvanceTool(c, x).store.state == c.store.state
  {
    match c.pc
    case NextTool(r) =>
      var s := c.local.spent;
      var counted := c.(local := c.local.(spent := s.(toolCalls := s.toolCalls + 1)));
      ObserveStores(counted, r, Observation(CurrentDraft(r).name, None, ToolResult(false, None)));
    case Refuse(r, _) =>
      ObserveStores(WriteResult(c, r, REFUSED), r, Observation(CurrentDraft(r).name, Some(CallOf(r)), REFUSED));
    case Deliver(r, result) =>
      ObserveStores(WriteResult(c, r, result), r, Observation(CurrentDraft(r).name, Some(CallOf(r)), result));
    case _ =>
  }

  lemma StepMarks(c: Config, e: Event)
    requires Moving(c) && Marked(c)
    ensures Marked(Step(c, e))
  {
    if e.Work? && InTools(c.pc) {
      ToolKeepsState(c, e.x);
    }
  }

  lemma {:induction false} RunMarks(c: Config, es: seq<Event>)
    requires Moving(c) && Marked(c)
    ensures Marked(Play(c, es))
    decreases |es|
  {
    if es != [] {
      StepMarks(c, es[0]);
      StepMoves(c, es[0]);
      RunMarks(Step(c, es[0]), es[1..]);
    }
  }

  /** In every run: a drive that dies is selected by the recovery exactly if it had written its state, or
  had found one that is selected. */
  lemma DeadDriveIsSelectedIff(run: Run, es: seq<Event>)
    ensures var c := Play(Begin(run), es);
      !c.pc.Asleep? ==> (IsSelected(Crash(c).store) <==> !JustWoken(c) || IsSelected(c.store))
  {
    BeginMoves(run);
    RunMarks(Begin(run), es);
  }

  predicate IsUnattended(e: Event) {
    !e.ResumeRun?
  }

  /** So a run that dies between its creation and its first state stays REQUESTED: neither sweep selects
  it, abandoning it does nothing, and nothing but a resume from outside ever changes it. */
  lemma {:induction false} EarlyDeathIsForgotten(run: Run, es: seq<Event>)
    requires forall e | e in es :: IsUnattended(e)
    ensures var c := Crash(Begin(run));
      c.pc.Asleep? && c.store.state == Requested && !IsSelected(c.store) && Play(c, es) == c
    decreases |es|
  {
    var c := Crash(Begin(run));
    if es != [] {
      assert es[0] in es && Step(c, es[0]) == c;
      EarlyDeathIsForgotten(run, es[1..]);
    }
  }
}
