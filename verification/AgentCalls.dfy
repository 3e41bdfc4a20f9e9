/** Tools at most once, and only when approved, over every run with crashes and resumes. */
module AgentCalls {
  import opened Options
  import opened AgentContext
  import opened AgentMachine

  // ---------- at most once ----------

  /** From its gate on a call has its row; before an execution round stores its result, the row has
  none; a result being delivered is the stored one. */
  predicate ResultsAt(c: Config) {
    && InRound(c.pc)
    && (InTools(c.pc) && !c.pc.NextTool? ==> CallOf(c.pc.round) in c.store.calls)
    && match c.pc
       case InFn(r, _, _) => ResultOf(c.store, CallOf(r)).None?
       case StoreResult(r, _) => ResultOf(c.store, CallOf(r)).None?
       case Deliver(r, result) => ResultOf(c.store, CallOf(r)) == Some(result)
       case _ => true
  }

  predicate Runs(c: Config, id: CallId) {
    OpenCall(c.pc) == Some(id)
  }

  /** Rounds of one call are lost ones plus at most one that is open or has left a result; and
  the tool function was called no more often than the rounds' retries allow. */
  predicate Tallied(c: Config, id: CallId) {
    var n := CountOf(c.ledger, id);
    && n.rounds <= n.lost + (if ResultOf(c.store, id).Some? || Runs(c, id) then 1 else 0)
    && n.entries + (if c.pc.InFn? && Runs(c, id) then c.pc.left else 0) <= n.allowance
  }

  lemma ObserveKeepsBooks(c: Config, r: Round, o: Observation)
    requires |r.observations| < |r.drafts|
    ensures var d := Observe(c, r, o);
      && d.store == c.store && d.ledger == c.ledger && d.run == c.run
      && (d.pc.NextTool? || d.pc.AddStep? || d.pc.Finish?) && InRound(d.pc)
  {
  }

  lemma GateTallies(c: Config, r: Round, x: Input, id: CallId)
    requires ResultsAt(c) && c.pc == Gate(r) && Tallied(c, id)
    ensures ResultsAt(StepGate(c, r, x)) && Tallied(StepGate(c, r, x), id)
  {
  }

  lemma LoseCounts(l: Ledger, call: CallId, id: CallId)
    ensures CountOf(Lose(l, call), id) ==
      if id == call then CountOf(l, id).(lost := CountOf(l, id).lost + 1) else CountOf(l, id)
  {
  }

  lemma FnTallies(c: Config, r: Round, left: nat, risky: bool, x: Input, id: CallId)
    requires ResultsAt(c) && c.pc == InFn(r, left, risky) && Tallied(c, id)
    ensures ResultsAt(StepFn(c, r, left, risky, x)) && Tallied(StepFn(c, r, left, risky, x), id)
  {
    match x.outcome
    case FnOk(_) =>
    case FnToolError =>
    case FnTimedOut => LossTallies(c, r, left, risky, x, id);
    case FnCancelled => LossTallies(c, r, left, risky, x, id);
    case FnFailed => RetryTallies(c, r, left, risky, x, id);
  }

  lemma LossTallies(c: Config, r: Round, left: nat, risky: bool, x: Input, id: CallId)
    requires ResultsAt(c) && c.pc == InFn(r, left, risky) && Tallied(c, id)
    requires x.outcome.FnTimedOut? || x.outcome.FnCancelled?
    ensures ResultsAt(StepFn(c, r, left, risky, x)) && Tallied(StepFn(c, r, left, risky, x), id)
  {
    LoseCounts(c.ledger, CallOf(r), id);
  }

  lemma RetryTallies(c: Config, r: Round, left: nat, risky: bool, x: Input, id: CallId)
    requires ResultsAt(c) && c.pc == InFn(r, left, risky) && Tallied(c, id) && x.outcome.FnFailed?
    ensures ResultsAt(StepFn(c, r, left, risky, x)) && Tallied(StepFn(c, r, left, risky, x), id)
  {
  }

  lemma NextToolTallies(c: Config, r: Round, id: CallId)
    requires ResultsAt(c) && c.pc == NextTool(r) && Tallied(c, id)
    ensures ResultsAt(StepNextTool(c, r)) && Tallied(StepNextTool(c, r), id)
  {
    NextToolKeepsBooks(c, r, id);
  }

  /** Announcing a call adds its row without a result; anything else leaves the books alone. */
  lemma NextToolKeepsBooks(c: Config, r: Round, id: CallId)
    requires InRound(c.pc) && c.pc == NextTool(r)
    ensures var d := StepNextTool(c, r);
      && InRound(d.pc) && OpenCall(d.pc).None? && !d.pc.Ask? && !d.pc.Deliver?
      && ResultOf(d.store, id) == ResultOf(c.store, id) && d.ledger == c.ledger
        && d.store.approvals == c.store.approvals
  {
    if CurrentDraft(r).arguments.NotObject? {
      var s := c.local.spent;
      var counted := c.(local := c.local.(spent := s.(toolCalls := s.toolCalls + 1)));
      ObserveKeepsBooks(counted, r, Observation(CurrentDraft(r).name, None, ToolResult(false, None)));
    }
  }

  lemma DeliverTallies(c: Config, r: Round, result: ToolResult, id: CallId)
    requires ResultsAt(c) && (c.pc == Deliver(r, result) || (c.pc.Refuse? && c.pc.round == r)) && Tallied(c, id)
    ensures ResultsAt(StepDeliver(c, r, result)) && Tallied(StepDeliver(c, r, result), id)
    ensures ResultOf(StepDeliver(c, r, result).store, CallOf(r)) == Some(result)
    ensures id != CallOf(r) ==> ResultOf(StepDeliver(c, r, result).store, id) == ResultOf(c.store, id)
    ensures StepDeliver(c, r, result).ledger == c.ledger
    ensures StepDeliver(c, r, result).store.approvals == c.store.approvals
  {
    var written := WriteResult(c, r, result);
    ObserveKeepsBooks(written, r, Observation(CurrentDraft(r).name, Some(CallOf(r)), result));
  }

  lemma ToolTallies(c: Config, x: Input, id: CallId)
    requires ResultsAt(c) && InTools(c.pc) && Tallied(c, id)
    ensures ResultsAt(AdvanceTool(c, x)) && Tallied(AdvanceTool(c, x), id)
  {
    match c.pc
    case NextTool(r) => NextToolTallies(c, r, id);
    case Gate(r) => GateTallies(c, r, x, id);
    case InFn(r, left, risky) => FnTallies(c, r, left, risky, x, id);
    case Refuse(r, _) => DeliverTallies(c, r, REFUSED, id);
    case Deliver(r, result) => DeliverTallies(c, r, result, id);
    case _ =>
  }

  lemma ModelKeepsBooks(c: Config, x: Input)
    requires InRound(c.pc) && BeforeTools(c.pc)
    ensures var d := AdvanceModel(c, x);
      && d.store.calls == c.store.calls && d.ledger.counts == c.ledger.counts && d.store.approvals == c.store.approvals
      && InRound(d.pc) && (d.pc.NextTool? || !InTools(d.pc))
  {
  }

  lemma ModelTallies(c: Config, x: Input, id: CallId)
    requires ResultsAt(c) && BeforeTools(c.pc) && Tallied(c, id)
    ensures ResultsAt(AdvanceModel(c, x)) && Tallied(AdvanceModel(c, x), id)
    ensures AdvanceModel(c, x).store.calls == c.store.calls && AdvanceModel(c, x).ledger.counts == c.ledger.counts
    ensures AdvanceModel(c, x).store.approvals == c.store.approvals
  {
    ModelKeepsBooks(c, x);
  }

  lemma SaveTallies(c: Config, id: CallId)
    requires ResultsAt(c) && !BeforeTools(c.pc) && !InTools(c.pc) && Tallied(c, id)
    ensures ResultsAt(AdvanceSave(c)) && Tallied(AdvanceSave(c), id)
    ensures AdvanceSave(c).store.calls == c.store.calls && AdvanceSave(c).ledger.counts == c.ledger.counts
    ensures AdvanceSave(c).store.approvals == c.store.approvals
  {
  }

  lemma StepTallies(c: Config, e: Event, id: CallId)
    requires ResultsAt(c) && Tallied(c, id)
    ensures ResultsAt(Step(c, e)) && Tallied(Step(c, e), id)
  {
    StepStaysInRound(c, e);
    if e.Work? {
      if BeforeTools(c.pc) {
        ModelTallies(c, e.x, id);
      } else if InTools(c.pc) {
        ToolTallies(c, e.x, id);
      } else {
        SaveTallies(c, id);
      }
    }
  }

  /** In every run, a call's execution rounds never outnumber one plus those that timed out, were
  cancelled or crashed before a result was stored; function calls stay within their retries. */
  lemma {:induction false} AtMostOnce(c: Config, es: seq<Event>, id: CallId)
    requires ResultsAt(c) && Tallied(c, id)
    ensures ResultsAt(Play(c, es)) && Tallied(Play(c, es), id)
    ensures CountOf(Play(c, es).ledger, id).rounds <= CountOf(Play(c, es).ledger, id).lost + 1
    decreases |es|
  {
    if es != [] {
      StepTallies(c, es[0], id);
      AtMostOnce(Step(c, es[0]), es[1..], id);
    }
  }

  // ---------- a stored result ----------

  /** Is the step about to write the failure record over this call's result? */
  predicate Overwrites(c: Config, e: Event, id: CallId)
    requires InRound(c.pc)
  {
    e.Work? && c.pc.Refuse? && CallOf(c.pc.round) == id
  }

  lemma ToolKeepsResult(c: Config, x: Input, id: CallId)
    requires ResultsAt(c) && InTools(c.pc) && Tallied(c, id) && ResultOf(c.store, id).Some?
    ensures ResultOf(AdvanceTool(c, x).store, id) ==
      if Overwrites(c, Work(x), id) then Some(REFUSED) else ResultOf(c.store, id)
    ensures CountOf(AdvanceTool(c, x).ledger, id) == CountOf(c.ledger, id)
  {
    match c.pc
    case NextTool(r) => NextToolKeepsBooks(c, r, id);
    case Refuse(r, _) => DeliverTallies(c, r, REFUSED, id);
    case Deliver(r, result) => DeliverTallies(c, r, result, id);
    case _ =>
  }

  /** A stored result is there for good: the tool is never entered again for its call, and the
  result changes only when a refused replay writes the failure record over it. */
  lemma StepKeepsResult(c: Config, e: Event, id: CallId)
    requires ResultsAt(c) && Tallied(c, id) && ResultOf(c.store, id).Some?
    ensures ResultOf(Step(c, e).store, id) ==
      if Overwrites(c, e, id) then Some(ToolResult(false, None)) else ResultOf(c.store, id)
    ensures CountOf(Step(c, e).ledger, id) == CountOf(c.ledger, id)
  {
    if e.Work? {
      if BeforeTools(c.pc) {
        ModelTallies(c, e.x, id);
      } else if InTools(c.pc) {
        ToolKeepsResult(c, e.x, id);
      } else {
        SaveTallies(c, id);
      }
    }
  }

  lemma {:induction false} ResultsAreFinal(c: Config, es: seq<Event>, id: CallId)
    requires ResultsAt(c) && Tallied(c, id) && ResultOf(c.store, id).Some?
    ensures var d := Play(c, es);
      && (ResultOf(d.store, id) == ResultOf(c.store, id) || ResultOf(d.store, id) == Some(ToolResult(false, None)))
      && CountOf(d.ledger, id) == CountOf(c.ledger, id)
    decreases |es|
  {
    if es != [] {
      StepKeepsResult(c, es[0], id);
      StepTallies(c, es[0], id);
      ResultsAreFinal(Step(c, es[0]), es[1..], id);
    }
  }

  /** Does the pipeline turn a replay away before it looks at the stored result, or because of
  that result's size? */
  predicate Refused(approvals: seq<Approval>, call: CallId, result: ToolResult, x: Input) {
    var found := FindApproval(approvals, call);
    && !x.cancelled
    && (!x.registered || !x.permitted || !x.withinRate
        || ((!x.risky || (x.approvals && found.Some? && found.value.status == Approved))
            && (x.breakerOpen || (result.ok && x.tooBig))))
  }

  /** So a stored success does not survive every replay: two steps after the gate it has become
  the failure record exactly when the replay was refused. */
  lemma ReplayKeepsSuccess(c: Config, x: Input, y: Input)
    requires ResultsAt(c) && c.pc.Gate?
    requires ResultOf(c.store, CallOf(c.pc.round)).Some? && ResultOf(c.store, CallOf(c.pc.round)).value.ok
    ensures var call := CallOf(c.pc.round); var result := ResultOf(c.store, call).value;
      var d := Advance(c, x);
      InRound(d.pc) &&
      ResultOf(Advance(d, y).store, call) ==
        if Refused(c.store.approvals, call, result, x) then Some(ToolResult(false, None)) else Some(result)
  {
    var r := c.pc.round;
    var d := Advance(c, x);
    StepStaysInRound(c, Work(x));
    if d.pc.Refuse? {
      ObserveKeepsBooks(WriteResult(d, r, REFUSED), r, Observation(CurrentDraft(r).name, Some(CallOf(r)), REFUSED));
    } else if d.pc.Deliver? {
      var result := d.pc.result;
      ObserveKeepsBooks(WriteResult(d, r, result), r, Observation(CurrentDraft(r).name, Some(CallOf(r)), result));
    }
  }

  /** Does a gate turn a call without a stored result away? */
  predicate TurnedAway(approvals: seq<Approval>, call: CallId, x: Input) {
    var found := FindApproval(approvals, call);
    && !x.cancelled
    && (!x.registered || !x.permitted || !x.withinRate
        || ((!x.risky || (x.approvals && found.Some? && found.value.status == Approved))
          && (x.breakerOpen || !x.valid)))
  }

  lemma TurnedAwayIsRefused(c: Config, r: Round, x: Input)
    requires InRound(c.pc) && c.pc == Gate(r) && ResultOf(c.store, CallOf(r)).None?
    ensures StepGate(c, r, x).pc == Refuse(r, false) <==> TurnedAway(c.store.approvals, CallOf(r), x)
    ensures TurnedAway(c.store.approvals, CallOf(r), x) ==>
      StepGate(c, r, x).store == c.store && StepGate(c, r, x).ledger == c.ledger
  {
  }

  /** A call turned away on its first try, by permission, rate, breaker or its arguments, is recorded
  as failed, and that record is a result like any other: whatever the gates answer later, the tool is
  never entered for this call in this run. */
  lemma TurnedAwayForever(c: Config, x: Input, y: Input, es: seq<Event>)
    requires ResultsAt(c) && c.pc.Gate? && Tallied(c, CallOf(c.pc.round))
    requires ResultOf(c.store, CallOf(c.pc.round)).None?
    requires TurnedAway(c.store.approvals, CallOf(c.pc.round), x)
    ensures InRound(Advance(c, x).pc) && InRound(Advance(Advance(c, x), y).pc)
    ensures var d := Play(Advance(Advance(c, x), y), es); var call := CallOf(c.pc.round);
      CountOf(d.ledger, call) == CountOf(c.ledger, call) && ResultOf(d.store, call) == Some(ToolResult(false, None))
  {
    var r, call := c.pc.round, CallOf(c.pc.round);
    TurnedAwayIsRefused(c, r, x);
    var refused := Advance(c, x);
    StepTallies(c, Work(x), call);
    DeliverTallies(refused, r, REFUSED, call);
    StepStaysInRound(refused, Work(y));
    ResultsAreFinal(Advance(refused, y), es, call);
  }

  lemma BeginTallies(run: Run, id: CallId)
    ensures ResultsAt(Begin(run)) && Tallied(Begin(run), id)
  {
  }

  // ---------- approvals ----------

  predicate OnePerCall(approvals: seq<Approval>) {
    forall i, j | 0 <= i < j < |approvals| :: approvals[i].call != approvals[j].call
  }

  predicate IsApproved(c: Config, call: CallId) {
    var found := FindApproval(c.store.approvals, call);
    found.Some? && found.value.status == Approved
  }

  /** One approval per call; one is created only where there is none; a risky tool runs only
  under an approval. */
  predicate Guarded(c: Config) {
    && InRound(c.pc)
    && OnePerCall(c.store.approvals)
    && (c.pc.Ask? ==> FindApproval(c.store.approvals, CallOf(c.pc.round)).None?)
    && (c.pc.InFn? && c.pc.risky ==> IsApproved(c, CallOf(c.pc.round)))
  }

  lemma {:induction false} FindAt(approvals: seq<Approval>, i: nat)
    requires i < |approvals| && OnePerCall(approvals)
    ensures FindApproval(approvals, approvals[i].call) == Some(approvals[i])
  {
    var last := |approvals| - 1;
    if i < last {
      FindAt(approvals[..last], i);
    }
  }

  /** Deciding one approval leaves every other call's approval, and every decided one, alone. */
  lemma DecideFinds(c: Config, index: nat, approve: bool, expired: bool, call: CallId)
    requires OnePerCall(c.store.approvals)
    ensures OnePerCall(Decide(c, index, approve, expired).store.approvals)
    ensures var before, after := FindApproval(c.store.approvals, call),
                                 FindApproval(Decide(c, index, approve, expired).store.approvals, call);
      && before.Some? == after.Some?
      && (before.Some? && before.value.status != Pending ==> after == before)
  {
    var rows := c.store.approvals;
    var rows' := Decide(c, index, approve, expired).store.approvals;
    if i :| 0 <= i < |rows| && rows[i].call == call {
      FindAt(rows, i);
      FindAt(rows', i);
    } else {
      assert forall i | 0 <= i < |rows'| :: rows'[i].call == rows[i].call;
    }
  }

  /** The pipeline's effect on approvals: asking appends one, anything else none; and the function
  is entered, or asked for, only from the gate, or entered again by a retry. */
  predicate ApprovalEffect(c: Config, d: Config)
    requires InRound(c.pc) && InTools(c.pc)
  {
    && d.store.approvals == c.store.approvals + (if c.pc.Ask? then [Approval(CallOf(c.pc.round), Pending)] else [])
    && (d.pc.Ask? || d.pc.InFn? ==> c.pc.Gate? || c.pc.InFn?)
  }

  lemma ToolHasApprovalEffect(c: Config, x: Input)
    requires InRound(c.pc) && InTools(c.pc)
    ensures ApprovalEffect(c, AdvanceTool(c, x))
  {
    match c.pc
    case NextTool(r) => NextToolKeepsBooks(c, r, CallId("", ""));
    case Refuse(r, _) =>
      ObserveKeepsBooks(WriteResult(c, r, REFUSED), r, Observation(CurrentDraft(r).name, Some(CallOf(r)), REFUSED));
    case Deliver(r, result) =>
      ObserveKeepsBooks(WriteResult(c, r, result), r, Observation(CurrentDraft(r).name, Some(CallOf(r)), result));
    case _ =>
  }

  /** The gate asks only where nobody has, and lets a risky tool in only under an approval. */
  lemma GateGuards(c: Config, r: Round, x: Input)
    requires InRound(c.pc) && c.pc == Gate(r)
    ensures var d := StepGate(c, r, x);
      && (d.pc.Ask? ==> d.pc.round == r && FindApproval(c.store.approvals, CallOf(r)).None?)
      && (d.pc.InFn? ==> d.pc.round == r && (d.pc.risky ==> IsApproved(c, CallOf(r))))
  {
  }

  lemma FnGuards(c: Config, r: Round, left: nat, risky: bool, x: Input)
    requires InRound(c.pc) && c.pc == InFn(r, left, risky)
    ensures var d := StepFn(c, r, left, risky, x);
      !d.pc.Ask? && (d.pc.InFn? ==> d.pc.round == r && d.pc.risky == risky)
  {
  }

  lemma AskKeepsOne(approvals: seq<Approval>, call: CallId)
    requires OnePerCall(approvals) && FindApproval(approvals, call).None?
    ensures OnePerCall(approvals + [Approval(call, Pending)])
  {
    forall i | 0 <= i < |approvals| ensures approvals[i].call != call {
      assert approvals[i] in approvals;
    }
  }

  lemma ToolGuards(c: Config, x: Input)
    requires Guarded(c) && InTools(c.pc)
    ensures Guarded(AdvanceTool(c, x)) && ApprovalEffect(c, AdvanceTool(c, x))
  {
    ToolHasApprovalEffect(c, x);
    StepStaysInRound(c, Work(x));
    if c.pc.Gate? {
      GateGuards(c, c.pc.round, x);
    } else if c.pc.InFn? {
      FnGuards(c, c.pc.round, c.pc.left, c.pc.risky, x);
    } else if c.pc.Ask? {
      AskKeepsOne(c.store.approvals, CallOf(c.pc.round));
    }
  }

  lemma StepGuards(c: Config, e: Event)
    requires Guarded(c)
    ensures Guarded(Step(c, e))
  {
    StepStaysInRound(c, e);
    match e
    case Work(x) =>
      if InTools(c.pc) {
        ToolGuards(c, x);
      } else if BeforeTools(c.pc) {
        ModelKeepsBooks(c, x);
      } else {
        assert AdvanceSave(c).store.approvals == c.store.approvals;
      }
    case DecideApproval(index, approve, expired) =>
      if c.pc.Ask? || c.pc.InFn? {
        DecideFinds(c, index, approve, expired, CallOf(c.pc.round));
      } else {
        DecideFinds(c, index, approve, expired, CallId("", ""));
      }
    case _ =>
  }

  /** Every step that calls the function of a tool the gate found risky finds its approval
  granted. */
  lemma EntryIsApproved(c: Config, x: Input, id: CallId)
    requires Guarded(c)
    requires CountOf(Advance(c, x).ledger, id).entries > CountOf(c.ledger, id).entries
    ensures c.pc.Gate? || c.pc.InFn?
    ensures CallOf(c.pc.round) == id
    ensures (if c.pc.Gate? then x.risky else c.pc.risky) ==> IsApproved(c, id)
  {
    if InTools(c.pc) && !c.pc.Gate? && !c.pc.InFn? {
      OnlyGateAndFnCount(c, x);
    }
  }

  lemma OnlyGateAndFnCount(c: Config, x: Input)
    requires InRound(c.pc) && InTools(c.pc) && !c.pc.Gate? && !c.pc.InFn?
    ensures AdvanceTool(c, x).ledger == c.ledger
  {
    match c.pc
    case NextTool(r) => NextToolKeepsBooks(c, r, CallId("", ""));
    case Refuse(r, _) =>
      ObserveKeepsBooks(WriteResult(c, r, REFUSED), r, Observation(CurrentDraft(r).name, Some(CallOf(r)), REFUSED));
    case Deliver(r, result) =>
      ObserveKeepsBooks(WriteResult(c, r, result), r, Observation(CurrentDraft(r).name, Some(CallOf(r)), result));
    case _ =>
  }

  /** A decided approval keeps its status: only a PENDING one changes. */
  lemma StepKeepsDecision(c: Config, e: Event, id: CallId)
    requires Guarded(c)
    ensures var before, after := FindApproval(c.store.approvals, id), FindApproval(Step(c, e).store.approvals, id);
      before.Some? && before.value.status != Pending ==> after == before
  {
    match e
    case Work(x) =>
      if InTools(c.pc) {
        ToolGuards(c, x);
        if c.pc.Ask? {
          assert (c.store.approvals + [Approval(CallOf(c.pc.round), Pending)])[..|c.store.approvals|]
            == c.store.approvals;
        }
      } else if BeforeTools(c.pc) {
        ModelKeepsBooks(c, x);
      } else {
        assert AdvanceSave(c).store.approvals == c.store.approvals;
      }
    case DecideApproval(index, approve, expired) => DecideFinds(c, index, approve, expired, id);
    case _ =>
  }

  /** In every run: one approval per call, decided ones final, and risky tools only under one. */
  lemma {:induction false} ApprovalsGuard(c: Config, es: seq<Event>, id: CallId)
    requires Guarded(c)
    ensures Guarded(Play(c, es))
    ensures var before, after := FindApproval(c.store.approvals, id), FindApproval(Play(c, es).store.approvals, id);
      before.Some? && before.value.status != Pending ==> after == before
    decreases |es|
  {
    if es != [] {
      StepGuards(c, es[0]);
      StepKeepsDecision(c, es[0], id);
      ApprovalsGuard(Step(c, es[0]), es[1..], id);
    }
  }

  /** A rejected or lapsed approval blocks its call forever: as long as the gate finds the tool
  risky, no later step enters its function. */
  lemma DeniedForever(c: Config, es: seq<Event>, x: Input, id: CallId)
    requires Guarded(c) && FindApproval(c.store.approvals, id).Some?
    requires FindApproval(c.store.approvals, id).value.status in {Rejected, Lapsed}
    requires Play(c, es).pc.Gate? && x.risky
    ensures CountOf(Advance(Play(c, es), x).ledger, id).entries <= CountOf(Play(c, es).ledger, id).entries
  {
    ApprovalsGuard(c, es, id);
    if CountOf(Advance(Play(c, es), x).ledger, id).entries > CountOf(Play(c, es).ledger, id).entries {
      EntryIsApproved(Play(c, es), x, id);
    }
  }
}
