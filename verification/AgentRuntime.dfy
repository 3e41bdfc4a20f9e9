/** `_drive_loop`, `_execute_one_tool`, `ToolRuntime.execute` and `execute_tool` as the source
runs them: one drive over its store, its lists and counters updated in place.

The outside world is a script of inputs, one drawn before each store write or outside call; the
script running out is a crash at that point. Each method is proved to follow the step machine:
`cfg` is the machine's configuration, advanced with every input drawn. */
module AgentRuntime {
  import opened Options
  import opened AgentStates
  import opened AgentContext
  import opened AgentMachine
  import opened AgentSafety
  import opened AgentStore

  /** How a part of the loop ended: on to the next, out of the loop, or dead. */
  datatype Status = Going | Leaving(terminal: AgentState, answer: Option<string>) | Dead

  /** How a tool's pipeline ended: a result, an error to record, an exception that leaves the
  loop, or dead. */
  datatype Verdict = Result(result: ToolResult) | Error(entered: bool) | Raised(terminal: AgentState) | Gone

  // ---------- what a call comes to ----------

  /** The function fails at each of the first n inputs. */
  ghost predicate AllFail(script: seq<Input>, n: nat) {
    n <= |script| && forall i | 0 <= i < n :: script[i].outcome.FnFailed?
  }

  /** What the calls of the function come to by the script, with so many retries left. */
  function FnVerdict(script: seq<Input>, left: nat): Verdict {
    if script == [] then Gone
    else
      match script[0].outcome
      case FnOk(data) =>
        if |script| == 1 then Gone
        else if script[1].tooBig then Error(true) else Result(ToolResult(true, Some(data)))
      case FnTimedOut => Raised(Unknown)
      case FnCancelled => Raised(Cancelled)
      case FnToolError => Error(true)
      case FnFailed => if left == 0 then Error(true) else FnVerdict(script[1..], left - 1)
  }

  /** Every retry is used before a failure counts, and a failed call decides nothing else: after n
  failures within the retries it is as if the function had only been called now. */
  lemma {:induction false} RetriesAreUsed(script: seq<Input>, retry: nat, n: nat)
    requires AllFail(script, n)
    ensures n <= retry ==> FnVerdict(script, retry) == FnVerdict(script[n..], retry - n)
    ensures n > retry ==> FnVerdict(script, retry) == Error(true)
  {
    if n > 0 && retry > 0 {
      assert script[1..][n - 1..] == script[n..];
      assert AllFail(script[1..], n - 1);
      RetriesAreUsed(script[1..], retry - 1, n - 1);
    }
  }

  lemma {:induction false} FnRaises(script: seq<Input>, left: nat)
    ensures FnVerdict(script, left).Raised? ==> FnVerdict(script, left).terminal in {Unknown, Cancelled}
  {
    if script != [] && script[0].outcome.FnFailed? && left > 0 {
      FnRaises(script[1..], left - 1);
    }
  }

  /** A call with this approval, if any, comes to wait: its tool is risky, and there is nobody to ask, the
  approval is not given, or there is none yet and the drive lives to ask for it. */
  ghost predicate WaitsFor(script: seq<Input>, found: Option<Approval>) {
    script != [] && var x := script[0];
    && !x.cancelled && x.registered && x.permitted && x.withinRate && x.risky
    && (!x.approvals || (if found.Some? then found.value.status != Approved else |script| >= 2))
  }

  class Runner {
    const run: Run
    const store: RunStore
    const approvals: ApprovalService
    const sm: StateMachine
    var messages: seq<Msg>
    var spent: Spent
    var recent: seq<Fingerprint>
    var script: seq<Input>
    ghost var cfg: Config

    /** The machine stands at `pc` over exactly this store and these locals. */
    ghost predicate At(pc: Pc)
      reads this, sm, store, approvals
    {
      cfg.pc == pc && Matches(cfg) && Moving(cfg)
    }

    /** The store and the locals are those of `c`. */
    ghost predicate Matches(c: Config)
      reads this, sm, store, approvals
    {
      && c.run == run
      && c.store == store.Abs(approvals.approvals)
      && c.local == Local(sm.state, sm.trail, false, messages, spent, recent)
      && sm.Valid()
    }

    /** A dead drive leaves the store as the machine has it. */
    ghost predicate Left()
      reads this, store, approvals
    {
      InRound(cfg.pc) && script == [] && cfg.store == store.Abs(approvals.approvals)
    }

    /** The rest of the drive, as the machine would take it. */
    ghost function Future(): Config
      requires InRound(cfg.pc)
      reads this
    {
      Drive(cfg, script)
    }

    /** Wake up over `raw` messages: the machine to RUNNING, the context budget applied once. */
    constructor (run: Run, store: RunStore, approvals: ApprovalService, raw: seq<Msg>, spent: Spent,
                 script: seq<Input>, ghost from: Config)
      requires from.pc == Start && from.run == run && from.local == Wake(run, raw, spent)
      requires from.store == store.Abs(approvals.approvals)
      ensures this.run == run && this.store == store && this.approvals == approvals && fresh(sm)
      ensures At(Start) && cfg == from && this.script == script
    {
      this.run, this.store, this.approvals := run, store, approvals;
      var machine := new StateMachine();
      sm := machine;
      messages, this.spent, recent := ApplyBudget(run.measure, raw), spent, [];
      this.script := script;
      cfg := from;
      new;
      WakeMoves(run, raw, spent);
      var planned := sm.Transition(Planning);
      var running := sm.Transition(Running);
    }

    /** Read the outside world once, and let the machine take its step. */
    method Draw() returns (x: Option<Input>)
      requires InRound(cfg.pc) && !cfg.pc.Asleep?
      modifies this`script, this`cfg
      ensures InRound(cfg.pc) && Future() == old(Future())
      ensures old(script) == [] ==> x == None && script == [] && cfg == old(cfg)
      ensures old(script) != [] ==> x == Some(old(script)[0]) && script == old(script)[1..]
      ensures old(script) != [] ==> cfg == Advance(old(cfg), old(script)[0])
      ensures Moving(old(cfg)) ==> Moving(cfg)
    {
      if script == [] {
        return None;
      }
      x := Some(script[0]);
      StepStaysInRound(cfg, Work(script[0]));
      if Moving(cfg) {
        AdvanceMoves(cfg, script[0]);
      }
      cfg := Advance(cfg, script[0]);
      script := script[1..];
    }

    // ---------- one tool ----------

    /** The function has returned: store the result, then check its size. */
    method KeepResult(r: Round, data: string) returns (v: Verdict)
      requires InRound(StoreResult(r, data)) && At(StoreResult(r, data))
      modifies this`script, this`cfg, store`calls
      ensures Ended(r, v) && Future() == old(Future())
      ensures v == if old(script) == [] then Gone
        else if old(script)[0].tooBig then Error(true) else Result(ToolResult(true, Some(data)))
    {
      var x := Draw();
      if x.None? {
        return Gone;
      }
      var result := ToolResult(true, Some(data));
      store.PutResult(CallOf(r), result);
      v := if x.value.tooBig then Error(true) else Result(result);
    }

    /** One call of the function; None if it failed and may be tried again. */
    method TryFn(r: Round, left: nat, risky: bool) returns (v: Option<Verdict>)
      requires InRound(InFn(r, left, risky)) && At(InFn(r, left, risky))
      modifies this`script, this`cfg, sm, store`calls
      ensures InRound(cfg.pc) && Future() == old(Future())
      ensures v.None? ==> left > 0 && At(InFn(r, left - 1, risky))
      ensures v.None? ==> FnVerdict(old(script), left) == FnVerdict(script, left - 1)
      ensures v.Some? ==> Ended(r, v.value) && v.value == FnVerdict(old(script), left)
    {
      var x := Draw();
      if x.None? {
        return Some(Gone);
      }
      match x.value.outcome {
        case FnOk(data) =>
          var kept := KeepResult(r, data);
          return Some(kept);
        case FnTimedOut =>
          var ok := sm.Transition(Unknown);
          return Some(Raised(Unknown));
        case FnCancelled =>
          return Some(Raised(Cancelled));
        case FnToolError =>
          return Some(Error(true));
        case FnFailed =>
          return if left == 0 then Some(Error(true)) else None;
      }
    }

    /** `execute_tool` from the first call of the function on: retries, then the stored result. */
    method RunFn(r: Round, retry: nat, risky: bool) returns (v: Verdict)
      requires InRound(InFn(r, retry, risky)) && At(InFn(r, retry, risky))
      modifies this`script, this`cfg, sm, store`calls
      ensures Ended(r, v) && Future() == old(Future())
      ensures v == FnVerdict(old(script), retry)
    {
      var left: nat := retry;
      while true
        invariant At(InFn(r, left, risky)) && Future() == old(Future())
        invariant FnVerdict(script, left) == FnVerdict(old(script), retry)
        decreases left
      {
        var ended := TryFn(r, left, risky);
        if ended.Some? {
          return ended.value;
        }
        left := left - 1;
      }
    }

    ghost predicate Ended(r: Round, v: Verdict)
      reads this, sm, store, approvals
    {
      match v
      case Result(result) => At(Deliver(r, result))
      case Error(entered) => At(Refuse(r, entered))
      case Raised(terminal) => At(Finish(terminal, None))
      case Gone => Left()
    }

    /** The machine has taken the step of the gates from `c`, by the input `x`. */
    ghost predicate AtGates(c: Config, r: Round, x: Input)
      reads this, sm, store, approvals
    {
      && InRound(Gate(r)) && c.pc == Gate(r) && Matches(c)
      && cfg == StepGate(c, r, x) && Moving(cfg)
    }

    /** Wait for a decision on the call, asking for one first if nobody has; None if it is there. */
    method AwaitApproval(r: Round, x: Input, ghost c: Config) returns (v: Option<Verdict>)
      requires AtGates(c, r, x) && x.risky && !x.cancelled && x.registered && x.permitted && x.withinRate
      modifies this`script, this`cfg, approvals
      ensures InRound(cfg.pc) && Future() == old(Future())
      ensures v.Some? ==> Ended(r, v.value)
      ensures var found := FindApproval(old(approvals.approvals), CallOf(r));
        v == if x.approvals && found.Some? && found.value.status == Approved then None
             else if x.approvals && found.None? && old(script) == [] then Some(Gone) else Some(Raised(WaitingApproval))
      ensures v.None? ==> AtGates(c, r, x) && x.approvals && script == old(script)
      ensures v.None? ==> FindApproval(c.store.approvals, CallOf(r)) == Some(Approval(CallOf(r), Approved))
    {
      if !x.approvals {
        return Some(Raised(WaitingApproval));
      }
      var found := approvals.FindForCall(CallOf(r));
      if found.Some? {
        return if found.value.status != Approved then Some(Raised(WaitingApproval)) else None;
      }
      var asked := AskApproval(r);
      return Some(asked);
    }

    /** Ask for an approval; the run waits for it. */
    method AskApproval(r: Round) returns (v: Verdict)
      requires InRound(Ask(r)) && At(Ask(r))
      modifies this`script, this`cfg, approvals
      ensures InRound(cfg.pc) && Future() == old(Future())
      ensures Ended(r, v) && v == if old(script) == [] then Gone else Raised(WaitingApproval)
      ensures approvals.approvals == old(approvals.approvals) +
        if old(script) == [] then [] else [Approval(CallOf(r), Pending)]
    {
      var x := Draw();
      if x.None? {
        return Gone;
      }
      approvals.Create(CallOf(r));
      return Raised(WaitingApproval);
    }

    /** Behind the approval: breaker, stored result, arguments, cancellation, then the tool. */
    method PassGates(r: Round, x: Input, ghost c: Config) returns (v: Verdict)
      requires AtGates(c, r, x) && !x.cancelled && x.registered && x.permitted && x.withinRate
      requires x.risky ==>
        x.approvals && FindApproval(c.store.approvals, CallOf(r)) == Some(Approval(CallOf(r), Approved))
      modifies this`script, this`cfg, sm, store`calls
      ensures Ended(r, v) && Future() == old(Future())
      ensures v.Raised? ==> v.terminal == Unknown || v.terminal == Cancelled
    {
      if x.breakerOpen {
        return Error(false);
      }
      var cached := store.Get(CallOf(r));
      if cached.Some? {
        return if cached.value.ok && x.tooBig then Error(false) else Result(cached.value);
      }
      if !x.valid {
        return Error(false);
      }
      if x.cancelledLate {
        return Raised(Cancelled);
      }
      FnRaises(script, x.retry);
      v := RunFn(r, x.retry, x.risky);
    }

    /** `ToolRuntime.execute`: the gates in their order, then the tool. */
    method ExecuteTool(r: Round) returns (v: Verdict)
      requires InRound(Gate(r)) && At(Gate(r))
      modifies this`script, this`cfg, sm, store`calls, approvals
      ensures Ended(r, v) && Future() == old(Future())
      ensures v.Raised? ==> v.terminal in {Cancelled, Unknown, WaitingApproval}
      ensures old(script) != [] && old(script)[0].cancelled ==> v == Raised(Cancelled)
      ensures v == Raised(WaitingApproval) <==>
        WaitsFor(old(script), FindApproval(old(approvals.approvals), CallOf(r)))
    {
      ghost var c := cfg;
      var drawn := Draw();
      if drawn.None? {
        return Gone;
      }
      var x := drawn.value;
      if x.cancelled {
        return Raised(Cancelled);
      }
      if !x.registered || !x.permitted || !x.withinRate {
        return Error(false);
      }
      if x.risky {
        var waits := AwaitApproval(r, x, c);
        if waits.Some? {
          return waits.value;
        }
      }
      v := PassGates(r, x, c);
    }

    /** Append the observation; after the round's last one reflect, and look for a loop. */
    method Record(ghost before: Config, r: Round, o: Observation) returns (status: Status)
      requires Matches(before) && sm.state == WaitingTool && |r.observations| < |r.drafts|
      requires cfg == Observe(before, r, o) && Moving(cfg)
      modifies this`messages, this`recent, sm
      ensures Recorded(status, r.(observations := r.observations + [o]))
      ensures status.Going? || status == Leaving(Failed, None)
    {
      messages := messages + [ToolReply(ReplyId(r.drafts, |r.observations|, o), o)];
      status := Going;
      if |r.observations| + 1 == |r.drafts| {
        var observing := sm.Transition(Observing);
        var reflecting := sm.Transition(Reflecting);
        recent := Remember(recent, FingerprintOf(r.drafts));
        if Looping(recent) {
          status := Leaving(Failed, None);
        }
      }
    }

    /** Where the machine stands after a tool call that came to `r`. */
    ghost predicate Recorded(status: Status, r: Round)
      reads this, sm, store, approvals
    {
      match status
      case Going => At(if |r.observations| < |r.drafts| then NextTool(r) else AddStep(r))
      case Leaving(terminal, answer) => At(Finish(terminal, answer))
      case Dead => Left()
    }

    /** `_execute_one_tool` for well-formed arguments: row, pipeline, final record. */
    method CallTool(r: Round) returns (status: Status, r': Round)
      requires InRound(Gate(r)) && At(Gate(r))
      modifies this`script, this`cfg, this`messages, this`recent, sm, store`calls, approvals
      ensures InRound(cfg.pc) && Future() == old(Future())
      ensures Recorded(status, r')
      ensures status.Going? ==> r'.drafts == r.drafts && |r'.observations| == |r.observations| + 1
    {
      var v := ExecuteTool(r);
      match v {
        case Gone => return Dead, r;
        case Raised(terminal) => return Leaving(terminal, None), r;
        case Result(result) => status, r' := Finalize(r, result);
        case Error(_) => status, r' := Finalize(r, REFUSED);
      }
    }

    /** The final record of a call that came to a result or an error, and its observation. */
    method Finalize(r: Round, result: ToolResult) returns (status: Status, r': Round)
      requires InRound(Gate(r)) && At(cfg.pc)
      requires cfg.pc == Deliver(r, result) || (cfg.pc.Refuse? && cfg.pc.round == r && result == REFUSED)
      modifies this`script, this`cfg, this`messages, this`recent, sm, store`calls
      ensures InRound(cfg.pc) && Future() == old(Future())
      ensures Recorded(status, r')
      ensures status.Going? ==> r'.drafts == r.drafts && |r'.observations| == |r.observations| + 1
    {
      ghost var c := cfg;
      var x := Draw();
      if x.None? {
        return Dead, r;
      }
      AdvanceDelivers(c, x.value, r, result);
      status, r' := Conclude(r, result, c);
    }

    /** Write the record, tell the model. */
    method Conclude(r: Round, result: ToolResult, ghost c: Config) returns (status: Status, r': Round)
      requires |r.observations| < |r.drafts| && Matches(c) && sm.state == WaitingTool && Moving(cfg)
      requires cfg == Observe(WriteResult(c, r, result), r, Observation(CurrentDraft(r).name, Some(CallOf(r)), result))
      modifies this`messages, this`recent, sm, store`calls
      ensures Recorded(status, r') && !status.Dead?
      ensures r' == r.(observations := r.observations + [Observation(CurrentDraft(r).name, Some(CallOf(r)), result)])
    {
      store.PutResult(CallOf(r), result);
      var o := Observation(CurrentDraft(r).name, Some(CallOf(r)), result);
      status := Record(WriteResult(c, r, result), r, o);
      r' := r.(observations := r.observations + [o]);
    }

    /** One entry of a reply's tool calls. */
    method OneTool(r: Round) returns (status: Status, r': Round)
      requires InRound(NextTool(r)) && At(NextTool(r))
      modifies this`script, this`cfg, this`messages, this`spent, this`recent, sm, store`calls, approvals
      ensures InRound(cfg.pc) && Future() == old(Future())
      ensures Recorded(status, r')
      ensures status.Going? ==> r'.drafts == r.drafts && |r'.observations| == |r.observations| + 1
      ensures spent.steps == old(spent.steps)
    {
      ghost var c := cfg;
      var x := Draw();
      if x.None? {
        return Dead, r;
      }
      spent := spent.(toolCalls := spent.toolCalls + 1);
      match CurrentDraft(r).arguments {
        case Malformed =>
          return Leaving(Failed, None), r;
        case NotObject =>
          var o := Observation(CurrentDraft(r).name, None, ToolResult(false, None));
          ghost var s := c.local.spent;
          status := Record(c.(local := c.local.(spent := s.(toolCalls := s.toolCalls + 1))), r, o);
          r' := r.(observations := r.observations + [o]);
        case Object(_) =>
          store.InsertToolCall(CallOf(r));
          status, r' := CallTool(r);
      }
    }

    // ---------- the loop ----------

    /** Where the machine stands after a part of the loop that should lead to `pc`. */
    ghost predicate Came(status: Status, pc: Pc)
      reads this, sm, store, approvals
    {
      match status
      case Going => At(pc)
      case Leaving(terminal, answer) => At(Finish(terminal, answer))
      case Dead => Left()
    }

    /** Run every tool call of a reply. */
    method ToolRound(drafts: seq<Draft>) returns (status: Status, r: Round)
      requires drafts != [] && At(Announced(drafts))
      modifies this`script, this`cfg, this`messages, this`spent, this`recent, sm, store`calls, store`state, approvals
      ensures InRound(cfg.pc) && Future() == old(Future())
      ensures Came(status, AddStep(r)) && spent.steps == old(spent.steps)
    {
      r := Round(drafts, []);
      var x := Draw();
      if x.None? {
        return Dead, r;
      }
      store.SetState(sm.state);
      messages := messages + [ToolCalls(drafts)];
      status := Going;
      while |r.observations| < |drafts|
        invariant InRound(cfg.pc) && Future() == old(Future()) && spent.steps == old(spent.steps)
        invariant r.drafts == drafts && |r.observations| <= |drafts|
        invariant status.Going? && Recorded(status, r)
        decreases |drafts| - |r.observations|
      {
        status, r := OneTool(r);
        if !status.Going? {
          return;
        }
      }
    }

    /** Store the row of a round. */
    method SaveRow(r: Round) returns (status: Status)
      requires InRound(AddStep(r)) && At(AddStep(r))
      modifies this`script, this`cfg, store`steps
      ensures InRound(cfg.pc) && Future() == old(Future()) && Came(status, SaveStep(r))
    {
      ghost var c := cfg;
      var x := Draw();
      if x.None? {
        return Dead;
      }
      var added := store.AddStep(StepRow(spent.steps, r.drafts, r.observations));
      assert added <==> !SeqTaken(c.store, NextSeq(c));
      status := if added then Going else Leaving(Failed, None);
    }

    /** Store the checkpoint that covers the row. */
    method SaveCheckpoint(r: Round) returns (status: Status)
      requires InRound(SaveStep(r)) && At(SaveStep(r))
      modifies this`script, this`cfg, sm, store`checkpoint
      ensures InRound(cfg.pc) && Future() == old(Future()) && Came(status, Back)
    {
      var x := Draw();
      if x.None? {
        return Dead;
      }
      store.SetCheckpoint(Checkpoint(messages, spent));
      var running := sm.Transition(Running);
      status := Going;
    }

    /** Store the state: the round is over. */
    method SaveState() returns (status: Status)
      requires At(Back)
      modifies this`script, this`cfg, store`state
      ensures InRound(cfg.pc) && Future() == old(Future()) && Came(status, Head)
    {
      var x := Draw();
      if x.None? {
        return Dead;
      }
      store.SetState(sm.state);
      status := Going;
    }

    /** Store the step of a final answer. */
    method SaveAnswer(text: string) returns (status: Status)
      requires At(AddFinal(text))
      modifies this`script, this`cfg, store`steps
      ensures InRound(cfg.pc) && Future() == old(Future()) && !status.Going? && Came(status, Head)
    {
      ghost var c := cfg;
      var x := Draw();
      if x.None? {
        return Dead;
      }
      var added := store.AddStep(StepRow(spent.steps, [], []));
      assert added <==> !SeqTaken(c.store, NextSeq(c));
      status := Leaving(if added then Completed else Failed, Some(text));
    }

    /** Budget, cancellation and pause: Going if none of them ends the drive. */
    method CheckLimits(x: Input, ghost c: Config) returns (status: Status)
      requires c.pc == Head && Matches(c) && cfg == StepHead(c, x) && Moving(cfg)
      modifies sm
      ensures status.Going? ==> !Exceeded(run.budget, spent, x.late) && !x.cancelled && !x.paused && Matches(c)
      ensures status.Going? || (status.Leaving? && At(Finish(status.terminal, status.answer)))
      ensures Exceeded(run.budget, spent, x.late) ==> status == Leaving(TimedOut, None)
    {
      if Exceeded(run.budget, spent, x.late) {
        var ok := sm.Transition(TimedOut);
        return Leaving(TimedOut, None);
      }
      if x.cancelled {
        var ok := sm.Transition(Cancelled);
        return Leaving(Cancelled, None);
      }
      if x.paused {
        var ok := sm.Transition(Paused);
        return Leaving(Paused, None);
      }
      status := Going;
    }

    /** The limits, then the model. */
    method AskModel() returns (status: Status, reply: Option<Reply>)
      requires At(Head)
      modifies this`script, this`cfg, sm
      ensures InRound(cfg.pc) && Future() == old(Future())
      ensures status.Going? ==> reply.Some? && At(Replied(reply.value))
      ensures status.Going? ==> old(script) != [] && var x := old(script)[0];
        !x.late && !x.cancelled && !x.paused && x.answer == Answered(reply.value)
      ensures !status.Going? ==> Came(status, Head)
      ensures status != Leaving(TimedOut, None) && old(script) != [] ==>
        && spent.steps < run.budget.maxSteps && spent.tokens < run.budget.maxTokens
        && spent.cost < run.budget.maxCost && spent.toolCalls < run.budget.maxToolCalls && !old(script)[0].late
    {
      reply := None;
      ghost var c := cfg;
      var drawn := Draw();
      if drawn.None? {
        return Dead, None;
      }
      var x := drawn.value;
      status := CheckLimits(x, c);
      if status.Going? {
        status, reply := CallModel(x, c);
      }
    }

    method CallModel(x: Input, ghost c: Config) returns (status: Status, reply: Option<Reply>)
      requires c.pc == Head && Matches(c) && cfg == StepHead(c, x) && Moving(cfg)
      requires !Exceeded(run.budget, spent, x.late) && !x.cancelled && !x.paused
      modifies sm
      ensures status.Going? ==> reply.Some? && At(Replied(reply.value)) && x.answer == Answered(reply.value)
      ensures status.Going? || (status.Leaving? && At(Finish(status.terminal, status.answer)))
    {
      match x.answer {
        case ModelCancelled => return Leaving(Cancelled, None), None;
        case ModelFailed => return Leaving(Failed, None), None;
        case Answered(answer) =>
          if x.slow {
            var ok := sm.Transition(TimedOut);
            return Leaving(TimedOut, None), None;
          }
          return Going, Some(answer);
      }
    }

    /** Record the call and count its spending; an answer completes the machine. */
    method Pay(reply: Reply) returns (status: Status)
      requires At(Replied(reply))
      modifies this`script, this`cfg, this`spent, sm
      ensures InRound(cfg.pc) && Future() == old(Future())
      ensures Came(status, if reply.drafts == [] then AddFinal(reply.text) else Planned(reply.drafts))
      ensures status.Going? || status.Dead?
      ensures status.Going? ==> spent == Spent(old(spent.steps) + 1, old(spent.tokens) + reply.tokens,
        old(spent.cost) + reply.cost, old(spent.toolCalls))
    {
      ghost var c := cfg;
      var x := Draw();
      if x.None? {
        return Dead;
      }
      spent := spent.(steps := spent.steps + 1, tokens := spent.tokens + reply.tokens, cost := spent.cost + reply.cost);
      if reply.drafts == [] {
        Reflect(reply, c);
      }
      status := Going;
    }

    /** An answer ends the machine's walk. */
    method Reflect(reply: Reply, ghost c: Config)
      requires cfg == StepReplied(c, reply) && reply.drafts == [] && Moving(cfg)
      requires c.run == run && sm.Valid() && sm.state == Running
      requires c.store == store.Abs(approvals.approvals) && c.local.messages == messages && c.local.recent == recent
      requires c.local.sm == sm.state && c.local.trail == sm.trail && !c.local.raised
      requires cfg.local.spent == spent
      modifies sm
      ensures At(AddFinal(reply.text))
    {
      var reflecting := sm.Transition(Reflecting);
      var completed := sm.Transition(Completed);
    }

    /** The checkpoint before any tool runs: decided, not yet executed. */
    method Plan(drafts: seq<Draft>) returns (status: Status)
      requires drafts != [] && At(Planned(drafts))
      modifies this`script, this`cfg, sm, store`checkpoint
      ensures InRound(cfg.pc) && Future() == old(Future())
      ensures Came(status, Announced(drafts)) && (status.Going? || status.Dead?)
    {
      var x := Draw();
      if x.None? {
        return Dead;
      }
      store.SetCheckpoint(Checkpoint(messages, spent));
      var waiting := sm.Transition(WaitingTool);
      status := Going;
    }

    /** After the round: row, checkpoint, state. */
    method SaveRound(r: Round) returns (status: Status)
      requires InRound(AddStep(r)) && At(AddStep(r))
      modifies this`script, this`cfg, sm, store
      ensures InRound(cfg.pc) && Future() == old(Future()) && Came(status, Head)
    {
      status := SaveRow(r);
      if status.Going? {
        status := SaveCheckpoint(r);
        if status.Going? {
          status := SaveState();
        }
      }
    }

    /** A turn that asks for tools. */
    method ToolTurn(drafts: seq<Draft>) returns (status: Status)
      requires drafts != [] && At(Planned(drafts))
      modifies this`script, this`cfg, this`messages, this`spent, this`recent, sm, store, approvals
      ensures InRound(cfg.pc) && Future() == old(Future()) && Came(status, Head)
      ensures spent.steps == old(spent.steps)
    {
      status := Plan(drafts);
      if status.Going? {
        var r;
        status, r := ToolRound(drafts);
        if status.Going? {
          status := SaveRound(r);
        }
      }
    }

    /** One turn of the loop after the model replied. */
    method Turn(reply: Reply) returns (status: Status)
      requires At(Replied(reply))
      modifies this`script, this`cfg, this`messages, this`spent, this`recent, sm, store, approvals
      ensures InRound(cfg.pc) && Future() == old(Future()) && Came(status, Head)
      ensures status.Going? ==> spent.steps == old(spent.steps) + 1
    {
      status := Pay(reply);
      if status.Going? {
        if reply.drafts == [] {
          status := SaveAnswer(reply.text);
        } else {
          status := ToolTurn(reply.drafts);
        }
      }
    }

    /** A whole drive, from the state write that starts it to the row that ends it: whatever
    the script holds, the store ends exactly as the step machine leaves it. */
    method DriveLoop()
      requires At(Start)
      modifies this`script, this`cfg, this`messages, this`spent, this`recent, sm, store, approvals
      ensures InRound(cfg.pc) && cfg == old(Future())
      ensures cfg.store == store.Abs(approvals.approvals)
      ensures cfg.pc.Asleep? || script == []
    {
      var begun := Draw();
      if begun.None? {
        return;
      }
      store.SetState(sm.state);
      var status := Going;
      while status.Going?
        invariant InRound(cfg.pc) && Future() == old(Future()) && Came(status, Head)
        decreases status.Going?, StepLimit(run.budget) - spent.steps
      {
        var reply;
        status, reply := AskModel();
        if status.Going? {
          status := Turn(reply.value);
        }
      }
      if !status.Dead? {
        End(status.terminal, status.answer);
      }
    }

    /** `finish_run`, the drive's last write. */
    method End(terminal: AgentState, answer: Option<string>)
      requires At(Finish(terminal, answer))
      modifies this`script, this`cfg, store`state, store`answer
      ensures InRound(cfg.pc) && cfg == old(Future())
      ensures cfg.store == store.Abs(approvals.approvals)
      ensures cfg.pc.Asleep? || script == []
      ensures old(script) != [] ==> store.state == terminal && store.answer == answer
    {
      var x := Draw();
      if x.Some? {
        store.FinishRun(terminal, answer);
      }
    }
  }

  lemma AdvanceDelivers(c: Config, x: Input, r: Round, result: ToolResult)
    requires InRound(c.pc) && (c.pc == Deliver(r, result) || (c.pc.Refuse? && c.pc.round == r && result == REFUSED))
    ensures |r.observations| < |r.drafts|
    ensures Advance(c, x) ==
      Observe(WriteResult(c, r, result), r, Observation(CurrentDraft(r).name, Some(CallOf(r)), result))
  {
  }

  /** `execute_run`, the lock taken: a new run row, then its first drive. */
  method ExecuteRun(run: Run, approvals: ApprovalService, script: seq<Input>) returns (store: RunStore)
    requires approvals.approvals == []
    modifies approvals
    ensures fresh(store)
    ensures store.Abs(approvals.approvals) == Drive(Begin(run), script).store
  {
    store := new RunStore();
    var runner := new Runner(run, store, approvals, run.base, NOTHING_SPENT, script, Begin(run));
    runner.DriveLoop();
  }

  /** `resume_run`, the lock taken: a completed run stays as it is, a run without a checkpoint is
  failed, any other is driven on from its checkpoint. */
  method ResumeRun(run: Run, store: RunStore, approvals: ApprovalService, script: seq<Input>, ghost c: Config)
    requires c.pc.Asleep? && c.run == run && c.store == store.Abs(approvals.approvals)
    modifies store, approvals
    ensures InRound(Resume(c).pc)
    ensures store.Abs(approvals.approvals) == Drive(Resume(c), script).store
    ensures old(store.state) == Completed ==> store.Abs(approvals.approvals) == old(store.Abs(approvals.approvals))
    ensures old(store.state) != Completed && old(store.checkpoint).None? ==>
      store.Abs(approvals.approvals) == if script == [] then old(store.Abs(approvals.approvals))
        else old(store.Abs(approvals.approvals)).(state := Failed, answer := None)
  {
    StepStaysInRound(c, AgentMachine.Event.ResumeRun);
    if store.state == Completed {
      return;
    }
    if store.checkpoint.None? {
      if script != [] {
        store.FinishRun(Failed, None);
        assert Drive(Advance(Resume(c), script[0]), script[1..]) == Advance(Resume(c), script[0]);
      }
      return;
    }
    var cp := store.checkpoint.value;
    var runner := new Runner(run, store, approvals, cp.messages, cp.spent, script, Resume(c));
    runner.DriveLoop();
  }
}
