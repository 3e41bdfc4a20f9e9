/** What a run has spent: exactly the replies it was given and the calls it made, crashes and resumes
included, and never a model call beyond any limit. */
module AgentBudget {
  import opened Options
  import opened AgentStates
  import opened AgentContext
  import opened AgentMachine
  import opened AgentSafety
  import opened AgentOutcomes

  /** The replies counted and the tool calls begun so far, and those the checkpoint covers. */
  datatype Account = Account(replies: seq<Reply>, toolCalls: nat, savedReplies: seq<Reply>, savedToolCalls: nat)

  function TokensOf(replies: seq<Reply>): nat {
    if replies == [] then 0 else TokensOf(replies[..|replies| - 1]) + replies[|replies| - 1].tokens
  }

  function CostOf(replies: seq<Reply>): real {
    if replies == [] then 0.0 else CostOf(replies[..|replies| - 1]) + replies[|replies| - 1].cost
  }

  /** Bookkeeping by where the run stands and what happens: a reply and a tool call count when they are
  counted, a checkpoint saves the books, a resume goes back to what was saved. */
  function Booked(a: Account, c: Config, e: Event): Account {
    if e.ResumeRun? && c.pc.Asleep? then a.(replies := a.savedReplies, toolCalls := a.savedToolCalls)
    else if !e.Work? then a
    else
      match c.pc
      case Replied(reply) => a.(replies := a.replies + [reply])
      case NextTool(_) => a.(toolCalls := a.toolCalls + 1)
      case Planned(_) => a.(savedReplies := a.replies, savedToolCalls := a.toolCalls)
      case SaveStep(_) => a.(savedReplies := a.replies, savedToolCalls := a.toolCalls)
      case _ => a
  }

  ghost function Books(a: Account, c: Config, es: seq<Event>): Account
    requires InRound(c.pc)
    decreases |es|
  {
    if es == [] then a else StepStaysInRound(c, es[0]); Books(Booked(a, c, es[0]), Step(c, es[0]), es[1..])
  }

  const NOTHING_BOOKED := Account([], 0, [], 0)

  /** What so many tool calls and these replies come to. */
  function Total(replies: seq<Reply>, toolCalls: nat): Spent {
    Spent(|replies|, TokensOf(replies), CostOf(replies), toolCalls)
  }

  /** The spending says what the books say, in memory and in the checkpoint. */
  predicate Balanced(c: Config, a: Account) {
    && InRound(c.pc)
    && (!c.pc.Asleep? && !c.pc.Finish? ==>
          c.local.spent == Total(a.replies, a.toolCalls))
    && var saved := if c.store.checkpoint.Some? then c.store.checkpoint.value.spent else NOTHING_SPENT;
       saved == Total(a.savedReplies, a.savedToolCalls)
  }

  lemma OneMoreReply(replies: seq<Reply>, reply: Reply, toolCalls: nat)
    ensures var t := Total(replies, toolCalls);
      Total(replies + [reply], toolCalls) ==
        Spent(t.steps + 1, t.tokens + reply.tokens, t.cost + reply.cost, t.toolCalls)
  {
    assert (replies + [reply])[..|replies|] == replies;
  }

  lemma ReplySpends(c: Config, reply: Reply)
    requires c.pc == Replied(reply)
    ensures var d, s := StepReplied(c, reply), c.local.spent;
      && d.local.spent == Spent(s.steps + 1, s.tokens + reply.tokens, s.cost + reply.cost, s.toolCalls)
      && d.store == c.store && !d.pc.Asleep? && InRound(d.pc)
  {
  }

  lemma ReplyBalances(c: Config, a: Account, x: Input)
    requires Balanced(c, a) && c.pc.Replied?
    ensures Balanced(AdvanceModel(c, x), Booked(a, c, Work(x)))
  {
    OneMoreReply(a.replies, c.pc.reply, a.toolCalls);
    ReplySpends(c, c.pc.reply);
  }

  lemma HeadBalances(c: Config, a: Account, x: Input)
    requires Balanced(c, a) && c.pc.Head?
    ensures Balanced(AdvanceModel(c, x), Booked(a, c, Work(x)))
  {
  }

  lemma ModelBalances(c: Config, a: Account, x: Input)
    requires Balanced(c, a) && BeforeTools(c.pc)
    ensures Balanced(AdvanceModel(c, x), Booked(a, c, Work(x)))
  {
    if c.pc.Replied? {
      ReplyBalances(c, a, x);
    } else if c.pc.Head? {
      HeadBalances(c, a, x);
    }
  }

  /** The pipeline counts the call it begins with, and nothing else. */
  lemma ToolBalances(c: Config, a: Account, x: Input)
    requires Balanced(c, a) && InTools(c.pc)
    ensures Balanced(AdvanceTool(c, x), Booked(a, c, Work(x)))
  {
    PipelineSpends(c, x);
    PipelineCounts(c, x);
  }

  lemma PipelineCounts(c: Config, x: Input)
    requires InRound(c.pc) && InTools(c.pc)
    ensures AdvanceTool(c, x).local.spent ==
      c.local.spent.(toolCalls := c.local.spent.toolCalls + if c.pc.NextTool? then 1 else 0)
  {
    match c.pc
    case NextTool(r) =>
      var s := c.local.spent;
      var counted := c.(local := c.local.(spent := s.(toolCalls := s.toolCalls + 1)));
      ObserveSpendsNothing(counted, r, Observation(CurrentDraft(r).name, None, ToolResult(false, None)));
    case Refuse(r, _) => DeliverStores(c, r, REFUSED);
    case Deliver(r, result) => DeliverStores(c, r, result);
    case _ =>
  }

  lemma SaveBalances(c: Config, a: Account, x: Input)
    requires Balanced(c, a) && !BeforeTools(c.pc) && !InTools(c.pc)
    ensures Balanced(AdvanceSave(c), Booked(a, c, Work(x)))
  {
  }

  lemma StepBalances(c: Config, a: Account, e: Event)
    requires Balanced(c, a)
    ensures Balanced(Step(c, e), Booked(a, c, e))
  {
    StepStaysInRound(c, e);
    if e.Work? {
      if BeforeTools(c.pc) {
        ModelBalances(c, a, e.x);
      } else if InTools(c.pc) {
        ToolBalances(c, a, e.x);
      } else {
        SaveBalances(c, a, e.x);
      }
    } else if e.ResumeRun? && c.store.checkpoint.Some? {
      WakeSpends(c.run, c.store.checkpoint.value.messages, c.store.checkpoint.value.spent);
    }
  }

  lemma {:induction false} RunBalances(c: Config, a: Account, es: seq<Event>)
    requires Balanced(c, a)
    ensures Balanced(Play(c, es), Books(a, c, es))
    decreases |es|
  {
    if es != [] {
      StepBalances(c, a, es[0]);
      RunBalances(Step(c, es[0]), Booked(a, c, es[0]), es[1..]);
    }
  }

  /** Nothing but the number of steps, the tokens and the cost of the replies counted, the tool calls
  begun and the clock decides. */
  predicate WithinLimits(b: Budget, a: Account, late: bool) {
    && |a.replies| < b.maxSteps && TokensOf(a.replies) < b.maxTokens && CostOf(a.replies) < b.maxCost
    && a.toolCalls < b.maxToolCalls && !late
  }

  /** In every run, from its creation: at the head of its loop a model call is completed exactly if what
  the run has been given and has called so far is within every limit, it is in time, neither cancelled
  nor paused, and the model answers; and beyond any limit the drive is recorded as TIMEOUT. */
  lemma NoCallBeyondBudget(run: Run, es: seq<Event>, x: Input, y: Input)
    requires Play(Begin(run), es).pc.Head?
    ensures var c, a := Play(Begin(run), es), Books(NOTHING_BOOKED, Begin(run), es);
      && InRound(Advance(c, x).pc)
      && (Advance(c, x).ledger.llm > c.ledger.llm <==>
            WithinLimits(run.budget, a, x.late) && !x.cancelled && !x.paused && x.answer.Answered?)
      && (!WithinLimits(run.budget, a, x.late) ==>
            var d := Advance(Advance(c, x), y); d.pc.Asleep? && d.store == c.store.(state := TimedOut, answer := None))
  {
    var c := Play(Begin(run), es);
    WakeSpends(run, run.base, NOTHING_SPENT);
    RunBalances(Begin(run), NOTHING_BOOKED, es);
    BeginSpends(run);
    WorkIsBounded(Begin(run), es);
    ModelCalledIff(c, Work(x));
    StepStaysInRound(c, Work(x));
    TimedOutIff(c, x);
  }
}
