/** Messages of a run: app/agent/context/builder.py, summary.py and the rebuild of
app/agent/runtime/runtime.py. JSON is a faithful encoding; a message keeps what it encodes. */
module AgentContext {
  import opened Options

  /** The parsed form of a draft's arguments: no JSON, JSON but no object, or an object. */
  datatype Arguments = Malformed | NotObject | Object(canonical: string)

  /** One tool call as the model asked for it. */
  datatype Draft = Draft(id: string, name: string, raw: string, arguments: Arguments)

  /** The idempotency key within one run: same tool, same arguments, same key. */
  datatype CallId = CallId(tool: string, arguments: string)

  datatype ToolResult = ToolResult(ok: bool, data: Option<string>)

  datatype Observation = Observation(tool: string, callId: Option<CallId>, result: ToolResult)

  datatype Msg =
    | Text(role: string, content: string)
    | ToolCalls(drafts: seq<Draft>)
    | ToolReply(draftId: string, observation: Observation)

  /** A persisted step; the last step of a completed run has neither drafts nor observations. */
  datatype StepRow = StepRow(seqNo: nat, drafts: seq<Draft>, observations: seq<Observation>)

  // ---------- building and rebuilding ----------

  function InitialMessages(prompt: string, history: seq<Msg>, user: string): (r: seq<Msg>)
    ensures |r| == |history| + 2 && r[1..|r| - 1] == history
    ensures r[0] == Text("system", prompt) && r[|r| - 1] == Text("user", user)
  {
    [Text("system", prompt)] + history + [Text("user", user)]
  }

  /** The id a tool message carries: the draft's own id, else one made from the observation. */
  function ReplyId(drafts: seq<Draft>, i: nat, o: Observation): string {
    if i < |drafts| then drafts[i].id
    else if o.callId.Some? then o.callId.value.tool + ":" + o.callId.value.arguments else "call_failed"
  }

  function Replies(drafts: seq<Draft>, observations: seq<Observation>): (r: seq<Msg>)
    ensures |r| == |observations|
  {
    if observations == [] then []
    else
      var last := |observations| - 1;
      Replies(drafts, observations[..last]) + [ToolReply(ReplyId(drafts, last, observations[last]), observations[last])]
  }

  function StepMessages(row: StepRow): (r: seq<Msg>)
    ensures row.drafts != [] ==> |r| > 0
    ensures row.drafts == [] && row.observations == [] ==> r == []
  {
    (if row.drafts != [] then [ToolCalls(row.drafts)] else []) + Replies(row.drafts, row.observations)
  }

  /** Each tool message answers its own call: the i-th carries the id of the i-th call. */
  lemma {:induction false} RepliesAnswerTheirCalls(drafts: seq<Draft>, observations: seq<Observation>, i: nat)
    requires i < |observations| <= |drafts|
    ensures Replies(drafts, observations)[i] == ToolReply(drafts[i].id, observations[i])
  {
    if i < |observations| - 1 {
      RepliesAnswerTheirCalls(drafts, observations[..|observations| - 1], i);
    }
  }

  /** The messages of a run whose steps, in order, are `rows`. */
  function Rebuild(base: seq<Msg>, rows: seq<StepRow>): (r: seq<Msg>)
    ensures |r| >= |base|
  {
    if rows == [] then base else Rebuild(base, rows[..|rows| - 1]) + StepMessages(rows[|rows| - 1])
  }

  method RebuildMessages(base: seq<Msg>, rows: seq<StepRow>) returns (messages: seq<Msg>)
    ensures messages == Rebuild(base, rows)
  {
    messages := base;
    for k := 0 to |rows|
      invariant messages == Rebuild(base, rows[..k])
    {
      assert rows[..k + 1][..k] == rows[..k];
      ghost var before := messages;
      var row := rows[k];
      if row.drafts != [] {
        messages := messages + [ToolCalls(row.drafts)];
      }
      ghost var called := messages;
      for i := 0 to |row.observations|
        invariant messages == called + Replies(row.drafts, row.observations[..i])
      {
        assert row.observations[..i + 1][..i] == row.observations[..i];
        messages := messages + [ToolReply(ReplyId(row.drafts, i, row.observations[i]), row.observations[i])];
      }
      assert row.observations[..|row.observations|] == row.observations;
      assert messages == before + StepMessages(row);
    }
    assert rows[..|rows|] == rows;
  }

  // ---------- the context budget ----------

  /** How long a message is, and what a block of old messages is folded into, if anything. */
  datatype Measure = Measure(tokens: Msg -> nat, summary: seq<Msg> -> Option<string>)

  const MAX_CONTEXT_TOKENS := 4000
  const KEEP_RECENT := 5

  function TotalTokens(m: Measure, messages: seq<Msg>): nat {
    if messages == [] then 0
    else TotalTokens(m, messages[..|messages| - 1]) + m.tokens(messages[|messages| - 1])
  }

  /** Every message counts, once. */
  lemma TokensAddUp(m: Measure, messages: seq<Msg>, one: Msg)
    ensures TotalTokens(m, []) == 0 && TotalTokens(m, messages + [one]) == TotalTokens(m, messages) + m.tokens(one)
  {
    assert (messages + [one])[..|messages|] == messages;
  }

  function Compress(m: Measure, messages: seq<Msg>, keep: nat): (r: seq<Msg>)
    ensures |messages| <= keep ==> r == messages
    ensures |messages| > keep ==> keep <= |r| <= keep + 1
    ensures |messages| > keep ==> forall i | |r| - keep <= i < |r| :: r[i] == messages[i + |messages| - |r|]
  {
    if |messages| <= keep then messages
    else
      var cut := |messages| - keep;
      var summary := m.summary(messages[..cut]);
      var prefix := if summary.Some? then [Text("system", summary.value)] else [];
      prefix + messages[cut..]
  }

  function ApplyBudget(m: Measure, messages: seq<Msg>): seq<Msg> {
    var folded := if |messages| > 2 * KEEP_RECENT then Compress(m, messages, KEEP_RECENT) else messages;
    if TotalTokens(m, folded) <= MAX_CONTEXT_TOKENS then folded else Compress(m, folded, 2)
  }

  /** The guard under which the budget leaves a context alone. */
  predicate Fits(m: Measure, messages: seq<Msg>) {
    |messages| <= 2 || (|messages| <= 2 * KEEP_RECENT && TotalTokens(m, messages) <= MAX_CONTEXT_TOKENS)
  }

  /** A context that fits is returned unchanged; one that does not is returned shorter, except
  that three messages may come back as a summary and the last two. At most ten are left. */
  lemma BudgetIsIdentityWhenFits(m: Measure, messages: seq<Msg>)
    ensures Fits(m, messages) ==> ApplyBudget(m, messages) == messages
    ensures !Fits(m, messages) && |messages| != 3 ==> |ApplyBudget(m, messages)| < |messages|
    ensures !Fits(m, messages) ==> |ApplyBudget(m, messages)| <= |messages|
    ensures |ApplyBudget(m, messages)| <= 2 * KEEP_RECENT
  {
    assert |messages| > 2 * KEEP_RECENT ==> |Compress(m, messages, KEEP_RECENT)| <= KEEP_RECENT + 1;
  }

  /** The system message that old messages are folded into, if there is anything to say of them. */
  function Folded(m: Measure, older: seq<Msg>): seq<Msg> {
    if m.summary(older).None? then [] else [Text("system", m.summary(older).value)]
  }

  lemma CompressInNumbers(m: Measure, messages: seq<Msg>, keep: nat)
    ensures var n := |messages|;
      Compress(m, messages, keep) ==
        if n <= keep then messages else Folded(m, messages[..n - keep]) + messages[n - keep..]
  {
  }

  /** What comes back, in numbers: up to ten messages are kept, of more only the newest five with a
  summary; and if that is worth more than 4000 tokens, only the newest two with a summary. */
  lemma BudgetInNumbers(m: Measure, messages: seq<Msg>)
    ensures var n := |messages|; var r := ApplyBudget(m, messages);
      var some := if n > 10 then Folded(m, messages[..n - 5]) + messages[n - 5..] else messages;
      r == if TotalTokens(m, some) <= 4000 || |some| <= 2 then some
           else Folded(m, some[..|some| - 2]) + some[|some| - 2..]
  {
    CompressInNumbers(m, messages, 5);
    var some := if |messages| > 10 then Compress(m, messages, 5) else messages;
    CompressInNumbers(m, some, 2);
  }

  predicate SameNewestTwo(a: seq<Msg>, b: seq<Msg>) {
    |a| >= 2 && |b| >= 2 && a[|a| - 2] == b[|b| - 2] && a[|a| - 1] == b[|b| - 1]
  }

  lemma CompressKeepsNewest(m: Measure, messages: seq<Msg>, keep: nat)
    requires |messages| >= 2 && keep >= 2
    ensures SameNewestTwo(Compress(m, messages, keep), messages)
  {
    if |messages| > keep {
      var r := Compress(m, messages, keep);
      assert r[|r| - 1] == messages[|messages| - 1] && r[|r| - 2] == messages[|messages| - 2];
    }
  }

  /** Whatever is folded, the newest two messages survive in place. */
  lemma BudgetKeepsNewest(m: Measure, messages: seq<Msg>)
    requires |messages| >= 2
    ensures SameNewestTwo(ApplyBudget(m, messages), messages)
  {
    CompressKeepsNewest(m, messages, KEEP_RECENT);
    var folded := if |messages| > 2 * KEEP_RECENT then Compress(m, messages, KEEP_RECENT) else messages;
    CompressKeepsNewest(m, folded, 2);
  }

  /** A first turn, having no history, is never compressed, however long its two messages are. */
  lemma FirstTurnFits(m: Measure, prompt: string, user: string)
    ensures ApplyBudget(m, InitialMessages(prompt, [], user)) == InitialMessages(prompt, [], user)
  {
    BudgetIsIdentityWhenFits(m, InitialMessages(prompt, [], user));
  }
}
