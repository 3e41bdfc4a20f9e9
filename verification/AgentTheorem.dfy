/** The whole life of a run, put together. */
module AgentTheorem {
  import opened AgentContext
  import opened AgentMachine
  import opened AgentSafety
  import opened AgentCalls
  import opened AgentReplay
  import opened AgentLoops
  import opened AgentStore
  import opened AgentRuntime

  /** What holds of a run resumed so many times, for each of its calls: no transition was refused;
  at most the step limit plus one model call per drive were completed; the call was executed at most
  once more than rounds were lost; one approval per call; and the steps are in order, no three of one
  drive alike, and rebuild the conversation. */
  ghost predicate Sound(run: Run, c: Config, resumes: nat, id: CallId) {
    && Moving(c)
    && SavedSteps(c) <= StepLimit(run.budget)
    && c.ledger.llm <= StepLimit(run.budget) + 1 + resumes
    && ResultsAt(c) && Tallied(c, id) && CountOf(c.ledger, id).rounds <= CountOf(c.ledger, id).lost + 1
    && Guarded(c)
    && Increasing(c.store.steps)
    && NoTriple(Fingerprints(DriveRows(c)))
    && Retold(c)
  }

  /** From its creation, through any steps, crashes, resumes, abandonments and decisions. */
  lemma LifeOfARun(run: Run, es: seq<Event>, id: CallId)
    ensures Sound(run, Play(Begin(run), es), Resumes(es), id)
  {
    BeginMoves(run);
    TransitionsAreLegal(Begin(run), es);
    BeginSpends(run);
    WorkIsBounded(Begin(run), es);
    BeginTallies(run, id);
    AtMostOnce(Begin(run), es, id);
    ApprovalsGuard(Begin(run), es, id);
    BeginRetells(run);
    StoryIsRetold(Begin(run), es);
    BeginUnrepeated(run);
    NoDriveRepeats(Begin(run), es);
  }

  /** What may happen to a run whose drive has ended or died: another drive, a decision on one of its
  approvals, or its abandonment by the recovery. */
  datatype Act =
    | DriveOn(script: seq<Input>)
    | DecideOn(index: nat, approve: bool, expired: bool)
    | GiveUp

  function Drives(acts: seq<Act>): nat {
    if acts == [] then 0 else Drives(acts[..|acts| - 1]) + if acts[|acts| - 1].DriveOn? then 1 else 0
  }

  /** The store is one the machine leaves at rest after these events. */
  ghost predicate Reached(run: Run, store: Store, es: seq<Event>, drives: nat) {
    var c := Play(Begin(run), es);
    InRound(c.pc) && c.pc.Asleep? && c.run == run && c.store == store && Resumes(es) == drives
  }

  /** The code itself, run after run: a first drive, and then any sequence of drives, decisions and
  abandonments, each drive cut off by its script wherever that ends. The store it leaves is one the
  step machine reaches, so all of the above holds of it. */
  method LiveThrough(run: Run, approvals: ApprovalService, script: seq<Input>, acts: seq<Act>)
    returns (store: RunStore, ghost es: seq<Event>)
    requires approvals.approvals == []
    modifies approvals
    ensures Reached(run, store.Abs(approvals.approvals), es, Drives(acts))
    ensures forall id :: Sound(run, Play(Begin(run), es), Drives(acts), id)
  {
    store := ExecuteRun(run, approvals, script);
    es := WorkThenDie(Begin(run), script);
    for k := 0 to |acts|
      invariant fresh(store)
      invariant Reached(run, store.Abs(approvals.approvals), es, Drives(acts[..k]))
    {
      assert acts[..k + 1][..k] == acts[..k];
      es := ActOnce(run, store, approvals, acts[k], es, Drives(acts[..k]));
    }
    assert acts[..|acts|] == acts;
    forall id ensures Sound(run, Play(Begin(run), es), Drives(acts), id) {
      LifeOfARun(run, es, id);
    }
  }

  method ActOnce(run: Run, store: RunStore, approvals: ApprovalService, act: Act,
      ghost es: seq<Event>, ghost drives: nat)
    returns (ghost es': seq<Event>)
    requires Reached(run, store.Abs(approvals.approvals), es, drives)
    modifies store, approvals
    ensures Reached(run, store.Abs(approvals.approvals), es', drives + if act.DriveOn? then 1 else 0)
  {
    ghost var c := Play(Begin(run), es);
    match act {
      case DriveOn(script) =>
        AgentRuntime.ResumeRun(run, store, approvals, script, c);
        ghost var next := ResumeThenWork(c, script);
        PlayAppend(Begin(run), es, next);
        ResumesAppend(es, next);
        es' := es + next;
      case DecideOn(index, approve, expired) =>
        var status := approvals.Decide(index, approve, expired);
        es' := es + [DecideApproval(index, approve, expired)];
        PlayOneMore(Begin(run), es, DecideApproval(index, approve, expired));
        ResumesOneMore(es, DecideApproval(index, approve, expired));
      case GiveUp =>
        var abandoned := store.Abandon();
        es' := es + [AbandonRun];
        PlayOneMore(Begin(run), es, AbandonRun);
        ResumesOneMore(es, AbandonRun);
    }
  }

  lemma {:induction false} ResumesAppend(a: seq<Event>, b: seq<Event>)
    ensures Resumes(a + b) == Resumes(a) + Resumes(b)
  {
    if a == [] {
      assert a + b == b;
    } else {
      assert (a + b)[1..] == a[1..] + b;
      ResumesAppend(a[1..], b);
    }
  }

  lemma ResumesOneMore(es: seq<Event>, e: Event)
    ensures Resumes(es + [e]) == Resumes(es) + if e.ResumeRun? then 1 else 0
  {
    ResumesAppend(es, [e]);
    assert Resumes([e][1..]) == 0;
  }

  /** A drive on a script, and then its death, as machine events. */
  lemma {:induction false} WorkThenDie(c: Config, script: seq<Input>) returns (es: seq<Event>)
    requires InRound(c.pc)
    ensures Play(c, es).store == Drive(c, script).store && Play(c, es).run == c.run
    ensures Play(c, es).pc.Asleep? && Resumes(es) == 0
    decreases |script|
  {
    if script == [] || c.pc.Asleep? {
      es := [Die];
      assert Play(Step(c, Die), es[1..]) == Step(c, Die);
    } else {
      StepStaysInRound(c, Work(script[0]));
      assert Advance(c, script[0]).run == c.run by {
        SameAfterStep(c, Work(script[0]));
      }
      var rest := WorkThenDie(Advance(c, script[0]), script[1..]);
      es := [Work(script[0])] + rest;
    }
  }

  lemma ResumeThenWork(c: Config, script: seq<Input>) returns (es: seq<Event>)
    requires InRound(c.pc)
    ensures InRound(Resume(c).pc)
    ensures Play(c, es).store == Drive(Resume(c), script).store && Play(c, es).run == c.run
    ensures Play(c, es).pc.Asleep? && Resumes(es) == 1
  {
    StepStaysInRound(c, Event.ResumeRun);
    var rest := WorkThenDie(Resume(c), script);
    es := [Event.ResumeRun] + rest;
  }
}
