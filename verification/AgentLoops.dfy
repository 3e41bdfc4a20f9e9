/** Loop detection: no drive stores three steps in a row that ask for the same tool calls. */
module AgentLoops {
  import opened AgentStates
  import opened AgentContext
  import opened AgentMachine
  import opened AgentReplay

  function Fingerprints(rows: seq<StepRow>): seq<Fingerprint> {
    seq(|rows|, i requires 0 <= i < |rows| => FingerprintOf(rows[i].drafts))
  }

  function Newest(fps: seq<Fingerprint>): seq<Fingerprint> {
    if |fps| > LOOP_LENGTH then fps[|fps| - LOOP_LENGTH..] else fps
  }

  predicate NoTriple(fps: seq<Fingerprint>) {
    forall i | 0 <= i < |fps| - 2 :: !(fps[i] == fps[i + 1] && fps[i + 1] == fps[i + 2])
  }

  /** The rows stored since the current drive began. */
  function DriveRows(c: Config): seq<StepRow> {
    if c.ledger.firstRow <= |c.store.steps| then c.store.steps[c.ledger.firstRow..] else []
  }

  predicate RecentAt(c: Config) {
    var fps := Fingerprints(DriveRows(c));
    if c.pc.Asleep? || c.pc.Finish? then true
    else
      && (forall r | r in DriveRows(c) :: r.drafts != [])
      && if c.pc.AddStep? then
        c.local.recent == Newest(fps + [FingerprintOf(c.pc.round.drafts)]) && !Looping(c.local.recent)
         else c.local.recent == Newest(fps)
  }

  predicate Unrepeated(c: Config) {
    && InRound(c.pc)
    && c.ledger.firstRow <= |c.store.steps|
    && NoTriple(Fingerprints(DriveRows(c)))
    && RecentAt(c)
  }

  lemma RememberIsNewest(fps: seq<Fingerprint>, fp: Fingerprint)
    ensures Remember(Newest(fps), fp) == Newest(fps + [fp])
  {
  }

  /** A step that would complete a triple is exactly what the check refuses. */
  lemma AppendKeepsNoTriple(fps: seq<Fingerprint>, fp: Fingerprint)
    requires NoTriple(fps)
    ensures NoTriple(fps + [fp]) <==> !Looping(Newest(fps + [fp]))
  {
    var all, n := fps + [fp], |fps|;
    if n >= 2 {
      var newest := Newest(all);
      assert newest[0] == all[n - 2] && newest[1] == all[n - 1] && newest[2] == all[n];
      assert Looping(newest) <==> all[n - 2] == all[n - 2 + 1] && all[n - 2 + 1] == all[n - 2 + 2];
      forall i | 0 <= i < n - 2 ensures !(all[i] == all[i + 1] && all[i + 1] == all[i + 2]) {
        assert all[i] == fps[i] && all[i + 1] == fps[i + 1] && all[i + 2] == fps[i + 2];
      }
    }
  }

  lemma FingerprintsAppend(rows: seq<StepRow>, row: StepRow)
    ensures Fingerprints(rows + [row]) == Fingerprints(rows) + [FingerprintOf(row.drafts)]
  {
  }

  lemma PipelineUnrepeated(c: Config, d: Config)
    requires Unrepeated(c) && InTools(c.pc) && InRound(d.pc)
    requires SameSteps(c, d) && Advances(c, c.pc.round, d)
    ensures Unrepeated(d)
  {
    assert DriveRows(d) == DriveRows(c);
    RememberIsNewest(Fingerprints(DriveRows(c)), FingerprintOf(c.pc.round.drafts));
  }

  lemma ModelUnrepeated(c: Config, x: Input)
    requires Unrepeated(c) && BeforeTools(c.pc)
    ensures Unrepeated(AdvanceModel(c, x))
  {
    var d := AdvanceModel(c, x);
    StepStaysInRound(c, Work(x));
    assert d.store.steps == c.store.steps && d.ledger.firstRow == c.ledger.firstRow;
    assert d.local.recent == c.local.recent && !d.pc.AddStep?;
    assert DriveRows(d) == DriveRows(c);
  }

  lemma RowAppends(c: Config, d: Config, row: StepRow)
    requires c.ledger.firstRow <= |c.store.steps| && d.ledger.firstRow == c.ledger.firstRow
    requires d.store.steps == c.store.steps + [row]
    ensures DriveRows(d) == DriveRows(c) + [row]
    ensures Fingerprints(DriveRows(d)) == Fingerprints(DriveRows(c)) + [FingerprintOf(row.drafts)]
  {
    FingerprintsAppend(DriveRows(c), row);
    assert DriveRows(d) == DriveRows(c) + [row];
  }

  /** A round's row was compared before it is stored. */
  lemma RoundUnrepeated(c: Config, d: Config, row: StepRow)
    requires Unrepeated(c) && c.pc.AddStep? && InRound(d.pc) && d.pc.SaveStep?
    requires d.store.steps == c.store.steps + [row] && d.ledger.firstRow == c.ledger.firstRow
    requires row.drafts == c.pc.round.drafts && d.local.recent == c.local.recent
    ensures Unrepeated(d)
  {
    RowAppends(c, d, row);
    AppendKeepsNoTriple(Fingerprints(DriveRows(c)), FingerprintOf(row.drafts));
  }

  lemma AnswerUnrepeated(c: Config, d: Config, row: StepRow)
    requires Unrepeated(c) && c.pc.AddFinal? && InRound(d.pc) && d.pc.Finish?
    requires d.store.steps == c.store.steps + [row] && d.ledger.firstRow == c.ledger.firstRow && row.drafts == []
    ensures Unrepeated(d)
  {
    RowAppends(c, d, row);
    var rows := DriveRows(c);
    assert |rows| > 0 ==> rows[|rows| - 1] in rows;
    AnswerIsNoRepeat(Fingerprints(rows), FingerprintOf(row.drafts));
  }

  /** An answer asks for no tool, unlike the step before it. */
  lemma AnswerIsNoRepeat(fps: seq<Fingerprint>, fp: Fingerprint)
    requires NoTriple(fps) && |fp| == 0 && (|fps| > 0 ==> |fps[|fps| - 1]| > 0)
    ensures NoTriple(fps + [fp])
  {
    var all, n := fps + [fp], |fps|;
    forall i | 0 <= i < |all| - 2 ensures !(all[i] == all[i + 1] && all[i + 1] == all[i + 2]) {
      if i < n - 2 {
        assert all[i] == fps[i] && all[i + 1] == fps[i + 1] && all[i + 2] == fps[i + 2];
      } else {
        assert all[i + 1] == fps[n - 1] && all[i + 2] == fp;
      }
    }
  }

  lemma SaveUnrepeated(c: Config)
    requires Unrepeated(c) && !BeforeTools(c.pc) && !InTools(c.pc)
    ensures Unrepeated(AdvanceSave(c))
  {
    var d := AdvanceSave(c);
    if c.pc.AddStep? && !SeqTaken(c.store, NextSeq(c)) {
      RoundUnrepeated(c, d, d.store.steps[|c.store.steps|]);
    } else if c.pc.AddFinal? && !SeqTaken(c.store, NextSeq(c)) {
      AnswerUnrepeated(c, d, d.store.steps[|c.store.steps|]);
    } else {
      assert DriveRows(d) == DriveRows(c);
    }
  }

  lemma StepUnrepeated(c: Config, e: Event)
    requires Unrepeated(c)
    ensures Unrepeated(Step(c, e))
  {
    StepStaysInRound(c, e);
    if e.Work? {
      if BeforeTools(c.pc) {
        ModelUnrepeated(c, e.x);
      } else if InTools(c.pc) {
        ToolAdvances(c, e.x);
        PipelineUnrepeated(c, AdvanceTool(c, e.x));
      } else {
        SaveUnrepeated(c);
      }
    } else if e.ResumeRun? && c.pc.Asleep? && c.store.state != Completed {
      assert DriveRows(Step(c, e)) == [];
    } else {
      assert DriveRows(Step(c, e)) == DriveRows(c);
    }
  }

  /** In every run, no drive ever has stored three consecutive steps of one fingerprint. */
  lemma {:induction false} NoDriveRepeats(c: Config, es: seq<Event>)
    requires Unrepeated(c)
    ensures Unrepeated(Play(c, es)) && NoTriple(Fingerprints(DriveRows(Play(c, es))))
    decreases |es|
  {
    if es != [] {
      StepUnrepeated(c, es[0]);
      NoDriveRepeats(Step(c, es[0]), es[1..]);
    }
  }

  lemma BeginUnrepeated(run: Run)
    ensures Unrepeated(Begin(run))
  {
  }
}
