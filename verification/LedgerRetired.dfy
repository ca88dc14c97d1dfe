/**
 What is left of "append-only": no run changes the origin of a row, and a row that is no longer
 current is never written again, except in its answers.
 */
module LedgerRetired {
  import opened Wrappers
  import opened Cascades
  import opened DependencyGraph
  import opened Ledger
  import opened LedgerInvariant
  import opened LedgerSteps
  import opened LedgerRuns
  import opened LedgerCurrent
  import opened LedgerExample
  import opened LedgerOrphans
  import opened LedgerFlags
  import opened LedgerRows

  // ----- A row that is no longer current -----

  /** Rows that were not current keep every column but their answers; in particular they stay so. */
  ghost predicate KeepsRetired(rows: seq<Row>, after: seq<Row>) {
    && |rows| <= |after|
    && forall i | 0 <= i < |rows| && !rows[i].current :: after[i] == rows[i].(answers := after[i].answers)
  }

  lemma KeepsRetiredTwice(a: seq<Row>, b: seq<Row>, c: seq<Row>)
    requires KeepsRetired(a, b) && KeepsRetired(b, c)
    ensures KeepsRetired(a, c)
  {
  }

  lemma RecalculatedRetires(s: State, p: Id, sc: Scenario, engine: Engine)
    ensures KeepsRetired(s.rows, OrKeep(Recalculated(s, p, sc, engine), s).rows)
  {
    hide AnswersRead, BlendFactor, BlendValue, CurrentPwin, Labels;
  }

  lemma SoleRetires(s: State, p: Id, req: Patch, engine: Engine)
    requires p in s.pursuits
    ensures KeepsRetired(s.rows, AfterSole(s, p, req, engine).0.rows)
  {
    RecalculatedRetires(s, p, Base, engine);
    assert KeepsRetired(s.rows, SoleSourceOn(s, p).rows);
    hide Recalculated, SoleSourceOn, StaleSolePwin;
  }

  lemma RevertRetires(s: State, p: Id, engineBase: Engine, engineDep: Engine)
    ensures KeepsRetired(s.rows, AfterRevert(s, p, engineBase, engineDep).0.rows)
  {
    var s1 := OrKeep(Recalculated(s, p, Base, engineBase), s);
    RecalculatedRetires(s, p, Base, engineBase);
    RecalculatedRetires(s1, p, DependentWon, engineDep);
    hide Recalculated, HasQuestionnaire, KeepsRetired;
    KeepsRetiredTwice(s.rows, s1.rows, OrKeep(Recalculated(s1, p, DependentWon, engineDep), s1).rows);
  }

  lemma PatchRetires(s: State, scope: set<Id>, p: Id, req: Patch, engines: Engines)
    requires PatchFault(s, scope, p, req, engines.lpta).None?
    ensures KeepsRetired(s.rows, PatchEndpoint(s, scope, p, req, engines).value.0.rows)
  {
    var s1 := PatchedState(s, p, req);
    var s2 := AfterSole(s1, p, req, engines.sole).0;
    PatchEnds(s, scope, p, req, engines);
    hide PatchEndpoint, PatchFault, PatchedPursuit, AfterSole, AfterRevert, RevertsToPreBh, KeepsRetired;
    SoleRetires(s1, p, req, engines.sole);
    RevertRetires(s2, p, engines.base, engines.dependentWon);
    KeepsRetiredTwice(s1.rows, s2.rows, AfterRevert(s2, p, engines.base, engines.dependentWon).0.rows);
  }

  lemma SubmitRetires(s: State, p: Id, sc: Scenario, kind: Kind, base: Prob)
    requires p in s.pursuits
    ensures KeepsRetired(s.rows, Submitted(s, p, sc, kind, base).rows)
  {
    hide BlendFactor, BlendValue, CurrentPwin;
  }

  lemma SaveRetires(s: State, p: Id, sc: Scenario, changes: Changes, pick: nat)
    requires p in s.pursuits
    ensures KeepsRetired(s.rows, Saved(s, p, sc, changes, pick).0.rows)
  {
    hide AnswersRead, Applied, Merge, Labels, TurnsLpta;
  }

  lemma StepRetires(s: State, call: Call)
    ensures KeepsRetired(s.rows, Step(s, call).rows)
  {
    match call.request
    case PatchRequest(req, engines) =>
      if PatchAccepted(s, call) {
        PatchRetires(s, call.scope, call.p, req, engines);
        AcceptedPatch(s, call);
      } else {
        PatchRefused(s, call);
      }
      hide Step, PatchEndpoint, PatchFault;
    case BidRequest(_) =>
    case OutcomeRequest(_, _) =>
    case AnswersRequest(sc, changes, _, _, pick) =>
      if SaveAccepted(s, call) {
        SaveRetires(s, call.p, sc, changes, pick);
      }
      hide Saved, AnswersFault;
    case RecalculateRequest(sc, engine) =>
      RecalculatedRetires(s, call.p, sc, engine);
      hide Recalculated;
    case SubmitRequest(sc, form, base, completed) =>
      if SubmitFault(s, call.scope, call.p, sc, form, completed).None? {
        SubmitRetires(s, call.p, sc, KindOf(form), base);
      }
      hide Submitted, Complete;
  }

  /**
   What is left of "append-only", from any state and over any run: a row that is not current never
   becomes current again and keeps every column except its answers.
   */
  lemma {:induction false} RunRetires(s: State, calls: seq<Call>, i: nat)
    requires i < |s.rows| && !s.rows[i].current
    ensures i < |Run(s, calls).rows|
    ensures Run(s, calls).rows[i] == s.rows[i].(answers := Run(s, calls).rows[i].answers)
    decreases |calls|
  {
    if calls != [] {
      StepRetires(s, calls[0]);
      hide Step;
      RunRetires(Step(s, calls[0]), calls[1..], i);
    }
  }

  /** What no request does to a row: change its origin, set its time back, take off its flat-rate mark, make it current again. */
  predicate Ages(r: Row, after: Row) {
    SameOrigin(r, after) && r.at <= after.at && (r.solePwin ==> after.solePwin) && (after.current ==> r.current)
  }

  lemma PatchAges(s: State, r: Row, p: Id, req: Patch, engines: Engines)
    requires p in s.pursuits && r.at < s.clock
    ensures Ages(r, RowPatched(s, r, p, req, engines))
  {
    FlatColumns(s, r, p);
    hide TurnsOn, BaseRenewed, DepRenewed, FactorOf, BlendValue;
  }

  lemma WrittenAges(r: Row, p: Id, sc: Scenario, pwin: Option<real>, factor: Option<real>)
    ensures Ages(r, RowWritten(r, p, sc, pwin, factor)) && Ages(r, ClearedRow(r))
    ensures forall answers :: Ages(r, r.(answers := answers))
  {
    hide BlendValue;
  }

  lemma AfterAges(s: State, call: Call, i: nat)
    requires i < |s.rows| && s.rows[i].at < s.clock
    ensures Ages(s.rows[i], RowAfter(s, call, i))
  {
    var r := s.rows[i];
    WrittenAges(r, call.p, Base, None, None);
    hide SaveAccepted, Picked, Applied, FactorOf, Ages, RowWritten, ClearedRow;
    match call.request
    case PatchRequest(req, engines) =>
      if PatchAccepted(s, call) {
        PatchAges(s, r, call.p, req, engines);
      }
      hide PatchAccepted, RowPatched;
    case RecalculateRequest(sc, engine) =>
      if MayRecalculate(s, call.scope, call.p, sc, engine) {
        WrittenAges(r, call.p, sc, Some(engine.pwin), FactorOf(s, call.p));
      }
      hide MayRecalculate;
    case SubmitRequest(sc, form, base, completed) =>
      WrittenAges(r, call.p, sc, Some(base), FactorOf(s, call.p));
      hide SubmitFault;
    case _ => hide CancelsAccepted;
  }

  lemma StepAges(s: State, call: Call, i: nat)
    requires Inv(s) && i < |s.rows|
    ensures i < |Step(s, call).rows| && Ages(s.rows[i], Step(s, call).rows[i])
  {
    RowAfterIs(s, call, i);
    assert s.rows[i].at < s.clock;
    AfterAges(s, call, i);
    hide *;
  }

  /**
   No run loses a row or changes whose it is, where its number came from or its standalone Pwin;
   its time only grows, its flat-rate mark stays, and once not current it keeps all but its answers.
   */
  lemma {:induction false} RunIsAppendOnly(s: State, calls: seq<Call>, i: nat)
    requires Inv(s) && i < |s.rows|
    ensures i < |Run(s, calls).rows| && Ages(s.rows[i], Run(s, calls).rows[i])
    ensures !s.rows[i].current ==> Run(s, calls).rows[i] == s.rows[i].(answers := Run(s, calls).rows[i].answers)
    decreases |calls|
  {
    if calls != [] {
      StepIsLawful(s, calls[0]);
      StepAges(s, calls[0], i);
      hide Step, Inv;
      RunIsAppendOnly(Step(s, calls[0]), calls[1..], i);
    }
    if !s.rows[i].current {
      RunRetires(s, calls, i);
    }
  }

  // ----- A save on a row that is no longer current -----

  const LATER_SAVE: Call := Call({0, 1}, 0, AnswersRequest(Base, map[P2 := Some("LPTA")], Some(P2_ONLY), {(P2, "LPTA")}, 0))

  const ANALYSED: Row := Row(0, Base, Ptw, true, Some(0.7), Some(0.7), None, false, 3, map[])

  /** After a submission the questionnaire row is no longer current, and a save still overwrites its answers. */
  lemma RetiredRowIsReanswered()
    ensures var s1 := Step(PAIR, SUBMITTED);
            && |s1.rows| > 0 && s1.rows[0] == ROWS[0].(current := false)
            && SaveAccepted(s1, LATER_SAVE)
            && |Step(s1, LATER_SAVE).rows| > 0
            && Step(s1, LATER_SAVE).rows[0] == s1.rows[0].(answers := PRICED[P2 := Choice("LPTA")])
  {
    var s1 := Step(PAIR, SUBMITTED);
    AfterSubmission();
    SubmissionRows();
    LaterSaveAccepted(s1);
    hide *;
    RowAfterIs(s1, LATER_SAVE, 0);
    LaterSaveRow(s1);
  }

  lemma LaterSaveRow(s1: State)
    requires |s1.rows| > 0 && s1.rows[0] == ROWS[0].(current := false)
    requires SaveAccepted(s1, LATER_SAVE) && Picked(s1.rows, 0, Base, 0) == Some(0)
    ensures RowAfter(s1, LATER_SAVE, 0) == s1.rows[0].(answers := PRICED[P2 := Choice("LPTA")])
  {
    assert PRICED[P2 := Choice("LPTA")] == Applied(PRICED, map[P2 := Some("LPTA")]);
    FirstRow();
    hide SaveAccepted, Picked, Applied, ROWS;
  }

  lemma SubmissionRows()
    ensures Step(PAIR, SUBMITTED).rows == Demoted(ROWS, 0, Base) + [ANALYSED]
    ensures |Step(PAIR, SUBMITTED).rows| > 0 && Step(PAIR, SUBMITTED).rows[0] == ROWS[0].(current := false)
  {
    SubmissionPasses();
    StepIsSubmission();
    SubmitOk(PAIR, {0, 1}, 0, Base, PtwForm, 0.7, None);
    hide Step, SubmitFault, Complete, ROWS;
    assert ROWS[0] == Row(0, Base, Questionnaire, true, Some(0.5), Some(0.5), None, false, 0, PRICED) by {
      FirstRow();
    }
  }

  lemma FirstRow()
    ensures ROWS[0] == Row(0, Base, Questionnaire, true, Some(0.5), Some(0.5), None, false, 0, PRICED) && |ROWS| == 3
    ensures forall i | 0 <= i < |ROWS| :: ROWS[i].at < 3
  {
  }

  /** The demoted row is still the latest questionnaire. */
  lemma FirstIsPicked(rows: seq<Row>)
    requires rows == Demoted(ROWS, 0, Base) + [ANALYSED]
    ensures IsLatest(rows, 0, Base, 0) && AnswersRead(rows, 0, Base, 0) == PRICED
  {
    var demoted := Demoted(ROWS, 0, Base);
    PairLatest(0, Base, 0);
    assert AnswersFor(ROWS[0], 0, Base);
    assert SameAnswerRows(ROWS, demoted, 0, Base);
    SameIsLatest(ROWS, demoted, 0, Base, 0);
    AppendedLatest(demoted, ANALYSED, 0, Base, 0);
    hide IsLatest;
  }

  lemma LaterSaveAccepted(s1: State)
    requires s1.rows == Demoted(ROWS, 0, Base) + [ANALYSED]
    requires 0 in s1.pursuits && s1.pursuits[0] == OpenPursuit(None).(bhPtwComplete := true)
    ensures SaveAccepted(s1, LATER_SAVE) && Picked(s1.rows, 0, Base, 0) == Some(0)
  {
    var changes: Changes := map[P2 := Some("LPTA")];
    FirstIsPicked(s1.rows);
    assert "LPTA" == ["Best Value", "LPTA"][1];
    PricedIsLegal("LPTA");
    hide FirstFault, AnswersRead, IsLatest, P2_ONLY, ROWS, Merge, Labels;
    assert !Unresolved?({(P2, "LPTA")}, changes) && !TwoValued(PRICED, changes);
    assert AnswersFault(s1, {0, 1}, 0, Base, changes, Some(P2_ONLY), {(P2, "LPTA")}, 0).None?;
  }
}
