/**
 The completion flag. A submission stores it exactly; here is exactly which requests make a flag
 that was exact say something else than the rows.
 */
module LedgerFlags {
  import opened Wrappers
  import opened Cascades
  import opened DependencyGraph
  import opened Ledger
  import opened LedgerInvariant
  import opened LedgerSteps
  import opened LedgerRuns
  import opened LedgerCurrent
  import opened LedgerExample
  import opened LedgerOrphans

  /** The stored flag says what the rows say. */
  ghost predicate FlagExact(s: State, q: Id)
    requires q in s.pursuits
  {
    s.pursuits[q].bhPtwComplete == Complete(s.rows, q, s.pursuits[q].dependsOn.Some?)
  }

  predicate Shown(r: Option<Row>) {
    r.Some? && r.value.kind != Questionnaire
  }

  predicate CardComplete(card: Card, dependent: bool) {
    Shown(card.base) && (dependent ==> Shown(card.dep))
  }

  lemma AnalysedIsShown(rows: seq<Row>, p: Id, sc: Scenario)
    requires OneCurrent(rows)
    ensures Analysed(rows, p, sc) <==> Shown(Now(rows, p, sc))
  {
    if Analysed(rows, p, sc) {
      var i :| 0 <= i < |rows| && CurrentFor(rows[i], p, sc) && rows[i].kind != Questionnaire;
      assert FindCurrent(rows, p, sc) == Some(i);
    }
  }

  lemma CompleteIsCard(s: State, p: Id, dependent: bool)
    requires Inv(s)
    ensures Complete(s.rows, p, dependent) <==> CardComplete(CardOf(s, p), dependent)
  {
    AnalysedIsShown(s.rows, p, Base);
    AnalysedIsShown(s.rows, p, DependentWon);
  }

  /** The completion flag a submission stores: each scenario the pursuit needs shows an analysed row. */
  lemma CompletionIsExact(s: State, scope: set<Id>, p: Id, sc: Scenario, form: Submission, base: Prob, completed: Option<int>)
    requires Inv(s)
    ensures var r := SubmitEndpoint(s, scope, p, sc, form, base, completed);
            r.Ok? ==>
              && p in r.value.0.pursuits && FlagExact(r.value.0, p) && r.value.0.pursuits[p].bhPtwComplete == r.value.1
              && (r.value.1 <==> CardComplete(CardOf(r.value.0, p), s.pursuits[p].dependsOn.Some?))
  {
    var r := SubmitEndpoint(s, scope, p, sc, form, base, completed);
    if r.Ok? {
      SubmitStep(s, scope, p, sc, form, base, completed);
      StoredFlag(s, scope, p, sc, form, base, completed);
      CompleteIsCard(r.value.0, p, s.pursuits[p].dependsOn.Some?);
    }
    hide SubmitEndpoint, Inv, Complete, CardOf, Advances, KeepsAnswers;
  }

  lemma StoredFlag(s: State, scope: set<Id>, p: Id, sc: Scenario, form: Submission, base: Prob, completed: Option<int>)
    ensures var r := SubmitEndpoint(s, scope, p, sc, form, base, completed);
            r.Ok? ==> p in s.pursuits && r.value.1 == Complete(r.value.0.rows, p, s.pursuits[p].dependsOn.Some?)
  {
    hide Submitted, SubmitFault;
    assert SubmitFault(s, scope, p, sc, form, completed).None? ==> p in s.pursuits by {
      SubmitKnows(s, scope, p, sc, form, completed);
    }
  }

  lemma SubmitKnows(s: State, scope: set<Id>, p: Id, sc: Scenario, form: Submission, completed: Option<int>)
    ensures SubmitFault(s, scope, p, sc, form, completed).None? ==> p in s.pursuits
  {
  }

  // ----- What makes a flag wrong -----

  /** An accepted PATCH that recalculates BASE, or leaves a dependency without an analysed DEPENDENT_WON row, or takes one away. */
  predicate PatchBreaks(s: State, p: Id, req: Patch, engines: Engines)
    requires p in s.pursuits
  {
    var pu := s.pursuits[p];
    var dependent := PatchedPursuit(pu, req).dependsOn.Some?;
    var baseRenewed := BaseRenewed(s, p, req, engines);
    if pu.bhPtwComplete
    then baseRenewed || (dependent && (DepRenewed(s, p, req, engines) || !Shown(CardOf(s, p).dep)))
    else pu.dependsOn.Some? && !dependent && Shown(CardOf(s, p).base) && !baseRenewed
  }

  /** A flag that says no though all that is still needed is there, once the dependency has gone. */
  predicate OnlyDepMissing(s: State, p: Id)
    requires p in s.pursuits
  {
    !s.pursuits[p].bhPtwComplete && s.pursuits[p].dependsOn.Some? && Shown(CardOf(s, p).base)
  }

  predicate BreaksOwn(s: State, call: Call)
    requires call.p in s.pursuits
  {
    match call.request
    case PatchRequest(req, engines) => PatchAccepted(s, call) && PatchBreaks(s, call.p, req, engines)
    case AnswersRequest(_, _, _, _, _) => SaveAccepted(s, call) && SavesLpta(s, call) && OnlyDepMissing(s, call.p)
    case RecalculateRequest(sc, engine) =>
      MayRecalculate(s, call.scope, call.p, sc, engine) && s.pursuits[call.p].bhPtwComplete
    case _ => false
  }

  /** From an exact flag: a request makes it inexact exactly under its guard, and a submission never. */
  lemma FlagExactly(s: State, call: Call, q: Id)
    requires Inv(s) && q in s.pursuits && FlagExact(s, q)
    ensures q in Step(s, call).pursuits
    ensures FlagExact(Step(s, call), q) <==>
            if call.p == q then !BreaksOwn(s, call) else !(CancelsAccepted(s, call, q) && OnlyDepMissing(s, q))
  {
    StepIsLawful(s, call);
    if call.p != q {
      FlagElsewhere(s, call, q);
    } else {
      hide Inv, FlagExact;
      match call.request
      case PatchRequest(_, _) => FlagAfterPatch(s, call);
      case AnswersRequest(_, _, _, _, _) => FlagAfterSave(s, call);
      case RecalculateRequest(_, _) => FlagAfterRecalculate(s, call);
      case SubmitRequest(_, _, _, _) => FlagAfterSubmit(s, call);
      case _ => FlagAfterDecision(s, call);
    }
    hide Step, Inv, FlagExact, CardOf, Advances;
  }

  lemma FlagElsewhere(s: State, call: Call, q: Id)
    requires Inv(s) && q in s.pursuits && FlagExact(s, q) && call.p != q && q in Step(s, call).pursuits
    ensures FlagExact(Step(s, call), q) <==> !(CancelsAccepted(s, call, q) && OnlyDepMissing(s, q))
  {
    StepIsLawful(s, call);
    CompleteIsCard(s, q, s.pursuits[q].dependsOn.Some?);
    CompleteIsCard(Step(s, call), q, Step(s, call).pursuits[q].dependsOn.Some?);
    TouchedExactly(s, call, q);
    if q in Touched(s, call) {
      CancelledCard(s, call, q);
    } else {
      CardUntouched(s, Step(s, call), Touched(s, call), q);
    }
    hide Step, Inv, CardOf, Complete, Touched, CancelsAccepted;
    assert Advances(s, Step(s, call), Touched(s, call));
  }

  lemma FlagAfterDecision(s: State, call: Call)
    requires Inv(s) && call.p in s.pursuits && FlagExact(s, call.p) && (call.request.BidRequest? || call.request.OutcomeRequest?)
    ensures call.p in Step(s, call).pursuits && FlagExact(Step(s, call), call.p)
  {
    StepIsLawful(s, call);
    OwnRequests(s, call);
    DecisionKeepsFlag(s, call);
    CompleteIsCard(s, call.p, s.pursuits[call.p].dependsOn.Some?);
    CompleteIsCard(Step(s, call), call.p, s.pursuits[call.p].dependsOn.Some?);
    hide Step, Inv, CardOf, Complete, Advances;
  }

  lemma DecisionKeepsFlag(s: State, call: Call)
    requires Inv(s) && call.p in s.pursuits && (call.request.BidRequest? || call.request.OutcomeRequest?)
    ensures call.p in Step(s, call).pursuits && Step(s, call).pursuits[call.p].bhPtwComplete == s.pursuits[call.p].bhPtwComplete
  {
  }

  lemma FlagAfterSubmit(s: State, call: Call)
    requires Inv(s) && call.p in s.pursuits && FlagExact(s, call.p) && call.request.SubmitRequest?
    ensures call.p in Step(s, call).pursuits && FlagExact(Step(s, call), call.p)
  {
    var SubmitRequest(sc, form, base, completed) := call.request;
    CompletionIsExact(s, call.scope, call.p, sc, form, base, completed);
    hide SubmitEndpoint, FlagExact, Inv, CardOf;
  }

  lemma FlagAfterSave(s: State, call: Call)
    requires Inv(s) && call.p in s.pursuits && FlagExact(s, call.p) && call.request.AnswersRequest?
    ensures call.p in Step(s, call).pursuits
    ensures FlagExact(Step(s, call), call.p) <==> !BreaksOwn(s, call)
  {
    var AnswersRequest(sc, changes, spec, options, pick) := call.request;
    if SaveAccepted(s, call) {
      SavedStep(s, call.p, sc, changes, pick);
      SavedFlag(s, call.p, sc, changes, pick);
    }
    hide Inv, FlagExact, OnlyDepMissing, Advances, AnswersRead, Merge, Labels, Saved, AnswersFault, CardOf, Complete;
  }

  lemma SavedFlag(s: State, p: Id, sc: Scenario, changes: Changes, pick: nat)
    requires Inv(s) && p in s.pursuits && FlagExact(s, p) && Inv(Saved(s, p, sc, changes, pick).0)
    ensures var (after, drops) := Saved(s, p, sc, changes, pick);
            && p in after.pursuits && (FlagExact(after, p) <==> !(drops && OnlyDepMissing(s, p)))
            && (drops ==> s.pursuits[p].dependsOn.Some? && sc == Base)
            && drops == TurnsLpta(s.pursuits[p], sc, Merge(Labels(AnswersRead(s.rows, p, sc, pick)), changes))
  {
    hide Saved, CardOf, AnswersRead, Merge, Labels, Inv, Complete, NowSaved, Shown;
    var after := Saved(s, p, sc, changes, pick).0;
    SavedRecord(s, p, sc, changes, pick);
    CardOfSave(s, p, sc, changes, pick);
    SavedShown(CardOf(s, p), CardOf(after, p));
    CompleteIsCard(s, p, s.pursuits[p].dependsOn.Some?);
    CompleteIsCard(after, p, after.pursuits[p].dependsOn.Some?);
  }

  lemma SavedShown(before: Card, after: Card)
    requires NowSaved(before.base, after.base) && NowSaved(before.dep, after.dep)
    ensures (Shown(after.base) <==> Shown(before.base)) && (Shown(after.dep) <==> Shown(before.dep))
  {
  }

  /** The recalculated row is a questionnaire's, and no other changes its kind. */
  lemma RecalculatedShown(s: State, p: Id, card: Card, sc: Scenario, engine: Engine)
    requires engine.Solves?
    ensures var after := CardRecalculated(s, p, card, sc, engine);
            && (Shown(after.base) <==> sc != Base && Shown(card.base))
            && (Shown(after.dep) <==> sc != DependentWon && Shown(card.dep))
  {
    hide FactorOf, AnswersRead, BlendValue;
  }

  lemma FlagAfterRecalculate(s: State, call: Call)
    requires Inv(s) && call.p in s.pursuits && FlagExact(s, call.p) && call.request.RecalculateRequest?
    ensures call.p in Step(s, call).pursuits
    ensures FlagExact(Step(s, call), call.p) <==> !BreaksOwn(s, call)
  {
    var RecalculateRequest(sc, engine) := call.request;
    CardOfRecalculate(s, call.scope, call.p, sc, engine);
    RecalculateStep(s, call.scope, call.p, sc, engine);
    DepScenario(s, call.p, sc, engine);
    hide RecalculateEndpoint, CardOf, Inv, Advances, KeepsAnswers, FlagExact, Recalculates, CardRecalculated;
    if RecalculateEndpoint(s, call.scope, call.p, sc, engine).Ok? {
      RenewedFlag(s, Step(s, call), call.p, sc, engine);
    }
  }

  /** A renewed row is a questionnaire's, so an exact flag stays exact only if it said no. */
  lemma RenewedFlag(s: State, after: State, p: Id, sc: Scenario, engine: Engine)
    requires engine.Solves?
    requires Inv(s) && Inv(after) && p in s.pursuits && FlagExact(s, p) && after.pursuits == s.pursuits
    requires CardOf(after, p) == CardRecalculated(s, p, CardOf(s, p), sc, engine)
    requires sc == DependentWon ==> s.pursuits[p].dependsOn.Some?
    ensures FlagExact(after, p) <==> !s.pursuits[p].bhPtwComplete
  {
    hide Inv, CardOf, CardRecalculated, Shown, Complete;
    CompleteIsCard(s, p, s.pursuits[p].dependsOn.Some?);
    CompleteIsCard(after, p, s.pursuits[p].dependsOn.Some?);
    RecalculatedShown(s, p, CardOf(s, p), sc, engine);
  }

  lemma DepScenario(s: State, p: Id, sc: Scenario, engine: Engine)
    ensures Recalculates(s, p, sc, engine) ==>
              p in s.pursuits && engine.Solves? && (sc == DependentWon ==> s.pursuits[p].dependsOn.Some?)
  {
  }

  lemma FlagAfterPatch(s: State, call: Call)
    requires Inv(s) && call.p in s.pursuits && FlagExact(s, call.p) && call.request.PatchRequest?
    ensures call.p in Step(s, call).pursuits
    ensures FlagExact(Step(s, call), call.p) <==> !BreaksOwn(s, call)
  {
    var PatchRequest(req, engines) := call.request;
    if PatchAccepted(s, call) {
      StepIsLawful(s, call);
      CompleteIsCard(s, call.p, s.pursuits[call.p].dependsOn.Some?);
      CompleteIsCard(Step(s, call), call.p, Step(s, call).pursuits[call.p].dependsOn.Some?);
      AcceptedPatch(s, call);
      CardOfPatch(s, call.scope, call.p, req, engines);
      PatchOk(s, call.scope, call.p, req, engines);
      PatchStep(s, call.scope, call.p, req, engines);
      PatchedShown(s, call.p, req, engines);
      PatchedKeepsFlag(s.pursuits[call.p], req);
      hide Step, PatchEndpoint, PatchFault, PatchedPursuit, CardPatched, CardOf, Inv, Advances, KeepsAnswers, Complete;
      hide BaseRenewed, DepRenewed, Recalculates, RevertsToPreBh, Touched;
    } else {
      PatchRefused(s, call);
    }
  }

  lemma PatchedKeepsFlag(pu: Pursuit, req: Patch)
    ensures PatchedPursuit(pu, req).bhPtwComplete == pu.bhPtwComplete
  {
  }

  /** Recalculated rows are questionnaire rows; the flat rate and the blend change no row's kind. */
  lemma PatchedShown(s: State, p: Id, req: Patch, engines: Engines)
    requires p in s.pursuits
    ensures var card := CardPatched(s, p, req, engines);
            && (Shown(card.base) <==> Shown(CardOf(s, p).base) && !BaseRenewed(s, p, req, engines))
            && (Shown(card.dep) <==> Shown(CardOf(s, p).dep) && !DepRenewed(s, p, req, engines))
  {
    hide CardOf, PatchedPursuit, Recalculates, RevertsToPreBh, FactorOf, AnswersRead, BaseEngine;
    SameRows(s, PatchedState(s, p, req), p);
  }

  // ----- A run -----

  const SUBMITTED: Call := Call({0, 1}, 0, SubmitRequest(Base, PtwForm, 0.7, None))
  const RECALCULATED: Call := Call({0, 1}, 0, RecalculateRequest(Base, Solves(0, 0.3)))

  /** Black Hat or PTW first, a recalculation before the stage is moved on next: the flag stays and is wrong. */
  lemma FlagRun()
    ensures var s1 := Step(PAIR, SUBMITTED);
            var s2 := Step(s1, RECALCULATED);
            && 0 in s1.pursuits && s1.pursuits[0].bhPtwComplete && FlagExact(s1, 0)
            && 0 in s2.pursuits && s2.pursuits[0].bhPtwComplete && !FlagExact(s2, 0)
  {
    hide Step, Inv, FlagExact, BreaksOwn, ReadsFrom;
    AfterSubmission();
    var s1 := Step(PAIR, SUBMITTED);
    StillRecalculates(s1);
    FlagExactly(s1, RECALCULATED, 0);
    RecalculateKeepsRecord(s1, RECALCULATED);
  }

  lemma AfterSubmission()
    ensures var s1 := Step(PAIR, SUBMITTED);
            && Inv(s1) && ReadsFrom(ROWS, s1.rows)
            && 0 in s1.pursuits && s1.pursuits[0] == OpenPursuit(None).(bhPtwComplete := true) && FlagExact(s1, 0)
  {
    SubmissionPasses();
    StepIsSubmission();
    PairIsLawful();
    SubmissionShown();
    hide SubmitEndpoint, Step, Inv, CardOf, FlagExact, Advances, KeepsAnswers, Touched;
    hide ROWS, CardComplete;
    CompletionIsExact(PAIR, {0, 1}, 0, Base, PtwForm, 0.7, None);
    StepIsLawful(PAIR, SUBMITTED);
    OthersReadNothingNew(PAIR, SUBMITTED);
    SubmitStep(PAIR, {0, 1}, 0, Base, PtwForm, 0.7, None);
  }

  lemma StepIsSubmission()
    requires SubmitEndpoint(PAIR, {0, 1}, 0, Base, PtwForm, 0.7, None).Ok?
    ensures Step(PAIR, SUBMITTED) == SubmitEndpoint(PAIR, {0, 1}, 0, Base, PtwForm, 0.7, None).value.0
  {
    hide SubmitEndpoint;
  }

  lemma SubmissionShown()
    requires Inv(PAIR) && SubmitEndpoint(PAIR, {0, 1}, 0, Base, PtwForm, 0.7, None).Ok?
    ensures CardComplete(CardOf(SubmitEndpoint(PAIR, {0, 1}, 0, Base, PtwForm, 0.7, None).value.0, 0), false)
  {
    PairRows();
    CardOfSubmit(PAIR, {0, 1}, 0, Base, PtwForm, 0.7, None);
    hide SubmitEndpoint, Inv, CardOf;
  }

  lemma RecalculateKeepsRecord(s: State, call: Call)
    requires Inv(s) && call.request.RecalculateRequest?
    ensures Step(s, call).pursuits == s.pursuits
  {
    var RecalculateRequest(sc, engine) := call.request;
    RecalculateStep(s, call.scope, call.p, sc, engine);
    hide RecalculateEndpoint, Inv, Advances, KeepsAnswers;
  }

  lemma SubmissionPasses()
    ensures SubmitEndpoint(PAIR, {0, 1}, 0, Base, PtwForm, 0.7, None).Ok?
  {
    assert ROWS[0].pursuit == 0 && ROWS[0].kind == Questionnaire;
    assert SubmitFault(PAIR, {0, 1}, 0, Base, PtwForm, None).None?;
    hide Submitted, SubmitFault;
  }

  lemma StillRecalculates(s1: State)
    requires 0 in s1.pursuits && s1.pursuits[0] == OpenPursuit(None).(bhPtwComplete := true)
    requires ReadsFrom(ROWS, s1.rows)
    ensures BreaksOwn(s1, RECALCULATED)
  {
    PairReads(0, Base, AnswersRead(s1.rows, 0, Base, 0));
    hide AnswersRead;
  }
}
