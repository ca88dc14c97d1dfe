/** The flat rate of a sole-source pursuit: exactly which requests set it, and which replace it. */
module LedgerRate {
  import opened Wrappers
  import opened Cascades
  import opened DependencyGraph
  import opened Ledger
  import opened LedgerInvariant
  import opened LedgerSteps
  import opened LedgerRuns
  import opened LedgerCurrent
  import opened LedgerExample
  import opened LedgerOrphans

  predicate ShowsRate(s: State, q: Id) {
    PwinOf(CardOf(s, q).base) == Some(SOLE_SOURCE_PWIN)
  }

  lemma SoleHasNoDependency(s: State, p: Id)
    requires Inv(s) && p in s.pursuits && s.pursuits[p].soleSource
    ensures s.pursuits[p].dependsOn.None? && FactorOf(s, p).None?
  {
    assert PursuitRules(s.pursuits[p]);
  }

  // ----- Setting it -----

  /** An accepted PATCH that sets sole source shows 0.95, unless the same request reverts the stage and the engine says otherwise. */
  lemma SoleRateExactly(s: State, scope: set<Id>, p: Id, req: Patch, engines: Engines)
    requires Inv(s) && req.sole == Put(Some(true))
    ensures var r := PatchEndpoint(s, scope, p, req, engines);
            r.Ok? ==>
              && p in s.pursuits && p in r.value.0.pursuits && r.value.0.pursuits[p].soleSource
              && (ShowsRate(r.value.0, p) <==>
                  !(RevertsToPreBh(s.pursuits[p], req) && Priced(s, p, req, engines.base.pick) &&
                    engines.base.Solves? && engines.base.pwin != SOLE_SOURCE_PWIN))
  {
    PatchOk(s, scope, p, req, engines);
    if PatchFault(s, scope, p, req, engines.lpta).None? {
      PatchedToSole(s, scope, p, req, engines.lpta);
      PatchStep(s, scope, p, req, engines);
      CardOfPatch(s, scope, p, req, engines);
      SoleCard(s, p, req, engines);
      hide PatchEndpoint, PatchFault, PatchedPursuit, CardPatched, CardOf, Inv, Advances, KeepsAnswers, ReadsFrom, Priced;
    }
  }

  lemma PatchedToSole(s: State, scope: set<Id>, p: Id, req: Patch, pick: nat)
    requires Inv(s) && PatchFault(s, scope, p, req, pick).None?
    ensures var after := PatchedPursuit(s.pursuits[p], req);
            && (after.soleSource ==> after.dependsOn.None?)
            && (RevertsToPreBh(s.pursuits[p], req) ==> after.stage == Some(PreBh))
            && (req.sole == Put(Some(true)) ==> after.soleSource)
  {
    PatchedIsLawful(s, scope, p, req, pick);
    hide PatchFault, InOrder;
  }

  /** The revert of a sole-source pursuit reads a price answer: on the row that the flat rate has just stamped, or as picked. */
  predicate Priced(s: State, p: Id, req: Patch, pick: nat) {
    var base := Now(s.rows, p, Base);
    P1 in Labels(if req.sole.Put? && base.Some? && base.value.kind == Questionnaire then base.value.answers
                 else AnswersRead(s.rows, p, Base, pick))
  }

  lemma PricedIsRead(s: State, p: Id, req: Patch, engine: Engine)
    requires Inv(s) && p in s.pursuits && PatchedPursuit(s.pursuits[p], req).soleSource
    ensures var s1 := PatchedState(s, p, req);
            Priced(s, p, req, engine.pick) <==> P1 in Labels(AnswersRead(s.rows, p, Base, BaseEngine(s1, p, req, engine).pick))
  {
    hide AnswersRead, Inv, PatchedPursuit;
    var i := FindCurrent(s.rows, p, Base);
    if i.Some? {
      CurrentIsRead(s, p, i.value, 0);
    }
  }

  /** What a PATCH that leaves the flag on shows. */
  lemma SoleCard(s: State, p: Id, req: Patch, engines: Engines)
    requires Inv(s) && p in s.pursuits
    requires var after := PatchedPursuit(s.pursuits[p], req);
             after.soleSource && after.dependsOn.None? && (RevertsToPreBh(s.pursuits[p], req) ==> after.stage == Some(PreBh))
    requires req.sole.Unset? ==> ShowsRate(s, p)
    ensures PwinOf(CardPatched(s, p, req, engines).base) ==
            if RevertsToPreBh(s.pursuits[p], req) && Priced(s, p, req, engines.base.pick) && engines.base.Solves?
            then Some(engines.base.pwin) else Some(SOLE_SOURCE_PWIN)
  {
    PricedIsRead(s, p, req, engines.base);
    BaseEngineSolves(PatchedState(s, p, req), p, req, engines.base);
    hide Inv, CardOf, PatchedPursuit, RevertsToPreBh, AnswersRead, BaseEngine, Priced;
    SameRows(s, PatchedState(s, p, req), p);
  }

  // ----- Losing it -----

  /** A standalone value as it is, or weighed against the dependent-won one. */
  function Weighed(base: real, depWin: Option<real>, factor: Option<real>): real {
    match factor
    case None => base
    case Some(f) => BlendValue(base, depWin.GetOr(base), f)
  }

  /** Turned off: what the recalculations of the same request put in the place of the rate, if anything. */
  function OffValue(s: State, p: Id, req: Patch, engines: Engines): Option<real>
    requires p in s.pursuits && CardOf(s, p).base.Some?
  {
    var s1 := PatchedState(s, p, req);
    var card := CardOf(s, p);
    var factor := FactorOf(s1, p);
    var baseRenewed := Recalculates(s1, p, Base, engines.base);
    var depRenewed := Recalculates(s1, p, DependentWon, engines.dependentWon);
    var depWin := if depRenewed then Some(engines.dependentWon.pwin as real) else PwinOf(card.dep);
    if SoleRedone(s1, p, req, engines.sole) then Some(Weighed(engines.sole.pwin, PwinOf(card.dep), factor))
    else if !RevertsToPreBh(s.pursuits[p], req) then None
    else if baseRenewed then Some(Weighed(engines.base.pwin, depWin, factor))
    else if depRenewed && card.base.value.basePwin.Some? then Some(Weighed(card.base.value.basePwin.value, depWin, factor))
    else None
  }

  predicate Differs(value: Option<real>) {
    value.Some? && value.value != SOLE_SOURCE_PWIN
  }

  /** An accepted request on the pursuit itself that puts another value in the place of the rate. */
  predicate LosesRate(s: State, call: Call)
    requires call.p in s.pursuits && CardOf(s, call.p).base.Some?
  {
    var p := call.p;
    match call.request
    case PatchRequest(req, engines) =>
      PatchAccepted(s, call) &&
      if PatchedPursuit(s.pursuits[p], req).soleSource
      then RevertsToPreBh(s.pursuits[p], req) && Priced(s, p, req, engines.base.pick) &&
           engines.base.Solves? && engines.base.pwin != SOLE_SOURCE_PWIN
      else Differs(OffValue(s, p, req, engines))
    case SubmitRequest(sc, form, base, completed) =>
      SubmitFault(s, call.scope, p, sc, form, completed).None? && base != SOLE_SOURCE_PWIN
    case _ => false
  }

  /** A sole-source pursuit that shows 0.95 goes on showing it, except exactly under these guards. */
  lemma RateExactly(s: State, call: Call, q: Id)
    requires Inv(s) && q in s.pursuits && s.pursuits[q].soleSource && ShowsRate(s, q)
    ensures q in Step(s, call).pursuits
    ensures ShowsRate(Step(s, call), q) <==> !(call.p == q && LosesRate(s, call))
  {
    SoleHasNoDependency(s, q);
    StepIsLawful(s, call);
    if call.p != q {
      RateElsewhere(s, call, q);
    } else {
      hide Inv;
      match call.request
      case PatchRequest(_, _) => RateAfterPatch(s, call);
      case AnswersRequest(_, _, _, _, _) => RateAfterSave(s, call);
      case RecalculateRequest(_, _) => SoleRefusesRecalculation(s, call);
      case SubmitRequest(_, _, _, _) => RateAfterSubmit(s, call);
      case _ => OwnRequests(s, call);
    }
    hide Step, Inv, CardOf, Advances, LosesRate;
  }

  lemma RateElsewhere(s: State, call: Call, q: Id)
    requires Inv(s) && q in s.pursuits && s.pursuits[q].dependsOn.None? && call.p != q
    ensures CardOf(Step(s, call), q) == CardOf(s, q)
  {
    StepIsLawful(s, call);
    if q in Touched(s, call) {
      CancelledCard(s, call, q);
    } else {
      CardUntouched(s, Step(s, call), Touched(s, call), q);
    }
    hide Step, Touched, Inv, CardOf;
  }

  lemma SoleRefusesRecalculation(s: State, call: Call)
    requires call.p in s.pursuits && s.pursuits[call.p].soleSource && call.request.RecalculateRequest?
    ensures Step(s, call) == s
  {
  }

  lemma RateAfterSave(s: State, call: Call)
    requires call.p in s.pursuits && call.request.AnswersRequest? && ShowsRate(s, call.p)
    ensures ShowsRate(Step(s, call), call.p)
  {
    var AnswersRequest(sc, changes, spec, options, pick) := call.request;
    CardOfSave(s, call.p, sc, changes, pick);
    hide CardOf, Saved, AnswersFault;
  }

  lemma RateAfterSubmit(s: State, call: Call)
    requires Inv(s) && call.p in s.pursuits && s.pursuits[call.p].dependsOn.None? && FactorOf(s, call.p).None?
    requires call.request.SubmitRequest? && ShowsRate(s, call.p)
    ensures ShowsRate(Step(s, call), call.p) <==> !LosesRate(s, call)
  {
    var SubmitRequest(sc, form, base, completed) := call.request;
    CardOfSubmit(s, call.scope, call.p, sc, form, base, completed);
    SubmitsBase(s, call);
    SubmitOk(s, call.scope, call.p, sc, form, base, completed);
    hide SubmitEndpoint, SubmitFault, CardOf, Inv, FactorOf;
  }

  lemma RateAfterPatch(s: State, call: Call)
    requires Inv(s) && call.p in s.pursuits && call.request.PatchRequest?
    requires s.pursuits[call.p].soleSource && ShowsRate(s, call.p)
    ensures ShowsRate(Step(s, call), call.p) <==> !LosesRate(s, call)
  {
    var PatchRequest(req, engines) := call.request;
    if PatchAccepted(s, call) {
      AcceptedPatch(s, call);
      CardOfPatch(s, call.scope, call.p, req, engines);
      PatchedToSole(s, call.scope, call.p, req, engines.lpta);
      if PatchedPursuit(s.pursuits[call.p], req).soleSource {
        SoleCard(s, call.p, req, engines);
      } else {
        SoleTurnedOff(s.pursuits[call.p], req);
        OffCard(s, call.p, req, engines);
      }
    } else {
      PatchRefused(s, call);
    }
    hide Step, PatchEndpoint, PatchFault, PatchedPursuit, CardPatched, CardOf, Inv, Priced, OffValue;
  }

  lemma SoleTurnedOff(pu: Pursuit, req: Patch)
    requires pu.soleSource && !PatchedPursuit(pu, req).soleSource
    ensures req.sole.Put?
  {
  }

  lemma OffCard(s: State, p: Id, req: Patch, engines: Engines)
    requires p in s.pursuits && !PatchedPursuit(s.pursuits[p], req).soleSource && CardOf(s, p).base.Some?
    ensures PwinOf(CardPatched(s, p, req, engines).base) ==
            match OffValue(s, p, req, engines)
            case None => PwinOf(CardOf(s, p).base)
            case Some(value) => Some(value)
  {
    var s1 := PatchedState(s, p, req);
    SameRows(s, s1, p);
    DepNeedsFactor(s1, p, engines.dependentWon);
    BaseEngineSolves(s1, p, req, engines.base);
    hide CardOf, PatchedPursuit, RevertsToPreBh, AnswersRead, Recalculates, FactorOf, BlendValue, BaseEngine;
    assert CardAfterSole(s1, p, req, engines.sole) ==
      if SoleRedone(s1, p, req, engines.sole) then CardRecalculated(s1, p, CardOf(s, p), Base, engines.sole) else CardOf(s, p);
    hide SoleRedone, CardAfterSole, CardAfterRevert, CardRecalculated, Weighed;
    if SoleRedone(s1, p, req, engines.sole) {
      RenewedBase(s1, p, CardOf(s, p), engines.sole);
    } else {
      RevertedBase(s1, p, CardOf(s, p), BaseEngine(s1, p, req, engines.base), engines.dependentWon);
    }
  }

  lemma RenewedBase(s: State, p: Id, card: Card, engine: Engine)
    requires engine.Solves?
    ensures PwinOf(CardRecalculated(s, p, card, Base, engine).base) ==
            Some(Weighed(engine.pwin, PwinOf(card.dep), FactorOf(s, p)))
    ensures CardRecalculated(s, p, card, Base, engine).dep == card.dep
  {
    hide AnswersRead, FactorOf, BlendValue;
  }

  lemma RevertedBase(s: State, p: Id, card: Card, engineBase: Engine, engineDep: Engine)
    requires card.base.Some? && (Recalculates(s, p, DependentWon, engineDep) ==> FactorOf(s, p).Some?)
    requires Recalculates(s, p, Base, engineBase) ==> engineBase.Solves?
    requires Recalculates(s, p, DependentWon, engineDep) ==> engineDep.Solves?
    ensures var depRenewed := Recalculates(s, p, DependentWon, engineDep);
            var depWin := if depRenewed then Some(engineDep.pwin as real) else PwinOf(card.dep);
            var factor := FactorOf(s, p);
            PwinOf(CardAfterRevert(s, p, card, engineBase, engineDep).base) ==
            if Recalculates(s, p, Base, engineBase) then Some(Weighed(engineBase.pwin, depWin, factor))
            else if depRenewed && card.base.value.basePwin.Some?
            then Some(Weighed(card.base.value.basePwin.value, depWin, factor))
            else PwinOf(card.base)
  {
    hide AnswersRead, FactorOf, BlendValue, Recalculates;
  }

  lemma DepNeedsFactor(s: State, p: Id, engine: Engine)
    ensures Recalculates(s, p, DependentWon, engine) ==> FactorOf(s, p).Some? && engine.Solves?
  {
  }

  // ----- One accepted request for each -----

  const FLAT: Row := Row(0, Base, Questionnaire, true, Some(0.5), Some(SOLE_SOURCE_PWIN), Some(SOLE_SOURCE_PWIN), true, 0, PRICED)

  function Solo(stage: Stage): State {
    State(map[0 := OpenPursuit(None).(soleSource := true, stage := Some(stage))], [FLAT], 1)
  }

  lemma SoloIsLawful(stage: Stage)
    ensures Inv(Solo(stage)) && Consistent(Solo(stage))
    ensures CardOf(Solo(stage), 0) == Card(Some(FLAT), None) && AnswersRead([FLAT], 0, Base, 0) == PRICED
  {
    assert CurrentFor([FLAT][0], 0, Base) && AnswersFor([FLAT][0], 0, Base);
    SoloLifecycle(stage);
    SoloAgreed();
    hide Lifecycle;
  }

  lemma SoloLifecycle(stage: Stage)
    ensures Lifecycle(Solo(stage))
  {
    assert PursuitRules(Solo(stage).pursuits[0]) && DependencyRules(Solo(stage), 0);
  }

  lemma SoloAgreed()
    ensures Agreed([FLAT]) && AnswersRead([FLAT], 0, Base, 0) == PRICED
  {
    assert AnswersFor([FLAT][0], 0, Base);
  }

  const REVERT: Call := Call({0}, 0, PatchRequest(NOTHING.(stage := Put(Some(Known(PreBh)))), SILENT.(base := Solves(0, 0.3))))
  const SUBMIT: Call := Call({0}, 0, SubmitRequest(Base, BlackHatForm(Some(0.1)), 0.3, None))
  const TURN_OFF: Call := Call({0}, 0, PatchRequest(NOTHING.(sole := Put(Some(false))), SILENT.(sole := Solves(0, 0.3))))

  lemma RevertLoses()
    ensures LosesRate(Solo(PostBh), REVERT) && !ShowsRate(Step(Solo(PostBh), REVERT), 0)
    ensures 0 in Step(Solo(PostBh), REVERT).pursuits && Step(Solo(PostBh), REVERT).pursuits[0].soleSource
  {
    var s := Solo(PostBh);
    SoloIsLawful(PostBh);
    RevertAccepted();
    hide Inv, CardOf, Step, AnswersRead;
    RateExactly(s, REVERT, 0);
    AcceptedPatch(s, REVERT);
    PatchOk(s, {0}, 0, REVERT.request.req, REVERT.request.engines);
    PatchStep(s, {0}, 0, REVERT.request.req, REVERT.request.engines);
    hide PatchEndpoint, PatchFault;
  }

  lemma RevertAccepted()
    ensures PatchAccepted(Solo(PostBh), REVERT)
  {
    assert InOrder(MergedDates(Solo(PostBh).pursuits[0], REVERT.request.req));
  }

  lemma SubmitLoses()
    ensures LosesRate(Solo(PreBh), SUBMIT) && !ShowsRate(Step(Solo(PreBh), SUBMIT), 0)
  {
    SoloIsLawful(PreBh);
    assert [FLAT][0].pursuit == 0 && [FLAT][0].kind == Questionnaire;
    hide Inv, CardOf, Step, AnswersRead;
    RateExactly(Solo(PreBh), SUBMIT, 0);
  }

  lemma TurnOffLoses()
    ensures LosesRate(Solo(PreBh), TURN_OFF) && !ShowsRate(Step(Solo(PreBh), TURN_OFF), 0)
  {
    SoloIsLawful(PreBh);
    TurnOffAccepted();
    TurnOffValue();
    hide Inv, CardOf, Step, AnswersRead, OffValue, PatchAccepted;
    RateExactly(Solo(PreBh), TURN_OFF, 0);
  }

  lemma TurnOffAccepted()
    ensures PatchAccepted(Solo(PreBh), TURN_OFF)
  {
    assert InOrder(MergedDates(Solo(PreBh).pursuits[0], TURN_OFF.request.req));
  }

  lemma TurnOffValue()
    requires CardOf(Solo(PreBh), 0) == Card(Some(FLAT), None) && AnswersRead([FLAT], 0, Base, 0) == PRICED
    ensures OffValue(Solo(PreBh), 0, TURN_OFF.request.req, TURN_OFF.request.engines) == Some(0.3)
  {
    hide CardOf, AnswersOf;
    SameRows(Solo(PreBh), PatchedState(Solo(PreBh), 0, TURN_OFF.request.req), 0);
  }
}
