/**
 Stored rows under requests. The table is meant to be append-only; here is what each request makes
 of every row already stored, and exactly which requests overwrite which columns.
 */
module LedgerRows {
  import opened Wrappers
  import opened Cascades
  import opened DependencyGraph
  import opened Ledger
  import opened LedgerInvariant
  import opened LedgerSteps
  import opened LedgerRuns
  import opened LedgerCurrent
  import opened LedgerExample
  import opened LedgerOrphans

  // ----- What one request makes of one stored row -----

  function Blended(r: Row, depWin: Option<real>, factor: Option<real>): Row {
    if factor.None? || r.basePwin.None? then r
    else
      var base := r.basePwin.value;
      var blended := Some(BlendValue(base, depWin.GetOr(base), factor.value));
      r.(pwin := blended, blended := blended)
  }

  /** Demote, insert, blend: the predecessor of the new row is retired, and a new DEPENDENT_WON value is blended into BASE. */
  function RowWritten(r: Row, p: Id, sc: Scenario, pwin: Option<real>, factor: Option<real>): Row {
    if CurrentFor(r, p, sc) then r.(current := false)
    else if CurrentFor(r, p, Base) then Blended(r, pwin, factor)
    else r
  }

  predicate TurnsOn(s: State, p: Id, req: Patch)
    requires p in s.pursuits
  {
    req.sole.Put? && PatchedPursuit(s.pursuits[p], req).soleSource
  }

  function RowFlat(r: Row, p: Id, now: nat): Row {
    if CurrentFor(r, p, Base)
    then r.(pwin := Some(SOLE_SOURCE_PWIN), blended := Some(SOLE_SOURCE_PWIN), solePwin := true, at := now) else r
  }

  function RowPatched(s: State, r: Row, p: Id, req: Patch, engines: Engines): Row
    requires p in s.pursuits
  {
    var factor := FactorOf(PatchedState(s, p, req), p);
    var r1 := if TurnsOn(s, p, req) then RowFlat(r, p, s.clock) else r;
    var r2 := if BaseRenewed(s, p, req, engines) then RowWritten(r1, p, Base, None, factor) else r1;
    if DepRenewed(s, p, req, engines) then RowWritten(r2, p, DependentWon, Some(engines.dependentWon.pwin), factor) else r2
  }

  /** A stored row after any request, from the state before it. */
  function RowAfter(s: State, call: Call, i: nat): Row
    requires i < |s.rows|
  {
    var r := s.rows[i];
    match call.request
    case PatchRequest(req, engines) =>
      if PatchAccepted(s, call) then RowPatched(s, r, call.p, req, engines) else r
    case BidRequest(_) => r
    case OutcomeRequest(_, _) =>
      if r.pursuit in s.pursuits && CancelsAccepted(s, call, r.pursuit) then ClearedRow(r) else r
    case AnswersRequest(sc, changes, _, _, pick) =>
      if SaveAccepted(s, call) && Picked(s.rows, call.p, sc, pick) == Some(i) then r.(answers := Applied(r.answers, changes)) else r
    case RecalculateRequest(sc, engine) =>
      if MayRecalculate(s, call.scope, call.p, sc, engine)
      then RowWritten(r, call.p, sc, Some(engine.pwin), FactorOf(s, call.p)) else r
    case SubmitRequest(sc, form, base, completed) =>
      if SubmitFault(s, call.scope, call.p, sc, form, completed).None?
      then RowWritten(r, call.p, sc, Some(base), FactorOf(s, call.p)) else r
  }

  // ----- Statements -----

  lemma FoundIsCurrent(rows: seq<Row>, p: Id, sc: Scenario, i: nat)
    requires OneCurrent(rows) && i < |rows|
    ensures CurrentFor(rows[i], p, sc) <==> FindCurrent(rows, p, sc) == Some(i)
  {
  }

  lemma BlendedRow(s: State, p: Id, pred: Id, i: nat)
    requires i < |s.rows|
    ensures ApplyBlend(s, p, pred).rows[i] ==
            if FindCurrent(s.rows, p, Base) == Some(i)
            then Blended(s.rows[i], CurrentPwin(s.rows, p, DependentWon), Some(BlendFactor(s, pred))) else s.rows[i]
    ensures |ApplyBlend(s, p, pred).rows| == |s.rows|
  {
    hide FindCurrent, BlendFactor, BlendValue, CurrentPwin;
  }

  /** After the insertion: which row a blend would find, which value it would use and how much that counts. */
  lemma SupersededFinds(s: State, p: Id, sc: Scenario, kind: Kind, base: real, pwin: Option<real>, answers: map<Code, Value>)
    requires NoSelf(s, p)
    ensures var s1 := Superseded(s, p, sc, kind, base, pwin, answers);
            && FindCurrent(s1.rows, p, Base) == (if sc == Base then Some(|s.rows|) else FindCurrent(s.rows, p, Base))
            && (sc == DependentWon ==> CurrentPwin(s1.rows, p, DependentWon) == pwin)
            && (s.pursuits[p].dependsOn.Some? ==> FactorOf(s, p) == Some(BlendFactor(s1, s.pursuits[p].dependsOn.value)))
  {
    var s1 := Superseded(s, p, sc, kind, base, pwin, answers);
    var demoted := Demoted(s.rows, p, sc);
    NowAppended(demoted, s1.rows[|s.rows|], p, Base);
    NowAppended(demoted, s1.rows[|s.rows|], p, DependentWon);
    if sc == DependentWon {
      SameFound(s.rows, demoted, p, Base);
    }
    if s.pursuits[p].dependsOn.Some? {
      var pred := s.pursuits[p].dependsOn.value;
      CardSuperseded(s, p, sc, kind, base, pwin, answers, pred);
      SameFactor(s, s1, pred);
    }
    hide FindCurrent, BlendFactor, CardOf, Demoted;
  }

  lemma WrittenRow(s: State, p: Id, sc: Scenario, kind: Kind, base: real, pwin: Option<real>, answers: map<Code, Value>, i: nat)
    requires OneCurrent(s.rows) && i < |s.rows| && NoSelf(s, p)
    ensures var after := BlendIfDependent(Superseded(s, p, sc, kind, base, pwin, answers), p);
            i < |after.rows| && after.rows[i] == RowWritten(s.rows[i], p, sc, pwin, FactorOf(s, p))
  {
    var s1 := Superseded(s, p, sc, kind, base, pwin, answers);
    FoundIsCurrent(s.rows, p, Base, i);
    SupersededFinds(s, p, sc, kind, base, pwin, answers);
    hide FindCurrent, BlendFactor, BlendValue, CurrentPwin, OneCurrent, ApplyBlend;
    if s.pursuits[p].dependsOn.Some? {
      BlendedRow(s1, p, s.pursuits[p].dependsOn.value, i);
    }
  }

  lemma RecalculatedRow(s: State, p: Id, sc: Scenario, engine: Engine, i: nat)
    requires OneCurrent(s.rows) && i < |s.rows| && NoSelf(s, p)
    ensures var r := Recalculated(s, p, sc, engine);
            && (r.Ok? <==> Recalculates(s, p, sc, engine))
            && (r.Ok? ==> i < |r.value.rows| &&
                          r.value.rows[i] == RowWritten(s.rows[i], p, sc, Some(engine.pwin), FactorOf(s, p)))
  {
    RecalculatesExactly(s, p, sc, engine);
    var r := Recalculated(s, p, sc, engine);
    if r.Ok? {
      WrittenRow(s, p, sc, Questionnaire, engine.pwin, Some(engine.pwin), AnswersRead(s.rows, p, sc, engine.pick), i);
    }
    hide AnswersRead, Recalculates, RowWritten, FactorOf, Superseded, BlendIfDependent;
  }

  /** The pursuits' own rows between the statements of a PATCH. */
  lemma SoleRow(s: State, p: Id, req: Patch, engine: Engine, i: nat)
    requires OneCurrent(s.rows) && i < |s.rows| && NoSelf(s, p)
    ensures var after := AfterSole(s, p, req, engine).0.rows;
            i < |after| &&
            after[i] ==
            if req.sole.Put? && s.pursuits[p].soleSource then RowFlat(s.rows[i], p, s.clock)
            else if SoleRedone(s, p, req, engine) then RowWritten(s.rows[i], p, Base, None, FactorOf(s, p))
            else s.rows[i]
  {
    FoundIsCurrent(s.rows, p, Base, i);
    StaleIsCard(s, p);
    RecalculatedRow(s, p, Base, engine, i);
    hide Recalculated, Recalculates, CardOf, FindCurrent, FactorOf, Blended, OneCurrent;
  }

  lemma RevertRow(s: State, p: Id, engineBase: Engine, engineDep: Engine, i: nat)
    requires Disciplined(s.rows, s.clock + 1) && i < |s.rows| && NoSelf(s, p)
    ensures var after := AfterRevert(s, p, engineBase, engineDep).0.rows;
            var factor := FactorOf(s, p);
            var r := if Recalculates(s, p, Base, engineBase) then RowWritten(s.rows[i], p, Base, None, factor) else s.rows[i];
            i < |after| &&
            after[i] ==
            if Recalculates(s, p, DependentWon, engineDep)
            then RowWritten(r, p, DependentWon, Some(engineDep.pwin), factor) else r
  {
    var s1 := OrKeep(Recalculated(s, p, Base, engineBase), s);
    RecalculatedRow(s, p, Base, engineBase, i);
    RecalculatedStep(s, p, Base, engineBase);
    ReadAcrossRecalculation(s, p, engineBase, engineDep.pick);
    NoStep(s, p);
    hide Recalculated, Disciplined, HasQuestionnaire, RowStep, AnswersRead, Recalculates, FactorOf, Blended;
    SameInputs(s, s1, p, DependentWon, engineDep, engineDep);
    SameFactorOf(s, s1, p);
    StepIsDisciplined(s, s1, p);
    RecalculatedRow(s1, p, DependentWon, engineDep, i);
    PricedHasRow(s1, p, engineDep);
  }

  lemma StepIsDisciplined(s: State, after: State, p: Id)
    requires RowStep(s, after, p)
    ensures OneCurrent(after.rows) && Disciplined(after.rows, s.clock + 1) && after.pursuits == s.pursuits && after.clock == s.clock
    ensures |s.rows| <= |after.rows|
  {
  }

  lemma PricedHasRow(s: State, p: Id, engine: Engine)
    ensures Recalculates(s, p, DependentWon, engine) ==> HasQuestionnaire(s.rows, p, DependentWon)
  {
    AnsweredHasRow(s.rows, p, DependentWon, engine.pick);
  }

  /** A revert after the flat-rate write, or after nothing, recalculates what it would have before. */
  lemma SameRevert(s: State, s2: State, p: Id, req: Patch, engines: Engines)
    requires Inv(s) && NoSelf(s, p) && !SoleRedone(s, p, req, engines.sole)
    requires s2 == AfterSole(s, p, req, engines.sole).0 && RowStep(s, s2, p)
    ensures Recalculates(s2, p, Base, engines.base) == Recalculates(s, p, Base, BaseEngine(s, p, req, engines.base))
    ensures Recalculates(s2, p, DependentWon, engines.dependentWon) == Recalculates(s, p, DependentWon, engines.dependentWon)
    ensures FactorOf(s2, p) == FactorOf(s, p)
  {
    ReadAfterSole(s, p, req, engines);
    BaseEngineSolves(s, p, req, engines.base);
    hide Inv, AfterSole, SoleRedone, BaseEngine, AnswersRead, Recalculates, RowStep, FactorOf;
    SameInputs(s, s2, p, Base, engines.base, BaseEngine(s, p, req, engines.base));
    SameInputs(s, s2, p, DependentWon, engines.dependentWon, engines.dependentWon);
    SameFactorOf(s, s2, p);
  }

  lemma PatchedRow(s: State, scope: set<Id>, p: Id, req: Patch, engines: Engines, i: nat)
    requires Inv(s) && PatchFault(s, scope, p, req, engines.lpta).None? && i < |s.rows|
    ensures p in s.pursuits
    ensures var after := PatchEndpoint(s, scope, p, req, engines).value.0;
            i < |after.rows| && after.rows[i] == RowPatched(s, s.rows[i], p, req, engines)
  {
    var s1 := PatchedState(s, p, req);
    PatchEnds(s, scope, p, req, engines);
    PatchUpdateKeepsInv(s, scope, p, req, engines.lpta);
    hide PatchFault, PatchEndpoint, PatchedPursuit, RevertsToPreBh;
    PatchedNoSelf(s1, p);
    LaterBound(s.rows, s.clock);
    AfterSoleStep(s1, p, req, engines.sole);
    var s2 := AfterSole(s1, p, req, engines.sole).0;
    StepIsDisciplined(s1, s2, p);
    CardOfAfterSole(s1, p, req, engines.sole);
    SoleRow(s1, p, req, engines.sole, i);
    hide AfterSole, AfterRevert, Inv, Recalculates, BaseEngine, SoleRedone, RowStep, FactorOf, CardOf, CardAfterSole, Disciplined;
    hide RowWritten, RowFlat;
    if !SoleRedone(s1, p, req, engines.sole) {
      SameRevert(s1, s2, p, req, engines);
      RevertRow(s2, p, engines.base, engines.dependentWon, i);
    }
    OffOrOn(s1, p, req, engines.sole);
  }

  lemma OffOrOn(s: State, p: Id, req: Patch, engine: Engine)
    requires p in s.pursuits
    ensures req.sole.Put? && s.pursuits[p].soleSource ==> !SoleRedone(s, p, req, engine)
  {
  }

  // ----- Every request -----

  lemma OutcomeRow(s: State, call: Call, i: nat)
    requires Inv(s) && call.request.OutcomeRequest? && i < |s.rows|
    ensures i < |Step(s, call).rows| && Step(s, call).rows[i] == RowAfter(s, call, i)
  {
    var q := s.rows[i].pursuit;
    assert q in s.pursuits;
    TouchesCleared(s, call, q);
    hide ClearedRow, Disciplined, Lifecycle, Decided;
  }

  lemma TouchesCleared(s: State, call: Call, q: Id)
    requires Inv(s) && q in s.pursuits
    ensures s.pursuits[q].dependsOn == Some(call.p) ==> q != call.p && call.p in s.pursuits
  {
    assert DependencyRules(s, q);
    hide Disciplined, PursuitRules;
  }

  lemma SavedRow(s: State, p: Id, sc: Scenario, changes: Changes, pick: nat, i: nat)
    requires p in s.pursuits && i < |s.rows|
    ensures var after := Saved(s, p, sc, changes, pick).0.rows;
            i < |after| &&
            after[i] ==
            if Picked(s.rows, p, sc, pick) == Some(i) then s.rows[i].(answers := Applied(s.rows[i].answers, changes)) else s.rows[i]
  {
    var (s1, j) := WithAnswerRow(s, p, sc, pick);
    AnswerRowOnly(s, p, sc, pick);
    hide Applied, Merge, Labels, TurnsLpta, Picked;
    assert Saved(s, p, sc, changes, pick).0.rows ==
           s1.rows[j := s1.rows[j].(answers := Applied(AnswersRead(s.rows, p, sc, pick), changes))];
    hide Saved;
  }

  /** Each stored row after any request is the given one. */
  lemma RowAfterIs(s: State, call: Call, i: nat)
    requires Inv(s) && i < |s.rows|
    ensures i < |Step(s, call).rows| && Step(s, call).rows[i] == RowAfter(s, call, i)
  {
    var p := call.p;
    if p in s.pursuits {
      PatchedNoSelf(s, p);
    }
    match call.request
    case PatchRequest(req, engines) =>
      if PatchAccepted(s, call) {
        PatchedRow(s, call.scope, p, req, engines, i);
        AcceptedPatch(s, call);
      } else {
        PatchRefused(s, call);
      }
      hide Step, PatchEndpoint, RowPatched, PatchFault, Inv;
    case BidRequest(_) =>
    case OutcomeRequest(_, _) => OutcomeRow(s, call, i);
      hide Step, RowAfter;
    case AnswersRequest(_, _, _, _, _) => SaveRow(s, call, i);
      hide Step, RowAfter, Inv;
    case RecalculateRequest(_, _) => RecalculateRow(s, call, i);
      hide Step, RowAfter, Inv;
    case SubmitRequest(sc, form, base, completed) =>
      if SubmitFault(s, call.scope, p, sc, form, completed).None? {
        SubmittedRowAfter(s, p, sc, KindOf(form), base, i);
      }
      hide Submitted, SubmitFault, RowWritten, FactorOf, Inv, Complete;
  }

  lemma SaveRow(s: State, call: Call, i: nat)
    requires call.request.AnswersRequest? && i < |s.rows|
    ensures i < |Step(s, call).rows| && Step(s, call).rows[i] == RowAfter(s, call, i)
  {
    var AnswersRequest(sc, changes, spec, options, pick) := call.request;
    if SaveAccepted(s, call) {
      SavedRow(s, call.p, sc, changes, pick, i);
    }
    hide Saved, AnswersFault, Applied, Picked;
  }

  lemma RecalculateRow(s: State, call: Call, i: nat)
    requires Inv(s) && call.request.RecalculateRequest? && i < |s.rows|
    ensures i < |Step(s, call).rows| && Step(s, call).rows[i] == RowAfter(s, call, i)
  {
    var RecalculateRequest(sc, engine) := call.request;
    CardOfRecalculate(s, call.scope, call.p, sc, engine);
    if MayRecalculate(s, call.scope, call.p, sc, engine) {
      PatchedNoSelf(s, call.p);
      RecalculatedRow(s, call.p, sc, engine, i);
    }
    hide Recalculated, Recalculates, RowWritten, FactorOf, CardOf, CardRecalculated;
  }

  lemma SubmittedRowAfter(s: State, p: Id, sc: Scenario, kind: Kind, base: Prob, i: nat)
    requires OneCurrent(s.rows) && NoSelf(s, p) && i < |s.rows|
    ensures i < |Submitted(s, p, sc, kind, base).rows|
    ensures Submitted(s, p, sc, kind, base).rows[i] == RowWritten(s.rows[i], p, sc, Some(base), FactorOf(s, p))
  {
    var pwin := if s.pursuits[p].dependsOn.Some? && sc == Base then None else Some(base as real);
    WrittenRow(s, p, sc, kind, base, pwin, map[], i);
    hide BlendIfDependent, Superseded, FactorOf, Blended, OneCurrent;
  }

  // ----- Which columns a request overwrites -----

  /** Blending the row with this DEPENDENT_WON value and this weight changes what it shows. */
  predicate Reblends(r: Row, depWin: real, factor: Option<real>) {
    factor.Some? && r.basePwin.Some? &&
    var blended := Some(BlendValue(r.basePwin.value, depWin, factor.value));
    r.pwin != blended || r.blended != blended
  }

  /**
   The current BASE row of the pursuit called on, where sole source brings the flat rate or a new
   DEPENDENT_WON value brings a blend that the row does not show already; or that of a dependent
   whose predecessor is cancelled, where it does not already show its own Pwin without a blend.
   */
  predicate OverwritesPwin(s: State, call: Call, r: Row) {
    r.current && r.scenario == Base &&
    match call.request
    case PatchRequest(req, engines) =>
      PatchAccepted(s, call) && r.pursuit == call.p &&
      if TurnsOn(s, call.p, req) then r.pwin != Some(SOLE_SOURCE_PWIN) || r.blended != Some(SOLE_SOURCE_PWIN)
      else !BaseRenewed(s, call.p, req, engines) && DepRenewed(s, call.p, req, engines) &&
           Reblends(r, engines.dependentWon.pwin, FactorOf(PatchedState(s, call.p, req), call.p))
    case OutcomeRequest(_, _) =>
      r.pursuit in s.pursuits && CancelsAccepted(s, call, r.pursuit) && (r.pwin != r.basePwin || r.blended.Some?)
    case RecalculateRequest(sc, engine) =>
      MayRecalculate(s, call.scope, call.p, sc, engine) && r.pursuit == call.p && sc == DependentWon &&
      Reblends(r, engine.pwin, FactorOf(s, call.p))
    case SubmitRequest(sc, form, base, completed) =>
      SubmitFault(s, call.scope, call.p, sc, form, completed).None? && r.pursuit == call.p && sc == DependentWon &&
      Reblends(r, base, FactorOf(s, call.p))
    case _ => false
  }

  /** Sole source set, or left on by a request that mentions it, on a pursuit with a current BASE row. */
  predicate Restamps(s: State, call: Call, r: Row) {
    && PatchAccepted(s, call) && CurrentFor(r, call.p, Base) && TurnsOn(s, call.p, call.request.req)
  }

  /** A successor for the scenario of the row, or the cancellation that ends its DEPENDENT_WON scenario. */
  predicate RetiresRow(s: State, call: Call, r: Row) {
    match call.request
    case PatchRequest(req, engines) =>
      PatchAccepted(s, call) && r.pursuit == call.p &&
      if r.scenario == Base then BaseRenewed(s, call.p, req, engines) else DepRenewed(s, call.p, req, engines)
    case OutcomeRequest(_, _) =>
      r.pursuit in s.pursuits && CancelsAccepted(s, call, r.pursuit) && r.scenario == DependentWon
    case RecalculateRequest(sc, engine) => MayRecalculate(s, call.scope, call.p, sc, engine) && For(r, call.p, sc)
    case SubmitRequest(sc, form, _, completed) =>
      SubmitFault(s, call.scope, call.p, sc, form, completed).None? && For(r, call.p, sc)
    case _ => false
  }

  lemma WrittenColumns(r: Row, p: Id, sc: Scenario, pwin: real, factor: Option<real>)
    ensures var after := RowWritten(r, p, sc, Some(pwin), factor);
            && (after.pwin != r.pwin || after.blended != r.blended <==>
                CurrentFor(r, p, Base) && sc == DependentWon && Reblends(r, pwin, factor))
            && after.at == r.at && after.solePwin == r.solePwin && after.answers == r.answers
            && (after.current <==> r.current && !For(r, p, sc))
  {
    hide BlendValue;
  }

  lemma FlatColumns(s: State, r: Row, p: Id)
    requires r.at < s.clock
    ensures var after := RowFlat(r, p, s.clock);
            && SameOrigin(r, after) && after.answers == r.answers && after.current == r.current
            && (after.pwin != r.pwin || after.blended != r.blended <==>
                CurrentFor(r, p, Base) && (r.pwin != Some(SOLE_SOURCE_PWIN) || r.blended != Some(SOLE_SOURCE_PWIN)))
            && (after.at != r.at || after.solePwin != r.solePwin <==> CurrentFor(r, p, Base))
  {
  }

  lemma PatchColumns(s: State, r: Row, p: Id, req: Patch, engines: Engines)
    requires p in s.pursuits && r.at < s.clock
    requires TurnsOn(s, p, req) ==> !DepRenewed(s, p, req, engines)
    ensures var after := RowPatched(s, r, p, req, engines);
            && (after.pwin != r.pwin || after.blended != r.blended <==>
                CurrentFor(r, p, Base) &&
                if TurnsOn(s, p, req) then r.pwin != Some(SOLE_SOURCE_PWIN) || r.blended != Some(SOLE_SOURCE_PWIN)
                else !BaseRenewed(s, p, req, engines) && DepRenewed(s, p, req, engines) &&
                     Reblends(r, engines.dependentWon.pwin, FactorOf(PatchedState(s, p, req), p)))
            && (after.at != r.at || after.solePwin != r.solePwin <==> CurrentFor(r, p, Base) && TurnsOn(s, p, req))
            && after.answers == r.answers
            && (after.current <==>
                r.current && !(r.pursuit == p && if r.scenario == Base then BaseRenewed(s, p, req, engines)
                                                 else DepRenewed(s, p, req, engines)))
  {
    var factor := FactorOf(PatchedState(s, p, req), p);
    var r1 := if TurnsOn(s, p, req) then RowFlat(r, p, s.clock) else r;
    var r2 := if BaseRenewed(s, p, req, engines) then RowWritten(r1, p, Base, None, factor) else r1;
    FlatColumns(s, r, p);
    DepSolves(s, p, req, engines);
    hide TurnsOn, BaseRenewed, DepRenewed, RowFlat, FactorOf, Reblends, Blended;
    assert BaseRenewed(s, p, req, engines) ==> r2 == if CurrentFor(r1, p, Base) then r1.(current := false) else r1;
    hide RowWritten;
    if DepRenewed(s, p, req, engines) {
      WrittenColumns(r2, p, DependentWon, engines.dependentWon.pwin, factor);
    }
  }

  lemma DepSolves(s: State, p: Id, req: Patch, engines: Engines)
    requires p in s.pursuits
    ensures DepRenewed(s, p, req, engines) ==> engines.dependentWon.Solves?
  {
  }

  lemma ClearedColumns(r: Row)
    ensures var after := ClearedRow(r);
            && (after.pwin != r.pwin || after.blended != r.blended <==>
                r.current && r.scenario == Base && (r.pwin != r.basePwin || r.blended.Some?))
            && after.at == r.at && after.solePwin == r.solePwin && after.answers == r.answers
            && (after.current <==> r.current && r.scenario != DependentWon)
  {
  }

  /** What decides each column, request by request. */
  lemma Columns(s: State, call: Call, i: nat)
    requires Inv(s) && i < |s.rows|
    ensures var r, after := s.rows[i], RowAfter(s, call, i);
            && (after.pwin != r.pwin || after.blended != r.blended <==> OverwritesPwin(s, call, r))
            && (after.at != r.at || after.solePwin != r.solePwin <==> Restamps(s, call, r))
            && (after.current <==> r.current && !RetiresRow(s, call, r))
  {
    var r := s.rows[i];
    assert r.at < s.clock;
    hide Inv, BaseRenewed, DepRenewed, FactorOf, SaveAccepted, Picked, Applied, TurnsOn, FindCurrent, Reblends;
    match call.request
    case PatchRequest(req, engines) =>
      if PatchAccepted(s, call) {
        OnHasNoDependency(s, call);
        PatchColumns(s, r, call.p, req, engines);
      }
      hide RowPatched, PatchAccepted;
    case OutcomeRequest(_, _) =>
      ClearedColumns(r);
      hide ClearedRow, CancelsAccepted;
    case RecalculateRequest(sc, engine) =>
      if MayRecalculate(s, call.scope, call.p, sc, engine) {
        WrittenColumns(r, call.p, sc, engine.pwin, FactorOf(s, call.p));
      }
      hide RowWritten, MayRecalculate;
    case SubmitRequest(sc, form, base, completed) =>
      WrittenColumns(r, call.p, sc, base, FactorOf(s, call.p));
      hide RowWritten, SubmitFault;
    case _ =>
  }

  /** A stored Pwin is overwritten exactly under this guard. */
  lemma OverwrittenExactly(s: State, call: Call, i: nat)
    requires Inv(s) && i < |s.rows|
    ensures i < |Step(s, call).rows|
    ensures var r, after := s.rows[i], Step(s, call).rows[i];
            after.pwin != r.pwin || after.blended != r.blended <==> OverwritesPwin(s, call, r)
  {
    RowAfterIs(s, call, i);
    Columns(s, call, i);
    hide *;
  }

  lemma OnHasNoDependency(s: State, call: Call)
    requires Inv(s) && PatchAccepted(s, call)
    ensures call.p in s.pursuits
    ensures TurnsOn(s, call.p, call.request.req) ==> !DepRenewed(s, call.p, call.request.req, call.request.engines)
  {
    PatchedIsLawful(s, call.scope, call.p, call.request.req, call.request.engines.lpta);
    hide PatchFault, InOrder, AnswersRead, PatchedPursuit, SoleRedone, RevertsToPreBh;
  }

  /** Its time and its flat-rate mark are overwritten exactly when a PATCH writes the flat rate on it. */
  lemma RestampedExactly(s: State, call: Call, i: nat)
    requires Inv(s) && i < |s.rows|
    ensures i < |Step(s, call).rows|
    ensures var r, after := s.rows[i], Step(s, call).rows[i];
            after.at != r.at || after.solePwin != r.solePwin <==> Restamps(s, call, r)
  {
    RowAfterIs(s, call, i);
    Columns(s, call, i);
    hide *;
  }

  /** A current row ceases to be current exactly under this guard, and no other becomes so again. */
  lemma RetiredExactly(s: State, call: Call, i: nat)
    requires Inv(s) && i < |s.rows|
    ensures i < |Step(s, call).rows|
    ensures Step(s, call).rows[i].current <==> s.rows[i].current && !RetiresRow(s, call, s.rows[i])
  {
    RowAfterIs(s, call, i);
    Columns(s, call, i);
    hide *;
  }

  /** Its answers are overwritten exactly when a save that changes something is sent to it, whether it is current or not. */
  lemma ReansweredExactly(s: State, call: Call, i: nat)
    requires Inv(s) && i < |s.rows|
    ensures i < |Step(s, call).rows|
    ensures Step(s, call).rows[i].answers != s.rows[i].answers <==>
            && SaveAccepted(s, call) && Picked(s.rows, call.p, call.request.sc, call.request.pick) == Some(i)
            && Applied(s.rows[i].answers, call.request.changes) != s.rows[i].answers
  {
    RowAfterIs(s, call, i);
    OthersKeepRowAnswers(s, call, i);
    hide Step, Inv, RowPatched, RowWritten, ClearedRow, PatchAccepted, AnswersEndpoint, Picked, Applied, MayRecalculate, SubmitFault;
  }

  lemma OthersKeepRowAnswers(s: State, call: Call, i: nat)
    requires i < |s.rows|
    ensures !call.request.AnswersRequest? ==> RowAfter(s, call, i).answers == s.rows[i].answers
  {
    hide PatchAccepted, BaseRenewed, DepRenewed, FactorOf, BlendValue, SaveAccepted, Picked, Applied, TurnsOn;
    hide MayRecalculate, SubmitFault, CancelsAccepted;
  }

  // ----- One request for each -----

  const NEW_DEP: Call := Call({0, 1}, 1, RecalculateRequest(DependentWon, Solves(2, 0.8)))
  const CANCEL: Call := Call({0, 1}, 0, OutcomeRequest(Some(Cancelled), false))

  /** A new DEPENDENT_WON value puts 0.5 in the place of the stored 0.4, and a cancelled predecessor 0.2. */
  lemma StoredPwinIsOverwritten()
    ensures OverwritesPwin(PAIR, NEW_DEP, ROWS[1]) && OverwritesPwin(PAIR, CANCEL, ROWS[1])
    ensures |Step(PAIR, NEW_DEP).rows| > 1 && Step(PAIR, NEW_DEP).rows[1] == ROWS[1].(pwin := Some(0.5), blended := Some(0.5))
    ensures |Step(PAIR, CANCEL).rows| > 1 && Step(PAIR, CANCEL).rows[1] == ROWS[1].(pwin := Some(0.2), blended := None)
  {
    PairIsLawful();
    PairFactor();
    NewDepAccepted();
    hide Inv, Step, FactorOf, MayRecalculate;
    RowAfterIs(PAIR, NEW_DEP, 1);
    RowAfterIs(PAIR, CANCEL, 1);
  }

  lemma PairFactor()
    ensures FactorOf(PAIR, 1) == Some(0.5)
  {
    PairRows();
    assert CurrentPwin(ROWS, 0, Base) == PwinOf(Now(ROWS, 0, Base));
  }

  lemma NewDepAccepted()
    ensures MayRecalculate(PAIR, {0, 1}, 1, DependentWon, Solves(2, 0.8))
  {
    PairReads(1, DependentWon, AnswersRead(ROWS, 1, DependentWon, 2));
    hide AnswersRead;
  }
}
