/** What single requests achieve. */
module LedgerFacts {
  import opened Wrappers
  import opened Cascades
  import opened DependencyGraph
  import opened Ledger
  import opened LedgerInvariant
  import opened LedgerSteps
  import opened LedgerRuns
  import opened LedgerCurrent

  // ----- Saves -----

  /**
   Every accepted save leaves the whole stored answer set legal for the pursuit's type: on the row
   it wrote, and without a tie on whatever row is read.
   */
  lemma SavedSetIsLegal(s: State, scope: set<Id>, p: Id, sc: Scenario, changes: Changes, spec: Spec, options: OptionTable,
                        pick: nat, read: nat)
    requires Inv(s)
    ensures var r := AnswersEndpoint(s, scope, p, sc, changes, Some(spec), options, pick);
            r.Ok? ==>
              && p in s.pursuits
              && var i := WithAnswerRow(s, p, sc, pick).1;
                 && IsLatest(r.value.0.rows, p, sc, i)
                 && Legal(spec, s.pursuits[p].isProduct, Labels(r.value.0.rows[i].answers))
                 && (!Tied(s.rows, p, sc) ==>
                       Legal(spec, s.pursuits[p].isProduct, Labels(AnswersRead(r.value.0.rows, p, sc, read))))
  {
    var r := AnswersEndpoint(s, scope, p, sc, changes, Some(spec), options, pick);
    if r.Ok? {
      AcceptedPasses(s, scope, p, sc, changes, spec, options, pick);
      SavedIsWritten(s, p, sc, changes, pick);
      hide Saved, AnswersFault, Inv, AnswersRead, IsLatest, Tied, Legal, Labels, Merge, Applied, WithAnswerRow;
      AppliedLabels(AnswersRead(s.rows, p, sc, pick), changes);
      LegalFromChecks(spec, s.pursuits[p].isProduct, Merge(Labels(AnswersRead(s.rows, p, sc, pick)), changes));
      if !Tied(s.rows, p, sc) {
        SavedIsRead(s, p, sc, changes, pick, read);
      }
    }
  }

  lemma AcceptedPasses(s: State, scope: set<Id>, p: Id, sc: Scenario, changes: Changes, spec: Spec, options: OptionTable, pick: nat)
    requires AnswersEndpoint(s, scope, p, sc, changes, Some(spec), options, pick).Ok?
    ensures p in s.pursuits && !TwoValued(AnswersRead(s.rows, p, sc, pick), changes)
    ensures FirstFault(spec, s.pursuits[p].isProduct, Merge(Labels(AnswersRead(s.rows, p, sc, pick)), changes), 0).None?
  {
    hide AnswersRead, Labels, Merge, Saved, TwoValued;
  }

  lemma SavedIsWritten(s: State, p: Id, sc: Scenario, changes: Changes, pick: nat)
    requires Inv(s) && p in s.pursuits
    ensures var after := Saved(s, p, sc, changes, pick).0;
            var i := WithAnswerRow(s, p, sc, pick).1;
            && IsLatest(after.rows, p, sc, i)
            && after.rows[i].answers == Applied(AnswersRead(s.rows, p, sc, pick), changes)
  {
    hide AnswersRead, Applied, Labels, Merge, TurnsLpta;
    LaterBound(s.rows, s.clock);
    AnswerRowKeeps(s, p, sc, pick);
    var (s1, i) := WithAnswerRow(s, p, sc, pick);
    WrittenLatest(s1.rows, i, Applied(AnswersRead(s.rows, p, sc, pick), changes), p, sc, i);
    hide IsLatest, WithAnswerRow, Disciplined;
  }

  /** Without a tie the row written is the only latest one. */
  lemma SavedIsRead(s: State, p: Id, sc: Scenario, changes: Changes, pick: nat, read: nat)
    requires Inv(s) && p in s.pursuits && !Tied(s.rows, p, sc)
    ensures AnswersRead(Saved(s, p, sc, changes, pick).0.rows, p, sc, read) == Applied(AnswersRead(s.rows, p, sc, pick), changes)
  {
    hide Applied, Labels, Merge, TurnsLpta;
    var answers := Applied(AnswersRead(s.rows, p, sc, pick), changes);
    var (s1, i) := WithAnswerRow(s, p, sc, pick);
    LaterBound(s.rows, s.clock);
    AnswerRowKeeps(s, p, sc, pick);
    AnswerRowUntied(s, p, sc, pick);
    hide WithAnswerRow, Disciplined, Tied, IsLatest;
    WrittenIsRead(s1.rows, p, sc, i, answers, read);
  }

  lemma WrittenIsRead(rows: seq<Row>, p: Id, sc: Scenario, i: nat, answers: map<Code, Value>, read: nat)
    requires IsLatest(rows, p, sc, i) && !Tied(rows, p, sc)
    ensures i < |rows| && AnswersRead(rows[i := rows[i].(answers := answers)], p, sc, read) == answers
  {
    var after := rows[i := rows[i].(answers := answers)];
    LatestIsOne(after, p, sc, i);
    var found := Picked(after, p, sc, read).value;
    WrittenLatest(rows, i, answers, p, sc, found);
    OnlyLatest(rows, p, sc, i, found);
  }

  lemma LegalFromChecks(spec: Spec, isProduct: bool, answers: Answers)
    requires FirstFault(spec, isProduct, answers, 0).None?
    ensures Legal(spec, isProduct, answers)
  {
    forall c: Code | Asked(c)
      ensures LegalAt(spec, c, isProduct, answers)
    {
      AskedIsChecked(c);
      var i :| 0 <= i < |ASKED| && ASKED[i] == c;
    }
  }

  // ----- A stored standalone Pwin always shows as a Pwin -----

  /** No row that has a standalone Pwin is left without a Pwin: a deferred BASE submission is always filled in. */
  ghost predicate Filled(rows: seq<Row>) {
    forall i | 0 <= i < |rows| && rows[i].basePwin.Some? :: rows[i].pwin.Some?
  }

  lemma RecalculatedFills(s: State, p: Id, sc: Scenario, engine: Engine)
    requires Filled(s.rows)
    ensures var r := Recalculated(s, p, sc, engine);
            r.Ok? ==> Filled(r.value.rows)
  {
    hide AnswersRead;
  }

  lemma PatchFills(s: State, scope: set<Id>, p: Id, req: Patch, engines: Engines)
    requires Filled(s.rows)
    ensures var r := PatchEndpoint(s, scope, p, req, engines);
            r.Ok? ==> Filled(r.value.0.rows)
  {
    PatchOk(s, scope, p, req, engines);
    if PatchFault(s, scope, p, req, engines.lpta).None? {
      var s1 := PatchedState(s, p, req);
      var s2 := AfterSole(s1, p, req, engines.sole).0;
      PatchEnds(s, scope, p, req, engines);
      SoleFills(s1, p, req, engines.sole);
      RevertFills(s2, p, engines.base, engines.dependentWon);
    }
    hide PatchEndpoint, PatchFault, AfterSole, AfterRevert, PatchedPursuit;
  }

  lemma SoleFills(s: State, p: Id, req: Patch, engine: Engine)
    requires Filled(s.rows) && p in s.pursuits
    ensures Filled(AfterSole(s, p, req, engine).0.rows)
  {
    RecalculatedFills(s, p, Base, engine);
    assert Filled(SoleSourceOn(s, p).rows);
    hide Recalculated, SoleSourceOn;
  }

  lemma RevertFills(s: State, p: Id, engineBase: Engine, engineDep: Engine)
    requires Filled(s.rows)
    ensures Filled(AfterRevert(s, p, engineBase, engineDep).0.rows)
  {
    RecalculatedFills(s, p, Base, engineBase);
    RecalculatedFills(OrKeep(Recalculated(s, p, Base, engineBase), s), p, DependentWon, engineDep);
    hide Recalculated;
  }

  lemma SaveFills(s: State, p: Id, sc: Scenario, changes: Changes, pick: nat)
    requires Filled(s.rows) && p in s.pursuits
    ensures Filled(Saved(s, p, sc, changes, pick).0.rows)
  {
    hide AnswersRead, Applied, Labels, Merge;
  }

  /** The submission that defers its Pwin is itself the row the blend finds. */
  lemma SubmissionFills(s: State, p: Id, sc: Scenario, kind: Kind, base: Prob)
    requires Filled(s.rows) && p in s.pursuits
    ensures Filled(Submitted(s, p, sc, kind, base).rows)
  {
    var pwin := if s.pursuits[p].dependsOn.Some? && sc == Base then None else Some(base as real);
    var s1 := Superseded(s, p, sc, kind, base, pwin, map[]);
    NowAppended(Demoted(s.rows, p, sc), s1.rows[|s.rows|], p, sc);
  }

  lemma StepFills(s: State, call: Call)
    requires Filled(s.rows)
    ensures Filled(Step(s, call).rows)
  {
    match call.request
    case PatchRequest(req, engines) =>
      PatchFills(s, call.scope, call.p, req, engines);
      hide PatchEndpoint;
    case BidRequest(bid) =>
    case OutcomeRequest(outcome, alsoSetBid) =>
    case AnswersRequest(sc, changes, spec, options, pick) =>
      if SaveAccepted(s, call) {
        SaveFills(s, call.p, sc, changes, pick);
      }
      hide Saved, AnswersFault;
    case RecalculateRequest(sc, engine) =>
      RecalculatedFills(s, call.p, sc, engine);
      hide Recalculated;
    case SubmitRequest(sc, form, base, completed) =>
      if SubmitEndpoint(s, call.scope, call.p, sc, form, base, completed).Ok? {
        SubmissionFills(s, call.p, sc, KindOf(form), base);
      }
      hide Submitted, SubmitFault, Complete;
  }

  lemma {:induction false} RunFills(s: State, calls: seq<Call>)
    requires Filled(s.rows)
    ensures Filled(Run(s, calls).rows)
    decreases |calls|
  {
    if calls != [] {
      StepFills(s, calls[0]);
      RunFills(Step(s, calls[0]), calls[1..]);
    }
    hide Step;
  }

  // ----- What the writers show -----

  /** A standalone value, blended where there is a dependency. */
  function Mixed(s: State, p: Id, base: real, depWin: Option<real>): real
    requires p in s.pursuits
  {
    match s.pursuits[p].dependsOn
    case None => base
    case Some(pred) => BlendValue(base, depWin.GetOr(base), BlendFactor(s, pred))
  }

  /** What a BASE submission shows: the analyst's value, on a dependent pursuit blended. */
  lemma SubmittedPwin(s: State, scope: set<Id>, p: Id, form: Submission, base: Prob, completed: Option<int>)
    requires Inv(s) && p in s.pursuits
    ensures var r := SubmitEndpoint(s, scope, p, Base, form, base, completed);
            r.Ok? ==>
              CurrentPwin(r.value.0.rows, p, Base) == Some(Mixed(s, p, base, CurrentPwin(s.rows, p, DependentWon)))
  {
    CardOfSubmit(s, scope, p, Base, form, base, completed);
    hide SubmitEndpoint, Inv, Now, BlendFactor, CurrentPwin;
    var r := SubmitEndpoint(s, scope, p, Base, form, base, completed);
    if r.Ok? {
      PwinIsNow(r.value.0.rows, p, Base);
      PwinIsNow(s.rows, p, DependentWon);
    }
  }

  lemma PwinIsNow(rows: seq<Row>, p: Id, sc: Scenario)
    ensures CurrentPwin(rows, p, sc) == PwinOf(Now(rows, p, sc))
  {
  }

  /**
   What an accepted recalculation shows. Its own row is current with the engine's value as base
   Pwin and the answers it read; a BASE row is blended where there is a dependency, and a
   DEPENDENT_WON value is at once blended into the BASE row.
   */
  lemma RecalculatedShows(s: State, scope: set<Id>, p: Id, sc: Scenario, engine: Engine)
    requires Inv(s)
    ensures var r := RecalculateEndpoint(s, scope, p, sc, engine);
            r.Ok? ==>
              && p in s.pursuits && engine.Solves?
              && var own := Now(r.value.rows, p, sc);
                 var before, base := Now(s.rows, p, Base), Now(r.value.rows, p, Base);
                 var dependent := s.pursuits[p].dependsOn.Some?;
                 && own.Some? && own.value.kind == Questionnaire && own.value.basePwin == Some(engine.pwin)
                 && own.value.at == s.clock && !own.value.solePwin
                 && own.value.answers == AnswersRead(s.rows, p, sc, engine.pick) && P1 in own.value.answers
                 && (sc == Base ==>
                       && own.value.pwin == Some(Mixed(s, p, engine.pwin, PwinOf(Now(s.rows, p, DependentWon))))
                       && own.value.blended == if dependent then own.value.pwin else None)
                 && (sc == DependentWon ==>
                       && dependent && own.value.pwin == Some(engine.pwin) && own.value.blended.None?
                       && (before.None? ==> base.None?)
                       && (before.Some? && before.value.basePwin.None? ==> base == before)
                       && (before.Some? && before.value.basePwin.Some? ==>
                             var blended := Some(Mixed(s, p, before.value.basePwin.value, Some(engine.pwin)));
                             base == Some(before.value.(pwin := blended, blended := blended))))
  {
    CardOfRecalculate(s, scope, p, sc, engine);
    hide RecalculateEndpoint, Inv, Now, BlendFactor, AnswersRead, CardRecalculated, CardOf, Mixed;
    var r := RecalculateEndpoint(s, scope, p, sc, engine);
    if r.Ok? {
      PricedIsStored(s, p, sc, engine);
      CardIsNow(s, p);
      CardIsNow(r.value, p);
      if sc == Base {
        BaseShows(s, p, engine);
      } else {
        DepShows(s, p, engine);
      }
    }
  }

  lemma CardIsNow(s: State, p: Id)
    ensures CardOf(s, p) == Card(Now(s.rows, p, Base), Now(s.rows, p, DependentWon))
  {
  }

  lemma PricedIsStored(s: State, p: Id, sc: Scenario, engine: Engine)
    requires Recalculates(s, p, sc, engine)
    ensures p in s.pursuits && engine.Solves? && (sc == DependentWon ==> s.pursuits[p].dependsOn.Some?)
    ensures P1 in AnswersRead(s.rows, p, sc, engine.pick)
  {
    hide AnswersRead;
  }

  lemma BaseShows(s: State, p: Id, engine: Engine)
    requires p in s.pursuits && engine.Solves?
    ensures var own := CardRecalculated(s, p, CardOf(s, p), Base, engine).base;
            && own.Some? && own.value.kind == Questionnaire && own.value.basePwin == Some(engine.pwin)
            && own.value.at == s.clock && !own.value.solePwin
            && own.value.answers == AnswersRead(s.rows, p, Base, engine.pick)
            && own.value.pwin == Some(Mixed(s, p, engine.pwin, PwinOf(Now(s.rows, p, DependentWon))))
            && own.value.blended == if s.pursuits[p].dependsOn.Some? then own.value.pwin else None
  {
    hide Now, BlendFactor, AnswersRead, BlendValue;
  }

  lemma DepShows(s: State, p: Id, engine: Engine)
    requires p in s.pursuits && engine.Solves? && s.pursuits[p].dependsOn.Some?
    ensures var card := CardRecalculated(s, p, CardOf(s, p), DependentWon, engine);
            var own, base, before := card.dep, card.base, Now(s.rows, p, Base);
            && own.Some? && own.value.kind == Questionnaire && own.value.basePwin == Some(engine.pwin)
            && own.value.at == s.clock && !own.value.solePwin
            && own.value.answers == AnswersRead(s.rows, p, DependentWon, engine.pick)
            && own.value.pwin == Some(engine.pwin) && own.value.blended.None?
            && (before.None? ==> base.None?)
            && (before.Some? && before.value.basePwin.None? ==> base == before)
            && (before.Some? && before.value.basePwin.Some? ==>
                  var blended := Some(Mixed(s, p, before.value.basePwin.value, Some(engine.pwin)));
                  base == Some(before.value.(pwin := blended, blended := blended)))
  {
    hide Now, BlendFactor, AnswersRead, BlendValue;
  }

  /**
   The fields a PATCH mentions take the request's value and the others stay; a stored dependency
   ends where sole source begins, and a type set to null counts as services.
   */
  ghost predicate Writes(pu: Pursuit, req: Patch, after: Pursuit) {
    && after.outcome == pu.outcome && after.bpStart == pu.bpStart && after.bhPtwComplete == pu.bhPtwComplete
    && after.bid == (if req.bid.Unset? then pu.bid else req.bid.value)
    && after.due == (if req.due.Unset? then pu.due else req.due.value)
    && after.award == (if req.award.Unset? then pu.award else req.award.value)
    && after.end == (if req.end.Unset? then pu.end else req.end.value)
    && (req.bidders.Unset? ==> after.bidders == pu.bidders)
    && (req.bidders.Put? ==> after.bidders.None? == req.bidders.value.None?)
    && (req.bidders.Put? && req.bidders.value.Some? ==> after.bidders == Some(req.bidders.value.value))
    && (req.sole.Put? ==> req.sole.value.Some? && after.soleSource == req.sole.value.value)
    && (req.sole.Unset? ==> after.soleSource == pu.soleSource)
    && (req.stage.Unset? ==> after.stage == pu.stage)
    && (req.stage == Put(None) ==> after.stage.None?)
    && (req.stage.Put? && req.stage.value.Some? ==>
          req.stage.value.value.Known? && after.stage == Some(req.stage.value.value.value))
    && (req.isProduct.Unset? ==> after.isProduct == pu.isProduct)
    && (req.isProduct == Put(None) ==> !after.isProduct)
    && (req.isProduct.Put? && req.isProduct.value.Some? ==>
          req.isProduct.value.value.Known? && after.isProduct == req.isProduct.value.value.value)
    && (req.dependsOn.Put? ==> after.dependsOn == req.dependsOn.value)
    && (req.dependsOn.Unset? ==> after.dependsOn == if after.soleSource then None else pu.dependsOn)
  }

  /** An accepted PATCH writes what it mentions, keeps the rest, and reports a dependency it dropped unasked. */
  lemma PatchWrites(s: State, scope: set<Id>, p: Id, req: Patch, engines: Engines)
    requires Inv(s)
    ensures var r := PatchEndpoint(s, scope, p, req, engines);
            r.Ok? ==>
              && p in s.pursuits && p in r.value.0.pursuits && s.pursuits[p].outcome.None?
              && Writes(s.pursuits[p], req, r.value.0.pursuits[p])
              && (r.value.1.dependencyCleared <==>
                  req.dependsOn.Unset? && r.value.0.pursuits[p].dependsOn != s.pursuits[p].dependsOn)
  {
    PatchOk(s, scope, p, req, engines);
    PatchStep(s, scope, p, req, engines);
    hide *;
    if PatchFault(s, scope, p, req, engines.lpta).None? {
      PatchedWrites(s, scope, p, req, engines.lpta);
      ReportsDrop(s, scope, p, req, engines);
    }
  }

  lemma PatchedWrites(s: State, scope: set<Id>, p: Id, req: Patch, pick: nat)
    requires Inv(s) && PatchFault(s, scope, p, req, pick).None?
    ensures s.pursuits[p].outcome.None? && Writes(s.pursuits[p], req, PatchedPursuit(s.pursuits[p], req))
    ensures DropsDependency(s.pursuits[p], req) <==>
            req.dependsOn.Unset? && PatchedPursuit(s.pursuits[p], req).dependsOn != s.pursuits[p].dependsOn
  {
    hide DependencyFault, InOrder, Disciplined;
    assert PursuitRules(s.pursuits[p]);
  }

  lemma ReportsDrop(s: State, scope: set<Id>, p: Id, req: Patch, engines: Engines)
    requires PatchFault(s, scope, p, req, engines.lpta).None?
    ensures PatchEndpoint(s, scope, p, req, engines).value.1.dependencyCleared == DropsDependency(s.pursuits[p], req)
  {
    hide DependencyFault, InOrder, DropsDependency, PatchedPursuit, AfterSole, AfterRevert, RevertsToPreBh;
  }

  // ----- Failures that PATCH reports instead of raising -----

  /** When every engine call fails, a PATCH that does not set sole source leaves every row untouched. */
  lemma FailedEngineTouchesNothing(s: State, scope: set<Id>, p: Id, req: Patch, engines: Engines)
    requires engines.sole.Fails? && engines.base.Fails? && engines.dependentWon.Fails?
    ensures var r := PatchEndpoint(s, scope, p, req, engines);
            r.Ok? ==> p in s.pursuits &&
                      (req.sole != Put(Some(true)) ==> r.value.0.rows == s.rows) &&
                      (RevertsToPreBh(s.pursuits[p], req) ==> r.value.1.needsRecalc)
  {
    PatchOk(s, scope, p, req, engines);
    if PatchFault(s, scope, p, req, engines.lpta).None? {
      var s1 := PatchedState(s, p, req);
      var (s2, _, _) := AfterSole(s1, p, req, engines.sole);
      FailedSole(s1, p, req, engines.sole);
      FailedRevert(s2, p, engines.base, engines.dependentWon);
      hide AfterSole, AfterRevert, RevertsToPreBh, DependencyFault, InOrder;
    }
  }

  lemma FailedSole(s: State, p: Id, req: Patch, engine: Engine)
    requires p in s.pursuits && engine.Fails?
    ensures var (after, done, _) := AfterSole(s, p, req, engine);
            !done && (req.sole.Unset? || !s.pursuits[p].soleSource ==> after == s)
  {
  }

  lemma FailedRevert(s: State, p: Id, engineBase: Engine, engineDep: Engine)
    requires engineBase.Fails? && engineDep.Fails?
    ensures AfterRevert(s, p, engineBase, engineDep) == (s, true)
  {
  }
}
