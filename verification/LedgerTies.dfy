/**
 Ties. Two questionnaire rows of one scenario are equally late only when one request wrote both,
 and then the database may return either. Here is exactly which request does that, and what a
 save does to the answers once it has.
 */
module LedgerTies {
  import opened Wrappers
  import opened Cascades
  import opened DependencyGraph
  import opened Ledger
  import opened LedgerInvariant
  import opened LedgerSteps
  import opened LedgerRuns
  import opened LedgerCurrent
  import opened LedgerExample
  import opened LedgerOrphans

  ghost predicate Untied(rows: seq<Row>) {
    forall p: Id, sc: Scenario :: !Tied(rows, p, sc)
  }

  /** Some questionnaire row of the scenario carries the time of the request under way. */
  ghost predicate StampedNow(rows: seq<Row>, now: nat, p: Id, sc: Scenario) {
    exists i: nat :: i < |rows| && AnswersFor(rows[i], p, sc) && rows[i].at == now
  }

  // ----- Statements -----

  lemma PartsTied(rows: seq<Row>, after: seq<Row>, p: Id, sc: Scenario)
    requires |after| == |rows| && forall i | 0 <= i < |rows| :: SameAnswerPart(rows[i], after[i])
    ensures Tied(after, p, sc) <==> Tied(rows, p, sc)
    ensures forall now: nat :: StampedNow(after, now, p, sc) <==> StampedNow(rows, now, p, sc)
  {
    assert SameAnswerRows(rows, after, p, sc);
    forall i: nat
      ensures IsLatest(after, p, sc, i) == IsLatest(rows, p, sc, i)
    {
      SameIsLatest(rows, after, p, sc, i);
    }
    forall now: nat
      ensures StampedNow(after, now, p, sc) <==> StampedNow(rows, now, p, sc)
    {
      assert forall i | 0 <= i < |rows| :: AnswersFor(after[i], p, sc) == AnswersFor(rows[i], p, sc);
      assert forall i | 0 <= i < |rows| :: SameAnswerPart(rows[i], after[i]);
    }
    hide IsLatest;
  }

  lemma AppendTied(rows: seq<Row>, r: Row, p: Id, sc: Scenario)
    requires forall j | 0 <= j < |rows| :: rows[j].at <= r.at
    ensures Tied(rows + [r], p, sc) <==> if AnswersFor(r, p, sc) then StampedNow(rows, r.at, p, sc) else Tied(rows, p, sc)
  {
    forall i: nat
      ensures IsLatest(rows + [r], p, sc, i) <==>
              if AnswersFor(r, p, sc) then i == |rows| || (IsLatest(rows, p, sc, i) && rows[i].at == r.at)
              else IsLatest(rows, p, sc, i)
    {
      AppendedLatest(rows, r, p, sc, i);
    }
    if AnswersFor(r, p, sc) && StampedNow(rows, r.at, p, sc) {
      var i: nat :| i < |rows| && AnswersFor(rows[i], p, sc) && rows[i].at == r.at;
      assert IsLatest(rows, p, sc, i);
      assert IsLatest(rows + [r], p, sc, i) && IsLatest(rows + [r], p, sc, |rows|);
    }
  }

  lemma AppendStamped(rows: seq<Row>, r: Row, now: nat, p: Id, sc: Scenario)
    ensures StampedNow(rows + [r], now, p, sc) <==> StampedNow(rows, now, p, sc) || (AnswersFor(r, p, sc) && r.at == now)
  {
    if AnswersFor(r, p, sc) && r.at == now {
      assert AnswersFor((rows + [r])[|rows|], p, sc);
    }
    if StampedNow(rows, now, p, sc) {
      var i: nat :| i < |rows| && AnswersFor(rows[i], p, sc) && rows[i].at == now;
      assert AnswersFor((rows + [r])[i], p, sc);
    }
  }

  lemma SupersededTied(s: State, p: Id, sc: Scenario, kind: Kind, base: real, pwin: Option<real>, answers: map<Code, Value>,
                       q: Id, sc2: Scenario)
    requires Stamped(s.rows, s.clock + 1)
    ensures var after := Superseded(s, p, sc, kind, base, pwin, answers).rows;
            var own := kind == Questionnaire && q == p && sc2 == sc;
            && (Tied(after, q, sc2) <==> if own then StampedNow(s.rows, s.clock, p, sc) else Tied(s.rows, q, sc2))
            && (StampedNow(after, s.clock, q, sc2) <==> own || StampedNow(s.rows, s.clock, q, sc2))
  {
    var demoted := Demoted(s.rows, p, sc);
    var r := Row(p, sc, kind, true, Some(base), pwin, None, false, s.clock, answers);
    PartsTied(s.rows, demoted, q, sc2);
    AppendTied(demoted, r, q, sc2);
    AppendStamped(demoted, r, s.clock, q, sc2);
    hide Tied, StampedNow;
  }

  lemma BlendTied(s: State, p: Id, q: Id, sc: Scenario)
    requires p in s.pursuits
    ensures var after := BlendIfDependent(s, p).rows;
            (Tied(after, q, sc) <==> Tied(s.rows, q, sc)) && (StampedNow(after, s.clock, q, sc) <==> StampedNow(s.rows, s.clock, q, sc))
  {
    PartsTied(s.rows, BlendIfDependent(s, p).rows, q, sc);
  }

  lemma RecalculatedTied(s: State, p: Id, sc: Scenario, engine: Engine, q: Id, sc2: Scenario)
    requires Stamped(s.rows, s.clock + 1) && Recalculated(s, p, sc, engine).Ok?
    ensures var after := Recalculated(s, p, sc, engine).value.rows;
            var own := q == p && sc2 == sc;
            && (Tied(after, q, sc2) <==> if own then StampedNow(s.rows, s.clock, p, sc) else Tied(s.rows, q, sc2))
            && (StampedNow(after, s.clock, q, sc2) <==> own || StampedNow(s.rows, s.clock, q, sc2))
  {
    var answers := AnswersRead(s.rows, p, sc, engine.pick);
    SupersededTied(s, p, sc, Questionnaire, engine.pwin, Some(engine.pwin), answers, q, sc2);
    BlendTied(Superseded(s, p, sc, Questionnaire, engine.pwin, Some(engine.pwin), answers), p, q, sc2);
    hide Tied, StampedNow, Superseded, BlendIfDependent, AnswersRead;
  }

  lemma NothingStamped(rows: seq<Row>, clock: nat, p: Id, sc: Scenario)
    requires Stamped(rows, clock)
    ensures !StampedNow(rows, clock, p, sc)
  {
  }

  /** The flat-rate write stamps a questionnaire row, or inserts one, or stamps a row of another kind. */
  lemma SoleOnStamped(s: State, p: Id, q: Id, sc: Scenario)
    requires Disciplined(s.rows, s.clock)
    ensures var base := Now(s.rows, p, Base);
            StampedNow(SoleSourceOn(s, p).rows, s.clock, q, sc) <==>
            q == p && sc == Base && (base.None? || base.value.kind == Questionnaire)
  {
    NothingStamped(s.rows, s.clock, q, sc);
    match FindCurrent(s.rows, p, Base)
    case Some(i) =>
      var after := SoleSourceOn(s, p).rows;
      if AnswersFor(s.rows[i], q, sc) {
        assert AnswersFor(after[i], q, sc) && after[i].at == s.clock;
      }
    case None => AppendStamped(s.rows, SoleSourceOn(s, p).rows[|s.rows|], s.clock, q, sc);
  }

  /** ... and leaves no tie, for it is then the only latest one. */
  lemma SoleTied(s: State, p: Id, q: Id, sc: Scenario)
    requires Disciplined(s.rows, s.clock) && !Tied(s.rows, q, sc)
    ensures !Tied(SoleSourceOn(s, p).rows, q, sc)
  {
    NothingStamped(s.rows, s.clock, q, sc);
    match FindCurrent(s.rows, p, Base)
    case Some(i) => RestampTied(s, p, i, q, sc);
    case None => AppendTied(s.rows, SoleSourceOn(s, p).rows[|s.rows|], q, sc);
  }

  lemma RestampTied(s: State, p: Id, i: nat, q: Id, sc: Scenario)
    requires Disciplined(s.rows, s.clock) && FindCurrent(s.rows, p, Base) == Some(i) && !Tied(s.rows, q, sc)
    ensures !Tied(SoleSourceOn(s, p).rows, q, sc)
  {
    var after := SoleSourceOn(s, p).rows;
    LaterBound(s.rows, s.clock);
    forall k: nat
      ensures IsLatest(after, q, sc, k) ==> if AnswersFor(s.rows[i], q, sc) then k == i else IsLatest(s.rows, q, sc, k)
    {
      RestampedLatest(s.rows, s.clock, i, after, q, sc, k);
    }
    hide Disciplined, IsLatest;
  }

  // ----- Requests -----

  /** Sole source on and the stage reverted in one PATCH, on a pursuit whose current BASE row is a priced questionnaire. */
  predicate MakesTie(s: State, call: Call, q: Id, sc: Scenario) {
    && call.p == q && sc == Base && PatchAccepted(s, call)
    && var PatchRequest(req, engines) := call.request;
       var base := Now(s.rows, q, Base);
       && q in s.pursuits && req.sole == Put(Some(true)) && RevertsToPreBh(s.pursuits[q], req)
       && base.Some? && base.value.kind == Questionnaire && P1 in Labels(base.value.answers) && engines.base.Solves?
  }

  lemma RevertTied(s: State, p: Id, engineBase: Engine, engineDep: Engine, q: Id, sc: Scenario)
    requires Disciplined(s.rows, s.clock + 1) && NoSelf(s, p)
    requires !Tied(s.rows, q, sc) && !StampedNow(s.rows, s.clock, p, DependentWon)
    ensures Tied(AfterRevert(s, p, engineBase, engineDep).0.rows, q, sc) <==>
            q == p && sc == Base && StampedNow(s.rows, s.clock, p, Base) && Recalculates(s, p, Base, engineBase)
  {
    hide Recalculated, Tied, StampedNow, Recalculates, KeepsAnswers, ReadsFrom, Advances, OneCurrent, BaseIsCurrent, CurrentIsLatest;
    var base := Recalculated(s, p, Base, engineBase);
    var s1 := OrKeep(base, s);
    RecalculatesExactly(s, p, Base, engineBase);
    NoStep(s, p);
    RecalculatedStep(s, p, Base, engineBase);
    if base.Ok? {
      RecalculatedTied(s, p, Base, engineBase, q, sc);
      RecalculatedTied(s, p, Base, engineBase, p, DependentWon);
    }
    if Recalculated(s1, p, DependentWon, engineDep).Ok? {
      RecalculatedTied(s1, p, DependentWon, engineDep, q, sc);
    }
  }

  /** The rows after the reactions of an accepted PATCH, its record being stored already. */
  lemma ReactionsTied(s: State, p: Id, req: Patch, engines: Engines, reverts: bool, q: Id, sc: Scenario)
    requires Inv(s) && NoSelf(s, p) && !Tied(s.rows, q, sc)
    requires Now(s.rows, p, Base).None? ==> !Recalculates(s, p, Base, BaseEngine(s, p, req, engines.base))
    ensures var (s2, done, _) := AfterSole(s, p, req, engines.sole);
            var after := if reverts && !done then AfterRevert(s2, p, engines.base, engines.dependentWon).0 else s2;
            var base := Now(s.rows, p, Base);
            Tied(after.rows, q, sc) <==>
            && q == p && sc == Base && reverts && req.sole.Put? && s.pursuits[p].soleSource
            && base.Some? && base.value.kind == Questionnaire && Recalculates(s, p, Base, BaseEngine(s, p, req, engines.base))
  {
    hide AfterSole, AfterRevert, Tied, StampedNow, Recalculates, Now, CardOf, CardAfterSole, CardRecalculated;
    hide Advances, KeepsAnswers, ReadsFrom, AnswersRead, BaseEngine;
    SoleStepTied(s, p, req, engines.sole, q, sc);
    CardOfAfterSole(s, p, req, engines.sole);
    if !SoleRedone(s, p, req, engines.sole) {
      NothingAtDep(s, p, req, engines.sole);
      SameAfterSole(s, p, req, engines);
      SoleStamp(s, p, req, engines.sole);
      var s2 := AfterSole(s, p, req, engines.sole).0;
      RevertTied(s2, p, engines.base, engines.dependentWon, q, sc);
    }
  }

  lemma SameAfterSole(s: State, p: Id, req: Patch, engines: Engines)
    requires Inv(s) && NoSelf(s, p) && !SoleRedone(s, p, req, engines.sole)
    ensures var s2 := AfterSole(s, p, req, engines.sole).0;
            && RowStep(s, s2, p) && NoSelf(s2, p)
            && Recalculates(s2, p, Base, engines.base) == Recalculates(s, p, Base, BaseEngine(s, p, req, engines.base))
  {
    var s2 := AfterSole(s, p, req, engines.sole).0;
    LaterBound(s.rows, s.clock);
    AfterSoleStep(s, p, req, engines.sole);
    ReadAfterSole(s, p, req, engines);
    BaseEngineSolves(s, p, req, engines.base);
    hide Inv, AfterSole, SoleRedone, BaseEngine, AnswersRead, Recalculates, Advances, KeepsAnswers, ReadsFrom, Disciplined;
    SameInputs(s, s2, p, Base, engines.base, BaseEngine(s, p, req, engines.base));
  }

  lemma NothingAtDep(s: State, p: Id, req: Patch, engine: Engine)
    requires Inv(s) && NoSelf(s, p)
    ensures !StampedNow(AfterSole(s, p, req, engine).0.rows, s.clock, p, DependentWon)
  {
    SoleStamped(s, p, req, engine, p, DependentWon);
  }

  lemma SoleStamp(s: State, p: Id, req: Patch, engine: Engine)
    requires Inv(s) && NoSelf(s, p)
    ensures var base := Now(s.rows, p, Base);
            StampedNow(AfterSole(s, p, req, engine).0.rows, s.clock, p, Base) <==>
            if req.sole.Put? && s.pursuits[p].soleSource then base.None? || base.value.kind == Questionnaire
            else SoleRedone(s, p, req, engine)
  {
    SoleStamped(s, p, req, engine, p, Base);
  }

  lemma PatchTied(s: State, call: Call, q: Id, sc: Scenario)
    requires Inv(s) && PatchAccepted(s, call) && !Tied(s.rows, q, sc)
    ensures Tied(Step(s, call).rows, q, sc) <==> MakesTie(s, call, q, sc)
  {
    var PatchRequest(req, engines) := call.request;
    var p := call.p;
    hide PatchEndpoint, Step, AfterSole, AfterRevert, Tied, Inv, Recalculates, RevertsToPreBh, BaseEngine, Labels;
    hide Now, AnswersOf, PatchFault, PatchedPursuit;
    AcceptedPatch(s, call);
    PatchEnds(s, call.scope, p, req, engines);
    PatchUpdateKeepsInv(s, call.scope, p, req, engines.lpta);
    var s1 := PatchedState(s, p, req);
    PatchedNoSelf(s1, p);
    TieGuard(s, p, req, engines);
    ReactionsTied(s1, p, req, engines, RevertsToPreBh(s.pursuits[p], req), q, sc);
  }

  /** After the reaction to the flag: which questionnaire rows carry the time of the request. */
  lemma SoleStamped(s: State, p: Id, req: Patch, engine: Engine, q: Id, sc: Scenario)
    requires Inv(s) && NoSelf(s, p)
    ensures var after := AfterSole(s, p, req, engine).0.rows;
            var base := Now(s.rows, p, Base);
            StampedNow(after, s.clock, q, sc) <==>
            q == p && sc == Base &&
            if req.sole.Put? && s.pursuits[p].soleSource then base.None? || base.value.kind == Questionnaire
            else SoleRedone(s, p, req, engine)
  {
    NothingStamped(s.rows, s.clock, q, sc);
    SoleOnStamped(s, p, q, sc);
    StaleIsCard(s, p);
    RecalculatesExactly(s, p, Base, engine);
    if Recalculated(s, p, Base, engine).Ok? {
      RecalculatedTied(s, p, Base, engine, q, sc);
    }
    hide Recalculated, SoleSourceOn, Tied, StampedNow, Agreed, Recalculates, StaleSolePwin, CardOf, Now;
  }

  lemma SoleStepTied(s: State, p: Id, req: Patch, engine: Engine, q: Id, sc: Scenario)
    requires Inv(s) && NoSelf(s, p) && !Tied(s.rows, q, sc)
    ensures !Tied(AfterSole(s, p, req, engine).0.rows, q, sc)
  {
    NothingStamped(s.rows, s.clock, p, Base);
    SoleTied(s, p, q, sc);
    if Recalculated(s, p, Base, engine).Ok? {
      RecalculatedTied(s, p, Base, engine, q, sc);
    }
    hide Recalculated, SoleSourceOn, Tied, StampedNow, Agreed, StaleSolePwin, Now;
  }

  /** The guard, from the stored rows: where there is no current BASE row there are no BASE answers either. */
  lemma TieGuard(s: State, p: Id, req: Patch, engines: Engines)
    requires Inv(s) && p in s.pursuits
    ensures var s1 := PatchedState(s, p, req);
            var base := Now(s.rows, p, Base);
            var redone := Recalculates(s1, p, Base, BaseEngine(s1, p, req, engines.base));
            && (req.sole == Put(Some(true)) <==> req.sole.Put? && s1.pursuits[p].soleSource)
            && (RevertsToPreBh(s.pursuits[p], req) && req.sole == Put(Some(true)) && base.Some? && base.value.kind == Questionnaire ==>
                  (redone <==> engines.base.Solves? && P1 in Labels(base.value.answers)))
            && (base.None? ==> !redone)
  {
    var i := FindCurrent(s.rows, p, Base);
    if i.Some? {
      CurrentIsRead(s, p, i.value, 0);
    } else {
      NoBaseRows(s, p);
      assert forall pick: nat :: AnswersRead(s.rows, p, Base, pick) == map[];
    }
    BaseEngineSolves(PatchedState(s, p, req), p, req, engines.base);
    hide AnswersRead, Inv;
  }

  lemma SaveTied(s: State, p: Id, sc: Scenario, changes: Changes, pick: nat, q: Id, sc2: Scenario)
    requires Inv(s) && p in s.pursuits && !Tied(s.rows, q, sc2)
    ensures !Tied(Saved(s, p, sc, changes, pick).0.rows, q, sc2)
  {
    hide AnswersRead, Applied, Merge, Labels, Tied, IsLatest;
    AnswerRowOnly(s, p, sc, pick);
    AnswerRowTied(s, p, sc, pick, q, sc2);
    var (s1, i) := WithAnswerRow(s, p, sc, pick);
    WrittenTied(s1.rows, i, Applied(AnswersRead(s.rows, p, sc, pick), changes), q, sc2);
  }

  lemma AnswerRowTied(s: State, p: Id, sc: Scenario, pick: nat, q: Id, sc2: Scenario)
    requires Inv(s) && !Tied(s.rows, q, sc2)
    ensures !Tied(WithAnswerRow(s, p, sc, pick).0.rows, q, sc2)
  {
    hide Tied;
    var (s1, i) := WithAnswerRow(s, p, sc, pick);
    if Picked(s.rows, p, sc, pick).None? {
      var r := s1.rows[|s.rows|];
      assert s1.rows == s.rows + [r];
      AppendTied(s.rows, r, q, sc2);
      NothingStamped(s.rows, s.clock, q, sc2);
    }
  }

  lemma WrittenTied(rows: seq<Row>, i: nat, answers: map<Code, Value>, q: Id, sc: Scenario)
    requires i < |rows| && !Tied(rows, q, sc)
    ensures !Tied(rows[i := rows[i].(answers := answers)], q, sc)
  {
    var after := rows[i := rows[i].(answers := answers)];
    forall k: nat
      ensures IsLatest(after, q, sc, k) == IsLatest(rows, q, sc, k)
    {
      WrittenLatest(rows, i, answers, q, sc, k);
    }
    hide IsLatest;
  }

  /** From rows without a tie, a request ties two of them exactly in that one way. */
  lemma TieExactly(s: State, call: Call, q: Id, sc: Scenario)
    requires Inv(s) && !Tied(s.rows, q, sc)
    ensures Tied(Step(s, call).rows, q, sc) <==> MakesTie(s, call, q, sc)
  {
    match call.request
    case PatchRequest(req, engines) =>
      if PatchAccepted(s, call) {
        PatchTied(s, call, q, sc);
      } else {
        PatchRefused(s, call);
      }
      hide Step, Tied, Inv, Agreed;
    case AnswersRequest(sc2, changes, spec, options, pick) =>
      if SaveAccepted(s, call) {
        SaveTied(s, call.p, sc2, changes, pick, q, sc);
      }
      hide Saved, AnswersFault, Tied, Inv, Agreed;
    case RecalculateRequest(sc2, engine) =>
      if RecalculateEndpoint(s, call.scope, call.p, sc2, engine).Ok? {
        LaterBound(s.rows, s.clock);
        NothingStamped(s.rows, s.clock, call.p, sc2);
        RecalculatedTied(s, call.p, sc2, engine, q, sc);
      }
      hide Recalculated, Tied, Inv, Agreed;
    case SubmitRequest(_, _, _, _) => SubmitTied(s, call, q, sc);
    case BidRequest(_) =>
    case OutcomeRequest(_, _) => OutcomeTied(s, call, q, sc);
  }

  lemma SubmitTied(s: State, call: Call, q: Id, sc: Scenario)
    requires Inv(s) && call.request.SubmitRequest?
    ensures Tied(Step(s, call).rows, q, sc) <==> Tied(s.rows, q, sc)
  {
    var SubmitRequest(sc2, form, base, completed) := call.request;
    if SubmitEndpoint(s, call.scope, call.p, sc2, form, base, completed).Ok? {
      var pwin := if s.pursuits[call.p].dependsOn.Some? && sc2 == Base then None else Some(base as real);
      SupersededTied(s, call.p, sc2, KindOf(form), base, pwin, map[], q, sc);
      BlendTied(Superseded(s, call.p, sc2, KindOf(form), base, pwin, map[]), call.p, q, sc);
    }
    hide SubmitFault, Superseded, BlendIfDependent, Tied, Inv, Complete;
  }

  lemma OutcomeTied(s: State, call: Call, q: Id, sc: Scenario)
    requires call.request.OutcomeRequest?
    ensures Tied(Step(s, call).rows, q, sc) <==> Tied(s.rows, q, sc)
  {
    PartsTied(s.rows, Step(s, call).rows, q, sc);
    hide Tied;
  }

  // ----- Saves -----

  /** An accepted save leaves one answer set to read exactly when it meets no tie, or changes nothing. */
  lemma SaveOnTieExactly(s: State, call: Call)
    requires Inv(s) && Agreed(s.rows) && SaveAccepted(s, call)
    ensures var AnswersRequest(sc, changes, _, _, _) := call.request;
            var stored := AnswersOf(s.rows, call.p, sc);
            Agreed(Step(s, call).rows) <==> !Tied(s.rows, call.p, sc) || Applied(stored, changes) == stored
  {
    var AnswersRequest(sc, changes, spec, options, pick) := call.request;
    SavedAgreed(s, call.p, sc, changes, pick);
    hide Saved, AnswersFault, Agreed, Tied, Inv, Applied, AnswersOf;
  }

  lemma SavedAgreed(s: State, p: Id, sc: Scenario, changes: Changes, pick: nat)
    requires Inv(s) && Agreed(s.rows) && p in s.pursuits
    ensures var stored := AnswersOf(s.rows, p, sc);
            Agreed(Saved(s, p, sc, changes, pick).0.rows) <==> !Tied(s.rows, p, sc) || Applied(stored, changes) == stored
  {
    var answers := Applied(AnswersOf(s.rows, p, sc), changes);
    AgreedRead(s.rows, p, sc, pick);
    AnswerRowOnly(s, p, sc, pick);
    var (s1, i) := WithAnswerRow(s, p, sc, pick);
    if !Tied(s.rows, p, sc) {
      hide AnswersRead, Applied, Merge, Labels, Agreed, AnswersOf, Inv, WithAnswerRow;
      SavedAnswers(s, p, sc, pick, answers, Saved(s, p, sc, changes, pick).0.rows);
    } else {
      TiedIsPicked(s.rows, p, sc, pick);
      assert s1 == s;
      hide AnswersRead, Applied, Merge, Labels, Agreed, AnswersOf, Inv, IsLatest, Tied;
      WrittenOnTie(s.rows, p, sc, i, answers);
    }
  }

  /**
   One answer set to read everywhere, and no dependency of a pursuit whose BASE set says LPTA: a
   request keeps both exactly when it is no save that meets a tie and changes something.
   */
  lemma ConsistentExactly(s: State, call: Call)
    requires Inv(s) && Consistent(s)
    ensures Consistent(Step(s, call)) <==>
            !(MeetsTie(s, call) &&
              Applied(AnswersOf(s.rows, call.p, call.request.sc), call.request.changes) !=
              AnswersOf(s.rows, call.p, call.request.sc))
  {
    if !MeetsTie(s, call) {
      StepAnswers(s, call, 0, Base);
    } else {
      var AnswersRequest(sc, changes, _, _, pick) := call.request;
      SaveOnTieExactly(s, call);
      AcceptedSave(s, call);
      if Applied(AnswersOf(s.rows, call.p, sc), changes) == AnswersOf(s.rows, call.p, sc) {
        UnchangedSave(s, call.p, sc, changes, pick);
      }
    }
    hide Step, SaveAccepted, Inv, Agreed, LptaRules, Tied, AnswersOf, Applied, Saved;
  }

  lemma AcceptedSave(s: State, call: Call)
    requires SaveAccepted(s, call)
    ensures call.p in s.pursuits
    ensures Step(s, call) == Saved(s, call.p, call.request.sc, call.request.changes, call.request.pick).0
  {
    hide Saved, AnswersRead, Merge, Labels, FirstFault;
  }

  lemma UnchangedSave(s: State, p: Id, sc: Scenario, changes: Changes, pick: nat)
    requires Consistent(s) && p in s.pursuits && Tied(s.rows, p, sc)
    requires Applied(AnswersOf(s.rows, p, sc), changes) == AnswersOf(s.rows, p, sc)
    ensures Consistent(Saved(s, p, sc, changes, pick).0)
  {
    var after := Saved(s, p, sc, changes, pick).0;
    AgreedRead(s.rows, p, sc, pick);
    TiedIsPicked(s.rows, p, sc, pick);
    SavedRecord(s, p, sc, changes, pick);
    hide AnswersOf, Applied, Merge, Labels, Agreed, LptaRules, IsLatest, Tied, TurnsLpta;
    assert after.rows == s.rows;
    KeepsSame(s.rows);
    ConsistentKept(s, after);
  }

  lemma KeepsSame(rows: seq<Row>)
    ensures KeepsAnswers(rows, rows)
  {
  }

  lemma TiedIsPicked(rows: seq<Row>, p: Id, sc: Scenario, pick: nat)
    requires Tied(rows, p, sc)
    ensures Picked(rows, p, sc, pick).Some? && IsLatest(rows, p, sc, Picked(rows, p, sc, pick).value)
  {
  }

  // ----- Runs -----

  /** No PATCH of the run both sets sole source and sets the stage back. */
  predicate NoDoublePatch(calls: seq<Call>) {
    forall k | 0 <= k < |calls| && calls[k].request.PatchRequest? ::
      !(calls[k].request.req.sole == Put(Some(true)) && calls[k].request.req.stage == Put(Some(Known(PreBh))))
  }

  /** Such a run never ties, so it refines the plain answer map without any condition on what the database picks. */
  lemma {:induction false} RunWithoutDoublePatch(s: State, calls: seq<Call>, p: Id, sc: Scenario, pick: nat)
    requires Inv(s) && Consistent(s) && Untied(s.rows) && NoDoublePatch(calls)
    ensures NeverMeetsTie(s, calls) && Untied(Run(s, calls).rows) && Consistent(Run(s, calls))
    ensures AnswersRead(Run(s, calls).rows, p, sc, pick) == Replay(AnswersOf(s.rows, p, sc), Saves(s, calls), p, sc)
    decreases |calls|
  {
    if calls != [] {
      var next := Step(s, calls[0]);
      StepIsLawful(s, calls[0]);
      assert !MeetsTie(s, calls[0]);
      StepAnswers(s, calls[0], p, sc);
      SinglePatchUnties(s, calls[0]);
      assert NoDoublePatch(calls[1..]) by {
        assert forall k | 0 <= k < |calls| - 1 :: calls[1..][k] == calls[k + 1];
      }
      RunWithoutDoublePatch(next, calls[1..], p, sc, pick);
    }
    hide Step, Inv, Consistent, Untied, AnswersRead, AnswersOf, Saves, Replay, MeetsTie;
    RunRefinesAnswerMap(s, calls, p, sc, pick);
  }

  lemma SinglePatchUnties(s: State, call: Call)
    requires Inv(s) && Untied(s.rows)
    requires call.request.PatchRequest? ==>
               !(call.request.req.sole == Put(Some(true)) && call.request.req.stage == Put(Some(Known(PreBh))))
    ensures Untied(Step(s, call).rows)
  {
    forall q: Id, sc: Scenario
      ensures !Tied(Step(s, call).rows, q, sc)
    {
      TieExactly(s, call, q, sc);
      hide Step, Tied, Inv, Agreed;
    }
    hide Step, Tied, Inv, Agreed;
  }

  // ----- A run that loses a save -----

  /** A pursuit past Black Hat whose current BASE row is still its questionnaire. */
  const LATE: State := State(map[0 := OpenPursuit(None).(stage := Some(PostBh))], [ROWS[0]], 1)

  const DOUBLE: Call := Call({0}, 0, PatchRequest(NOTHING.(sole := Put(Some(true)), stage := Put(Some(Known(PreBh)))),
                                                  SILENT.(base := Solves(0, 0.3))))

  function BestValue(pick: nat): Call {
    Call({0}, 0, AnswersRequest(Base, map[P2 := Some("Best Value")], Some(P2_ONLY), {(P2, "Best Value")}, pick))
  }

  lemma LateIsLawful()
    ensures Inv(LATE) && Consistent(LATE) && Now(LATE.rows, 0, Base) == Some(ROWS[0])
    ensures AnswersOf(LATE.rows, 0, Base) == PRICED && !Tied(LATE.rows, 0, Base)
  {
    assert CurrentFor(LATE.rows[0], 0, Base) && AnswersFor(LATE.rows[0], 0, Base);
    assert PursuitRules(LATE.pursuits[0]) && DependencyRules(LATE, 0);
  }

  lemma DoubleTies()
    ensures MakesTie(LATE, DOUBLE, 0, Base)
    ensures var s1 := Step(LATE, DOUBLE);
            && Inv(s1) && Consistent(s1) && Tied(s1.rows, 0, Base) && AnswersOf(s1.rows, 0, Base) == PRICED
            && 0 in s1.pursuits && s1.pursuits[0].outcome.None? && !s1.pursuits[0].isProduct
  {
    LateIsLawful();
    DoubleAccepted();
    hide Inv, Consistent, Tied, Step, AnswersOf, Now, PatchFault;
    TieExactly(LATE, DOUBLE, 0, Base);
    StepIsLawful(LATE, DOUBLE);
    OthersConsistent(LATE, DOUBLE);
    AcceptedPatch(LATE, DOUBLE);
    PatchOk(LATE, {0}, 0, DOUBLE.request.req, DOUBLE.request.engines);
    PatchStep(LATE, {0}, 0, DOUBLE.request.req, DOUBLE.request.engines);
    hide PatchEndpoint;
  }

  lemma DoubleAccepted()
    ensures PatchAccepted(LATE, DOUBLE)
  {
    assert InOrder(MergedDates(LATE.pursuits[0], DOUBLE.request.req));
  }

  lemma BestValueAccepted(s: State, pick: nat)
    requires Agreed(s.rows) && AnswersOf(s.rows, 0, Base) == PRICED && 0 in s.pursuits
    requires s.pursuits[0].outcome.None? && !s.pursuits[0].isProduct
    ensures SaveAccepted(s, BestValue(pick))
  {
    var changes: Changes := map[P2 := Some("Best Value")];
    AgreedRead(s.rows, 0, Base, pick);
    hide AnswersRead, AnswersOf, Agreed;
    assert "Best Value" == ["Best Value", "LPTA"][0];
    PricedIsLegal("Best Value");
    hide FirstFault, Merge, Labels, P2_ONLY;
    assert !Unresolved?({(P2, "Best Value")}, changes) && !TwoValued(PRICED, changes);
    assert AnswersFault(s, {0}, 0, Base, changes, Some(P2_ONLY), {(P2, "Best Value")}, pick).None?;
  }

  /** After that PATCH, whichever row the next save goes to, another one can be read that lacks it. */
  lemma TieLosesSave(pick: nat)
    ensures var s1 := Step(LATE, DOUBLE);
            && SaveAccepted(s1, BestValue(pick)) && MeetsTie(s1, BestValue(pick))
            && !Agreed(Step(s1, BestValue(pick)).rows)
  {
    var s1 := Step(LATE, DOUBLE);
    DoubleTies();
    hide Inv, Tied, Step, AnswersOf, Agreed, MakesTie;
    BestValueAccepted(s1, pick);
    SaveOnTieExactly(s1, BestValue(pick));
    assert P2 in Applied(PRICED, map[P2 := Some("Best Value")]) && P2 !in PRICED;
    hide SaveAccepted;
  }
}
