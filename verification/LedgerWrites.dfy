/** What accepted requests store, column by column, and what a PATCH reports. */
module LedgerWrites {
  import opened Wrappers
  import opened Cascades
  import opened DependencyGraph
  import opened Ledger
  import opened LedgerInvariant
  import opened LedgerSteps
  import opened LedgerRuns
  import opened LedgerCurrent
  import opened LedgerOrphans
  import opened LedgerRows
  import opened BlendSteps

  // ----- Bid decisions -----

  /** The decision asked for is stored, on that pursuit and in that column alone. */
  lemma BidWrites(s: State, scope: set<Id>, p: Id, bid: bool)
    ensures var r := BidEndpoint(s, scope, p, bid);
            r.Ok? ==>
              && p in s.pursuits && p in r.value.pursuits
              && (r.value.pursuits[p].bid == Some(Bid) <==> bid) && (r.value.pursuits[p].bid == Some(NoBid) <==> !bid)
              && r.value.pursuits[p] == s.pursuits[p].(bid := r.value.pursuits[p].bid)
              && r.value == s.(pursuits := s.pursuits[p := r.value.pursuits[p]])
  {
  }

  // ----- Saves -----

  /** Every answer set is stored as a choice, every answer cleared is gone, and the others are as before. */
  ghost predicate Rewritten(before: map<Code, Value>, changes: Changes, after: map<Code, Value>) {
    && (forall c | c in changes && changes[c].Some? :: c in after && after[c] == Choice(changes[c].value))
    && (forall c | c in changes && changes[c].None? :: c !in after)
    && (forall c | c !in changes :: c in after <==> c in before)
    && (forall c | c !in changes && c in before :: after[c] == before[c])
  }

  lemma AppliedRewrites(answers: map<Code, Value>, changes: Changes)
    ensures Rewritten(answers, changes, Applied(answers, changes))
  {
  }

  /** A questionnaire row of the scenario than which none is later. */
  ghost predicate Newest(rows: seq<Row>, p: Id, sc: Scenario, i: nat) {
    && i < |rows| && rows[i].pursuit == p && rows[i].scenario == sc && rows[i].kind == Questionnaire
    && forall j | 0 <= j < |rows| && rows[j].pursuit == p && rows[j].scenario == sc && rows[j].kind == Questionnaire ::
         rows[j].at <= rows[i].at
  }

  ghost predicate AnyNewest(rows: seq<Row>, p: Id, sc: Scenario) {
    exists i: nat :: Newest(rows, p, sc, i)
  }

  /** What is read are the answers of a newest row, of the one the database picks where that is one; of no row they are none. */
  lemma AnswersReadMeans(rows: seq<Row>, p: Id, sc: Scenario, pick: nat)
    ensures var answers := AnswersRead(rows, p, sc, pick);
            && (Newest(rows, p, sc, pick) ==> answers == rows[pick].answers)
            && ((exists i: nat :: Newest(rows, p, sc, i) && answers == rows[i].answers) || (answers == map[] &&
                  forall i | 0 <= i < |rows| && rows[i].pursuit == p && rows[i].scenario == sc :: rows[i].kind != Questionnaire))
  {
    NewestIsLatest(rows, p, sc, pick);
    var i := Picked(rows, p, sc, pick);
    if i.Some? {
      NewestIsLatest(rows, p, sc, i.value);
    } else {
      assert forall i | 0 <= i < |rows| :: !AnswersFor(rows[i], p, sc);
    }
  }

  lemma NewestIsLatest(rows: seq<Row>, p: Id, sc: Scenario, i: nat)
    ensures Newest(rows, p, sc, i) <==> IsLatest(rows, p, sc, i)
  {
    assert forall j | 0 <= j < |rows| ::
        AnswersFor(rows[j], p, sc) <==> rows[j].pursuit == p && rows[j].scenario == sc && rows[j].kind == Questionnaire;
  }

  /** The row that takes the answers of a save: the one that was read, or a first one, current where nothing else is. */
  ghost predicate TakesAnswers(s: State, after: State, p: Id, sc: Scenario, pick: nat, i: nat) {
    && Newest(after.rows, p, sc, i)
    && |s.rows| <= |after.rows| && (forall j | 0 <= j < |s.rows| && j != i :: after.rows[j] == s.rows[j])
    && if AnyNewest(s.rows, p, sc) then
         && i < |s.rows| == |after.rows| && AnswersRead(s.rows, p, sc, pick) == s.rows[i].answers
         && after.rows[i] == s.rows[i].(answers := after.rows[i].answers)
       else
         && |after.rows| == |s.rows| + 1 && i == |s.rows| && AnswersRead(s.rows, p, sc, pick) == map[]
         && after.rows[i] == Row(p, sc, Questionnaire, !HasCurrent(s.rows, p, sc), None, None, None, false, s.clock, after.rows[i].answers)
  }

  /**
   A save sets, clears and keeps the answers of one questionnaire row, the one that was read or a
   first one; and it drops a dependency exactly when it leaves the BASE answers at LPTA.
   */
  lemma SaveWrites(s: State, scope: set<Id>, p: Id, sc: Scenario, changes: Changes, spec: Option<Spec>, options: OptionTable,
                   pick: nat) returns (i: nat)
    requires Inv(s)
    ensures var r := AnswersEndpoint(s, scope, p, sc, changes, spec, options, pick);
            r.Ok? ==>
              var (after, drops) := r.value;
              && p in s.pursuits && TakesAnswers(s, after, p, sc, pick, i)
              && Rewritten(AnswersRead(s.rows, p, sc, pick), changes, after.rows[i].answers)
              && (drops <==> sc == Base && s.pursuits[p].dependsOn.Some? &&
                             P2 in after.rows[i].answers && after.rows[i].answers[P2] == Choice("LPTA"))
              && after.pursuits == s.pursuits[p := s.pursuits[p].(dependsOn := if drops then None else s.pursuits[p].dependsOn)]
              && after.clock == s.clock + 1
  {
    i := WithAnswerRow(s, p, sc, pick).1;
    AcceptedAnswers(s, scope, p, sc, changes, spec, options, pick);
    hide AnswersEndpoint, Inv, Applied, AnswersRead, Merge, Labels, WithAnswerRow, Saved, TwoValued, TakesAnswers, Rewritten;
    if AnswersEndpoint(s, scope, p, sc, changes, spec, options, pick).Ok? {
      var before := AnswersRead(s.rows, p, sc, pick);
      SavedAt(s, p, sc, changes, pick);
      SavedRecord(s, p, sc, changes, pick);
      SaysLpta(before, changes);
      AppliedRewrites(before, changes);
    }
  }

  lemma SavedAt(s: State, p: Id, sc: Scenario, changes: Changes, pick: nat)
    requires Inv(s) && p in s.pursuits
    ensures var after := Saved(s, p, sc, changes, pick).0;
            var i := WithAnswerRow(s, p, sc, pick).1;
            && TakesAnswers(s, after, p, sc, pick, i) && after.clock == s.clock + 1
            && after.rows[i].answers == Applied(AnswersRead(s.rows, p, sc, pick), changes)
  {
    hide Inv, Applied, Saved, WithAnswerRow, Newest, AnswersRead, TakesAnswers, RowFound;
    var answers := Applied(AnswersRead(s.rows, p, sc, pick), changes);
    NewestAfter(s, p, sc, answers, pick);
    RowForAnswers(s, p, sc, pick);
    SavedRows(s, p, sc, changes, pick);
    var (s1, i) := WithAnswerRow(s, p, sc, pick);
    Took(s, s1, Saved(s, p, sc, changes, pick).0, p, sc, pick, i, answers);
  }

  lemma Took(s: State, s1: State, after: State, p: Id, sc: Scenario, pick: nat, i: nat, answers: map<Code, Value>)
    requires RowFound(s, s1, p, sc, pick, i) && i < |s1.rows| && after.rows == s1.rows[i := s1.rows[i].(answers := answers)]
    requires Newest(after.rows, p, sc, i)
    ensures TakesAnswers(s, after, p, sc, pick, i) && after.rows[i].answers == answers
  {
    hide Newest, AnyNewest, HasCurrent, AnswersRead;
  }

  lemma SavedRows(s: State, p: Id, sc: Scenario, changes: Changes, pick: nat)
    requires p in s.pursuits
    ensures var (s1, i) := WithAnswerRow(s, p, sc, pick);
            var after := Saved(s, p, sc, changes, pick).0;
            && i < |s1.rows| && after.clock == s1.clock + 1
            && after.rows == s1.rows[i := s1.rows[i].(answers := Applied(AnswersRead(s.rows, p, sc, pick), changes))]
  {
    hide Applied, AnswersRead, Merge, Labels, TurnsLpta;
  }

  lemma NewestAfter(s: State, p: Id, sc: Scenario, answers: map<Code, Value>, pick: nat)
    requires Inv(s)
    ensures var (s1, i) := WithAnswerRow(s, p, sc, pick);
            i < |s1.rows| && Newest(s1.rows[i := s1.rows[i].(answers := answers)], p, sc, i)
  {
    LaterBound(s.rows, s.clock);
    AnswerRowKeeps(s, p, sc, pick);
    var (s1, i) := WithAnswerRow(s, p, sc, pick);
    hide Disciplined, KeepsAnswers, IsLatest, WithAnswerRow, Newest;
    WrittenLatest(s1.rows, i, answers, p, sc, i);
    NewestIsLatest(s1.rows[i := s1.rows[i].(answers := answers)], p, sc, i);
  }

  ghost predicate RowFound(s: State, s1: State, p: Id, sc: Scenario, pick: nat, i: nat) {
    if AnyNewest(s.rows, p, sc) then
      i < |s.rows| && s1 == s && AnswersRead(s.rows, p, sc, pick) == s.rows[i].answers
    else
      && i == |s.rows| && AnswersRead(s.rows, p, sc, pick) == map[]
      && s1.rows == s.rows + [Row(p, sc, Questionnaire, !HasCurrent(s.rows, p, sc), None, None, None, false, s.clock, map[])]
  }

  lemma RowForAnswers(s: State, p: Id, sc: Scenario, pick: nat)
    ensures var (s1, i) := WithAnswerRow(s, p, sc, pick);
            RowFound(s, s1, p, sc, pick, i) && s1.clock == s.clock
  {
    HasCurrentIsNow(s.rows, p, sc);
    var i := Picked(s.rows, p, sc, pick);
    if i.Some? {
      NewestIsLatest(s.rows, p, sc, i.value);
    }
    forall j: nat | Newest(s.rows, p, sc, j)
      ensures i.Some?
    {
      NewestIsLatest(s.rows, p, sc, j);
    }
    hide Newest;
  }

  lemma SaysLpta(stored: map<Code, Value>, changes: Changes)
    requires !TwoValued(stored, changes)
    ensures Lookup(Merge(Labels(stored), changes), P2) == Some("LPTA") <==>
            P2 in Applied(stored, changes) && Applied(stored, changes)[P2] == Choice("LPTA")
  {
    AppliedLabels(stored, changes);
    hide Merge, Applied;
  }

  // ----- The blend, over requests -----

  /**
   After an accepted recalculation or submission on a dependent pursuit, the Pwin that its current
   BASE row shows lies on the way from the standalone to the dependent-won value as far as the
   predecessor weighed.
   */
  lemma WritesBlend(s: State, call: Call, i: nat, weight: real, depWin: real)
    requires Inv(s) && WriteAccepted(s, call) && call.p in s.pursuits && s.pursuits[call.p].dependsOn.Some?
    requires IsWeight(s, s.pursuits[call.p].dependsOn.value, weight)
    requires i < |Step(s, call).rows| && CurrentFor(Step(s, call).rows[i], call.p, Base)
    requires Step(s, call).rows[i].basePwin.Some?
    requires IsPwinOr(Step(s, call).rows, call.p, DependentWon, Step(s, call).rows[i].basePwin.value, depWin)
    ensures var r := Step(s, call).rows[i];
            r.pwin.Some? && r.blended == r.pwin && r.pwin.value - r.basePwin.value == weight * (depWin - r.basePwin.value)
  {
    hide *;
    var r := Step(s, call).rows[i];
    StepIsLawful(s, call);
    ShownBlend(s, call, i);
    OneCurrentAfter(Step(s, call));
    OneCurrentAfter(s);
    WeightIsFactor(s, s.pursuits[call.p].dependsOn.value, weight);
    PwinIsCurrent(Step(s, call).rows, call.p, DependentWon, r.basePwin.value, depWin);
    OnTheWay(r, CurrentPwin(Step(s, call).rows, call.p, DependentWon).GetOr(r.basePwin.value),
             BlendFactor(s, s.pursuits[call.p].dependsOn.value), depWin, weight);
  }

  lemma OnTheWay(r: Row, x: real, f: real, depWin: real, weight: real)
    requires r.basePwin.Some? && r.pwin == Some(BlendValue(r.basePwin.value, x, f)) && x == depWin && f == weight
    ensures r.pwin.value - r.basePwin.value == weight * (depWin - r.basePwin.value)
  {
    BlendIsProportional(r.basePwin.value, depWin, weight);
    hide BlendValue;
  }

  lemma OneCurrentAfter(s: State)
    requires Inv(s)
    ensures OneCurrent(s.rows)
  {
  }

  lemma ShownBlend(s: State, call: Call, i: nat)
    requires Inv(s) && Inv(Step(s, call)) && WriteAccepted(s, call) && call.p in s.pursuits
    requires s.pursuits[call.p].dependsOn.Some?
    requires i < |Step(s, call).rows| && CurrentFor(Step(s, call).rows[i], call.p, Base)
    requires Step(s, call).rows[i].basePwin.Some?
    ensures var r := Step(s, call).rows[i];
            var own := r.basePwin.value;
            var blended := BlendValue(own, CurrentPwin(Step(s, call).rows, call.p, DependentWon).GetOr(own),
                                      BlendFactor(s, s.pursuits[call.p].dependsOn.value));
            r.pwin == Some(blended) && r.blended == Some(blended)
  {
    WrittenCardBlended(s, call);
    hide Step, BlendValue, BlendFactor, CurrentPwin, Disciplined, Lifecycle, WriteAccepted;
    OneCurrentAfter(Step(s, call));
    FoundOnly(Step(s, call).rows, call.p, Base, i);
  }

  lemma FoundOnly(rows: seq<Row>, p: Id, sc: Scenario, i: nat)
    requires OneCurrent(rows) && i < |rows| && CurrentFor(rows[i], p, sc)
    ensures FindCurrent(rows, p, sc) == Some(i) && Now(rows, p, sc) == Some(rows[i])
  {
  }

  lemma WrittenCardBlended(s: State, call: Call)
    requires Inv(s) && WriteAccepted(s, call) && call.p in s.pursuits && s.pursuits[call.p].dependsOn.Some?
    ensures var base := Now(Step(s, call).rows, call.p, Base);
            base.Some? && base.value.basePwin.Some? ==>
              var own := base.value.basePwin.value;
              var blended := BlendValue(own, CurrentPwin(Step(s, call).rows, call.p, DependentWon).GetOr(own),
                                        BlendFactor(s, s.pursuits[call.p].dependsOn.value));
              base.value.pwin == Some(blended) && base.value.blended == Some(blended)
  {
    match call.request
    case RecalculateRequest(sc, engine) =>
      CardOfRecalculate(s, call.scope, call.p, sc, engine);
      BlendOfCard(Renewed(CardOf(s, call.p), FreshRow(s, call.p, sc, engine.pwin, AnswersRead(s.rows, call.p, sc, engine.pick))),
                  BlendFactor(s, s.pursuits[call.p].dependsOn.value));
      hide RecalculateEndpoint, Inv, Now, BlendFactor, AnswersRead, CardBlended, Renewed;
    case SubmitRequest(sc, form, base, completed) =>
      CardOfSubmit(s, call.scope, call.p, sc, form, base, completed);
      BlendOfCard(Renewed(CardOf(s, call.p), SubmittedRow(s, call.p, sc, KindOf(form), base)),
                  BlendFactor(s, s.pursuits[call.p].dependsOn.value));
      hide SubmitEndpoint, Inv, Now, BlendFactor, CardBlended, Renewed;
  }

  lemma BlendOfCard(card: Card, factor: real)
    ensures var after := CardBlended(card, factor);
            && after.dep == card.dep
            && (after.base.Some? && after.base.value.basePwin.Some? ==>
                  var own := after.base.value.basePwin.value;
                  var blended := BlendValue(own, PwinOf(after.dep).GetOr(own), factor);
                  after.base.value.pwin == Some(blended) && after.base.value.blended == Some(blended))
  {
    hide BlendValue;
  }

  // ----- Submissions -----

  /**
   A submission stores one new row with the analyst's value and no answers, retires the row that was
   current for the scenario, and moves no other column of the record than the completion flag.
   */
  lemma SubmissionWrites(s: State, scope: set<Id>, p: Id, sc: Scenario, form: Submission, base: Prob, completed: Option<int>)
    requires Inv(s)
    ensures var r := SubmitEndpoint(s, scope, p, sc, form, base, completed);
            r.Ok? ==>
              var (after, complete) := r.value;
              && p in s.pursuits && |after.rows| == |s.rows| + 1 && after.clock == s.clock + 1
              && after.pursuits == s.pursuits[p := s.pursuits[p].(bhPtwComplete := complete)]
              && (forall j | 0 <= j < |s.rows| && CurrentFor(s.rows[j], p, sc) :: after.rows[j] == s.rows[j].(current := false))
              && var stored := after.rows[|s.rows|];
                 && stored.pursuit == p && stored.scenario == sc && stored.current && stored.at == s.clock && !stored.solePwin
                 && stored.kind == (if form.BlackHatForm? then BlackHat else Ptw)
                 && stored.basePwin == Some(base) && stored.answers == map[] && stored.pwin.Some?
                 && (s.pursuits[p].dependsOn.None? || sc == DependentWon ==> stored.pwin == Some(base) && stored.blended.None?)
  {
    SubmitOk(s, scope, p, sc, form, base, completed);
    hide SubmitEndpoint, SubmitFault;
    var r := SubmitEndpoint(s, scope, p, sc, form, base, completed);
    if r.Ok? {
      SubmittedScenario(s, scope, p, sc, form, base, completed);
      SubmitStep(s, scope, p, sc, form, base, completed);
      PatchedNoSelf(s, p);
      SubmittedRows(s, p, sc, KindOf(form), base);
      RecordedRows(s, scope, p, sc, form, base, completed);
      hide Inv, Advances, KeepsAnswers, ReadsFrom, Submitted, Recorded;
    }
  }

  lemma RecordedRows(s: State, scope: set<Id>, p: Id, sc: Scenario, form: Submission, base: Prob, completed: Option<int>)
    requires p in s.pursuits
    ensures var r := SubmitEndpoint(s, scope, p, sc, form, base, completed);
            r.Ok? ==> r.value.0.rows == Submitted(s, p, sc, KindOf(form), base).rows && r.value.0.clock == s.clock + 1
  {
    hide SubmitFault, Complete, Demoted, BlendFactor, BlendValue, CurrentPwin, FindCurrent;
  }

  lemma SubmittedRetires(s: State, p: Id, sc: Scenario, kind: Kind, base: Prob)
    requires Inv(s) && NoSelf(s, p)
    ensures var after := Submitted(s, p, sc, kind, base).rows;
            && |s.rows| <= |after|
            && forall j | 0 <= j < |s.rows| && CurrentFor(s.rows[j], p, sc) :: after[j] == s.rows[j].(current := false)
  {
    if s.rows == [] {
    } else {
      SubmittedRowAfter(s, p, sc, kind, base, |s.rows| - 1);
    }
    hide Submitted;
    forall j | 0 <= j < |s.rows| && CurrentFor(s.rows[j], p, sc)
      ensures Submitted(s, p, sc, kind, base).rows[j] == s.rows[j].(current := false)
    {
      SubmittedRowAfter(s, p, sc, kind, base, j);
    }
    hide Inv, FactorOf;
  }

  lemma SubmittedRows(s: State, p: Id, sc: Scenario, kind: Kind, base: Prob)
    requires Inv(s) && NoSelf(s, p)
    ensures var after := Submitted(s, p, sc, kind, base).rows;
            && |after| == |s.rows| + 1
            && (forall j | 0 <= j < |s.rows| && CurrentFor(s.rows[j], p, sc) :: after[j] == s.rows[j].(current := false))
            && var r := after[|s.rows|];
               && r == Row(p, sc, kind, true, Some(base), r.pwin, r.blended, false, s.clock, map[]) && r.pwin.Some?
               && (s.pursuits[p].dependsOn.None? || sc == DependentWon ==> r.pwin == Some(base) && r.blended.None?)
  {
    var pwin := if s.pursuits[p].dependsOn.Some? && sc == Base then None else Some(base as real);
    var s1 := Superseded(s, p, sc, kind, base, pwin, map[]);
    SubmittedRetires(s, p, sc, kind, base);
    hide Inv, Demoted, Superseded, FindCurrent, BlendFactor, BlendValue, CurrentPwin, ApplyBlend, FactorOf;
    SupersededFinds(s, p, sc, kind, base, pwin, map[]);
    NewRow(s, p, sc, kind, base, pwin);
    FoundBefore(s.rows, p);
    if s.pursuits[p].dependsOn.Some? {
      BlendedRow(s1, p, s.pursuits[p].dependsOn.value, |s.rows|);
    }
  }

  lemma NewRow(s: State, p: Id, sc: Scenario, kind: Kind, base: real, pwin: Option<real>)
    ensures var s1 := Superseded(s, p, sc, kind, base, pwin, map[]);
            && |s1.rows| == |s.rows| + 1 && s1.pursuits == s.pursuits
            && s1.rows[|s.rows|] == Row(p, sc, kind, true, Some(base), pwin, None, false, s.clock, map[])
  {
  }

  lemma FoundBefore(rows: seq<Row>, p: Id)
    ensures FindCurrent(rows, p, Base) != Some(|rows|)
  {
  }

  // ----- The flat rate -----

  /** Sole source set, without a revert: 95 percent on the current BASE row in place, or on a first row without answers. */
  lemma FlatRateWrites(s: State, scope: set<Id>, p: Id, req: Patch, engines: Engines)
    requires Inv(s) && req.sole == Put(Some(true)) && req.stage.Unset?
    ensures var r := PatchEndpoint(s, scope, p, req, engines);
            r.Ok? ==>
              var rows := r.value.0.rows;
              && |s.rows| <= |rows|
              && (forall i | 0 <= i < |s.rows| ::
                    rows[i] == if s.rows[i].current && s.rows[i].pursuit == p && s.rows[i].scenario == Base
                               then s.rows[i].(pwin := Some(0.95), blended := Some(0.95), solePwin := true, at := s.clock)
                               else s.rows[i])
              && if HasCurrent(s.rows, p, Base) then |rows| == |s.rows|
                 else rows[|s.rows|..] == [Row(p, Base, Questionnaire, true, None, Some(0.95), Some(0.95), true, s.clock, map[])]
  {
    PatchOk(s, scope, p, req, engines);
    if PatchFault(s, scope, p, req, engines.lpta).None? {
      PatchEnds(s, scope, p, req, engines);
      SoleStored(s, scope, p, req, engines.lpta);
      FlatRateRows(PatchedState(s, p, req), p);
      hide PatchFault, PatchEndpoint, PatchedPursuit, SoleSourceOn, HasCurrent, Inv, AfterRevert;
    }
  }

  lemma FlatRateRows(s: State, p: Id)
    requires OneCurrent(s.rows)
    ensures var rows := SoleSourceOn(s, p).rows;
            && |s.rows| <= |rows|
            && (forall i | 0 <= i < |s.rows| ::
                  rows[i] == if s.rows[i].current && s.rows[i].pursuit == p && s.rows[i].scenario == Base
                             then s.rows[i].(pwin := Some(0.95), blended := Some(0.95), solePwin := true, at := s.clock)
                             else s.rows[i])
            && if HasCurrent(s.rows, p, Base) then |rows| == |s.rows|
               else rows[|s.rows|..] == [Row(p, Base, Questionnaire, true, None, Some(0.95), Some(0.95), true, s.clock, map[])]
  {
    HasCurrentIsNow(s.rows, p, Base);
    forall i | 0 <= i < |s.rows|
      ensures CurrentFor(s.rows[i], p, Base) <==> FindCurrent(s.rows, p, Base) == Some(i)
    {
      FoundIsCurrent(s.rows, p, Base, i);
    }
    hide FindCurrent, HasCurrent, OneCurrent;
  }

  // ----- What a PATCH reports -----

  /** The BASE answers that a revert reads: those of the row on which the flat rate has just been written, or as picked. */
  function ReadByRevert(s: State, p: Id, req: Patch, pick: nat): map<Code, Value> {
    var base := Now(s.rows, p, Base);
    if req.sole == Put(Some(true)) && base.Some? && base.value.kind == Questionnaire then base.value.answers
    else AnswersRead(s.rows, p, Base, pick)
  }

  predicate HasPrice(answers: map<Code, Value>) {
    P1 in answers && answers[P1].Choice?
  }

  predicate OffWithRate(s: State, p: Id, req: Patch) {
    var base := Now(s.rows, p, Base);
    req.sole == Put(Some(false)) && base.Some? && base.value.solePwin
  }

  /** The flag goes off, its rate is still shown, and the recalculation that follows succeeds at the stage now stored. */
  predicate RateReplaced(s: State, p: Id, req: Patch, stage: Option<Stage>, engine: Engine) {
    && OffWithRate(s, p, req) && engine.Solves? && (stage.None? || stage == Some(PreBh))
    && HasPrice(AnswersRead(s.rows, p, Base, engine.pick))
  }

  /**
   An accepted PATCH reports an owed recalculation exactly when one that it called for was refused:
   that of a flag turned off, the BASE one of a revert, or its DEPENDENT_WON one where that scenario
   has a questionnaire; a revert whose BASE was just redone calls for none.
   */
  lemma NeedsRecalcExactly(s: State, scope: set<Id>, p: Id, req: Patch, engines: Engines)
    requires Inv(s)
    ensures var r := PatchEndpoint(s, scope, p, req, engines);
            r.Ok? ==>
              && p in s.pursuits && p in r.value.0.pursuits
              && var pu := s.pursuits[p];
                 var reverts := req.stage == Put(Some(Known(PreBh))) && (pu.stage == Some(PostBh) || pu.stage == Some(PostPtw));
                 var baseRefused := engines.base.Fails? || !HasPrice(ReadByRevert(s, p, req, engines.base.pick));
                 var depRefused := engines.dependentWon.Fails? || r.value.0.pursuits[p].dependsOn.None? ||
                                   !HasPrice(AnswersRead(s.rows, p, DependentWon, engines.dependentWon.pick));
                 var replaced := RateReplaced(s, p, req, r.value.0.pursuits[p].stage, engines.sole);
                 var hasDep := exists i :: 0 <= i < |s.rows| && AnswersFor(s.rows[i], p, DependentWon);
                 r.value.1.needsRecalc <==>
                 || (OffWithRate(s, p, req) && !replaced)
                 || (reverts && !replaced && (baseRefused || (hasDep && depRefused)))
  {
    PatchOk(s, scope, p, req, engines);
    if PatchFault(s, scope, p, req, engines.lpta).None? {
      var s1 := PatchedState(s, p, req);
      PatchStep(s, scope, p, req, engines);
      PatchUpdateKeepsInv(s, scope, p, req, engines.lpta);
      PatchedNoSelf(s1, p);
      Reported(s, scope, p, req, engines);
      ReactionsReport(s1, p, req, engines, RevertsToPreBh(s.pursuits[p], req));
      SoleGuard(s, scope, p, req, engines);
      RevertMeans(s.pursuits[p], req);
      HasDepRows(s.rows, p);
      if RevertsToPreBh(s.pursuits[p], req) {
        RevertGuard(s, scope, p, req, engines);
      }
      hide PatchEndpoint, PatchFault, PatchedPursuit, AfterSole, AfterRevert, RevertsToPreBh, Inv, Advances, KeepsAnswers, ReadsFrom;
      hide Recalculates, RateReplaced, OffWithRate, ReadByRevert, HasPrice, AnswersRead, BaseEngine, SoleRedone;
    }
  }

  lemma Reported(s: State, scope: set<Id>, p: Id, req: Patch, engines: Engines)
    requires PatchFault(s, scope, p, req, engines.lpta).None?
    ensures p in s.pursuits
    ensures var (s2, baseDone, stale) := AfterSole(PatchedState(s, p, req), p, req, engines.sole);
            PatchEndpoint(s, scope, p, req, engines).value.1.needsRecalc ==
            (stale || (RevertsToPreBh(s.pursuits[p], req) && !baseDone &&
                       AfterRevert(s2, p, engines.base, engines.dependentWon).1))
  {
    hide DependencyFault, InOrder, AfterSole, AfterRevert, RevertsToPreBh, PatchedPursuit, DropsDependency;
  }

  /** On the record as it is stored: what the two reactions report together. */
  lemma ReactionsReport(s: State, p: Id, req: Patch, engines: Engines, reverts: bool)
    requires Inv(s) && NoSelf(s, p)
    ensures var (s2, baseDone, stale) := AfterSole(s, p, req, engines.sole);
            var redone := SoleRedone(s, p, req, engines.sole);
            var off := req.sole.Put? && !s.pursuits[p].soleSource && CardOf(s, p).base.Some? && CardOf(s, p).base.value.solePwin;
            (stale || (reverts && !baseDone && AfterRevert(s2, p, engines.base, engines.dependentWon).1)) <==>
            || (off && !redone)
            || (reverts && !redone && (!Recalculates(s, p, Base, BaseEngine(s, p, req, engines.base)) ||
                 (HasQuestionnaire(s.rows, p, DependentWon) && !Recalculates(s, p, DependentWon, engines.dependentWon))))
  {
    var (s2, baseDone, stale) := AfterSole(s, p, req, engines.sole);
    CardOfAfterSole(s, p, req, engines.sole);
    StaleReported(s, p, req, engines.sole);
    LaterBound(s.rows, s.clock);
    AfterSoleStep(s, p, req, engines.sole);
    hide Inv, AfterSole, AfterRevert, Recalculates, CardOf, CardAfterSole, BaseEngine, RowStep, HasQuestionnaire;
    if !SoleRedone(s, p, req, engines.sole) {
      SameRevert(s, s2, p, req, engines);
      SameHas(s, p, req, engines.sole);
      StepIsDisciplined(s, s2, p);
      RevertReports(s2, p, engines.base, engines.dependentWon);
    }
  }

  lemma StaleReported(s: State, p: Id, req: Patch, engine: Engine)
    requires p in s.pursuits
    ensures AfterSole(s, p, req, engine).2 <==>
            && req.sole.Put? && !s.pursuits[p].soleSource && CardOf(s, p).base.Some? && CardOf(s, p).base.value.solePwin
            && !SoleRedone(s, p, req, engine)
  {
    StaleIsCard(s, p);
    RecalculatesExactly(s, p, Base, engine);
    hide Recalculated, Recalculates, CardOf, StaleSolePwin;
  }

  lemma RevertReports(s: State, p: Id, engineBase: Engine, engineDep: Engine)
    requires Disciplined(s.rows, s.clock + 1) && NoSelf(s, p)
    ensures AfterRevert(s, p, engineBase, engineDep).1 <==>
            || !Recalculates(s, p, Base, engineBase)
            || (HasQuestionnaire(s.rows, p, DependentWon) && !Recalculates(s, p, DependentWon, engineDep))
  {
    var s1 := OrKeep(Recalculated(s, p, Base, engineBase), s);
    RecalculatesExactly(s, p, Base, engineBase);
    RecalculatesExactly(s1, p, DependentWon, engineDep);
    RecalculatedStep(s, p, Base, engineBase);
    ReadAcrossRecalculation(s, p, engineBase, engineDep.pick);
    HasAcrossRecalculation(s, p, engineBase);
    NoStep(s, p);
    hide Recalculated, Disciplined, HasQuestionnaire, RowStep, AnswersRead, Recalculates;
    SameInputs(s, s1, p, DependentWon, engineDep, engineDep);
  }

  lemma HasAcrossRecalculation(s: State, p: Id, engine: Engine)
    ensures var r := Recalculated(s, p, Base, engine);
            r.Ok? ==> HasQuestionnaire(r.value.rows, p, DependentWon) == HasQuestionnaire(s.rows, p, DependentWon)
  {
    if Recalculated(s, p, Base, engine).Ok? {
      var answers := AnswersRead(s.rows, p, Base, engine.pick);
      HasAcrossSuccessor(s, p, engine.pwin, answers);
      HasAcrossBlend(Superseded(s, p, Base, Questionnaire, engine.pwin, Some(engine.pwin), answers), p);
    }
    hide AnswersRead, HasQuestionnaire, Superseded, BlendIfDependent;
  }

  lemma HasAcrossSuccessor(s: State, p: Id, pwin: Prob, answers: map<Code, Value>)
    ensures HasQuestionnaire(Superseded(s, p, Base, Questionnaire, pwin, Some(pwin), answers).rows, p, DependentWon) ==
            HasQuestionnaire(s.rows, p, DependentWon)
  {
    var demoted := Demoted(s.rows, p, Base);
    assert SameAnswerRows(s.rows, demoted, p, DependentWon);
    SameLatest(s.rows, demoted, p, DependentWon);
    AppendedElsewhere(demoted, FreshRow(s, p, Base, pwin, answers), p, DependentWon);
    hide LatestQuestionnaire;
  }

  lemma HasAcrossBlend(s: State, p: Id)
    requires p in s.pursuits
    ensures HasQuestionnaire(BlendIfDependent(s, p).rows, p, DependentWon) == HasQuestionnaire(s.rows, p, DependentWon)
  {
    assert SameAnswerRows(s.rows, BlendIfDependent(s, p).rows, p, DependentWon);
    SameLatest(s.rows, BlendIfDependent(s, p).rows, p, DependentWon);
    hide LatestQuestionnaire, BlendIfDependent;
  }

  lemma SameHas(s: State, p: Id, req: Patch, engine: Engine)
    requires p in s.pursuits && !SoleRedone(s, p, req, engine)
    ensures HasQuestionnaire(AfterSole(s, p, req, engine).0.rows, p, DependentWon) == HasQuestionnaire(s.rows, p, DependentWon)
  {
    StaleIsCard(s, p);
    RecalculatesExactly(s, p, Base, engine);
    var after := SoleSourceOn(s, p).rows;
    match FindCurrent(s.rows, p, Base)
    case Some(i) =>
      assert SameAnswerRows(s.rows, after, p, DependentWon);
      SameLatest(s.rows, after, p, DependentWon);
      hide LatestQuestionnaire, Recalculated, Recalculates, CardOf, StaleSolePwin;
    case None =>
      AppendedElsewhere(s.rows, after[|s.rows|], p, DependentWon);
      hide LatestQuestionnaire, Recalculated, Recalculates, CardOf, StaleSolePwin;
  }

  lemma SoleStored(s: State, scope: set<Id>, p: Id, req: Patch, pick: nat)
    requires PatchFault(s, scope, p, req, pick).None?
    ensures var stored := PatchedPursuit(s.pursuits[p], req);
            && (req.sole == Put(Some(false)) <==> req.sole.Put? && !stored.soleSource)
            && (req.sole == Put(Some(true)) <==> req.sole.Put? && stored.soleSource)
  {
    hide DependencyFault, InOrder;
    match req.sole
    case Unset =>
    case Put(None) =>
    case Put(Some(on)) => assert req.sole.value == Some(on);
  }

  lemma RevertMeans(pu: Pursuit, req: Patch)
    ensures RevertsToPreBh(pu, req) <==>
            req.stage == Put(Some(Known(PreBh))) && (pu.stage == Some(PostBh) || pu.stage == Some(PostPtw))
    ensures RevertsToPreBh(pu, req) ==> PatchedPursuit(pu, req).stage == Some(PreBh)
  {
  }

  lemma ReadGuard(s: State, p: Id, req: Patch, engine: Engine)
    requires Inv(s) && p in s.pursuits && (req.sole == Put(Some(true)) <==> req.sole.Put? && s.pursuits[p].soleSource)
    ensures AnswersRead(s.rows, p, Base, BaseEngine(s, p, req, engine).pick) == ReadByRevert(s, p, req, engine.pick)
  {
    var i := FindCurrent(s.rows, p, Base);
    if i.Some? {
      CurrentIsRead(s, p, i.value, 0);
    }
    hide AnswersRead, Inv;
  }

  lemma PriceIsLabel(answers: map<Code, Value>)
    ensures P1 in Labels(answers) <==> HasPrice(answers)
  {
  }

  lemma HasDepRows(rows: seq<Row>, p: Id)
    ensures HasQuestionnaire(rows, p, DependentWon) <==> exists i :: 0 <= i < |rows| && AnswersFor(rows[i], p, DependentWon)
  {
    var found := LatestQuestionnaire(rows, p, DependentWon);
    if found.Some? {
      assert AnswersFor(rows[found.value], p, DependentWon);
    }
  }

  /** The guards of the two reactions, from the state before the request. */
  lemma SoleGuard(s: State, scope: set<Id>, p: Id, req: Patch, engines: Engines)
    requires Inv(s) && PatchFault(s, scope, p, req, engines.lpta).None?
    ensures p in s.pursuits
    ensures var s1 := PatchedState(s, p, req);
            var base := CardOf(s1, p).base;
            && (OffWithRate(s, p, req) <==> req.sole.Put? && !s1.pursuits[p].soleSource && base.Some? && base.value.solePwin)
            && (RateReplaced(s, p, req, s1.pursuits[p].stage, engines.sole) <==> SoleRedone(s1, p, req, engines.sole))
  {
    SoleStored(s, scope, p, req, engines.lpta);
    PriceIsLabel(AnswersRead(s.rows, p, Base, engines.sole.pick));
    hide AnswersRead, Inv, PatchFault, PatchedPursuit, HasPrice, Labels, Now;
  }

  lemma RevertGuard(s: State, scope: set<Id>, p: Id, req: Patch, engines: Engines)
    requires Inv(s) && PatchFault(s, scope, p, req, engines.lpta).None? && Inv(PatchedState(s, p, req))
    requires RevertsToPreBh(s.pursuits[p], req)
    ensures var s1 := PatchedState(s, p, req);
            && (Recalculates(s1, p, Base, BaseEngine(s1, p, req, engines.base)) <==>
                engines.base.Solves? && HasPrice(ReadByRevert(s, p, req, engines.base.pick)))
            && (Recalculates(s1, p, DependentWon, engines.dependentWon) <==>
                && engines.dependentWon.Solves? && s1.pursuits[p].dependsOn.Some?
                && HasPrice(AnswersRead(s.rows, p, DependentWon, engines.dependentWon.pick)))
  {
    var s1 := PatchedState(s, p, req);
    SoleStored(s, scope, p, req, engines.lpta);
    RevertMeans(s.pursuits[p], req);
    ReadGuard(s1, p, req, engines.base);
    BaseEngineSolves(s1, p, req, engines.base);
    PriceIsLabel(ReadByRevert(s, p, req, engines.base.pick));
    PriceIsLabel(AnswersRead(s.rows, p, DependentWon, engines.dependentWon.pick));
    hide AnswersRead, Inv, PatchFault, PatchedPursuit, RevertsToPreBh, HasPrice, Labels, BaseEngine, Now;
  }
}
