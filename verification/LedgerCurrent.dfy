/** What a pursuit shows: its two current rows, and what each request makes of them. */
module LedgerCurrent {
  import opened Wrappers
  import opened Cascades
  import opened DependencyGraph
  import opened Ledger
  import opened LedgerInvariant
  import opened LedgerSteps

  function Now(rows: seq<Row>, p: Id, sc: Scenario): (r: Option<Row>)
    ensures r.Some? ==> CurrentFor(r.value, p, sc)
    ensures CurrentPwin(rows, p, sc) == if r.Some? then r.value.pwin else None
  {
    match FindCurrent(rows, p, sc)
    case None => None
    case Some(i) => Some(rows[i])
  }

  /** The current rows of one pursuit. */
  datatype Card = Card(base: Option<Row>, dep: Option<Row>)

  function CardOf(s: State, p: Id): Card {
    Card(Now(s.rows, p, Base), Now(s.rows, p, DependentWon))
  }

  // ----- Statements, on cards -----

  function Renewed(card: Card, r: Row): Card {
    if r.scenario == Base then card.(base := Some(r)) else card.(dep := Some(r))
  }

  function PwinOf(r: Option<Row>): Option<real> {
    match r
    case None => None
    case Some(row) => row.pwin
  }

  function CardBlended(card: Card, factor: real): Card {
    if card.base.None? || card.base.value.basePwin.None? then card
    else
      var base := card.base.value.basePwin.value;
      var blended := BlendValue(base, PwinOf(card.dep).GetOr(base), factor);
      card.(base := Some(card.base.value.(pwin := Some(blended), blended := Some(blended))))
  }

  /** The weight of the predecessor, where there is one. */
  function FactorOf(s: State, p: Id): Option<real> {
    if p in s.pursuits && s.pursuits[p].dependsOn.Some? then Some(BlendFactor(s, s.pursuits[p].dependsOn.value)) else None
  }

  function BlendedIf(card: Card, factor: Option<real>): Card {
    match factor
    case None => card
    case Some(f) => CardBlended(card, f)
  }

  function CardSole(card: Card, p: Id, now: nat): Card {
    match card.base
    case Some(r) =>
      card.(base := Some(r.(pwin := Some(SOLE_SOURCE_PWIN), blended := Some(SOLE_SOURCE_PWIN), solePwin := true, at := now)))
    case None =>
      card.(base := Some(Row(p, Base, Questionnaire, true, None, Some(SOLE_SOURCE_PWIN), Some(SOLE_SOURCE_PWIN), true, now, map[])))
  }

  function CardCleared(card: Card): Card {
    Card(match card.base case None => None case Some(r) => Some(ClearedRow(r)), None)
  }

  lemma NowAppended(rows: seq<Row>, r: Row, q: Id, sc: Scenario)
    ensures FindCurrent(rows + [r], q, sc) == if CurrentFor(r, q, sc) then Some(|rows|) else FindCurrent(rows, q, sc)
    ensures Now(rows + [r], q, sc) == if CurrentFor(r, q, sc) then Some(r) else Now(rows, q, sc)
  {
    assert (rows + [r])[..|rows|] == rows;
  }

  lemma NowDemoted(rows: seq<Row>, p: Id, sc: Scenario, q: Id, sc2: Scenario)
    ensures Now(Demoted(rows, p, sc), q, sc2) == if q == p && sc2 == sc then None else Now(rows, q, sc2)
  {
    if q != p || sc2 != sc {
      SameFound(rows, Demoted(rows, p, sc), q, sc2);
    }
  }

  lemma CardSuperseded(s: State, p: Id, sc: Scenario, kind: Kind, base: real, pwin: Option<real>, answers: map<Code, Value>, q: Id)
    ensures CardOf(Superseded(s, p, sc, kind, base, pwin, answers), q) ==
            if q == p then Renewed(CardOf(s, p), Row(p, sc, kind, true, Some(base), pwin, None, false, s.clock, answers))
            else CardOf(s, q)
  {
    var r := Row(p, sc, kind, true, Some(base), pwin, None, false, s.clock, answers);
    var demoted := Demoted(s.rows, p, sc);
    NowDemoted(s.rows, p, sc, q, Base);
    NowDemoted(s.rows, p, sc, q, DependentWon);
    NowAppended(demoted, r, q, Base);
    NowAppended(demoted, r, q, DependentWon);
  }

  lemma CardApplyBlend(s: State, p: Id, pred: Id, q: Id)
    ensures CardOf(ApplyBlend(s, p, pred), q) ==
            if q == p then CardBlended(CardOf(s, p), BlendFactor(s, pred)) else CardOf(s, q)
  {
    var after := ApplyBlend(s, p, pred);
    SameFound(s.rows, after.rows, q, Base);
    SameFound(s.rows, after.rows, q, DependentWon);
  }

  lemma CardSoleSourceOn(s: State, p: Id, q: Id)
    ensures CardOf(SoleSourceOn(s, p), q) == if q == p then CardSole(CardOf(s, p), p, s.clock) else CardOf(s, q)
  {
    var after := SoleSourceOn(s, p);
    match FindCurrent(s.rows, p, Base)
    case Some(i) =>
      SameFound(s.rows, after.rows, q, Base);
      SameFound(s.rows, after.rows, q, DependentWon);
    case None =>
      NowAppended(s.rows, after.rows[|s.rows|], q, Base);
      NowAppended(s.rows, after.rows[|s.rows|], q, DependentWon);
  }

  lemma CardOfCleared(s: State, gone: set<Id>, q: Id)
    ensures CardOf(Cleared(s, gone), q) == if q in gone then CardCleared(CardOf(s, q)) else CardOf(s, q)
  {
    var after := Cleared(s, gone);
    SameFound(s.rows, after.rows, q, Base);
    if q !in gone {
      SameFound(s.rows, after.rows, q, DependentWon);
    } else {
      assert forall i | 0 <= i < |s.rows| :: !CurrentFor(after.rows[i], q, DependentWon);
    }
  }

  /** A pursuit that a step does not touch shows what it showed. */
  lemma CardUntouched(s: State, after: State, touched: set<Id>, q: Id)
    requires Advances(s, after, touched) && q !in touched
    ensures CardOf(after, q) == CardOf(s, q)
  {
    NowUntouched(s, after, touched, q, Base);
    NowUntouched(s, after, touched, q, DependentWon);
  }

  lemma {:induction false} NowUntouched(s: State, after: State, touched: set<Id>, q: Id, sc: Scenario)
    requires Advances(s, after, touched) && q !in touched
    ensures Now(after.rows, q, sc) == Now(s.rows, q, sc)
  {
    var n := |s.rows|;
    forall i | 0 <= i < n
      ensures CurrentFor(after.rows[..n][i], q, sc) == CurrentFor(s.rows[i], q, sc)
    {
      assert SameOrigin(s.rows[i], after.rows[i]);
    }
    SameFound(s.rows, after.rows[..n], q, sc);
    FoundInPrefix(after.rows, n, q, sc);
  }

  lemma {:induction false} FoundInPrefix(rows: seq<Row>, n: nat, q: Id, sc: Scenario)
    requires n <= |rows| && forall i | n <= i < |rows| :: !CurrentFor(rows[i], q, sc)
    ensures FindCurrent(rows, q, sc) == FindCurrent(rows[..n], q, sc)
    decreases |rows|
  {
    if n == |rows| {
      assert rows[..n] == rows;
    } else {
      FoundInPrefix(rows[..|rows| - 1], n, q, sc);
      assert rows[..|rows| - 1][..n] == rows[..n];
    }
  }

  // ----- Recalculation -----

  function FreshRow(s: State, p: Id, sc: Scenario, pwin: real, answers: map<Code, Value>): Row {
    Row(p, sc, Questionnaire, true, Some(pwin), Some(pwin), None, false, s.clock, answers)
  }

  /** The checks of a recalculation, as one condition on what is stored and on the engine. */
  predicate Recalculates(s: State, p: Id, sc: Scenario, engine: Engine) {
    && p in s.pursuits && engine.Solves?
    && (sc == DependentWon ==> s.pursuits[p].dependsOn.Some?)
    && (s.pursuits[p].stage.None? || s.pursuits[p].stage == Some(PreBh))
    && P1 in Labels(AnswersRead(s.rows, p, sc, engine.pick))
  }

  lemma RecalculatesExactly(s: State, p: Id, sc: Scenario, engine: Engine)
    ensures Recalculated(s, p, sc, engine).Ok? <==> Recalculates(s, p, sc, engine)
  {
    hide AnswersRead;
    if Recalculates(s, p, sc, engine) {
      assert AnswersRead(s.rows, p, sc, engine.pick) != map[];
    }
  }

  /** The weight of a predecessor depends on that pursuit's own record and card only. */
  lemma SameFactor(s: State, after: State, pred: Id)
    requires after.pursuits == s.pursuits && CardOf(after, pred) == CardOf(s, pred)
    ensures BlendFactor(after, pred) == BlendFactor(s, pred)
  {
    assert CurrentPwin(after.rows, pred, Base) == PwinOf(Now(after.rows, pred, Base));
    assert CurrentPwin(s.rows, pred, Base) == PwinOf(Now(s.rows, pred, Base));
  }

  /** Demote, insert, blend: what the called pursuit and every other one show afterwards. */
  lemma CardWritten(s: State, p: Id, sc: Scenario, kind: Kind, base: real, pwin: Option<real>, answers: map<Code, Value>, q: Id)
    requires p in s.pursuits && s.pursuits[p].dependsOn != Some(p)
    ensures var r := Row(p, sc, kind, true, Some(base), pwin, None, false, s.clock, answers);
            var after := BlendIfDependent(Superseded(s, p, sc, kind, base, pwin, answers), p);
            && (CardOf(after, q) == if q == p then BlendedIf(Renewed(CardOf(s, p), r), FactorOf(s, p)) else CardOf(s, q))
            && after.pursuits == s.pursuits && after.clock == s.clock
  {
    var s1 := Superseded(s, p, sc, kind, base, pwin, answers);
    CardSuperseded(s, p, sc, kind, base, pwin, answers, q);
    if s.pursuits[p].dependsOn.Some? {
      var pred := s.pursuits[p].dependsOn.value;
      CardSuperseded(s, p, sc, kind, base, pwin, answers, pred);
      SameFactor(s, s1, pred);
      CardApplyBlend(s1, p, pred, q);
    }
    hide CardOf, BlendFactor, Superseded, CardBlended;
  }

  function CardRecalculated(s: State, p: Id, card: Card, sc: Scenario, engine: Engine): Card
    requires engine.Solves?
  {
    BlendedIf(Renewed(card, FreshRow(s, p, sc, engine.pwin, AnswersRead(s.rows, p, sc, engine.pick))), FactorOf(s, p))
  }

  lemma CardOfRecalculated(s: State, p: Id, sc: Scenario, engine: Engine)
    requires p in s.pursuits && s.pursuits[p].dependsOn != Some(p)
    ensures var r := Recalculated(s, p, sc, engine);
            && (r.Ok? <==> Recalculates(s, p, sc, engine))
            && (r.Ok? ==> CardOf(r.value, p) == CardRecalculated(s, p, CardOf(s, p), sc, engine) &&
                          r.value.pursuits == s.pursuits && r.value.clock == s.clock)
            && (r.Ok? ==> forall q | q != p :: CardOf(r.value, q) == CardOf(s, q))
  {
    RecalculatesExactly(s, p, sc, engine);
    var r := Recalculated(s, p, sc, engine);
    if r.Ok? {
      var answers := AnswersRead(s.rows, p, sc, engine.pick);
      forall q
        ensures CardOf(r.value, q) ==
                if q == p then CardRecalculated(s, p, CardOf(s, p), sc, engine) else CardOf(s, q)
      {
        CardWritten(s, p, sc, Questionnaire, engine.pwin, Some(engine.pwin), answers, q);
        hide CardOf, FactorOf, BlendedIf, Recalculates, AnswersRead, BlendIfDependent;
      }
      CardWritten(s, p, sc, Questionnaire, engine.pwin, Some(engine.pwin), answers, p);
    }
    hide CardOf, CardRecalculated, Recalculates, AnswersRead, BlendIfDependent, FactorOf;
  }

  // ----- PATCH -----

  function PatchedState(s: State, p: Id, req: Patch): State
    requires p in s.pursuits
  {
    s.(pursuits := s.pursuits[p := PatchedPursuit(s.pursuits[p], req)])
  }

  /** The flag is off after the request, the row still carries the flat rate, and the engine replaces it. */
  predicate SoleRedone(s: State, p: Id, req: Patch, engine: Engine)
    requires p in s.pursuits
  {
    req.sole.Put? && !s.pursuits[p].soleSource &&
    CardOf(s, p).base.Some? && CardOf(s, p).base.value.solePwin && Recalculates(s, p, Base, engine)
  }

  function CardAfterSole(s: State, p: Id, req: Patch, engine: Engine): Card
    requires p in s.pursuits
  {
    if req.sole.Put? && s.pursuits[p].soleSource then CardSole(CardOf(s, p), p, s.clock)
    else if SoleRedone(s, p, req, engine) then CardRecalculated(s, p, CardOf(s, p), Base, engine)
    else CardOf(s, p)
  }

  function CardAfterRevert(s: State, p: Id, card: Card, engineBase: Engine, engineDep: Engine): Card {
    var card1 := if Recalculates(s, p, Base, engineBase) then CardRecalculated(s, p, card, Base, engineBase) else card;
    if Recalculates(s, p, DependentWon, engineDep)
    then CardRecalculated(s, p, card1, DependentWon, engineDep) else card1
  }

  /**
   What the BASE recalculation of a revert reads, seen before the request: after the flat-rate
   write a current questionnaire row is the only latest one, whatever the database would pick.
   */
  function BaseEngine(s: State, p: Id, req: Patch, engine: Engine): Engine
    requires p in s.pursuits
  {
    var i := FindCurrent(s.rows, p, Base);
    if req.sole.Put? && s.pursuits[p].soleSource && i.Some? && s.rows[i.value].kind == Questionnaire
    then (match engine case Fails(_) => Fails(i.value) case Solves(_, pwin) => Solves(i.value, pwin))
    else engine
  }

  lemma BaseEngineSolves(s: State, p: Id, req: Patch, engine: Engine)
    requires p in s.pursuits
    ensures var read := BaseEngine(s, p, req, engine);
            (read.Solves? <==> engine.Solves?) && (engine.Solves? ==> read.pwin == engine.pwin)
    ensures !s.pursuits[p].soleSource ==> BaseEngine(s, p, req, engine) == engine
  {
  }

  /** What the pursuit of an accepted PATCH shows afterwards. */
  function CardPatched(s: State, p: Id, req: Patch, engines: Engines): Card
    requires p in s.pursuits
  {
    var s1 := PatchedState(s, p, req);
    var card := CardAfterSole(s1, p, req, engines.sole);
    if RevertsToPreBh(s.pursuits[p], req) && !SoleRedone(s1, p, req, engines.sole)
    then CardAfterRevert(s1, p, card, BaseEngine(s1, p, req, engines.base), engines.dependentWon) else card
  }

  /** Nobody depends on himself. */
  predicate NoSelf(s: State, p: Id) {
    p in s.pursuits && s.pursuits[p].dependsOn != Some(p)
  }

  lemma StaleIsCard(s: State, p: Id)
    ensures StaleSolePwin(s, p) <==> CardOf(s, p).base.Some? && CardOf(s, p).base.value.solePwin
  {
  }

  lemma CardOfAfterSole(s: State, p: Id, req: Patch, engine: Engine)
    requires NoSelf(s, p)
    ensures var (after, done, _) := AfterSole(s, p, req, engine);
            CardOf(after, p) == CardAfterSole(s, p, req, engine) && (done <==> SoleRedone(s, p, req, engine))
  {
    StaleIsCard(s, p);
    CardSoleSourceOn(s, p, p);
    CardOfRecalculated(s, p, Base, engine);
    hide CardOf, StaleSolePwin, SoleSourceOn, Recalculated, Recalculates, CardRecalculated, CardSole;
  }

  /** Between the statements of one request: same records, same time and the same weight of the predecessor. */
  lemma SameFactorOf(s: State, after: State, p: Id)
    requires RowStep(s, after, p) && NoSelf(s, p)
    ensures FactorOf(after, p) == FactorOf(s, p)
  {
    if s.pursuits[p].dependsOn.Some? {
      var pred := s.pursuits[p].dependsOn.value;
      CardUntouched(s, after, {p}, pred);
      SameFactor(s, after, pred);
    }
    hide Advances, BlendFactor, KeepsAnswers, ReadsFrom, Disciplined;
  }

  /** Two recalculations that read the same answers are one. */
  lemma SameInputs(s: State, after: State, p: Id, sc: Scenario, engine: Engine, other: Engine)
    requires RowStep(s, after, p) && NoSelf(s, p)
    requires AnswersRead(after.rows, p, sc, engine.pick) == AnswersRead(s.rows, p, sc, other.pick)
    requires engine.Solves? <==> other.Solves?
    requires engine.Solves? ==> engine.pwin == other.pwin
    ensures Recalculates(after, p, sc, engine) == Recalculates(s, p, sc, other)
    ensures engine.Solves? ==>
              forall card: Card :: CardRecalculated(after, p, card, sc, engine) == CardRecalculated(s, p, card, sc, other)
  {
    SameFactorOf(s, after, p);
    hide FactorOf, AnswersRead, Advances, KeepsAnswers, ReadsFrom, Disciplined;
  }

  // ----- What is read between the statements -----

  lemma ReadAcrossRecalculation(s: State, p: Id, engine: Engine, pick: nat)
    requires Stamped(s.rows, s.clock + 1)
    ensures var r := Recalculated(s, p, Base, engine);
            r.Ok? ==> AnswersRead(r.value.rows, p, DependentWon, pick) == AnswersRead(s.rows, p, DependentWon, pick)
  {
    var r := Recalculated(s, p, Base, engine);
    if r.Ok? {
      var answers := AnswersRead(s.rows, p, Base, engine.pick);
      var demoted := Demoted(s.rows, p, Base);
      var newest := FreshRow(s, p, Base, engine.pwin, answers);
      var s1 := Superseded(s, p, Base, Questionnaire, engine.pwin, Some(engine.pwin), answers);
      PartsRead(s.rows, demoted, p, DependentWon, pick);
      AppendRead(demoted, newest, p, DependentWon, pick);
      PartsRead(s1.rows, r.value.rows, p, DependentWon, pick);
    }
    hide AnswersRead;
  }

  /** The flat-rate write leaves DEPENDENT_WON alone, and makes a current BASE questionnaire the one that is read. */
  lemma ReadAcrossSole(s: State, p: Id, req: Patch, engine: Engine, pick: nat)
    requires Inv(s) && p in s.pursuits && req.sole.Put? && s.pursuits[p].soleSource
    ensures var after := SoleSourceOn(s, p).rows;
            && AnswersRead(after, p, DependentWon, pick) == AnswersRead(s.rows, p, DependentWon, pick)
            && AnswersRead(after, p, Base, engine.pick) == AnswersRead(s.rows, p, Base, BaseEngine(s, p, req, engine).pick)
  {
    match FindCurrent(s.rows, p, Base)
    case Some(i) =>
      ReadAcrossRestamp(s, p, i, DependentWon, pick);
      ReadAcrossRestamp(s, p, i, Base, engine.pick);
      CurrentIsRead(s, p, i, engine.pick);
      hide AnswersRead, SoleSourceOn, Inv;
    case None =>
      var r := SoleSourceOn(s, p).rows[|s.rows|];
      NoBaseRows(s, p);
      AppendRead(s.rows, r, p, DependentWon, pick);
      AppendedLatest(s.rows, r, p, Base, engine.pick);
      AppendedNewest(s.rows, r, p, Base);
  }

  lemma NoBaseRows(s: State, p: Id)
    requires Inv(s) && FindCurrent(s.rows, p, Base).None?
    ensures forall i | 0 <= i < |s.rows| :: !For(s.rows[i], p, Base)
  {
    forall i | 0 <= i < |s.rows|
      ensures !For(s.rows[i], p, Base)
    {
      assert BaseIsCurrent(s.rows);
    }
  }

  /** A current questionnaire row is a latest one, so the database may pick it. */
  lemma CurrentIsRead(s: State, p: Id, i: nat, pick: nat)
    requires Inv(s) && FindCurrent(s.rows, p, Base) == Some(i)
    ensures s.rows[i].kind == Questionnaire ==> AnswersRead(s.rows, p, Base, i) == s.rows[i].answers
  {
    if s.rows[i].kind == Questionnaire {
      assert IsLatest(s.rows, p, Base, i);
    }
  }

  lemma ReadAcrossRestamp(s: State, p: Id, i: nat, sc: Scenario, pick: nat)
    requires Inv(s) && FindCurrent(s.rows, p, Base) == Some(i)
    ensures AnswersRead(SoleSourceOn(s, p).rows, p, sc, pick) ==
            if AnswersFor(s.rows[i], p, sc) then s.rows[i].answers else AnswersRead(s.rows, p, sc, pick)
  {
    var after := SoleSourceOn(s, p).rows;
    LaterBound(s.rows, s.clock);
    if AnswersFor(s.rows[i], p, sc) {
      LatestIsOne(after, p, sc, i);
      var found := Picked(after, p, sc, pick).value;
      RestampedLatest(s.rows, s.clock, i, after, p, sc, found);
      assert s.rows[found].at < s.clock;
    } else {
      assert SameAnswerRows(s.rows, after, p, sc);
      SameLatest(s.rows, after, p, sc);
      SameIsLatest(s.rows, after, p, sc, pick);
    }
    hide IsLatest, LatestQuestionnaire, Disciplined;
  }

  // ----- PATCH as a whole -----

  lemma CardOfRevert(s: State, p: Id, engineBase: Engine, engineDep: Engine)
    requires Disciplined(s.rows, s.clock + 1) && NoSelf(s, p)
    ensures CardOf(AfterRevert(s, p, engineBase, engineDep).0, p) == CardAfterRevert(s, p, CardOf(s, p), engineBase, engineDep)
  {
    var s1 := OrKeep(Recalculated(s, p, Base, engineBase), s);
    CardOfRecalculated(s, p, Base, engineBase);
    RecalculatedStep(s, p, Base, engineBase);
    ReadAcrossRecalculation(s, p, engineBase, engineDep.pick);
    NoStep(s, p);
    hide CardOf, Recalculated, CardRecalculated, Disciplined, HasQuestionnaire, RowStep, AnswersRead;
    SameInputs(s, s1, p, DependentWon, engineDep, engineDep);
    CardOfRecalculated(s1, p, DependentWon, engineDep);
    AnsweredHasRow(s1.rows, p, DependentWon, engineDep.pick);
  }

  lemma AnsweredHasRow(rows: seq<Row>, p: Id, sc: Scenario, pick: nat)
    ensures P1 in Labels(AnswersRead(rows, p, sc, pick)) ==> HasQuestionnaire(rows, p, sc)
  {
  }

  /** A revert after the flat-rate write, or after nothing. */
  lemma RevertAfterSole(s: State, s2: State, p: Id, req: Patch, card: Card, engineBase: Engine, engineDep: Engine)
    requires RowStep(s, s2, p) && NoSelf(s, p)
    requires AnswersRead(s2.rows, p, Base, engineBase.pick) ==
             AnswersRead(s.rows, p, Base, BaseEngine(s, p, req, engineBase).pick)
    requires AnswersRead(s2.rows, p, DependentWon, engineDep.pick) == AnswersRead(s.rows, p, DependentWon, engineDep.pick)
    ensures CardAfterRevert(s2, p, card, engineBase, engineDep) ==
            CardAfterRevert(s, p, card, BaseEngine(s, p, req, engineBase), engineDep)
  {
    SameInputs(s, s2, p, Base, engineBase, BaseEngine(s, p, req, engineBase));
    SameInputs(s, s2, p, DependentWon, engineDep, engineDep);
    hide Recalculates, CardRecalculated, AnswersRead, RowStep;
  }

  lemma ReadAfterSole(s: State, p: Id, req: Patch, engines: Engines)
    requires Inv(s) && NoSelf(s, p) && !SoleRedone(s, p, req, engines.sole)
    ensures var s2 := AfterSole(s, p, req, engines.sole).0;
            && AnswersRead(s2.rows, p, Base, engines.base.pick) ==
               AnswersRead(s.rows, p, Base, BaseEngine(s, p, req, engines.base).pick)
            && AnswersRead(s2.rows, p, DependentWon, engines.dependentWon.pick) ==
               AnswersRead(s.rows, p, DependentWon, engines.dependentWon.pick)
  {
    CardOfAfterSole(s, p, req, engines.sole);
    if req.sole.Put? && s.pursuits[p].soleSource {
      ReadAcrossSole(s, p, req, engines.base, engines.dependentWon.pick);
    }
    hide AnswersRead, SoleSourceOn, Inv, SoleRedone, CardAfterSole, CardOf, Recalculated, StaleSolePwin;
  }

  lemma CardOfPatch(s: State, scope: set<Id>, p: Id, req: Patch, engines: Engines)
    requires Inv(s) && PatchFault(s, scope, p, req, engines.lpta).None?
    ensures CardOf(PatchEndpoint(s, scope, p, req, engines).value.0, p) == CardPatched(s, p, req, engines)
  {
    var s1 := PatchedState(s, p, req);
    PatchEnds(s, scope, p, req, engines);
    PatchUpdateKeepsInv(s, scope, p, req, engines.lpta);
    PatchedNoSelf(s1, p);
    LaterBound(s.rows, s.clock);
    CardOfAfterSole(s1, p, req, engines.sole);
    AfterSoleStep(s1, p, req, engines.sole);
    var s2 := AfterSole(s1, p, req, engines.sole).0;
    hide PatchFault, PatchEndpoint, AfterSole, AfterRevert, CardOf, CardAfterSole, CardAfterRevert, SoleRedone;
    hide PatchedPursuit, RevertsToPreBh, Inv, Recalculates, CardRecalculated, BaseEngine, AnswersRead;
    if !SoleRedone(s1, p, req, engines.sole) {
      ReadAfterSole(s1, p, req, engines);
      RevertAfterSole(s1, s2, p, req, CardOf(s2, p), engines.base, engines.dependentWon);
      CardOfRevert(s2, p, engines.base, engines.dependentWon);
    }
    hide RowStep, Disciplined;
    TickedCard(s2, p);
    TickedCard(AfterRevert(s2, p, engines.base, engines.dependentWon).0, p);
  }

  lemma TickedCard(s: State, p: Id)
    ensures CardOf(Ticked(s), p) == CardOf(s, p)
  {
  }

  lemma PatchedNoSelf(s: State, p: Id)
    requires Inv(s) && p in s.pursuits
    ensures NoSelf(s, p)
  {
    assert DependencyRules(s, p);
  }

  // ----- The other requests -----

  /** The recalculation endpoint accepts. */
  predicate MayRecalculate(s: State, scope: set<Id>, p: Id, sc: Scenario, engine: Engine) {
    p in s.pursuits && p in scope && s.pursuits[p].outcome.None? && !s.pursuits[p].soleSource && Recalculates(s, p, sc, engine)
  }

  lemma CardOfRecalculate(s: State, scope: set<Id>, p: Id, sc: Scenario, engine: Engine)
    requires Inv(s)
    ensures var r := RecalculateEndpoint(s, scope, p, sc, engine);
            && (r.Ok? <==> MayRecalculate(s, scope, p, sc, engine))
            && (r.Ok? ==> CardOf(r.value, p) == CardRecalculated(s, p, CardOf(s, p), sc, engine))
  {
    if p in s.pursuits {
      PatchedNoSelf(s, p);
      CardOfRecalculated(s, p, sc, engine);
      var r := Recalculated(s, p, sc, engine);
      if r.Ok? {
        TickedCard(r.value, p);
      }
    }
    hide CardOf, CardRecalculated, Recalculates, Recalculated, Inv;
  }

  function SubmittedRow(s: State, p: Id, sc: Scenario, kind: Kind, base: Prob): Row
    requires p in s.pursuits
  {
    Row(p, sc, kind, true, Some(base), if s.pursuits[p].dependsOn.Some? && sc == Base then None else Some(base), None, false,
        s.clock, map[])
  }

  lemma CardOfSubmit(s: State, scope: set<Id>, p: Id, sc: Scenario, form: Submission, base: Prob, completed: Option<int>)
    requires Inv(s)
    ensures var r := SubmitEndpoint(s, scope, p, sc, form, base, completed);
            r.Ok? ==>
              p in s.pursuits &&
              CardOf(r.value.0, p) ==
              BlendedIf(Renewed(CardOf(s, p), SubmittedRow(s, p, sc, KindOf(form), base)), FactorOf(s, p))
  {
    var r := SubmitEndpoint(s, scope, p, sc, form, base, completed);
    if r.Ok? {
      PatchedNoSelf(s, p);
      var pwin := if s.pursuits[p].dependsOn.Some? && sc == Base then None else Some(base as real);
      CardWritten(s, p, sc, KindOf(form), base, pwin, map[], p);
      SameRows(Submitted(s, p, sc, KindOf(form), base), r.value.0, p);
    }
    hide CardOf, FactorOf, Inv, BlendIfDependent, BlendedIf, Superseded;
  }

  lemma SameRows(s: State, after: State, p: Id)
    requires after.rows == s.rows
    ensures CardOf(after, p) == CardOf(s, p)
  {
  }

  /** A save changes no more of a current row than its answers, and a first row is current only where there was none. */
  predicate NowSaved(before: Option<Row>, after: Option<Row>) {
    match before
    case Some(r) => after.Some? && after.value == r.(answers := after.value.answers)
    case None =>
      after.Some? ==>
        after.value.kind == Questionnaire && after.value.pwin.None? && after.value.basePwin.None? && after.value.blended.None? &&
        !after.value.solePwin
  }

  lemma SavedNow(s: State, p: Id, sc: Scenario, changes: Changes, pick: nat, sc2: Scenario)
    requires p in s.pursuits
    ensures var after := Saved(s, p, sc, changes, pick).0;
            NowSaved(Now(s.rows, p, sc2), Now(after.rows, p, sc2)) && (sc2 != sc ==> Now(after.rows, p, sc2) == Now(s.rows, p, sc2))
  {
    hide AnswersRead, Applied, Merge, Labels, WithAnswerRow, Now, TurnsLpta;
    NowWithAnswerRow(s, p, sc, pick, sc2);
    var (s1, i) := WithAnswerRow(s, p, sc, pick);
    var after := Saved(s, p, sc, changes, pick).0;
    var answers := Applied(AnswersRead(s.rows, p, sc, pick), changes);
    assert after.rows == s1.rows[i := s1.rows[i].(answers := answers)];
    hide Saved;
    NowWritten(s1.rows, i, answers, p, sc2);
  }

  lemma NowWithAnswerRow(s: State, p: Id, sc: Scenario, pick: nat, sc2: Scenario)
    ensures var (s1, i) := WithAnswerRow(s, p, sc, pick);
            && i < |s1.rows| && AnswersFor(s1.rows[i], p, sc)
            && NowSaved(Now(s.rows, p, sc2), Now(s1.rows, p, sc2))
            && (sc2 != sc ==> Now(s1.rows, p, sc2) == Now(s.rows, p, sc2))
  {
    var (s1, i) := WithAnswerRow(s, p, sc, pick);
    if Picked(s.rows, p, sc, pick).None? {
      NowAppended(s.rows, s1.rows[|s.rows|], p, sc2);
    }
  }

  lemma NowWritten(rows: seq<Row>, i: nat, answers: map<Code, Value>, p: Id, sc: Scenario)
    requires i < |rows|
    ensures var before, after := Now(rows, p, sc), Now(rows[i := rows[i].(answers := answers)], p, sc);
            && (before.Some? <==> after.Some?)
            && (before.Some? ==> after.value == before.value.(answers := after.value.answers))
            && (!For(rows[i], p, sc) ==> after == before)
  {
    SameFound(rows, rows[i := rows[i].(answers := answers)], p, sc);
  }

  lemma CardOfSave(s: State, p: Id, sc: Scenario, changes: Changes, pick: nat)
    requires p in s.pursuits
    ensures var before, after := CardOf(s, p), CardOf(Saved(s, p, sc, changes, pick).0, p);
            NowSaved(before.base, after.base) && NowSaved(before.dep, after.dep)
  {
    SavedNow(s, p, sc, changes, pick, Base);
    SavedNow(s, p, sc, changes, pick, DependentWon);
    hide Saved, NowSaved;
  }
}
