/** Each endpoint keeps the invariant, and touches no more than the pursuit it is called on and the dependents it clears. */
module LedgerSteps {
  import opened Wrappers
  import opened Cascades
  import opened DependencyGraph
  import opened Ledger
  import opened LedgerInvariant

  // ----- Append-only, and confined to some pursuits -----

  /** Stored for good: whose row it is, where its number came from and its standalone Pwin. */
  predicate SameOrigin(r: Row, after: Row) {
    after.pursuit == r.pursuit && after.scenario == r.scenario && after.kind == r.kind && after.basePwin == r.basePwin
  }

  /** No row is lost, origins never change, and only rows and pursuits in `touched` differ. */
  ghost predicate Advances(s: State, after: State, touched: set<Id>) {
    && |s.rows| <= |after.rows| && s.clock <= after.clock
    && (forall i | 0 <= i < |s.rows| :: SameOrigin(s.rows[i], after.rows[i]))
    && (forall i | 0 <= i < |s.rows| :: s.rows[i].pursuit !in touched ==> after.rows[i] == s.rows[i])
    && (forall i | |s.rows| <= i < |after.rows| :: after.rows[i].pursuit in touched)
    && after.pursuits.Keys == s.pursuits.Keys
    && (forall q | q in s.pursuits && q !in touched :: after.pursuits[q] == s.pursuits[q])
  }

  lemma AdvancesTwice(a: State, b: State, c: State, touched: set<Id>)
    requires Advances(a, b, touched) && Advances(b, c, touched)
    ensures Advances(a, c, touched)
  {
    forall i | 0 <= i < |a.rows|
      ensures SameOrigin(a.rows[i], c.rows[i])
      ensures a.rows[i].pursuit !in touched ==> c.rows[i] == a.rows[i]
    {
      assert SameOrigin(a.rows[i], b.rows[i]) && SameOrigin(b.rows[i], c.rows[i]);
    }
    forall i | |a.rows| <= i < |c.rows|
      ensures c.rows[i].pursuit in touched
    {
      if i < |b.rows| {
        assert SameOrigin(b.rows[i], c.rows[i]);
      }
    }
  }

  /** A step inside one request, at the request's one time, that leaves pursuits and answers alone. */
  ghost predicate RowStep(s: State, after: State, p: Id) {
    && after.pursuits == s.pursuits && after.clock == s.clock && Advances(s, after, {p})
    && KeepsAnswers(s.rows, after.rows) && ReadsFrom(s.rows, after.rows) && Disciplined(after.rows, s.clock + 1)
  }

  lemma RowStepTwice(a: State, b: State, c: State, p: Id)
    requires RowStep(a, b, p) && RowStep(b, c, p)
    ensures RowStep(a, c, p)
  {
    AdvancesTwice(a, b, c, {p});
    KeepsAnswersTwice(a.rows, b.rows, c.rows);
    ReadsFromTwice(a.rows, b.rows, c.rows);
  }

  lemma RowStepKeepsInv(s: State, after: State, p: Id)
    requires Inv(s) && RowStep(s, after, p) && p in s.pursuits
    ensures Inv(Ticked(after)) && Advances(s, Ticked(after), {p})
  {
    forall i | 0 <= i < |after.rows|
      ensures after.rows[i].pursuit in after.pursuits
    {
      if i < |s.rows| {
        assert SameOrigin(s.rows[i], after.rows[i]);
      }
    }
    forall q | q in after.pursuits
      ensures DependencyRules(Ticked(after), q)
    {
      assert DependencyRules(s, q);
    }
  }

  lemma LaterBound(rows: seq<Row>, clock: nat)
    requires Disciplined(rows, clock)
    ensures Disciplined(rows, clock + 1)
  {
  }

  /** Answers kept and no dependency added: what a query for answers gets stays one thing, and no LPTA pursuit depends on anybody. */
  lemma ConsistentKept(s: State, after: State)
    requires Consistent(s) && KeepsAnswers(s.rows, after.rows) && after.pursuits.Keys == s.pursuits.Keys
    requires forall q | q in s.pursuits ::
               after.pursuits[q].dependsOn.None? || after.pursuits[q].dependsOn == s.pursuits[q].dependsOn
    ensures Consistent(after) && SameAnswers(s.rows, after.rows)
  {
    forall q | q in after.pursuits && after.pursuits[q].dependsOn.Some?
      ensures !IsLpta(AnswersOf(after.rows, q, Base))
    {
      assert AnswersOf(after.rows, q, Base) == AnswersOf(s.rows, q, Base);
    }
  }

  lemma BlendStep(s: State, p: Id)
    requires Disciplined(s.rows, s.clock + 1) && p in s.pursuits
    ensures RowStep(s, BlendIfDependent(s, p), p)
  {
    if s.pursuits[p].dependsOn.Some? {
      BlendKeeps(s, p, s.pursuits[p].dependsOn.value);
      var after := BlendIfDependent(s, p);
      forall i | 0 <= i < |s.rows|
        ensures SameOrigin(s.rows[i], after.rows[i])
        ensures s.rows[i].pursuit != p ==> after.rows[i] == s.rows[i]
      {
        assert SameButPwin(s.rows[i], after.rows[i]);
      }
    }
  }

  lemma SupersededStep(s: State, p: Id, sc: Scenario, kind: Kind, base: Prob, pwin: Option<real>,
                       answers: map<Code, Value>, pick: nat)
    requires Disciplined(s.rows, s.clock + 1) && InRange(pwin)
    requires kind == Questionnaire ==> answers == AnswersRead(s.rows, p, sc, pick)
    ensures RowStep(s, Superseded(s, p, sc, kind, base, pwin, answers), p)
  {
    SupersededKeeps(s, p, sc, kind, base, pwin, answers);
    SupersededAnswers(s, p, sc, kind, base, pwin, answers, pick);
  }

  lemma RecalculatedStep(s: State, p: Id, sc: Scenario, engine: Engine)
    requires Disciplined(s.rows, s.clock + 1)
    ensures var r := Recalculated(s, p, sc, engine);
            r.Ok? ==> p in s.pursuits && RowStep(s, r.value, p)
  {
    var r := Recalculated(s, p, sc, engine);
    if r.Ok? {
      var answers := AnswersRead(s.rows, p, sc, engine.pick);
      var s1 := Superseded(s, p, sc, Questionnaire, engine.pwin, Some(engine.pwin), answers);
      SupersededStep(s, p, sc, Questionnaire, engine.pwin, Some(engine.pwin), answers, engine.pick);
      BlendStep(s1, p);
      RowStepTwice(s, s1, r.value, p);
    }
  }

  lemma NoStep(s: State, p: Id)
    requires Disciplined(s.rows, s.clock + 1)
    ensures RowStep(s, s, p)
  {
    ReadsSame(s.rows);
  }

  // ----- PATCH -----

  lemma AfterSoleStep(s: State, p: Id, req: Patch, engine: Engine)
    requires Disciplined(s.rows, s.clock + 1) && p in s.pursuits
    ensures RowStep(s, AfterSole(s, p, req, engine).0, p)
  {
    NoStep(s, p);
    SoleSourceKeeps(s, p);
    SoleSourceAdvances(s, p);
    RecalculatedStep(s, p, Base, engine);
  }

  lemma SoleSourceAdvances(s: State, p: Id)
    ensures Advances(s, SoleSourceOn(s, p), {p}) && SoleSourceOn(s, p).pursuits == s.pursuits
  {
  }

  lemma AfterRevertStep(s: State, p: Id, engineBase: Engine, engineDep: Engine)
    requires Disciplined(s.rows, s.clock + 1)
    ensures RowStep(s, AfterRevert(s, p, engineBase, engineDep).0, p)
  {
    NoStep(s, p);
    RecalculatedStep(s, p, Base, engineBase);
    var s1 := OrKeep(Recalculated(s, p, Base, engineBase), s);
    NoStep(s1, p);
    RecalculatedStep(s1, p, DependentWon, engineDep);
    var s2 := OrKeep(Recalculated(s1, p, DependentWon, engineDep), s1);
    RowStepTwice(s, s1, s2, p);
  }

  lemma PatchedIsLawful(s: State, scope: set<Id>, p: Id, req: Patch, pick: nat)
    requires Inv(s) && PatchFault(s, scope, p, req, pick).None?
    ensures PursuitRules(PatchedPursuit(s.pursuits[p], req))
  {
    var pu := s.pursuits[p];
    var patched := PatchedPursuit(pu, req);
    assert PursuitRules(pu);
    assert [patched.bpStart, patched.due, patched.award, patched.end] == MergedDates(pu, req);
  }

  /** The updated record, before the ledger reacts to it. */
  lemma PatchUpdateKeepsInv(s: State, scope: set<Id>, p: Id, req: Patch, pick: nat)
    requires Inv(s) && PatchFault(s, scope, p, req, pick).None?
    ensures Inv(s.(pursuits := s.pursuits[p := PatchedPursuit(s.pursuits[p], req)]))
  {
    var pu := s.pursuits[p];
    var after := s.(pursuits := s.pursuits[p := PatchedPursuit(pu, req)]);
    PatchedIsLawful(s, scope, p, req, pick);
    forall q | q in after.pursuits
      ensures PursuitRules(after.pursuits[q]) && DependencyRules(after, q)
    {
      assert PursuitRules(s.pursuits[q]) && DependencyRules(s, q);
    }
  }

  /** Where an accepted PATCH ends: the reaction to the flag, with or without the reaction to a revert. */
  lemma PatchEnds(s: State, scope: set<Id>, p: Id, req: Patch, engines: Engines)
    requires PatchFault(s, scope, p, req, engines.lpta).None?
    ensures var s1 := s.(pursuits := s.pursuits[p := PatchedPursuit(s.pursuits[p], req)]);
            var (s2, baseDone, _) := AfterSole(s1, p, req, engines.sole);
            PatchEndpoint(s, scope, p, req, engines).value.0 ==
            Ticked(if RevertsToPreBh(s.pursuits[p], req) && !baseDone
                   then AfterRevert(s2, p, engines.base, engines.dependentWon).0 else s2)
  {
    hide DependencyFault, InOrder, AfterSole, AfterRevert, RevertsToPreBh, PatchedPursuit;
  }

  lemma PatchOk(s: State, scope: set<Id>, p: Id, req: Patch, engines: Engines)
    ensures PatchEndpoint(s, scope, p, req, engines).Ok? <==> PatchFault(s, scope, p, req, engines.lpta).None?
  {
  }

  lemma PatchReacts(s: State, p: Id, req: Patch, engines: Engines)
    requires Disciplined(s.rows, s.clock + 1) && p in s.pursuits
    ensures var s2 := AfterSole(s, p, req, engines.sole).0;
            RowStep(s, s2, p) && RowStep(s, AfterRevert(s2, p, engines.base, engines.dependentWon).0, p)
  {
    var s2 := AfterSole(s, p, req, engines.sole).0;
    AfterSoleStep(s, p, req, engines.sole);
    AfterRevertStep(s2, p, engines.base, engines.dependentWon);
    RowStepTwice(s, s2, AfterRevert(s2, p, engines.base, engines.dependentWon).0, p);
  }

  /** An updated record, then row steps: together still a step confined to `p`. */
  lemma UpdatedThenRows(s: State, s1: State, after: State, p: Id)
    requires Inv(s1) && p in s.pursuits && p in s1.pursuits && s1 == s.(pursuits := s.pursuits[p := s1.pursuits[p]])
    requires RowStep(s1, after, p)
    ensures Inv(Ticked(after)) && Advances(s, Ticked(after), {p}) && KeepsAnswers(s.rows, after.rows)
    ensures ReadsFrom(s.rows, after.rows)
    ensures after.pursuits == s1.pursuits
  {
    RowStepKeepsInv(s1, after, p);
    assert Advances(s, s1, {p});
    AdvancesTwice(s, s1, Ticked(after), {p});
  }

  lemma PatchStep(s: State, scope: set<Id>, p: Id, req: Patch, engines: Engines)
    requires Inv(s)
    ensures var r := PatchEndpoint(s, scope, p, req, engines);
            r.Ok? ==>
              && p in s.pursuits && Inv(r.value.0) && Advances(s, r.value.0, {p})
              && KeepsAnswers(s.rows, r.value.0.rows) && ReadsFrom(s.rows, r.value.0.rows)
              && r.value.0.pursuits == s.pursuits[p := PatchedPursuit(s.pursuits[p], req)]
  {
    PatchOk(s, scope, p, req, engines);
    if PatchFault(s, scope, p, req, engines.lpta).None? {
      var s1 := s.(pursuits := s.pursuits[p := PatchedPursuit(s.pursuits[p], req)]);
      PatchUpdateKeepsInv(s, scope, p, req, engines.lpta);
      PatchEnds(s, scope, p, req, engines);
      PatchReacts(s1, p, req, engines);
      var s2 := AfterSole(s1, p, req, engines.sole).0;
      UpdatedThenRows(s, s1, s2, p);
      UpdatedThenRows(s, s1, AfterRevert(s2, p, engines.base, engines.dependentWon).0, p);
    }
    hide PatchEndpoint, PatchFault, PatchedPursuit, AfterSole, AfterRevert, Lifecycle, Advances, SameAnswers, Agreed;
    hide ReadsFrom;
  }

  /** An accepted link has read the LPTA answer, wherever the database found it. */
  lemma PatchConsistent(s: State, scope: set<Id>, p: Id, req: Patch, pick: nat, after: State)
    requires Consistent(s) && PatchFault(s, scope, p, req, pick).None? && KeepsAnswers(s.rows, after.rows)
    requires after.pursuits == s.pursuits[p := PatchedPursuit(s.pursuits[p], req)]
    ensures Consistent(after) && SameAnswers(s.rows, after.rows)
  {
    hide InOrder, AnswersOf, AnswersRead, Agreed, PursuitRules, CappedHit;
    AgreedRead(s.rows, p, Base, pick);
    forall q | q in after.pursuits && after.pursuits[q].dependsOn.Some?
      ensures !IsLpta(AnswersOf(after.rows, q, Base))
    {
      assert AnswersOf(after.rows, q, Base) == AnswersOf(s.rows, q, Base);
    }
  }

  // ----- Recalculation, bid and outcome -----

  lemma RecalculateStep(s: State, scope: set<Id>, p: Id, sc: Scenario, engine: Engine)
    requires Inv(s)
    ensures var r := RecalculateEndpoint(s, scope, p, sc, engine);
            r.Ok? ==>
              && p in s.pursuits && Inv(r.value) && Advances(s, r.value, {p})
              && KeepsAnswers(s.rows, r.value.rows) && ReadsFrom(s.rows, r.value.rows)
              && r.value.pursuits == s.pursuits
  {
    LaterBound(s.rows, s.clock);
    RecalculatedStep(s, p, sc, engine);
    var r := RecalculateEndpoint(s, scope, p, sc, engine);
    if r.Ok? {
      RowStepKeepsInv(s, Recalculated(s, p, sc, engine).value, p);
    }
  }

  lemma BidStep(s: State, scope: set<Id>, p: Id, bid: bool)
    requires Inv(s)
    ensures var r := BidEndpoint(s, scope, p, bid);
            r.Ok? ==> p in s.pursuits && Inv(r.value) && Advances(s, r.value, {p}) && r.value.rows == s.rows
  {
    var r := BidEndpoint(s, scope, p, bid);
    if r.Ok? {
      forall q | q in r.value.pursuits
        ensures PursuitRules(r.value.pursuits[q]) && DependencyRules(r.value, q)
      {
        assert PursuitRules(s.pursuits[q]) && DependencyRules(s, q);
      }
    }
  }

  /** Clearing all dependents of `p` while it becomes cancelled. */
  lemma ClearedKeepsInv(s: State, p: Id, closed: Pursuit)
    requires Inv(s) && p in s.pursuits
    requires PursuitRules(closed) && closed.dependsOn == s.pursuits[p].dependsOn
    ensures var s1 := s.(pursuits := s.pursuits[p := closed]);
            Inv(Cleared(s1, Dependents(s1, p)))
  {
    var s1 := s.(pursuits := s.pursuits[p := closed]);
    var gone := Dependents(s1, p);
    var after := Cleared(s1, gone);
    ClearedKeeps(s1, gone);
    ClearedKeepsOwners(s1, gone);
    hide Disciplined, PursuitRules, DependencyRules, Dependents, KeepsAnswers, ReadsFrom, Cleared;
    forall q | q in after.pursuits
      ensures PursuitRules(after.pursuits[q]) && DependencyRules(after, q)
    {
      ClearedIsLawful(s, s1, p, closed, q);
    }
  }

  lemma ClearedKeepsOwners(s: State, gone: set<Id>)
    ensures Cleared(s, gone).pursuits.Keys == s.pursuits.Keys && Cleared(s, gone).clock == s.clock
    ensures forall i | 0 <= i < |s.rows| :: Cleared(s, gone).rows[i].pursuit == s.rows[i].pursuit
  {
  }

  lemma ClearedAdvances(s: State, p: Id, closed: Pursuit)
    requires p in s.pursuits
    ensures var s1 := s.(pursuits := s.pursuits[p := closed]);
            Advances(s, Cleared(s1, Dependents(s1, p)), {p} + Dependents(s1, p))
  {
  }

  lemma ClearedIsLawful(s: State, s1: State, p: Id, closed: Pursuit, q: Id)
    requires Lifecycle(s) && p in s.pursuits && s1 == s.(pursuits := s.pursuits[p := closed])
    requires PursuitRules(closed) && closed.dependsOn == s.pursuits[p].dependsOn
    requires q in s.pursuits
    ensures var after := Cleared(s1, Dependents(s1, p));
            q in after.pursuits && PursuitRules(after.pursuits[q]) && DependencyRules(after, q)
  {
    var after := Cleared(s1, Dependents(s1, p));
    assert PursuitRules(s.pursuits[q]) && DependencyRules(s, q);
    assert q in Dependents(s1, p) <==> s1.pursuits[q].dependsOn == Some(p);
  }

  lemma OutcomeStep(s: State, scope: set<Id>, p: Id, outcome: Option<Outcome>, alsoSetBid: bool)
    requires Inv(s)
    ensures var r := OutcomeEndpoint(s, scope, p, outcome, alsoSetBid);
            r.Ok? ==> p in s.pursuits && Inv(r.value.0) && Advances(s, r.value.0, {p} + r.value.1) &&
                      KeepsAnswers(s.rows, r.value.0.rows) && ReadsFrom(s.rows, r.value.0.rows)
  {
    ReadsSame(s.rows);
    var r := OutcomeEndpoint(s, scope, p, outcome, alsoSetBid);
    if r.Ok? {
      var pu := s.pursuits[p];
      var closed := pu.(outcome := outcome, bid := if Decided(outcome) && alsoSetBid then Some(Bid) else pu.bid);
      assert PursuitRules(pu);
      if r.value.1 != {} || (outcome == Some(Cancelled) && pu.outcome != outcome) {
        ClearedKeepsInv(s, p, closed);
        ClearedAdvances(s, p, closed);
        ClearedKeeps(s.(pursuits := s.pursuits[p := closed]), r.value.1);
        hide Inv, Advances, KeepsAnswers, ReadsFrom, Disciplined, Cleared;
      } else {
        OutcomeOnlyKeepsInv(s, p, closed);
        assert Advances(s, s.(pursuits := s.pursuits[p := closed]), {p});
        hide Inv, Cleared, ReadsFrom;
      }
    }
  }

  lemma OutcomeOnlyKeepsInv(s: State, p: Id, closed: Pursuit)
    requires Inv(s) && p in s.pursuits && PursuitRules(closed) && closed.dependsOn == s.pursuits[p].dependsOn
    requires Abandoned(closed.outcome) ==> Abandoned(s.pursuits[p].outcome)
    ensures Inv(s.(pursuits := s.pursuits[p := closed]))
  {
    var after := s.(pursuits := s.pursuits[p := closed]);
    forall q | q in after.pursuits
      ensures PursuitRules(after.pursuits[q]) && DependencyRules(after, q)
    {
      assert PursuitRules(s.pursuits[q]) && DependencyRules(s, q);
    }
  }

  // ----- Answer saves -----

  lemma AppliedLabels(answers: map<Code, Value>, changes: Changes)
    requires !TwoValued(answers, changes)
    ensures Labels(Applied(answers, changes)) == Merge(Labels(answers), changes)
  {
  }

  lemma AnswersStep(s: State, scope: set<Id>, p: Id, sc: Scenario, changes: Changes, spec: Option<Spec>,
                    options: OptionTable, pick: nat)
    requires Inv(s)
    ensures var r := AnswersEndpoint(s, scope, p, sc, changes, spec, options, pick);
            r.Ok? ==>
              && p in s.pursuits && Inv(r.value.0) && Advances(s, r.value.0, {p})
              && !TwoValued(AnswersRead(s.rows, p, sc, pick), changes)
  {
    AcceptedAnswers(s, scope, p, sc, changes, spec, options, pick);
    hide *;
    if AnswersEndpoint(s, scope, p, sc, changes, spec, options, pick).Ok? {
      SavedStep(s, p, sc, changes, pick);
    }
  }

  lemma AcceptedAnswers(s: State, scope: set<Id>, p: Id, sc: Scenario, changes: Changes, spec: Option<Spec>,
                        options: OptionTable, pick: nat)
    ensures var r := AnswersEndpoint(s, scope, p, sc, changes, spec, options, pick);
            r.Ok? ==>
              p in s.pursuits && r.value == Saved(s, p, sc, changes, pick) && !TwoValued(AnswersRead(s.rows, p, sc, pick), changes)
  {
    hide Saved, AnswersRead, TwoValued, Merge, Labels, FirstFault, Unresolved?;
  }

  lemma SavedStep(s: State, p: Id, sc: Scenario, changes: Changes, pick: nat)
    requires Inv(s) && p in s.pursuits
    ensures var after := Saved(s, p, sc, changes, pick).0;
            Inv(after) && Advances(s, after, {p})
  {
    hide Disciplined, AnswersRead, Applied, Lifecycle, Merge, Labels, TurnsLpta;
    LaterBound(s.rows, s.clock);
    var (s1, i) := WithAnswerRow(s, p, sc, pick);
    var answers := Applied(AnswersRead(s.rows, p, sc, pick), changes);
    AnswerRowKeeps(s, p, sc, pick);
    WrittenDiscipline(s1.rows, s.clock + 1, i, answers);
    AnswersAdvance(s, p, sc, pick, answers, Saved(s, p, sc, changes, pick).0);
    AnswersLawful(s, p, Saved(s, p, sc, changes, pick).0);
  }

  lemma AnswersAdvance(s: State, p: Id, sc: Scenario, pick: nat, answers: map<Code, Value>, after: State)
    requires p in s.pursuits
    requires var (s1, i) := WithAnswerRow(s, p, sc, pick);
             i < |s1.rows| && after.rows == s1.rows[i := s1.rows[i].(answers := answers)] && after.clock == s.clock + 1
    requires after.pursuits.Keys == s.pursuits.Keys
    requires forall q | q in s.pursuits && q != p :: after.pursuits[q] == s.pursuits[q]
    ensures Advances(s, after, {p})
  {
  }

  lemma AnswersLawful(s: State, p: Id, after: State)
    requires Inv(s) && p in s.pursuits && Advances(s, after, {p}) && Disciplined(after.rows, after.clock)
    requires after.pursuits[p] == s.pursuits[p] || after.pursuits[p] == s.pursuits[p].(dependsOn := None)
    ensures Inv(after)
  {
    forall i | 0 <= i < |after.rows|
      ensures after.rows[i].pursuit in after.pursuits
    {
      if i < |s.rows| {
        assert SameOrigin(s.rows[i], after.rows[i]);
      }
    }
    forall q | q in after.pursuits
      ensures PursuitRules(after.pursuits[q]) && DependencyRules(after, q)
    {
      assert PursuitRules(s.pursuits[q]) && DependencyRules(s, q);
    }
  }

  /** From consistent answers, a save of a scenario without a tie changes its answers and no others, and stays consistent. */
  lemma AnswersConsistent(s: State, scope: set<Id>, p: Id, sc: Scenario, changes: Changes, spec: Option<Spec>,
                          options: OptionTable, pick: nat)
    requires Inv(s) && Consistent(s) && !Tied(s.rows, p, sc)
    ensures var r := AnswersEndpoint(s, scope, p, sc, changes, spec, options, pick);
            r.Ok? ==>
              && Consistent(r.value.0)
              && forall q: Id, sc2: Scenario :: AnswersOf(r.value.0.rows, q, sc2) ==
                   if q == p && sc2 == sc then Applied(AnswersOf(s.rows, p, sc), changes) else AnswersOf(s.rows, q, sc2)
  {
    var r := AnswersEndpoint(s, scope, p, sc, changes, spec, options, pick);
    if r.Ok? {
      AnswersStep(s, scope, p, sc, changes, spec, options, pick);
      SavedConsistent(s, p, sc, changes, pick);
      hide Inv, Advances, Saved, AnswersRead, AnswersOf, Consistent, Applied, AnswersFault;
    }
  }

  lemma SavedConsistent(s: State, p: Id, sc: Scenario, changes: Changes, pick: nat)
    requires Inv(s) && Consistent(s) && !Tied(s.rows, p, sc) && p in s.pursuits
    requires !TwoValued(AnswersRead(s.rows, p, sc, pick), changes)
    ensures var after := Saved(s, p, sc, changes, pick).0;
            && Consistent(after)
            && forall q: Id, sc2: Scenario :: AnswersOf(after.rows, q, sc2) ==
                 if q == p && sc2 == sc then Applied(AnswersOf(s.rows, p, sc), changes) else AnswersOf(s.rows, q, sc2)
  {
    hide Inv, AnswersRead, AnswersOf, Applied, Labels, Merge, Agreed, WithAnswerRow, Tied, TwoValued;
    var after := Saved(s, p, sc, changes, pick).0;
    var answers := Applied(AnswersOf(s.rows, p, sc), changes);
    AgreedRead(s.rows, p, sc, pick);
    AnswerRowOnly(s, p, sc, pick);
    SavedAnswers(s, p, sc, pick, answers, after.rows);
    AppliedLabels(AnswersOf(s.rows, p, sc), changes);
    SavedLpta(s, p, sc, answers, after);
  }

  lemma AnswerRowOnly(s: State, p: Id, sc: Scenario, pick: nat)
    ensures var (s1, i) := WithAnswerRow(s, p, sc, pick);
            i < |s1.rows| && s1.pursuits == s.pursuits && s1.clock == s.clock
  {
  }

  lemma SavedAnswers(s: State, p: Id, sc: Scenario, pick: nat, answers: map<Code, Value>, after: seq<Row>)
    requires Inv(s) && Agreed(s.rows) && !Tied(s.rows, p, sc)
    requires var (s1, i) := WithAnswerRow(s, p, sc, pick);
             i < |s1.rows| && after == s1.rows[i := s1.rows[i].(answers := answers)]
    ensures Agreed(after)
    ensures forall q: Id, sc2: Scenario ::
              AnswersOf(after, q, sc2) == if q == p && sc2 == sc then answers else AnswersOf(s.rows, q, sc2)
  {
    var (s1, i) := WithAnswerRow(s, p, sc, pick);
    LaterBound(s.rows, s.clock);
    AnswerRowKeeps(s, p, sc, pick);
    AnswerRowUntied(s, p, sc, pick);
    WrittenAnswers(s1.rows, p, sc, i, answers);
    hide WithAnswerRow, AnswersOf, Agreed, Tied;
    forall q: Id, sc2: Scenario
      ensures AnswersOf(after, q, sc2) == if q == p && sc2 == sc then answers else AnswersOf(s.rows, q, sc2)
    {
      assert AnswersOf(s1.rows, q, sc2) == AnswersOf(s.rows, q, sc2);
    }
  }

  lemma AnswerRowUntied(s: State, p: Id, sc: Scenario, pick: nat)
    requires !Tied(s.rows, p, sc) && Disciplined(s.rows, s.clock)
    ensures !Tied(WithAnswerRow(s, p, sc, pick).0.rows, p, sc)
  {
    var (s1, i) := WithAnswerRow(s, p, sc, pick);
    if Picked(s.rows, p, sc, pick).None? {
      forall k: nat | IsLatest(s1.rows, p, sc, k)
        ensures k == i
      {
        AppendedLatest(s.rows, s1.rows[|s.rows|], p, sc, k);
      }
    }
  }

  lemma SavedLpta(s: State, p: Id, sc: Scenario, answers: map<Code, Value>, after: State)
    requires LptaRules(s) && p in s.pursuits
    requires forall q: Id, sc2: Scenario ::
               AnswersOf(after.rows, q, sc2) == if q == p && sc2 == sc then answers else AnswersOf(s.rows, q, sc2)
    requires after.pursuits == s.pursuits || after.pursuits == s.pursuits[p := s.pursuits[p].(dependsOn := None)]
    requires sc == Base && IsLpta(answers) ==> after.pursuits[p].dependsOn.None?
    ensures LptaRules(after)
  {
    hide AnswersOf, IsLpta;
    forall q | q in after.pursuits && after.pursuits[q].dependsOn.Some?
      ensures !IsLpta(AnswersOf(after.rows, q, Base))
    {
      assert q in s.pursuits && s.pursuits[q].dependsOn.Some?;
    }
  }

  // ----- Black Hat and PTW -----

  lemma SubmitStep(s: State, scope: set<Id>, p: Id, sc: Scenario, form: Submission, base: Prob, completed: Option<int>)
    requires Inv(s)
    ensures var r := SubmitEndpoint(s, scope, p, sc, form, base, completed);
            r.Ok? ==>
              && p in s.pursuits && Inv(r.value.0) && Advances(s, r.value.0, {p})
              && KeepsAnswers(s.rows, r.value.0.rows) && ReadsFrom(s.rows, r.value.0.rows)
              && r.value.0.pursuits == s.pursuits[p := s.pursuits[p].(bhPtwComplete := r.value.1)]
  {
    var r := SubmitEndpoint(s, scope, p, sc, form, base, completed);
    if r.Ok? {
      SubmissionStep(s, p, sc, KindOf(form), base);
      hide Submitted, Inv, Advances, KeepsAnswers;
      CompletionStep(s, Submitted(s, p, sc, KindOf(form), base), p, r.value.1);
    }
  }

  lemma SubmissionStep(s: State, p: Id, sc: Scenario, kind: Kind, base: Prob)
    requires Inv(s) && p in s.pursuits && kind != Questionnaire
    ensures var after := Submitted(s, p, sc, kind, base);
            RowStep(s, after, p) && Inv(Ticked(after))
  {
    var pwin := if s.pursuits[p].dependsOn.Some? && sc == Base then None else Some(base);
    var s1 := Superseded(s, p, sc, kind, base, pwin, map[]);
    LaterBound(s.rows, s.clock);
    SupersededStep(s, p, sc, kind, base, pwin, map[], 0);
    BlendStep(s1, p);
    RowStepTwice(s, s1, BlendIfDependent(s1, p), p);
    RowStepKeepsInv(s, BlendIfDependent(s1, p), p);
  }

  lemma CompletionStep(s: State, s2: State, p: Id, complete: bool)
    requires Inv(Ticked(s2)) && RowStep(s, s2, p) && p in s.pursuits
    ensures var after := Ticked(s2.(pursuits := s2.pursuits[p := s.pursuits[p].(bhPtwComplete := complete)]));
            Inv(after) && Advances(s, after, {p}) && KeepsAnswers(s.rows, after.rows) && ReadsFrom(s.rows, after.rows)
  {
    assert PursuitRules(Ticked(s2).pursuits[p]);
    OutcomeOnlyKeepsInv(Ticked(s2), p, s.pursuits[p].(bhPtwComplete := complete));
  }
}
