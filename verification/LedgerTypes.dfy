/** Changing the opportunity type: the stored answers stay, and may stop being legal. */
module LedgerTypes {
  import opened Wrappers
  import opened Cascades
  import opened DependencyGraph
  import opened Ledger
  import opened LedgerInvariant
  import opened LedgerSteps
  import opened LedgerRuns
  import opened LedgerExample
  import opened DemoGates

  /** The type a PATCH asks for; a null counts as services. */
  predicate TypeAsked(isProduct: bool, req: Patch) {
    match req.isProduct
    case Unset => isProduct
    case Put(None) => false
    case Put(Some(Unresolved)) => isProduct
    case Put(Some(Known(product))) => product
  }

  predicate StoredLegal(s: State, p: Id, sc: Scenario, spec: Spec, pick: nat)
    requires p in s.pursuits
  {
    Legal(spec, s.pursuits[p].isProduct, Labels(AnswersRead(s.rows, p, sc, pick)))
  }

  /** The question has one option list for products and one for services; TM3 goes by TM2 alone. */
  predicate HasTwoLists(spec: Spec, c: Code) {
    c != TM3 && c in spec.questions && spec.questions[c].Branched?
  }

  predicate OnList(spec: Spec, c: Code, isProduct: bool, answer: string) {
    var list := BaseOptions(spec, c, isProduct);
    list.Some? && answer in list.value
  }

  /** For services, TM1A's answer takes this option of TM1B away. */
  predicate Removes(rule: RemoveRule, answers: Answers, answer: string) {
    rule.looksAtTm1a && Lookup(answers, TM1A) == rule.answer && rule.option == Some(answer)
  }

  /**
   What a set that is legal for one type must satisfy to be legal for the other one: each answered
   question with two lists holds an option of that type's list; for services TM1B is not the
   removed option, and a forced TM2 holds a forced option instead; for products a TM2 that the
   force had narrowed is on the question's own list.
   */
  ghost predicate SensitiveAnswersFit(spec: Spec, isProduct: bool, answers: Answers) {
    var forced := Forces(spec.force, answers);
    && (forall c | c in answers && Asked(c) && HasTwoLists(spec, c) && !(c == TM2 && forced && !isProduct) ::
          OnList(spec, c, isProduct, answers[c]))
    && (TM1B in answers && !isProduct ==> !Removes(spec.remove, answers, answers[TM1B]))
    && (TM2 in answers && forced && !isProduct ==> answers[TM2] in spec.force.options)
    && (TM2 in answers && forced && isProduct ==> OnList(spec, TM2, isProduct, answers[TM2]))
  }

  lemma SwitchedAt(spec: Spec, c: Code, isProduct: bool, answers: Answers)
    requires LegalAt(spec, c, isProduct, answers) && c in answers && c != TM1B && c != TM2
    ensures LegalAt(spec, c, !isProduct, answers) <==> (HasTwoLists(spec, c) ==> OnList(spec, c, !isProduct, answers[c]))
  {
  }

  lemma SwitchedTm1b(spec: Spec, isProduct: bool, answers: Answers)
    requires LegalAt(spec, TM1B, isProduct, answers) && TM1B in answers
    ensures LegalAt(spec, TM1B, !isProduct, answers) <==>
            && (HasTwoLists(spec, TM1B) ==> OnList(spec, TM1B, !isProduct, answers[TM1B]))
            && (isProduct ==> !Removes(spec.remove, answers, answers[TM1B]))
  {
    var rule, list := spec.remove, BaseOptions(spec, TM1B, false);
    if list.Some? && rule.option.Some? {
      WithoutMembers(list.value, rule.option.value);
    }
  }

  lemma SwitchedTm2(spec: Spec, isProduct: bool, answers: Answers)
    requires LegalAt(spec, TM2, isProduct, answers) && TM2 in answers
    ensures var forced := Forces(spec.force, answers);
            LegalAt(spec, TM2, !isProduct, answers) <==>
            && (HasTwoLists(spec, TM2) && !(forced && isProduct) ==> OnList(spec, TM2, !isProduct, answers[TM2]))
            && (forced && isProduct ==> answers[TM2] in spec.force.options)
            && (forced && !isProduct ==> OnList(spec, TM2, !isProduct, answers[TM2]))
  {
    hide Forces;
  }

  /** For a legal set these questions alone decide whether it is legal for the other type. */
  lemma SwitchedLegal(spec: Spec, isProduct: bool, answers: Answers)
    requires Legal(spec, isProduct, answers)
    ensures Legal(spec, !isProduct, answers) <==> SensitiveAnswersFit(spec, !isProduct, answers)
  {
    hide Forces, HasTwoLists, OnList, Removes, LegalAt;
    forall c: Code | Asked(c) && c in answers
      ensures LegalAt(spec, c, !isProduct, answers) <==> FitsAt(spec, c, !isProduct, answers)
    {
      assert LegalAt(spec, c, isProduct, answers);
      FitAt(spec, c, isProduct, answers);
    }
    UnansweredFits(spec, !isProduct, answers);
    FitEverywhere(spec, !isProduct, answers);
  }

  predicate FitsAt(spec: Spec, c: Code, isProduct: bool, answers: Answers)
    requires c in answers
  {
    var forced := Forces(spec.force, answers);
    && (HasTwoLists(spec, c) && !(c == TM2 && forced && !isProduct) ==> OnList(spec, c, isProduct, answers[c]))
    && (c == TM1B && !isProduct ==> !Removes(spec.remove, answers, answers[c]))
    && (c == TM2 && forced && !isProduct ==> answers[c] in spec.force.options)
    && (c == TM2 && forced && isProduct ==> OnList(spec, c, isProduct, answers[c]))
  }

  lemma FitAt(spec: Spec, c: Code, isProduct: bool, answers: Answers)
    requires LegalAt(spec, c, isProduct, answers) && c in answers
    ensures LegalAt(spec, c, !isProduct, answers) <==> FitsAt(spec, c, !isProduct, answers)
  {
    match c
    case TM1B => SwitchedTm1b(spec, isProduct, answers);
    case TM2 => SwitchedTm2(spec, isProduct, answers);
    case _ => SwitchedAt(spec, c, isProduct, answers);
    hide Forces, HasTwoLists, OnList, Removes, LegalAt;
  }

  lemma UnansweredFits(spec: Spec, isProduct: bool, answers: Answers)
    ensures forall c: Code | c !in answers :: LegalAt(spec, c, isProduct, answers)
  {
    hide CascadedOptions;
  }

  lemma FitEverywhere(spec: Spec, isProduct: bool, answers: Answers)
    ensures SensitiveAnswersFit(spec, isProduct, answers) <==>
            forall c | c in answers && Asked(c) :: FitsAt(spec, c, isProduct, answers)
  {
    hide Forces, HasTwoLists, OnList, Removes;
    if forall c | c in answers && Asked(c) :: FitsAt(spec, c, isProduct, answers) {
      assert TM1B in answers ==> FitsAt(spec, TM1B, isProduct, answers);
      assert TM2 in answers ==> FitsAt(spec, TM2, isProduct, answers);
    }
  }

  /**
   After an accepted PATCH, whatever is read could be read before. Where it was legal it stays so
   exactly when the type stays, or the type-dependent answers fit the new one.
   */
  lemma TypeChangeExactly(s: State, scope: set<Id>, p: Id, req: Patch, engines: Engines, sc: Scenario, spec: Spec, pick: nat)
    requires Inv(s) && PatchFault(s, scope, p, req, engines.lpta).None?
    ensures p in s.pursuits
    ensures var after := PatchEndpoint(s, scope, p, req, engines).value.0;
            var asked := TypeAsked(s.pursuits[p].isProduct, req);
            var read := AnswersRead(after.rows, p, sc, pick);
            && p in after.pursuits && after.pursuits[p].isProduct == asked && Readable(s.rows, p, sc, read)
            && (Agreed(s.rows) ==> read == AnswersOf(s.rows, p, sc))
            && (req.sole.Unset? && !RevertsToPreBh(s.pursuits[p], req) ==> read == AnswersRead(s.rows, p, sc, pick))
            && (Legal(spec, s.pursuits[p].isProduct, Labels(read)) ==>
                  (StoredLegal(after, p, sc, spec, pick) <==>
                   asked == s.pursuits[p].isProduct || SensitiveAnswersFit(spec, asked, Labels(read))))
  {
    var after := PatchEndpoint(s, scope, p, req, engines).value.0;
    var read := AnswersRead(after.rows, p, sc, pick);
    PatchOk(s, scope, p, req, engines);
    PatchStep(s, scope, p, req, engines);
    PatchedType(s, scope, p, req, engines.lpta);
    PatchedRows(s, scope, p, req, engines);
    if Agreed(s.rows) {
      AgreedRead(after.rows, p, sc, pick);
    }
    hide PatchEndpoint, PatchFault, PatchedPursuit, Inv, Agreed, Advances, Legal, AnswersOf, AnswersRead, TypeAsked;
    hide SensitiveAnswersFit, RevertsToPreBh, Readable, Labels;
    if Legal(spec, s.pursuits[p].isProduct, Labels(read)) {
      SwitchedLegal(spec, s.pursuits[p].isProduct, Labels(read));
    }
  }

  lemma PatchedRows(s: State, scope: set<Id>, p: Id, req: Patch, engines: Engines)
    requires PatchFault(s, scope, p, req, engines.lpta).None?
    ensures req.sole.Unset? && !RevertsToPreBh(s.pursuits[p], req) ==>
              PatchEndpoint(s, scope, p, req, engines).value.0.rows == s.rows
  {
    PatchEnds(s, scope, p, req, engines);
    hide PatchEndpoint, PatchFault, PatchedPursuit, AfterRevert;
  }

  lemma PatchedType(s: State, scope: set<Id>, p: Id, req: Patch, pick: nat)
    requires PatchFault(s, scope, p, req, pick).None?
    ensures p in s.pursuits && PatchedPursuit(s.pursuits[p], req).isProduct == TypeAsked(s.pursuits[p].isProduct, req)
  {
    hide DependencyFault, InOrder;
  }

  // ----- A run over the shipped questionnaire -----

  const FRESH: State := State(map[0 := OpenPursuit(None).(isProduct := true)], [], 0)
  const SAME: Changes := map[TM1A := Some("Same")]
  const SAVE: Call := Call({0}, 0, AnswersRequest(Base, SAME, Some(SHIPPED), {(TM1A, "Same")}, 0))
  const TO_SERVICES: Call := Call({0}, 0, PatchRequest(NOTHING.(isProduct := Put(Some(Known(false)))), SILENT))

  lemma FreshIsLawful()
    ensures Inv(FRESH) && Consistent(FRESH) && AnswersOf(FRESH.rows, 0, Base) == map[] && !Tied(FRESH.rows, 0, Base)
  {
    assert PursuitRules(FRESH.pursuits[0]) && DependencyRules(FRESH, 0);
  }

  lemma SameIsForProducts()
    ensures Legal(SHIPPED, true, map[TM1A := "Same"]) && !LegalAt(SHIPPED, TM1A, false, map[TM1A := "Same"])
  {
    var answers: Answers := map[TM1A := "Same"];
    assert "Same" == ["Same", "Better", "Worse"][0];
    var services := ["On contract today", "Yes, but not as many building blocks as competitor",
                     "No, but our teammates are on contract today", NO];
    assert CascadedOptions(SHIPPED, TM1A, false, answers) == Some(services);
    assert |"Same"| == 4 && |services[0]| == 17 && |services[1]| == 50 && |services[2]| == 43 && |services[3]| == 2;
    assert "Same" !in services;
    assert CascadedOptions(SHIPPED, TM1A, true, answers) == Some(["Same", "Better", "Worse"]);
    assert forall c: Code | Asked(c) && c != TM1A :: c !in answers;
  }

  lemma SaveAccepts()
    ensures SaveAccepted(FRESH, SAVE)
  {
    SameIsForProducts();
    hide SHIPPED, CascadedOptions;
    assert AnswersRead(FRESH.rows, 0, Base, 0) == map[];
    assert Merge(Labels(map[]), SAME) == map[TM1A := "Same"];
    assert forall i | 0 <= i < |ASKED| :: LegalAt(SHIPPED, ASKED[i], true, map[TM1A := "Same"]) by {
      forall i | 0 <= i < |ASKED|
        ensures LegalAt(SHIPPED, ASKED[i], true, map[TM1A := "Same"])
      {
        AskedIsChecked(ASKED[i]);
      }
    }
    hide LegalAt, Legal;
    assert FirstFault(SHIPPED, true, map[TM1A := "Same"], 0).None?;
    hide FirstFault;
    assert !Unresolved?({(TM1A, "Same")}, SAME) && !TwoValued(map[], SAME);
    assert AnswersFault(FRESH, {0}, 0, Base, SAME, Some(SHIPPED), {(TM1A, "Same")}, 0).None?;
  }

  lemma AfterSave()
    ensures var s1 := Step(FRESH, SAVE);
            && Inv(s1) && Consistent(s1) && s1.pursuits == FRESH.pursuits
            && Labels(AnswersOf(s1.rows, 0, Base)) == map[TM1A := "Same"]
  {
    hide Inv, Consistent, AnswersOf, Tied, Advances, Touched, SHIPPED, Step, SaveAccepted;
    FreshIsLawful();
    SaveAccepts();
    StepIsLawful(FRESH, SAVE);
    StepAnswers(FRESH, SAVE, 0, Base);
    SavedKeepsRecord();
    SameApplied();
    hide Applied, Labels;
  }

  lemma SameApplied()
    ensures Labels(Applied(map[], SAME)) == map[TM1A := "Same"]
  {
    assert Applied(map[], SAME) == map[TM1A := Choice("Same")];
  }

  lemma SavedKeepsRecord()
    ensures Step(FRESH, SAVE).pursuits == FRESH.pursuits
  {
    hide AnswersRead, Applied, Merge, Labels, FirstFault, SHIPPED;
  }

  lemma ToServicesAccepts(s1: State)
    requires s1.pursuits == FRESH.pursuits
    ensures PatchFault(s1, {0}, 0, TO_SERVICES.request.req, 0).None?
  {
    assert InOrder(MergedDates(s1.pursuits[0], TO_SERVICES.request.req));
  }

  /** An accepted save, then an accepted PATCH of the type: a legal stored set has become illegal. */
  lemma TypeRun(pick: nat)
    ensures var s1 := Step(FRESH, SAVE);
            var s2 := Step(s1, TO_SERVICES);
            && 0 in s1.pursuits && StoredLegal(s1, 0, Base, SHIPPED, pick)
            && s2 != s1 && 0 in s2.pursuits && !StoredLegal(s2, 0, Base, SHIPPED, pick)
  {
    AfterSave();
    SameIsForProducts();
    var s1 := Step(FRESH, SAVE);
    AgreedRead(s1.rows, 0, Base, pick);
    hide Inv, Agreed, AnswersOf, AnswersRead, LegalAt, Labels, SHIPPED;
    ToServicesAccepts(s1);
    PatchOk(s1, {0}, 0, TO_SERVICES.request.req, SILENT);
    TypeChangeExactly(s1, {0}, 0, TO_SERVICES.request.req, SILENT, Base, SHIPPED, pick);
    hide PatchEndpoint, PatchFault;
  }
}
