/** One small ledger on which the requests of the other modules are shown to be accepted. */
module LedgerExample {
  import opened Wrappers
  import opened Cascades
  import opened DependencyGraph
  import opened Ledger
  import opened LedgerInvariant
  import opened LedgerRuns
  import opened LedgerCurrent

  const PRICED: map<Code, Value> := map[P1 := Choice("Normal Bid")]

  /** Pursuit 1 depends on pursuit 0, both assessed before Black Hat; 0.4 blends 0.2 and 0.6 half and half. */
  const ROWS: seq<Row> := [
    Row(0, Base, Questionnaire, true, Some(0.5), Some(0.5), None, false, 0, PRICED),
    Row(1, Base, Questionnaire, true, Some(0.2), Some(0.4), Some(0.4), false, 1, PRICED),
    Row(1, DependentWon, Questionnaire, true, Some(0.6), Some(0.6), None, false, 2, PRICED)]

  const PAIR: State := State(map[0 := OpenPursuit(None), 1 := OpenPursuit(Some(0))], ROWS, 3)

  const NOTHING: Patch := Patch(Unset, Unset, Unset, Unset, Unset, Unset, Unset, Unset, Unset)

  const SILENT: Engines := Engines(0, Fails(0), Fails(0), Fails(0))

  const P2_ONLY: Spec := Spec(map[P1 := Flat(["Normal Bid"]), P2 := Flat(["Best Value", "LPTA"])],
                              RemoveRule(false, None, None), ForceRule([], []), map[])

  /** Either evaluation type may be added to the price answer. */
  lemma PricedIsLegal(answer: string)
    requires answer in ["Best Value", "LPTA"]
    ensures var merged := Merge(Labels(PRICED), map[P2 := Some(answer)]);
            FirstFault(P2_ONLY, false, merged, 0).None? && Lookup(merged, P2) == Some(answer)
  {
    var merged := Merge(Labels(PRICED), map[P2 := Some(answer)]);
    assert "Normal Bid" == ["Normal Bid"][0];
    assert forall c | c in merged :: c == P1 || c == P2;
    assert merged[P1] == "Normal Bid" && merged[P2] == answer;
    hide Merge, Labels;
    forall i | 0 <= i < |ASKED|
      ensures LegalAt(P2_ONLY, ASKED[i], false, merged)
    {
    }
  }

  lemma PairRows()
    ensures CardOf(PAIR, 0) == Card(Some(ROWS[0]), None)
    ensures CardOf(PAIR, 1) == Card(Some(ROWS[1]), Some(ROWS[2]))
  {
    assert CurrentFor(ROWS[0], 0, Base) && CurrentFor(ROWS[1], 1, Base) && CurrentFor(ROWS[2], 1, DependentWon);
  }

  lemma PairLatest(p: Id, sc: Scenario, i: nat)
    ensures IsLatest(ROWS, p, sc, i) <==> i < 3 && AnswersFor(ROWS[i], p, sc)
    ensures AnswersOf(ROWS, p, sc) == if (p <= 1 && sc == Base) || (p == 1 && sc == DependentWon) then PRICED else map[]
  {
    assert AnswersFor(ROWS[0], 0, Base) && AnswersFor(ROWS[1], 1, Base) && AnswersFor(ROWS[2], 1, DependentWon);
  }

  lemma PairReads(p: Id, sc: Scenario, answers: map<Code, Value>)
    requires Readable(ROWS, p, sc, answers) && ((p <= 1 && sc == Base) || (p == 1 && sc == DependentWon))
    ensures answers == PRICED
  {
    PairLatest(p, sc, 0);
    assert LatestQuestionnaire(ROWS, p, sc).Some?;
  }

  lemma PairIsDisciplined()
    ensures Disciplined(ROWS, 3)
  {
    assert CurrentFor(ROWS[0], 0, Base) && CurrentFor(ROWS[1], 1, Base);
  }

  lemma PairIsAgreed()
    ensures Agreed(ROWS) && LptaRules(PAIR)
  {
    forall p: Id, sc: Scenario, i: nat | IsLatest(ROWS, p, sc, i)
      ensures ROWS[i].answers == AnswersOf(ROWS, p, sc)
    {
      PairLatest(p, sc, i);
      hide AnswersOf, IsLatest;
    }
    PairLatest(1, Base, 1);
    hide AnswersOf, Agreed;
  }

  lemma PairLifecycle()
    ensures Lifecycle(PAIR)
  {
    assert PursuitRules(PAIR.pursuits[0]) && PursuitRules(PAIR.pursuits[1]);
    assert DependencyRules(PAIR, 0) && DependencyRules(PAIR, 1);
  }

  lemma PairIsLawful()
    ensures Inv(PAIR) && Consistent(PAIR)
  {
    PairIsDisciplined();
    PairIsAgreed();
    PairLifecycle();
    hide Disciplined, Agreed, LptaRules, Lifecycle;
  }
}
