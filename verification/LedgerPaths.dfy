/** Questionnaires over the ledger: from any legal stored set any other is reached by accepted single-question saves. */
module LedgerPaths {
  import opened Wrappers
  import opened Cascades
  import opened DependencyGraph
  import opened Ledger
  import opened LedgerInvariant
  import opened LedgerSteps
  import opened LedgerRuns
  import opened LedgerAccepts
  import opened LedgerOrphans
  import opened LedgerTies

  /** Whom the saves are made on, and against which spec and option rows. */
  datatype Form = Form(scope: set<Id>, p: Id, sc: Scenario, spec: Spec, options: OptionTable, isProduct: bool, pick: nat)

  function Saving(form: Form, move: Move): Call {
    Call(form.scope, form.p, AnswersRequest(form.sc, map[move.code := move.answer], Some(form.spec), form.options, form.pick))
  }

  function Savings(form: Form, moves: seq<Move>): (calls: seq<Call>)
    ensures |calls| == |moves| && forall i | 0 <= i < |moves| :: calls[i] == Saving(form, moves[i])
  {
    seq(|moves|, i requires 0 <= i < |moves| => Saving(form, moves[i]))
  }

  /** Every call of the run is an accepted save. */
  predicate AllSaved(s: State, calls: seq<Call>)
    decreases |calls|
  {
    |calls| > 0 ==> SaveAccepted(s, calls[0]) && AllSaved(Step(s, calls[0]), calls[1..])
  }

  /** An open pursuit of that type within scope, whose asked questions store options and whose investment is no option. */
  ghost predicate Fillable(s: State, form: Form) {
    && Inv(s) && Consistent(s) && !Tied(s.rows, form.p, form.sc)
    && form.p in s.pursuits && form.p in form.scope
    && s.pursuits[form.p].outcome.None? && s.pursuits[form.p].isProduct == form.isProduct
    && (form.sc == DependentWon ==> s.pursuits[form.p].dependsOn.Some?)
    && forall c | c in AnswersOf(s.rows, form.p, form.sc) :: AnswersOf(s.rows, form.p, form.sc)[c].Choice? <==> Asked(c)
  }

  function Stored(s: State, form: Form): Answers {
    Labels(AnswersOf(s.rows, form.p, form.sc))
  }

  predicate Offered(form: Form, move: Move) {
    Asked(move.code) && (move.answer.Some? ==> (move.code, move.answer.value) in form.options)
  }

  lemma MoveAccepted(s: State, form: Form, move: Move)
    requires Fillable(s, form) && Offered(form, move)
    requires Legal(form.spec, form.isProduct, Merge(Stored(s, form), map[move.code := move.answer]))
    ensures SaveAccepted(s, Saving(form, move)) && !MeetsTie(s, Saving(form, move))
    ensures !TwoValued(AnswersOf(s.rows, form.p, form.sc), map[move.code := move.answer])
  {
    var changes: Changes := map[move.code := move.answer];
    var stored := AnswersOf(s.rows, form.p, form.sc);
    AgreedRead(s.rows, form.p, form.sc, form.pick);
    ResultIsMerge(stored, changes, Merge(Labels(stored), changes));
    SaveAcceptedExactly(s, form.scope, form.p, form.sc, changes, Some(form.spec), form.options, form.pick);
    hide AnswersRead, AnswersOf, Agreed, Inv, Tied, Labels, Merge, LptaRules, Legal, ResultsIn, AnswersEndpoint;
  }

  lemma MoveSaves(s: State, form: Form, move: Move)
    requires Fillable(s, form) && Offered(form, move) && SaveAccepted(s, Saving(form, move))
    requires !MeetsTie(s, Saving(form, move)) && !TwoValued(AnswersOf(s.rows, form.p, form.sc), map[move.code := move.answer])
    ensures var next := Step(s, Saving(form, move));
            Fillable(next, form) && Stored(next, form) == Merge(Stored(s, form), map[move.code := move.answer])
  {
    var changes: Changes := map[move.code := move.answer];
    var next := Step(s, Saving(form, move));
    var before := AnswersOf(s.rows, form.p, form.sc);
    hide AnswersOf, Inv, Tied, Consistent, Merge, Labels, Saved, AnswersFault, MeetsTie, Advances;
    StepIsLawful(s, Saving(form, move));
    StepAnswers(s, Saving(form, move), form.p, form.sc);
    SaveTied(s, form.p, form.sc, changes, form.pick, form.p, form.sc);
    SavedRecord(s, form.p, form.sc, changes, form.pick);
    AppliedLabels(before, changes);
    AppliedChoices(before, changes);
  }

  lemma AppliedChoices(answers: map<Code, Value>, changes: Changes)
    requires forall c | c in answers :: answers[c].Choice? <==> Asked(c)
    requires forall c | c in changes :: Asked(c)
    ensures forall c | c in Applied(answers, changes) :: Applied(answers, changes)[c].Choice? <==> Asked(c)
  {
  }

  lemma {:induction false} MovesReach(s: State, form: Form, moves: seq<Move>)
    requires Fillable(s, form) && EachAccepted(form.spec, form.isProduct, Stored(s, form), moves)
    requires forall i | 0 <= i < |moves| :: Offered(form, moves[i])
    ensures AllSaved(s, Savings(form, moves))
    ensures Stored(Run(s, Savings(form, moves)), form) == Play(Stored(s, form), moves)
    decreases |moves|
  {
    if moves != [] {
      var call, rest := Saving(form, moves[0]), moves[1..];
      assert Savings(form, moves)[0] == call && Savings(form, moves)[1..] == Savings(form, rest);
      hide Fillable, Step, Stored, Legal, Merge, Offered, SaveAccepted;
      assert Run(s, Savings(form, moves)) == Run(Step(s, call), Savings(form, rest));
      hide Savings;
      MoveAccepted(s, form, moves[0]);
      MoveSaves(s, form, moves[0]);
      MovesReach(Step(s, call), form, rest);
    }
  }

  lemma PathOffered(form: Form, b: Answers)
    requires forall c | c in b :: (c, b[c]) in form.options
    ensures forall i | 0 <= i < |Path(b)| :: Offered(form, Path(b)[i])
  {
    SettingOffered(form, b, 0);
    hide Setting;
  }

  lemma {:induction false} SettingOffered(form: Form, b: Answers, from: nat)
    requires from <= 9 && forall c | c in b :: (c, b[c]) in form.options
    ensures forall i | 0 <= i < |Setting(b, from)| :: Offered(form, Setting(b, from)[i])
    decreases 9 - from
  {
    if from < 9 {
      SettingOffered(form, b, from + 1);
    }
  }

  /** The stored set is legal and so is `b`, whose answers have option rows: saves of one question each, all accepted, lead there. */
  lemma StoredSetsAreConnected(s: State, form: Form, b: Answers)
    requires Fillable(s, form) && Tm2IgnoresTm3(form.spec) && OnlyAsked(b)
    requires Legal(form.spec, form.isProduct, Stored(s, form)) && Legal(form.spec, form.isProduct, b)
    requires forall c | c in b :: (c, b[c]) in form.options
    ensures AllSaved(s, Savings(form, Path(b))) && Stored(Run(s, Savings(form, Path(b))), form) == b
  {
    assert OnlyAsked(Stored(s, form));
    hide Fillable, Stored, Legal, Offered, Path, AllSaved, Run;
    LegalSetsAreConnected(form.spec, form.isProduct, Stored(s, form), b);
    PathOffered(form, b);
    MovesReach(s, form, Path(b));
  }
}
