/**
 Which requests are accepted: for each endpoint one condition on what is stored and on the request,
 without the checks that decide it; and every refusal has the cause it names.
 */
module LedgerAccepts {
  import opened Wrappers
  import opened Cascades
  import opened DependencyGraph
  import opened Ledger
  import opened LedgerSteps
  import opened LedgerCurrent
  import opened LedgerOrphans

  ghost predicate OpenTo(s: State, scope: set<Id>, p: Id) {
    p in s.pursuits && p in scope && s.pursuits[p].outcome.None?
  }

  // ----- PATCH -----

  ghost predicate NotAfter(a: Option<int>, b: Option<int>) {
    a.Some? && b.Some? ==> a.value <= b.value
  }

  lemma FourInOrder(a: Option<int>, b: Option<int>, c: Option<int>, d: Option<int>)
    ensures InOrder([a, b, c, d]) <==>
            NotAfter(a, b) && NotAfter(a, c) && NotAfter(a, d) && NotAfter(b, c) && NotAfter(b, d) && NotAfter(c, d)
  {
    var dates := [a, b, c, d];
    assert dates[0] == a && dates[1] == b && dates[2] == c && dates[3] == d;
  }

  ghost predicate TurnedOn(pu: Pursuit, req: Patch) {
    if req.sole.Unset? then pu.soleSource else req.sole.value == Some(true)
  }

  ghost predicate OneBidderAtMost(pu: Pursuit, req: Patch) {
    if req.bidders.Unset? then pu.bidders.None? || pu.bidders.value == 1 else req.bidders.value.None? || req.bidders.value.value == 1
  }

  ghost predicate DatesOrdered(pu: Pursuit, req: Patch) {
    var due := if req.due.Unset? then pu.due else req.due.value;
    var award := if req.award.Unset? then pu.award else req.award.value;
    var end := if req.end.Unset? then pu.end else req.end.value;
    && NotAfter(pu.bpStart, due) && NotAfter(pu.bpStart, award) && NotAfter(pu.bpStart, end)
    && NotAfter(due, award) && NotAfter(due, end) && NotAfter(award, end)
  }

  ghost predicate CodesResolve(req: Patch) {
    && (req.stage.Put? && req.stage.value.Some? ==> req.stage.value.value.Known?)
    && (req.isProduct.Put? && req.isProduct.value.Some? ==> req.isProduct.value.value.Known?)
  }

  /** Some field is mentioned, the record that results keeps the rules, the codes resolve, and the flag is not null. */
  ghost predicate RecordAllowed(pu: Pursuit, req: Patch) {
    && (req.bid.Put? || req.bidders.Put? || req.sole.Put? || req.due.Put? || req.award.Put? || req.end.Put? ||
        req.stage.Put? || req.isProduct.Put? || req.dependsOn.Put?)
    && (TurnedOn(pu, req) ==> OneBidderAtMost(pu, req)) && DatesOrdered(pu, req) && CodesResolve(req)
    && req.sole != Put(None)
  }

  lemma RecordAllowedExactly(s: State, scope: set<Id>, p: Id, req: Patch, pick: nat)
    requires OpenTo(s, scope, p)
    ensures RecordAllowed(s.pursuits[p], req) <==>
            var pu := s.pursuits[p];
            && req != Patch(Unset, Unset, Unset, Unset, Unset, Unset, Unset, Unset, Unset)
            && !(MergedSole(pu, req) && MergedBidders(pu, req).GetOr(1) != 1) && InOrder(MergedDates(pu, req))
            && !Unresolvable(req.isProduct) && !Unresolvable(req.stage) && req.sole != Put(None)
  {
    var pu := s.pursuits[p];
    var dates := MergedDates(pu, req);
    FourInOrder(dates[0], dates[1], dates[2], dates[3]);
    hide InOrder, NotAfter;
  }

  /** A PATCH that sets no dependency is accepted exactly on an open visible pursuit whose record may become that. */
  lemma PatchAcceptedExactly(s: State, scope: set<Id>, p: Id, req: Patch, engines: Engines)
    requires req.dependsOn.Unset? || req.dependsOn.value.None?
    ensures PatchEndpoint(s, scope, p, req, engines).Ok? <==> OpenTo(s, scope, p) && RecordAllowed(s.pursuits[p], req)
  {
    PatchOk(s, scope, p, req, engines);
    if OpenTo(s, scope, p) {
      RecordAllowedExactly(s, scope, p, req, engines.lpta);
    }
    hide InOrder, MergedSole, MergedBidders, MergedDates, Unresolvable, RecordAllowed, PatchEndpoint;
  }

  /**
   One that does is accepted exactly if, beyond that, sole source ends off, the BASE answers that are
   read do not say LPTA, and the target is another visible open pursuit whose first fifty on its
   chain, itself included, do not hold the source.
   */
  lemma LinkAcceptedExactly(s: State, scope: set<Id>, p: Id, req: Patch, engines: Engines, target: Id)
    requires req.dependsOn == Put(Some(target))
    ensures PatchEndpoint(s, scope, p, req, engines).Ok? <==>
            && OpenTo(s, scope, p) && RecordAllowed(s.pursuits[p], req)
            && (req.sole.Unset? ==> !s.pursuits[p].soleSource) && (req.sole.Put? ==> req.sole.value == Some(false))
            && (var answers := AnswersRead(s.rows, p, Base, engines.lpta);
                !(P2 in answers && answers[P2] == Choice("LPTA")))
            && OpenTo(s, scope, target) && target != p
            && forall n: nat | n < 50 :: Walk(DepsOf(s), target, n) != Some(p)
  {
    PatchOk(s, scope, p, req, engines);
    LinkFault(s, scope, p, target, engines.lpta);
    if OpenTo(s, scope, p) {
      RecordAllowedExactly(s, scope, p, req, engines.lpta);
    }
    if p in s.pursuits {
      SoleEndsOff(s, p, req);
    }
    hide InOrder, MergedSole, MergedBidders, MergedDates, Unresolvable, PatchEndpoint, DependencyFault, AnswersRead, Walk, DepsOf;
    hide RecordAllowed;
  }

  lemma SoleEndsOff(s: State, p: Id, req: Patch)
    requires p in s.pursuits
    ensures !MergedSole(s.pursuits[p], req) && req.sole != Put(None) <==>
            (req.sole.Unset? ==> !s.pursuits[p].soleSource) && (req.sole.Put? ==> req.sole.value == Some(false))
  {
    match req.sole
    case Unset =>
    case Put(None) =>
    case Put(Some(on)) => assert req.sole.value == Some(on);
  }

  lemma LinkFault(s: State, scope: set<Id>, p: Id, target: Id, pick: nat)
    ensures DependencyFault(s, scope, p, target, pick).None? <==>
            && (var answers := AnswersRead(s.rows, p, Base, pick);
                !(P2 in answers && answers[P2] == Choice("LPTA")))
            && OpenTo(s, scope, target) && target != p
            && forall n: nat | n < 50 :: Walk(DepsOf(s), target, n) != Some(p)
  {
    NotCaught(DepsOf(s), target, p);
    LptaMeans(AnswersRead(s.rows, p, Base, pick));
    hide AnswersRead, Walk, DepsOf, CappedHit, IsLpta;
  }

  lemma NotCaught(deps: Deps, target: Id, source: Id)
    ensures CappedHit(deps, target, source, 1, MAX_DEPTH) <==> !forall n: nat | n < 50 :: Walk(deps, target, n) != Some(source)
  {
    CappedHitIsWalk(deps, target, source, 1, 50);
    hide Walk, CappedHit;
    if ReachesWithin(deps, target, source, 49) {
      var n: nat :| n <= 49 && Walk(deps, target, n) == Some(source);
      assert n < 50 && Walk(deps, target, n) == Some(source);
    } else {
      forall n: nat | n < 50
        ensures Walk(deps, target, n) != Some(source)
      {
        assert n <= 49;
      }
    }
  }

  lemma LptaMeans(answers: map<Code, Value>)
    ensures IsLpta(answers) <==> P2 in answers && answers[P2] == Choice("LPTA")
  {
  }

  // ----- Bid decision, outcome, recalculation -----

  lemma BidAcceptedExactly(s: State, scope: set<Id>, p: Id, bid: bool)
    ensures BidEndpoint(s, scope, p, bid).Ok? <==> p in s.pursuits && p in scope && s.pursuits[p].outcome.None?
  {
  }

  /** An outcome may be set, changed or taken back on any visible pursuit; a won or lost one must be a bid. */
  lemma OutcomeAcceptedExactly(s: State, scope: set<Id>, p: Id, outcome: Option<Outcome>, alsoSetBid: bool)
    ensures OutcomeEndpoint(s, scope, p, outcome, alsoSetBid).Ok? <==>
            && p in s.pursuits && p in scope && outcome != Some(NoBidMade)
            && (outcome == Some(Won) || outcome == Some(Lost) ==> s.pursuits[p].bid == Some(Bid) || alsoSetBid)
  {
    hide Cleared, Dependents;
  }

  lemma RecalculationAcceptedExactly(s: State, scope: set<Id>, p: Id, sc: Scenario, engine: Engine)
    ensures RecalculateEndpoint(s, scope, p, sc, engine).Ok? <==>
            && OpenTo(s, scope, p) && !s.pursuits[p].soleSource
            && (sc == DependentWon ==> s.pursuits[p].dependsOn.Some?)
            && (s.pursuits[p].stage.Some? ==> s.pursuits[p].stage.value == PreBh)
            && (var answers := AnswersRead(s.rows, p, sc, engine.pick); P1 in answers && answers[P1].Choice?)
            && engine.Solves?
  {
    RecalculatesExactly(s, p, sc, engine);
    hide Recalculated, AnswersRead;
  }

  // ----- Saves -----

  /** The labels that a save leaves: those it sets, and the stored ones it does not mention. */
  ghost predicate ResultsIn(stored: map<Code, Value>, changes: Changes, answers: Answers) {
    forall c: Code ::
      Lookup(answers, c) ==
      if c in changes then changes[c] else if c in stored && stored[c].Choice? then Some(stored[c].answer) else None
  }

  lemma ResultIsMerge(stored: map<Code, Value>, changes: Changes, answers: Answers)
    ensures ResultsIn(stored, changes, answers) <==> answers == Merge(Labels(stored), changes)
  {
    var merged := Merge(Labels(stored), changes);
    assert ResultsIn(stored, changes, merged);
    if ResultsIn(stored, changes, answers) {
      forall c: Code
        ensures Same(answers, merged, c)
      {
        assert Lookup(merged, c) == Lookup(answers, c);
      }
      SameEverywhere(answers, merged);
    }
  }

  /**
   A save is accepted exactly on an open visible pursuit that has the scenario, for questions that
   may be saved, when the set that results is legal, each answer is an active option, and none takes
   the place of a number or a boolean.
   */
  lemma SaveAcceptedExactly(s: State, scope: set<Id>, p: Id, sc: Scenario, changes: Changes, spec: Option<Spec>,
                            options: OptionTable, pick: nat)
    ensures AnswersEndpoint(s, scope, p, sc, changes, spec, options, pick).Ok? <==>
            && OpenTo(s, scope, p) && (sc == DependentWon ==> s.pursuits[p].dependsOn.Some?)
            && changes.Keys != {} && (forall c | c in changes :: Asked(c))
            && (var stored := AnswersRead(s.rows, p, sc, pick);
                && spec.Some?
                && (exists answers: Answers ::
                      ResultsIn(stored, changes, answers) && Legal(spec.value, s.pursuits[p].isProduct, answers))
                && forall c | c in changes && changes[c].Some? ::
                     (c, changes[c].value) in options && (c in stored ==> stored[c].Choice?))
  {
    var stored := AnswersRead(s.rows, p, sc, pick);
    KeysAsked(changes);
    if p in s.pursuits && spec.Some? {
      LegalResult(spec.value, s.pursuits[p].isProduct, stored, changes);
    }
    SaveOk(s, scope, p, sc, changes, spec, options, pick);
    hide AnswersEndpoint, AnswersRead, Legal, Merge, Labels, FirstFault, ResultsIn, Asked;
  }

  lemma KeysAsked(changes: Changes)
    ensures changes.Keys == {} <==> changes == map[]
    ensures (forall c | c in changes :: Asked(c)) <==> InvestPct !in changes
  {
  }

  /** The check passes exactly when the labels that result are legal. */
  lemma LegalResult(spec: Spec, isProduct: bool, stored: map<Code, Value>, changes: Changes)
    ensures FirstFault(spec, isProduct, Merge(Labels(stored), changes), 0).None? <==>
            exists answers: Answers :: ResultsIn(stored, changes, answers) && Legal(spec, isProduct, answers)
  {
    PassesExactly(spec, isProduct, Merge(Labels(stored), changes));
    ResultIsMerge(stored, changes, Merge(Labels(stored), changes));
    forall answers: Answers | ResultsIn(stored, changes, answers)
      ensures answers == Merge(Labels(stored), changes)
    {
      ResultIsMerge(stored, changes, answers);
    }
    hide Legal, Merge, Labels, FirstFault, ResultsIn;
  }

  lemma SaveOk(s: State, scope: set<Id>, p: Id, sc: Scenario, changes: Changes, spec: Option<Spec>, options: OptionTable, pick: nat)
    ensures AnswersEndpoint(s, scope, p, sc, changes, spec, options, pick).Ok? <==>
            AnswersFault(s, scope, p, sc, changes, spec, options, pick).None?
  {
    hide AnswersFault, Saved;
  }

  lemma PassesExactly(spec: Spec, isProduct: bool, answers: Answers)
    ensures FirstFault(spec, isProduct, answers, 0).None? <==> Legal(spec, isProduct, answers)
  {
    forall c: Code
      ensures Asked(c) <==> c in ASKED
    {
      AskedIsChecked(c);
    }
    hide LegalAt;
    if forall i | 0 <= i < |ASKED| :: LegalAt(spec, ASKED[i], isProduct, answers) {
      forall c: Code | Asked(c)
        ensures LegalAt(spec, c, isProduct, answers)
      {
        var i :| 0 <= i < |ASKED| && ASKED[i] == c;
      }
    }
    assert forall i | 0 <= i < |ASKED| :: ASKED[i] in ASKED;
  }

  // ----- Black Hat and PTW -----

  /** A submission is accepted exactly on an open visible pursuit that has the scenario and a questionnaire row, with sound figures. */
  lemma SubmissionAcceptedExactly(s: State, scope: set<Id>, p: Id, sc: Scenario, form: Submission, base: Prob,
                                  completed: Option<int>)
    ensures SubmitEndpoint(s, scope, p, sc, form, base, completed).Ok? <==>
            && OpenTo(s, scope, p) && (sc == DependentWon ==> s.pursuits[p].dependsOn.Some?)
            && (exists i :: 0 <= i < |s.rows| && s.rows[i].pursuit == p && s.rows[i].kind == Questionnaire)
            && NotAfter(s.pursuits[p].bpStart, completed)
            && (form.BlackHatForm? ==> form.pricing.Some? && 0.0 <= form.pricing.value <= 1.0)
  {
    SubmitOk(s, scope, p, sc, form, base, completed);
    hide SubmitEndpoint;
  }

  // ----- Every refusal has the cause it names -----

  ghost predicate Visible(s: State, scope: set<Id>, p: Id) {
    p in s.pursuits && p in scope
  }

  ghost predicate PatchCause(s: State, scope: set<Id>, p: Id, req: Patch, pick: nat, error: Error) {
    var link := req.dependsOn.Put? && req.dependsOn.value.Some?;
    match error
    case NoWritableFields => req == Patch(Unset, Unset, Unset, Unset, Unset, Unset, Unset, Unset, Unset)
    case NotFound => !Visible(s, scope, p)
    case Closed => Visible(s, scope, p) && s.pursuits[p].outcome.Some?
    case OneBidder => OpenTo(s, scope, p) && TurnedOn(s.pursuits[p], req) && !OneBidderAtMost(s.pursuits[p], req)
    case DatesOutOfOrder => OpenTo(s, scope, p) && !DatesOrdered(s.pursuits[p], req)
    case UnknownCode => !CodesResolve(req)
    case SoleSourceDependency => OpenTo(s, scope, p) && link && TurnedOn(s.pursuits[p], req)
    case LptaDependency =>
      link && var answers := AnswersRead(s.rows, p, Base, pick); P2 in answers && answers[P2] == Choice("LPTA")
    case TargetNotFound => link && !OpenTo(s, scope, req.dependsOn.value.value)
    case SelfDependency => link && req.dependsOn.value.value == p
    case DependencyCycle => link && exists n: nat :: n < 50 && Walk(DepsOf(s), req.dependsOn.value.value, n) == Some(p)
    case ConstraintViolated => req.sole == Put(None)
    case _ => false
  }

  lemma PatchRefusalIsTrue(s: State, scope: set<Id>, p: Id, req: Patch, engines: Engines)
    ensures var r := PatchEndpoint(s, scope, p, req, engines);
            r.Err? ==> PatchCause(s, scope, p, req, engines.lpta, r.error)
  {
    PatchFaultReturned(s, scope, p, req, engines);
    hide PatchEndpoint, AnswersRead, Walk, DepsOf, InOrder, CappedHit;
    if p in s.pursuits {
      var dates := MergedDates(s.pursuits[p], req);
      FourInOrder(dates[0], dates[1], dates[2], dates[3]);
    }
    if req.dependsOn.Put? && req.dependsOn.value.Some? {
      NotCaught(DepsOf(s), req.dependsOn.value.value, p);
    }
    hide NotAfter;
  }

  lemma PatchFaultReturned(s: State, scope: set<Id>, p: Id, req: Patch, engines: Engines)
    ensures var r := PatchEndpoint(s, scope, p, req, engines);
            r.Err? ==> PatchFault(s, scope, p, req, engines.lpta) == Some(r.error)
  {
    hide PatchFault, Patched;
  }

  /** The two decisions on a pursuit: whether to bid, and how it ended. */
  lemma DecisionRefusalIsTrue(s: State, scope: set<Id>, p: Id, bid: bool, outcome: Option<Outcome>, alsoSetBid: bool)
    ensures var r := BidEndpoint(s, scope, p, bid);
            r.Err? ==>
              if r.error == Closed then Visible(s, scope, p) && s.pursuits[p].outcome.Some?
              else r.error == NotFound && !Visible(s, scope, p)
    ensures var r := OutcomeEndpoint(s, scope, p, outcome, alsoSetBid);
            r.Err? ==>
              match r.error
              case BadRequest => outcome == Some(NoBidMade)
              case NotFound => !Visible(s, scope, p)
              case BidRequired =>
                && Visible(s, scope, p) && (outcome == Some(Won) || outcome == Some(Lost))
                && s.pursuits[p].bid != Some(Bid) && !alsoSetBid
              case _ => false
  {
    hide Cleared, Dependents;
  }

  lemma RecalculationRefusalIsTrue(s: State, scope: set<Id>, p: Id, sc: Scenario, engine: Engine)
    ensures var r := RecalculateEndpoint(s, scope, p, sc, engine);
            var answers := AnswersRead(s.rows, p, sc, engine.pick);
            r.Err? ==>
              match r.error
              case NotFound => !Visible(s, scope, p)
              case Closed => Visible(s, scope, p) && s.pursuits[p].outcome.Some?
              case SoleSourceRule => OpenTo(s, scope, p) && s.pursuits[p].soleSource
              case NoDependentWon => OpenTo(s, scope, p) && sc == DependentWon && s.pursuits[p].dependsOn.None?
              case PastPreBh => OpenTo(s, scope, p) && s.pursuits[p].stage.Some? && s.pursuits[p].stage.value != PreBh
              case NoAnswers => answers == map[]
              case NoPriceAnswer => answers != map[] && !(P1 in answers && answers[P1].Choice?)
              case EngineFailed => engine.Fails?
              case _ => false
  {
    hide AnswersRead, BlendIfDependent, Superseded;
  }

  lemma SaveRefusalIsTrue(s: State, scope: set<Id>, p: Id, sc: Scenario, changes: Changes, spec: Option<Spec>,
                          options: OptionTable, pick: nat)
    ensures var r := AnswersEndpoint(s, scope, p, sc, changes, spec, options, pick);
            var stored := AnswersRead(s.rows, p, sc, pick);
            r.Err? ==>
              match r.error
              case BadRequest => changes == map[] || InvestPct in changes
              case NotFound => !Visible(s, scope, p)
              case Closed => Visible(s, scope, p) && s.pursuits[p].outcome.Some?
              case NoDependentWon => OpenTo(s, scope, p) && sc == DependentWon && s.pursuits[p].dependsOn.None?
              case SpecUnavailable => spec.None?
              case Faulty(fault) =>
                OpenTo(s, scope, p) && spec.Some? && var answers := Merge(Labels(stored), changes);
                fault.code in answers && !LegalAt(spec.value, fault.code, s.pursuits[p].isProduct, answers)
              case UnknownAnswer => exists c | c in changes :: changes[c].Some? && (c, changes[c].value) !in options
              case ConstraintViolated => exists c | c in changes && c in stored :: changes[c].Some? && !stored[c].Choice?
              case _ => false
  {
    hide AnswersRead, Merge, Labels, LegalAt, Saved;
  }

  lemma SubmissionRefusalIsTrue(s: State, scope: set<Id>, p: Id, sc: Scenario, form: Submission, base: Prob, completed: Option<int>)
    ensures var r := SubmitEndpoint(s, scope, p, sc, form, base, completed);
            r.Err? ==>
              match r.error
              case NotFound => !Visible(s, scope, p)
              case Closed => Visible(s, scope, p) && s.pursuits[p].outcome.Some?
              case NoDependentWon => OpenTo(s, scope, p) && sc == DependentWon && s.pursuits[p].dependsOn.None?
              case QuestionnaireFirst =>
                forall i | 0 <= i < |s.rows| && s.rows[i].pursuit == p :: s.rows[i].kind != Questionnaire
              case CompletedTooEarly => OpenTo(s, scope, p) && !NotAfter(s.pursuits[p].bpStart, completed)
              case BadPricing => form.BlackHatForm? && (form.pricing.Some? ==> !(0.0 <= form.pricing.value <= 1.0))
              case _ => false
  {
    hide Recorded;
  }
}
