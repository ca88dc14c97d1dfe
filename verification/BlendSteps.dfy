/**
 Requests and the blend fixpoint. A recalculation or a submission leaves its own pursuit settled;
 nothing is pushed to the pursuits that depend on it, and here is exactly which of those stop
 showing their recursive value.
 */
module BlendSteps {
  import opened Wrappers
  import opened Cascades
  import opened DependencyGraph
  import opened Ledger
  import opened LedgerInvariant
  import opened LedgerSteps
  import opened LedgerRuns
  import opened LedgerCurrent
  import opened LedgerExample
  import opened LedgerOrphans
  import opened BlendForest

  // ----- Values under a change elsewhere -----

  /** The standalone Pwin that a blend of `q` starts from. */
  function BlendBase(s: State, q: Id): Option<real> {
    match CardOf(s, q).base
    case None => None
    case Some(r) => r.basePwin
  }

  /** `q` is blended, and its two scenarios differ, so that the weight of its predecessor matters. */
  predicate Sensitive(s: State, q: Id) {
    Dependent(s, q) && BlendBase(s, q).Some? && PwinOf(CardOf(s, q).dep).GetOr(BlendBase(s, q).value) != BlendBase(s, q).value
  }

  predicate IsOpen(s: State, q: Id) {
    q in s.pursuits ==> s.pursuits[q].outcome.None?
  }

  /** The first pursuit of `touched` up the chain of `q`, as far as every link on the way passes a change on. */
  ghost function Feeds(s: State, touched: set<Id>, q: Id): Option<Id>
    requires AllGrounded(DepsOf(s))
    decreases Height(DepsOf(s), q)
  {
    if !Sensitive(s, q) then None
    else
      var pred := s.pursuits[q].dependsOn.value;
      PredecessorIsLower(DepsOf(s), q);
      if pred in touched then Some(pred) else if IsOpen(s, pred) then Feeds(s, touched, pred) else None
  }

  /** How much a pursuit counts in the recursive value of those that depend on it. */
  ghost function Weight(s: State, p: Id): real
    requires AllGrounded(DepsOf(s))
  {
    FactorFrom(s, p, ChainPwin(s, p))
  }

  /** For a settled pursuit that is its decided outcome, or the Pwin on its current BASE row. */
  lemma WeightIsLive(s: State, p: Id)
    requires AllGrounded(DepsOf(s)) && Settled(s, p)
    ensures Weight(s, p) == BlendFactor(s, p)
  {
  }

  lemma ValueIs(s: State, q: Id)
    requires AllGrounded(DepsOf(s))
    ensures ChainPwin(s, q) ==
            if Dependent(s, q) && BlendBase(s, q).Some?
            then var base := BlendBase(s, q).value;
                 Some(BlendValue(base, PwinOf(CardOf(s, q).dep).GetOr(base), Weight(s, s.pursuits[q].dependsOn.value)))
            else PwinOf(CardOf(s, q).base)
  {
  }

  lemma BlendsDiffer(base: real, depWin: real, f: real, g: real)
    ensures BlendValue(base, depWin, f) != BlendValue(base, depWin, g) <==> depWin != base && f != g
  {
    assert BlendValue(base, depWin, f) - BlendValue(base, depWin, g) == (depWin - base) * (f - g);
    NoZeroDivisor(depWin - base, f - g);
  }

  lemma NoZeroDivisor(x: real, y: real)
    ensures x * y == 0.0 <==> x == 0.0 || y == 0.0
  {
    if x != 0.0 && y != 0.0 {
      assert x * y / y == x;
    }
  }

  lemma SameRecord(s: State, after: State, touched: set<Id>, q: Id)
    requires Advances(s, after, touched) && q !in touched
    ensures q in after.pursuits <==> q in s.pursuits
    ensures q in s.pursuits ==> after.pursuits[q] == s.pursuits[q]
    ensures CardOf(after, q) == CardOf(s, q)
  {
    CardUntouched(s, after, touched, q);
  }

  /** An untouched pursuit changes its value exactly when the first touched one that feeds it changes its weight. */
  lemma {:induction false} ValueMoves(s: State, after: State, touched: set<Id>, q: Id)
    requires AllGrounded(DepsOf(s)) && AllGrounded(DepsOf(after)) && Advances(s, after, touched) && q !in touched
    ensures ChainPwin(after, q) != ChainPwin(s, q) <==>
            Feeds(s, touched, q).Some? &&
            Weight(after, Feeds(s, touched, q).value) != Weight(s, Feeds(s, touched, q).value)
    ensures ChainPwin(after, q).Some? <==> ChainPwin(s, q).Some?
    decreases Height(DepsOf(s), q)
  {
    SameRecord(s, after, touched, q);
    ValueIs(s, q);
    ValueIs(after, q);
    hide CardOf, ChainPwin, AllGrounded, Height, BlendValue, Advances;
    if Dependent(s, q) && BlendBase(s, q).Some? {
      var pred := s.pursuits[q].dependsOn.value;
      var base := BlendBase(s, q).value;
      var depWin := PwinOf(CardOf(s, q).dep).GetOr(base);
      PredecessorIsLower(DepsOf(s), q);
      BlendsDiffer(base, depWin, Weight(after, pred), Weight(s, pred));
      if pred !in touched {
        ValueMoves(s, after, touched, pred);
        SameRecord(s, after, touched, pred);
      }
    }
  }

  /** A change that feeds a pursuit comes down its own chain. */
  lemma {:induction false} FeedsWalks(s: State, touched: set<Id>, q: Id) returns (n: nat)
    requires AllGrounded(DepsOf(s)) && Feeds(s, touched, q).Some?
    ensures n > 0 && Walk(DepsOf(s), q, n) == Feeds(s, touched, q) && Feeds(s, touched, q).value in touched
    decreases Height(DepsOf(s), q)
  {
    var pred := s.pursuits[q].dependsOn.value;
    PredecessorIsLower(DepsOf(s), q);
    if pred in touched {
      n := 1;
      assert Walk(DepsOf(s), pred, 0) == Some(pred);
    } else {
      var m := FeedsWalks(s, touched, pred);
      n := m + 1;
    }
  }

  // ----- Settled -----

  lemma SettledIs(s: State, q: Id)
    requires AllGrounded(DepsOf(s))
    ensures Settled(s, q) <==>
            && PwinOf(CardOf(s, q).base) == ChainPwin(s, q)
            && (Dependent(s, q) && BlendBase(s, q).Some? ==> CardOf(s, q).base.value.blended == ChainPwin(s, q))
  {
    var found := FindCurrent(s.rows, q, Base);
    if found.Some? {
      assert BlendTarget(s, found.value) <==> Dependent(s, q) && BlendBase(s, q).Some?;
    }
  }

  /** A settled pursuit that a change does not touch stays settled exactly when its value does not move. */
  lemma StaysSettled(s: State, after: State, touched: set<Id>, q: Id)
    requires AllGrounded(DepsOf(s)) && AllGrounded(DepsOf(after)) && Advances(s, after, touched) && q !in touched
    requires Settled(s, q)
    ensures Settled(after, q) <==>
            !(Feeds(s, touched, q).Some? &&
              Weight(after, Feeds(s, touched, q).value) != Weight(s, Feeds(s, touched, q).value))
  {
    ValueMoves(s, after, touched, q);
    SameRecord(s, after, touched, q);
    SettledIs(s, q);
    SettledIs(after, q);
    hide CardOf, ChainPwin, AllGrounded, Weight, Feeds, Settled, Advances;
  }

  // ----- Weights after a request, from the state before it -----

  predicate OutcomeAccepted(s: State, call: Call) {
    && call.request.OutcomeRequest? && call.p in s.pursuits && call.p in call.scope
    && var OutcomeRequest(outcome, alsoSetBid) := call.request;
       outcome != Some(NoBidMade) && (Decided(outcome) ==> s.pursuits[call.p].bid == Some(Bid) || alsoSetBid)
  }

  /** Whom the pursuit called on depends on afterwards. */
  function DepAfter(s: State, call: Call): Option<Id>
    requires call.p in s.pursuits
  {
    var pu := s.pursuits[call.p];
    match call.request
    case PatchRequest(req, _) => if PatchAccepted(s, call) then PatchedPursuit(pu, req).dependsOn else pu.dependsOn
    case AnswersRequest(_, _, _, _, _) => if SaveAccepted(s, call) && SavesLpta(s, call) then None else pu.dependsOn
    case _ => pu.dependsOn
  }

  /** What it shows afterwards, up to the answers. */
  function CardAfter(s: State, call: Call): Card
    requires call.p in s.pursuits
  {
    var p, card := call.p, CardOf(s, call.p);
    match call.request
    case PatchRequest(req, engines) => if PatchAccepted(s, call) then CardPatched(s, p, req, engines) else card
    case RecalculateRequest(sc, engine) =>
      if MayRecalculate(s, call.scope, p, sc, engine) then CardRecalculated(s, p, card, sc, engine) else card
    case SubmitRequest(sc, form, base, completed) =>
      if SubmitFault(s, call.scope, p, sc, form, completed).None?
      then BlendedIf(Renewed(card, SubmittedRow(s, p, sc, KindOf(form), base)), FactorOf(s, p)) else card
    case _ => card
  }

  function OwnBase(card: Card): Option<real> {
    match card.base
    case None => None
    case Some(r) => r.basePwin
  }

  /** The recursive value of a card: its standalone Pwin blended with the weight of the predecessor, or else the Pwin it shows. */
  function CardValue(card: Card, weight: Option<real>): Option<real> {
    if weight.Some? && OwnBase(card).Some?
    then Some(BlendValue(OwnBase(card).value, PwinOf(card.dep).GetOr(OwnBase(card).value), weight.value))
    else PwinOf(card.base)
  }

  ghost function ValueAfter(s: State, call: Call): Option<real>
    requires AllGrounded(DepsOf(s)) && call.p in s.pursuits
  {
    CardValue(CardAfter(s, call), match DepAfter(s, call) case None => None case Some(pred) => Some(Weight(s, pred)))
  }

  /**
   How much a touched pursuit counts after the request: by the outcome asked for; else by what it
   then shows, blended with its predecessor's weight as it is; a released dependent by its own Pwin.
   */
  ghost function WeightAfter(s: State, call: Call, x: Id): real
    requires AllGrounded(DepsOf(s)) && x in s.pursuits
  {
    if x != call.p then FactorFrom(s, x, if CancelsAccepted(s, call, x) then BlendBase(s, x) else ChainPwin(s, x))
    else if !OutcomeAccepted(s, call) then FactorFrom(s, x, ValueAfter(s, call))
    else match call.request.outcome
      case Some(Won) => 1.0
      case Some(_) => 0.0
      case None => ChainPwin(s, x).GetOr(0.0)
  }

  function BlendOf(card: Card): Option<real> {
    match card.base
    case None => None
    case Some(r) => r.blended
  }

  /** The standalone, the shown and the DEPENDENT_WON Pwin, on which a value depends, and the stored blend. */
  predicate SamePwins(card: Card, after: Card) {
    && OwnBase(after) == OwnBase(card) && PwinOf(after.base) == PwinOf(card.base) && PwinOf(after.dep) == PwinOf(card.dep)
    && BlendOf(after) == BlendOf(card)
  }

  lemma ValueIsCard(s: State, q: Id)
    requires AllGrounded(DepsOf(s))
    ensures ChainPwin(s, q) ==
            CardValue(CardOf(s, q), if Dependent(s, q) then Some(Weight(s, s.pursuits[q].dependsOn.value)) else None)
  {
    ValueIs(s, q);
    hide CardOf, ChainPwin, Weight, AllGrounded, BlendValue;
  }

  // ----- The called pursuit: its record and its card -----

  lemma RecordAfter(s: State, call: Call)
    requires Inv(s) && call.p in s.pursuits && !call.request.OutcomeRequest?
    ensures var after := Step(s, call);
            && call.p in after.pursuits && after.pursuits[call.p].dependsOn == DepAfter(s, call)
            && after.pursuits[call.p].outcome == s.pursuits[call.p].outcome
  {
    hide Inv;
    match call.request
    case PatchRequest(req, engines) =>
      if PatchAccepted(s, call) {
        AcceptedPatch(s, call);
        PatchOk(s, call.scope, call.p, req, engines);
        PatchStep(s, call.scope, call.p, req, engines);
        PatchKeepsOutcome(s.pursuits[call.p], req);
      } else {
        PatchRefused(s, call);
      }
      hide Step, PatchEndpoint, PatchFault, PatchedPursuit, Advances, KeepsAnswers, ReadsFrom;
    case BidRequest(_) =>
    case AnswersRequest(sc, changes, _, _, pick) =>
      if SaveAccepted(s, call) {
        SavedRecord(s, call.p, sc, changes, pick);
      }
      hide Saved, AnswersFault, Merge, Labels, AnswersRead;
    case RecalculateRequest(sc, engine) =>
      RecalculateStep(s, call.scope, call.p, sc, engine);
      hide RecalculateEndpoint, Advances, KeepsAnswers, ReadsFrom;
    case SubmitRequest(sc, form, base, completed) =>
      SubmitStep(s, call.scope, call.p, sc, form, base, completed);
      hide SubmitEndpoint, Advances, KeepsAnswers, ReadsFrom;
  }

  lemma PatchKeepsOutcome(pu: Pursuit, req: Patch)
    ensures PatchedPursuit(pu, req).outcome == pu.outcome
  {
  }

  lemma CardAfterIs(s: State, call: Call)
    requires Inv(s) && call.p in s.pursuits
    ensures SamePwins(CardAfter(s, call), CardOf(Step(s, call), call.p))
  {
    hide Inv, CardOf;
    match call.request
    case PatchRequest(req, engines) =>
      if PatchAccepted(s, call) {
        AcceptedPatch(s, call);
        CardOfPatch(s, call.scope, call.p, req, engines);
      } else {
        PatchRefused(s, call);
      }
      hide Step, PatchEndpoint, PatchFault, CardPatched;
    case AnswersRequest(sc, changes, _, _, pick) =>
      if SaveAccepted(s, call) {
        CardOfSave(s, call.p, sc, changes, pick);
      }
      hide Saved, AnswersFault;
    case RecalculateRequest(sc, engine) =>
      CardOfRecalculate(s, call.scope, call.p, sc, engine);
      hide RecalculateEndpoint, CardRecalculated, MayRecalculate;
    case SubmitRequest(sc, form, base, completed) =>
      SubmitOk(s, call.scope, call.p, sc, form, base, completed);
      CardOfSubmit(s, call.scope, call.p, sc, form, base, completed);
      hide SubmitEndpoint, SubmitFault, BlendedIf, FactorOf, Renewed;
    case _ =>
      OwnRequests(s, call);
      hide Step;
  }

  // ----- Its predecessor -----

  /** A change that feeds a pursuit still comes down the same links afterwards. */
  lemma {:induction false} FeedsWalksAfter(s: State, after: State, touched: set<Id>, q: Id) returns (n: nat)
    requires AllGrounded(DepsOf(s)) && Advances(s, after, touched) && q !in touched && Feeds(s, touched, q).Some?
    ensures n > 0 && Walk(DepsOf(after), q, n) == Feeds(s, touched, q) && Feeds(s, touched, q).value in touched
    decreases Height(DepsOf(s), q)
  {
    var pred := s.pursuits[q].dependsOn.value;
    PredecessorIsLower(DepsOf(s), q);
    SameRecord(s, after, touched, q);
    hide Advances, AllGrounded, Height;
    if pred in touched {
      n := 1;
      assert Walk(DepsOf(after), pred, 0) == Some(pred);
    } else {
      var m := FeedsWalksAfter(s, after, touched, pred);
      n := m + 1;
    }
  }

  /** Whom the called pursuit depends on afterwards keeps its weight, for on a forest it is not fed by it. */
  lemma PredecessorKeepsWeight(s: State, after: State, p: Id)
    requires AllGrounded(DepsOf(s)) && AllGrounded(DepsOf(after)) && Advances(s, after, {p}) && Dependent(after, p)
    ensures var pred := after.pursuits[p].dependsOn.value;
            pred != p && Weight(after, pred) == Weight(s, pred)
  {
    var pred := after.pursuits[p].dependsOn.value;
    NotFedAfter(s, after, p);
    hide Feeds, Height, AllGrounded, ChainPwin;
    ValueMoves(s, after, {p}, pred);
    SameRecord(s, after, {p}, pred);
  }

  lemma NotFedAfter(s: State, after: State, p: Id)
    requires AllGrounded(DepsOf(s)) && AllGrounded(DepsOf(after)) && Advances(s, after, {p}) && Dependent(after, p)
    ensures var pred := after.pursuits[p].dependsOn.value;
            pred != p && Feeds(s, {p}, pred).None?
  {
    var pred := after.pursuits[p].dependsOn.value;
    assert Walk(DepsOf(after), p, 1) == Some(pred) by {
      assert Walk(DepsOf(after), pred, 0) == Some(pred);
    }
    hide Feeds, Height, AllGrounded, Advances;
    if Feeds(s, {p}, pred).Some? && pred != p {
      var n := FeedsWalksAfter(s, after, {p}, pred);
      assert Walk(DepsOf(after), p, n + 1) == Some(p);
      assert Cyclic(DepsOf(after));
    }
    if pred == p {
      assert Cyclic(DepsOf(after));
    }
    GroundedHasNoCycle(DepsOf(after));
  }

  // ----- The weight after any request -----

  lemma OwnValueAfter(s: State, call: Call)
    requires Inv(s) && call.p in s.pursuits && !call.request.OutcomeRequest?
    requires AllGrounded(DepsOf(s)) && AllGrounded(DepsOf(Step(s, call)))
    ensures ChainPwin(Step(s, call), call.p) == ValueAfter(s, call)
    ensures Weight(Step(s, call), call.p) == FactorFrom(s, call.p, ValueAfter(s, call))
  {
    var after := Step(s, call);
    RecordAfter(s, call);
    CardAfterIs(s, call);
    StepIsLawful(s, call);
    hide Step, DepAfter, CardAfter, CardOf, Inv, AllGrounded, ChainPwin, BlendValue, Touched, Weight;
    if Dependent(after, call.p) {
      PredecessorKeepsWeight(s, after, call.p);
    }
    hide Advances, BlendValue;
    ValueIsCard(after, call.p);
  }

  lemma OwnOutcomeWeight(s: State, call: Call)
    requires Inv(s) && call.p in s.pursuits && call.request.OutcomeRequest?
    requires AllGrounded(DepsOf(s)) && AllGrounded(DepsOf(Step(s, call)))
    ensures Weight(Step(s, call), call.p) == WeightAfter(s, call, call.p)
  {
    var after := Step(s, call);
    OutcomeRecord(s, call);
    if OutcomeAccepted(s, call) && call.request.outcome.None? {
      StepIsLawful(s, call);
      OwnRequests(s, call);
      hide Step, CardOf, Inv, AllGrounded, ChainPwin, Advances;
      if Dependent(after, call.p) {
        PredecessorKeepsWeight(s, after, call.p);
      }
      ValueIsCard(after, call.p);
      ValueIsCard(s, call.p);
    } else if !OutcomeAccepted(s, call) {
      hide Step, CardOf, Inv, AllGrounded, ChainPwin;
      ValueIsCard(s, call.p);
    }
    hide Step, CardOf, Inv, AllGrounded, ChainPwin;
  }

  lemma OutcomeRecord(s: State, call: Call)
    requires Inv(s) && call.p in s.pursuits && call.request.OutcomeRequest?
    ensures var after := Step(s, call);
            if OutcomeAccepted(s, call)
            then && call.p in after.pursuits && after.pursuits[call.p].outcome == call.request.outcome
                 && (call.request.outcome.None? ==> Touched(s, call) == {call.p})
            else after == s
  {
    assert DependencyRules(s, call.p);
    hide Cleared, Disciplined, PursuitRules;
  }

  lemma ReleasedWeight(s: State, call: Call, x: Id)
    requires Inv(s) && x in s.pursuits && x in Touched(s, call) && x != call.p
    requires AllGrounded(DepsOf(s)) && AllGrounded(DepsOf(Step(s, call)))
    ensures Weight(Step(s, call), x) == WeightAfter(s, call, x)
  {
    CancelledCard(s, call, x);
    TouchedExactly(s, call, x);
    hide Step, Touched, CardOf, Inv, AllGrounded, ChainPwin, CancelsAccepted;
    ValueIsCard(Step(s, call), x);
    NowOf(s, x);
  }

  lemma NowOf(s: State, x: Id)
    ensures CardOf(s, x).base.Some? ==> CurrentFor(CardOf(s, x).base.value, x, Base)
  {
  }

  /** The weight of a touched pursuit after any request is the one given from the state before. */
  lemma WeightAfterIs(s: State, call: Call, x: Id)
    requires Inv(s) && x in s.pursuits && x in Touched(s, call)
    requires AllGrounded(DepsOf(s)) && AllGrounded(DepsOf(Step(s, call)))
    ensures Weight(Step(s, call), x) == WeightAfter(s, call, x)
  {
    if x != call.p {
      ReleasedWeight(s, call, x);
    } else if call.request.OutcomeRequest? {
      OwnOutcomeWeight(s, call);
    } else {
      OwnValueAfter(s, call);
    }
    hide Step, Touched, Inv, AllGrounded, Weight, ValueAfter, ChainPwin;
  }

  /** A link that the capped walk lets through though the target's chain holds the source. */
  ghost predicate ClosesCycle(s: State, call: Call) {
    Links(s, call) && exists n: nat :: n >= 50 && Walk(DepsOf(s), LinkTarget(call), n) == Some(call.p)
  }

  lemma FeederIsKnown(s: State, touched: set<Id>, q: Id)
    requires Inv(s) && AllGrounded(DepsOf(s)) && Feeds(s, touched, q).Some?
    ensures Feeds(s, touched, q).value in s.pursuits && Feeds(s, touched, q).value in touched
    decreases Height(DepsOf(s), q)
  {
    var pred := s.pursuits[q].dependsOn.value;
    PredecessorIsLower(DepsOf(s), q);
    assert DependencyRules(s, q);
    hide Inv, AllGrounded, Height;
    if pred !in touched {
      FeederIsKnown(s, touched, pred);
    }
  }

  /**
   After a request, a settled pursuit that it does not touch stays settled exactly when the first
   touched pursuit that feeds it keeps its weight; both weights are known before the request.
   */
  lemma StepSettledExactly(s: State, call: Call, q: Id)
    requires Inv(s) && AllGrounded(DepsOf(s)) && !ClosesCycle(s, call)
    requires q !in Touched(s, call) && Settled(s, q)
    ensures AllGrounded(DepsOf(Step(s, call)))
    ensures var x := Feeds(s, Touched(s, call), q);
            && (x.Some? ==> x.value in s.pursuits && x.value in Touched(s, call))
            && (Settled(Step(s, call), q) <==> !(x.Some? && WeightAfter(s, call, x.value) != Weight(s, x.value)))
            && (x.Some? && Settled(s, x.value) ==> Weight(s, x.value) == BlendFactor(s, x.value))
  {
    StepForestExactly(s, call);
    StepIsLawful(s, call);
    hide Step, Touched, Inv, AllGrounded, ClosesCycle, Weight, WeightAfter, Settled, Advances, Feeds, BlendFactor;
    StaysSettled(s, Step(s, call), Touched(s, call), q);
    var x := Feeds(s, Touched(s, call), q);
    if x.Some? {
      FeederIsKnown(s, Touched(s, call), q);
      WeightAfterIs(s, call, x.value);
      if Settled(s, x.value) {
        WeightIsLive(s, x.value);
      }
    }
  }

  /**
   After any request but an outcome the pursuit called is settled exactly when what it is going to
   show is its value: its standalone Pwin blended with the weight its predecessor has.
   */
  lemma OwnSettledExactly(s: State, call: Call)
    requires Inv(s) && AllGrounded(DepsOf(s)) && !ClosesCycle(s, call)
    requires call.p in s.pursuits && !call.request.OutcomeRequest?
    ensures AllGrounded(DepsOf(Step(s, call)))
    ensures var card := CardAfter(s, call);
            Settled(Step(s, call), call.p) <==>
            && PwinOf(card.base) == ValueAfter(s, call)
            && (DepAfter(s, call).Some? && OwnBase(card).Some? ==> BlendOf(card) == ValueAfter(s, call))
  {
    StepForestExactly(s, call);
    RecordAfter(s, call);
    CardAfterIs(s, call);
    OwnValueAfter(s, call);
    SettledIs(Step(s, call), call.p);
    hide Step, Inv, AllGrounded, ClosesCycle, CardAfter, DepAfter, ValueAfter, CardOf, ChainPwin, Settled, Weight;
  }

  /** A dependent that a cancellation releases is settled at its own Pwin. */
  lemma ReleasedIsSettled(s: State, call: Call, q: Id)
    requires Inv(s) && AllGrounded(DepsOf(s)) && q in s.pursuits && q in Touched(s, call) && q != call.p
    ensures AllGrounded(DepsOf(Step(s, call))) && Settled(Step(s, call), q)
  {
    OutcomeReaches(s, call, q);
    ReleasedIsFree(s, call, q);
    StepForestExactly(s, call);
    hide Step, Touched;
    FreeIsSettled(Step(s, call), q);
  }

  lemma ReleasedIsFree(s: State, call: Call, q: Id)
    requires Inv(s) && q in s.pursuits && q in Touched(s, call) && q != call.p && call.request.OutcomeRequest?
    ensures !Dependent(Step(s, call), q)
  {
  }

  // ----- A write settles its own pursuit -----

  lemma {:induction false} SameValueRecord(s: State, after: State, p: Id)
    requires AllGrounded(DepsOf(s)) && after.rows == s.rows && after.pursuits.Keys == s.pursuits.Keys
    requires forall q | q in s.pursuits ::
               after.pursuits[q].dependsOn == s.pursuits[q].dependsOn && after.pursuits[q].outcome == s.pursuits[q].outcome
    ensures AllGrounded(DepsOf(after)) && ChainPwin(after, p) == ChainPwin(s, p)
    decreases Height(DepsOf(s), p)
  {
    assert DepsOf(after) == DepsOf(s);
    if Dependent(s, p) {
      PredecessorIsLower(DepsOf(s), p);
      SameValueRecord(s, after, s.pursuits[p].dependsOn.value);
    }
  }

  lemma SameSettled(s: State, after: State, p: Id)
    requires AllGrounded(DepsOf(s)) && after.rows == s.rows && after.pursuits.Keys == s.pursuits.Keys
    requires forall q | q in s.pursuits ::
               after.pursuits[q].dependsOn == s.pursuits[q].dependsOn && after.pursuits[q].outcome == s.pursuits[q].outcome
    ensures AllGrounded(DepsOf(after)) && (Settled(after, p) <==> Settled(s, p))
  {
    SameValueRecord(s, after, p);
    SettledIs(s, p);
    SettledIs(after, p);
    assert CardOf(after, p) == CardOf(s, p);
    hide Settled, ChainPwin, AllGrounded, CardOf;
  }

  /** The predecessor of `p` keeps its value while only `p` changes. */
  lemma PredecessorStays(s: State, after: State, p: Id)
    requires AllGrounded(DepsOf(s)) && after.pursuits == s.pursuits && Advances(s, after, {p}) && Dependent(s, p)
    requires Settled(s, s.pursuits[p].dependsOn.value)
    ensures AllGrounded(DepsOf(after)) && Settled(after, s.pursuits[p].dependsOn.value)
  {
    var pred := s.pursuits[p].dependsOn.value;
    FedByOthers(s, p);
    StaysSettled(s, after, {p}, pred);
  }

  /** No pursuit feeds its own predecessor. */
  lemma FedByOthers(s: State, p: Id)
    requires AllGrounded(DepsOf(s)) && Dependent(s, p)
    ensures s.pursuits[p].dependsOn != Some(p) && Feeds(s, {p}, s.pursuits[p].dependsOn.value).None?
  {
    var pred := s.pursuits[p].dependsOn.value;
    assert Walk(DepsOf(s), p, 1) == Some(pred) by {
      assert Walk(DepsOf(s), pred, 0) == Some(pred);
    }
    if Feeds(s, {p}, pred).Some? {
      var n := FeedsWalks(s, {p}, pred);
      assert Walk(DepsOf(s), p, n + 1) == Some(p);
      assert Cyclic(DepsOf(s));
    }
    if pred == p {
      assert Cyclic(DepsOf(s));
    }
    GroundedHasNoCycle(DepsOf(s));
  }

  /** Demote, insert, blend: settled, when the predecessor was. */
  lemma WriteSettles(s: State, p: Id, sc: Scenario, kind: Kind, base: real, pwin: Option<real>, answers: map<Code, Value>)
    requires AllGrounded(DepsOf(s)) && p in s.pursuits
    requires Dependent(s, p) ==> Settled(s, s.pursuits[p].dependsOn.value)
    ensures var after := BlendIfDependent(Superseded(s, p, sc, kind, base, pwin, answers), p);
            AllGrounded(DepsOf(after)) && Settled(after, p) && after.pursuits == s.pursuits
  {
    var s1 := Superseded(s, p, sc, kind, base, pwin, answers);
    assert DepsOf(s1) == DepsOf(s);
    if Dependent(s, p) {
      assert Advances(s, s1, {p});
      PredecessorStays(s, s1, p);
      BlendSettles(s1, p);
    } else {
      FreeIsSettled(s1, p);
    }
    hide Settled, ChainPwin, AllGrounded, Superseded, ApplyBlend, Advances;
  }

  predicate WriteAccepted(s: State, call: Call) {
    match call.request
    case RecalculateRequest(sc, engine) => RecalculateEndpoint(s, call.scope, call.p, sc, engine).Ok?
    case SubmitRequest(sc, form, base, completed) => SubmitEndpoint(s, call.scope, call.p, sc, form, base, completed).Ok?
    case _ => false
  }

  lemma RecalculateSettles(s: State, call: Call)
    requires AllGrounded(DepsOf(s)) && call.request.RecalculateRequest? && WriteAccepted(s, call)
    requires Dependent(s, call.p) ==> Settled(s, s.pursuits[call.p].dependsOn.value)
    ensures AllGrounded(DepsOf(Step(s, call))) && Settled(Step(s, call), call.p)
  {
    var RecalculateRequest(sc, engine) := call.request;
    var answers := AnswersRead(s.rows, call.p, sc, engine.pick);
    WriteSettles(s, call.p, sc, Questionnaire, engine.pwin, Some(engine.pwin), answers);
    var written := BlendIfDependent(Superseded(s, call.p, sc, Questionnaire, engine.pwin, Some(engine.pwin), answers), call.p);
    assert Step(s, call) == Ticked(written);
    hide Step, Settled, ChainPwin, AllGrounded, Superseded, BlendIfDependent;
    SameSettled(written, Ticked(written), call.p);
  }

  lemma SubmitSettles(s: State, call: Call)
    requires AllGrounded(DepsOf(s)) && call.request.SubmitRequest? && WriteAccepted(s, call)
    requires Dependent(s, call.p) ==> Settled(s, s.pursuits[call.p].dependsOn.value)
    ensures AllGrounded(DepsOf(Step(s, call))) && Settled(Step(s, call), call.p)
  {
    var SubmitRequest(sc, form, base, completed) := call.request;
    var pwin := if s.pursuits[call.p].dependsOn.Some? && sc == Base then None else Some(base as real);
    WriteSettles(s, call.p, sc, KindOf(form), base, pwin, map[]);
    var written := Submitted(s, call.p, sc, KindOf(form), base);
    hide Settled, ChainPwin, AllGrounded, Superseded, BlendIfDependent, Complete, SubmitFault;
    SameSettled(written, Step(s, call), call.p);
  }

  /** An accepted recalculation or submission leaves its pursuit settled, when the predecessor was. */
  lemma WritesSettle(s: State, call: Call)
    requires AllGrounded(DepsOf(s)) && WriteAccepted(s, call)
    requires Dependent(s, call.p) ==> Settled(s, s.pursuits[call.p].dependsOn.value)
    ensures AllGrounded(DepsOf(Step(s, call))) && Settled(Step(s, call), call.p)
  {
    if call.request.RecalculateRequest? {
      RecalculateSettles(s, call);
    } else {
      SubmitSettles(s, call);
    }
  }

  // ----- A run where a dependent is left behind -----

  const WIN: Call := Call({0, 1}, 0, OutcomeRequest(Some(Won), true))

  lemma PairIsForest()
    ensures AllGrounded(DepsOf(PAIR))
  {
    ChainIsWithin(1);
    ChainsWithinGrounds(Chain(1), 2);
    assert DepsOf(PAIR) == Chain(1);
  }

  lemma PairIsSettled()
    requires AllGrounded(DepsOf(PAIR))
    ensures Settled(PAIR, 0) && Settled(PAIR, 1) && Feeds(PAIR, {0}, 1) == Some(0)
    ensures Weight(PAIR, 0) == 0.5
  {
    PairRows();
    FreeIsSettled(PAIR, 0);
    WeightIsLive(PAIR, 0);
    ValueIs(PAIR, 1);
    SettledIs(PAIR, 1);
    hide CardOf, AllGrounded, Height, Settled;
  }

  /** The predecessor is won: its weight goes to 1, and the stored 0.4 of the dependent is no longer its value. */
  lemma WinLeavesDependent()
    ensures AllGrounded(DepsOf(PAIR)) && Settled(PAIR, 1)
    ensures var after := Step(PAIR, WIN);
            after != PAIR && AllGrounded(DepsOf(after)) && !Settled(after, 1)
  {
    var after := Step(PAIR, WIN);
    PairIsForest();
    PairIsLawful();
    WinIsAccepted();
    assert DepsOf(after) == DepsOf(PAIR);
    hide Step, AllGrounded, Settled, Inv, Feeds, Weight, Touched, ROWS;
    PairIsSettled();
    StepSettledExactly(PAIR, WIN, 1);
  }

  lemma WinIsAccepted()
    ensures Step(PAIR, WIN) == PAIR.(pursuits := PAIR.pursuits[0 := OpenPursuit(None).(outcome := Some(Won), bid := Some(Bid))])
    ensures Touched(PAIR, WIN) == {0} && OutcomeAccepted(PAIR, WIN) && !Links(PAIR, WIN)
  {
  }
}
