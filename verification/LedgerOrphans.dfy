/**
 What a lost dependency leaves behind. Only a cancelled predecessor resets the rows of its
 dependents; here is exactly which requests leave a DEPENDENT_WON row or a blend without a dependency.
 */
module LedgerOrphans {
  import opened Wrappers
  import opened Cascades
  import opened DependencyGraph
  import opened Ledger
  import opened LedgerInvariant
  import opened LedgerSteps
  import opened LedgerRuns
  import opened LedgerCurrent
  import opened LedgerExample

  /** No dependency, and yet a current DEPENDENT_WON row. */
  ghost predicate Orphaned(s: State, q: Id) {
    q in s.pursuits && s.pursuits[q].dependsOn.None? && HasCurrent(s.rows, q, DependentWon)
  }

  /** No dependency and no flat rate, and yet a blend stored on the current BASE row. */
  predicate StaleBlend(s: State, q: Id) {
    q in s.pursuits && s.pursuits[q].dependsOn.None? && !s.pursuits[q].soleSource && HasBlend(s, q)
  }

  predicate HasBlend(s: State, q: Id) {
    var base := CardOf(s, q).base;
    base.Some? && base.value.blended.Some?
  }

  predicate PatchAccepted(s: State, call: Call) {
    call.request.PatchRequest? && PatchFault(s, call.scope, call.p, call.request.req, call.request.engines.lpta).None?
  }

  /** The PATCH bodies that take a dependency away: a null, or sole source turned on without mentioning it. */
  predicate Unlinks(req: Patch) {
    req.dependsOn == Put(None) || (req.dependsOn.Unset? && req.sole == Put(Some(true)))
  }

  /** The save that does: an LPTA answer in the BASE set that results. */
  predicate SavesLpta(s: State, call: Call)
    requires call.request.AnswersRequest?
  {
    var AnswersRequest(sc, changes, _, _, pick) := call.request;
    sc == Base && Lookup(Merge(Labels(AnswersRead(s.rows, call.p, sc, pick)), changes), P2) == Some("LPTA")
  }

  /** The accepted requests that clear the dependency of the pursuit they are made on. */
  predicate ClearsOwn(s: State, call: Call) {
    || (PatchAccepted(s, call) && Unlinks(call.request.req))
    || (SaveAccepted(s, call) && SavesLpta(s, call))
  }

  lemma HasCurrentIsNow(rows: seq<Row>, p: Id, sc: Scenario)
    ensures HasCurrent(rows, p, sc) <==> Now(rows, p, sc).Some?
  {
    if Now(rows, p, sc).Some? {
      assert CurrentFor(rows[FindCurrent(rows, p, sc).value], p, sc);
    }
  }

  // ----- PATCH -----

  /** Without a dependency no DEPENDENT_WON row is written. */
  lemma PatchedDep(s: State, p: Id, req: Patch, engines: Engines)
    requires p in s.pursuits
    ensures var patched := PatchedPursuit(s.pursuits[p], req);
            patched.dependsOn.None? ==> CardPatched(s, p, req, engines).dep == CardOf(s, p).dep
  {
    hide CardOf, PatchedPursuit, Recalculates;
    SameRows(s, PatchedState(s, p, req), p);
    if PatchedPursuit(s.pursuits[p], req).dependsOn.None? {
      NoDepNoRecalculation(PatchedState(s, p, req), p, engines.dependentWon);
    }
  }

  lemma PatchUnlinks(s: State, scope: set<Id>, p: Id, req: Patch, pick: nat)
    requires Inv(s) && PatchFault(s, scope, p, req, pick).None?
    ensures PatchedPursuit(s.pursuits[p], req).dependsOn.None? <==>
            if s.pursuits[p].dependsOn.Some? then Unlinks(req) else !(req.dependsOn.Put? && req.dependsOn.value.Some?)
  {
    hide DependencyFault, InOrder, Disciplined;
    assert PursuitRules(s.pursuits[p]);
  }

  lemma PatchOrphans(s: State, scope: set<Id>, p: Id, req: Patch, engines: Engines)
    requires Inv(s) && PatchFault(s, scope, p, req, engines.lpta).None?
    ensures var after := PatchEndpoint(s, scope, p, req, engines).value.0;
            Orphaned(after, p) <==> PatchedPursuit(s.pursuits[p], req).dependsOn.None? && HasCurrent(s.rows, p, DependentWon)
  {
    var after := PatchEndpoint(s, scope, p, req, engines).value.0;
    CardOfPatch(s, scope, p, req, engines);
    PatchOk(s, scope, p, req, engines);
    PatchStep(s, scope, p, req, engines);
    PatchedDep(s, p, req, engines);
    HasCurrentIsNow(s.rows, p, DependentWon);
    HasCurrentIsNow(after.rows, p, DependentWon);
    hide PatchEndpoint, PatchFault, PatchedPursuit, CardPatched, Inv, Advances, KeepsAnswers, HasCurrent, Now;
  }

  // ----- Every request -----

  /** A request on another pursuit orphans nobody, and a cancellation demotes what it would orphan. */
  lemma OthersOrphan(s: State, call: Call, q: Id)
    requires Inv(s) && q in s.pursuits && call.p != q
    ensures Orphaned(Step(s, call), q) <==> Orphaned(s, q)
  {
    StepIsLawful(s, call);
    if q in Touched(s, call) {
      CancelledCard(s, call, q);
      HasCurrentIsNow(Step(s, call).rows, q, DependentWon);
    } else {
      CardUntouched(s, Step(s, call), Touched(s, call), q);
      HasCurrentIsNow(s.rows, q, DependentWon);
      HasCurrentIsNow(Step(s, call).rows, q, DependentWon);
    }
    hide Step, Touched, Inv, HasCurrent, Now;
  }

  /** A new cancellation of the pursuit that `q` depends on. */
  predicate CancelsAccepted(s: State, call: Call, q: Id)
    requires q in s.pursuits
  {
    CancelsPredecessor(s, call, q) && call.p in s.pursuits && call.p in call.scope && s.pursuits[call.p].outcome != Some(Cancelled)
  }

  lemma TouchedExactly(s: State, call: Call, q: Id)
    requires Inv(s) && q in s.pursuits && call.p != q
    ensures q in Touched(s, call) <==> CancelsAccepted(s, call, q)
  {
    if call.request.OutcomeRequest? && call.p in s.pursuits {
      assert DependencyRules(s, q);
    }
    hide Cleared;
  }

  /** What a cancellation leaves of a dependent. */
  lemma CancelledCard(s: State, call: Call, q: Id)
    requires Inv(s) && q in s.pursuits && call.p != q && q in Touched(s, call)
    ensures CancelsPredecessor(s, call, q)
    ensures q in Step(s, call).pursuits && Step(s, call).pursuits[q] == s.pursuits[q].(dependsOn := None)
    ensures CardOf(Step(s, call), q) == CardCleared(CardOf(s, q))
  {
    OutcomeReaches(s, call, q);
    CancelIsCleared(s, call, q);
    var s1 := s.(pursuits := s.pursuits[call.p := s.pursuits[call.p].(outcome := Some(Cancelled))]);
    var gone := Dependents(s1, call.p);
    hide Step, CardOf, CardCleared, Cleared, Inv;
    CardOfCleared(s1, gone, q);
    ClearedRecord(s1, gone, q);
    SameRows(s, s1, q);
  }

  lemma CancelIsCleared(s: State, call: Call, q: Id)
    requires Inv(s) && q in s.pursuits && call.p != q && q in Touched(s, call) && CancelsPredecessor(s, call, q)
    ensures call.p in s.pursuits
    ensures var s1 := s.(pursuits := s.pursuits[call.p := s.pursuits[call.p].(outcome := Some(Cancelled))]);
            Step(s, call) == Cleared(s1, Dependents(s1, call.p))
  {
    hide Cleared, Inv;
  }

  lemma OwnRequests(s: State, call: Call)
    requires Inv(s) && call.p in s.pursuits && (call.request.BidRequest? || call.request.OutcomeRequest?)
    ensures var after := Step(s, call);
            && call.p in after.pursuits && after.pursuits[call.p].dependsOn == s.pursuits[call.p].dependsOn
            && after.pursuits[call.p].soleSource == s.pursuits[call.p].soleSource
            && CardOf(after, call.p) == CardOf(s, call.p)
  {
    match call.request
    case BidRequest(bid) =>
      SameRows(s, Step(s, call), call.p);
      hide CardOf, Inv;
    case OutcomeRequest(outcome, alsoSetBid) =>
      OwnOutcome(s, call.scope, call.p, outcome, alsoSetBid);
      hide OutcomeEndpoint, CardOf, Inv;
  }

  lemma OwnOutcome(s: State, scope: set<Id>, p: Id, outcome: Option<Outcome>, alsoSetBid: bool)
    requires Inv(s) && p in s.pursuits
    ensures var r := OutcomeEndpoint(s, scope, p, outcome, alsoSetBid);
            r.Ok? ==>
              && p in r.value.0.pursuits && r.value.0.pursuits[p].dependsOn == s.pursuits[p].dependsOn
              && r.value.0.pursuits[p].soleSource == s.pursuits[p].soleSource
              && CardOf(r.value.0, p) == CardOf(s, p)
  {
    hide CardOf, Cleared, Disciplined, PursuitRules;
    assert DependencyRules(s, p);
    var pu := s.pursuits[p];
    var closed := pu.(outcome := outcome, bid := if Decided(outcome) && alsoSetBid then Some(Bid) else pu.bid);
    var s1 := s.(pursuits := s.pursuits[p := closed]);
    SameRows(s, s1, p);
    CardOfCleared(s1, Dependents(s1, p), p);
    ClearedRecord(s1, Dependents(s1, p), p);
  }

  lemma ClearedRecord(s: State, gone: set<Id>, p: Id)
    requires p in s.pursuits
    ensures p in Cleared(s, gone).pursuits
    ensures Cleared(s, gone).pursuits[p] == if p in gone then s.pursuits[p].(dependsOn := None) else s.pursuits[p]
  {
  }

  lemma SaveOrphans(s: State, p: Id, sc: Scenario, changes: Changes, pick: nat)
    requires p in s.pursuits && (sc == DependentWon ==> s.pursuits[p].dependsOn.Some?)
    ensures var (after, drops) := Saved(s, p, sc, changes, pick);
            Orphaned(after, p) <==>
            (s.pursuits[p].dependsOn.None? || drops) && HasCurrent(s.rows, p, DependentWon)
  {
    var after := Saved(s, p, sc, changes, pick).0;
    SavedNow(s, p, sc, changes, pick, DependentWon);
    HasCurrentIsNow(s.rows, p, DependentWon);
    HasCurrentIsNow(after.rows, p, DependentWon);
    hide HasCurrent, Now, AnswersRead, Merge, Labels, Applied, NowSaved;
  }

  lemma RecalculateOrphans(s: State, call: Call)
    requires Inv(s) && call.p in s.pursuits && call.request.RecalculateRequest?
    ensures Orphaned(Step(s, call), call.p) <==> Orphaned(s, call.p)
  {
    var RecalculateRequest(sc, engine) := call.request;
    CardOfRecalculate(s, call.scope, call.p, sc, engine);
    RecalculateStep(s, call.scope, call.p, sc, engine);
    HasCurrentIsNow(s.rows, call.p, DependentWon);
    HasCurrentIsNow(Step(s, call).rows, call.p, DependentWon);
    hide RecalculateEndpoint, Inv, HasCurrent, Now, Advances, KeepsAnswers, AnswersOf;
  }

  lemma SubmitOrphans(s: State, call: Call)
    requires Inv(s) && call.p in s.pursuits && call.request.SubmitRequest?
    ensures Orphaned(Step(s, call), call.p) <==> Orphaned(s, call.p)
  {
    var SubmitRequest(sc, form, base, completed) := call.request;
    CardOfSubmit(s, call.scope, call.p, sc, form, base, completed);
    SubmitStep(s, call.scope, call.p, sc, form, base, completed);
    HasCurrentIsNow(s.rows, call.p, DependentWon);
    HasCurrentIsNow(Step(s, call).rows, call.p, DependentWon);
    SubmitsBase(s, call);
    hide SubmitEndpoint, Inv, HasCurrent, Now, Advances, KeepsAnswers;
  }

  lemma SubmittedScenario(s: State, scope: set<Id>, p: Id, sc: Scenario, form: Submission, base: Prob, completed: Option<int>)
    requires SubmitEndpoint(s, scope, p, sc, form, base, completed).Ok?
    ensures p in s.pursuits && (sc == DependentWon ==> s.pursuits[p].dependsOn.Some?)
  {
  }

  lemma PatchRefused(s: State, call: Call)
    requires call.request.PatchRequest? && !PatchAccepted(s, call)
    ensures Step(s, call) == s
  {
    PatchOk(s, call.scope, call.p, call.request.req, call.request.engines);
  }

  lemma AcceptedPatch(s: State, call: Call)
    requires PatchAccepted(s, call)
    ensures call.p in s.pursuits
    ensures Step(s, call) == PatchEndpoint(s, call.scope, call.p, call.request.req, call.request.engines).value.0
  {
    PatchOk(s, call.scope, call.p, call.request.req, call.request.engines);
  }

  lemma LinksIsAccepted(s: State, call: Call)
    ensures Links(s, call) <==>
            PatchAccepted(s, call) && call.request.req.dependsOn.Put? && call.request.req.dependsOn.value.Some?
  {
    if call.request.PatchRequest? {
      PatchOk(s, call.scope, call.p, call.request.req, call.request.engines);
    }
  }

  /**
   A request leaves `q` with a DEPENDENT_WON row and no dependency exactly when the row was there
   and either it took the dependency away by PATCH or by an LPTA answer, or there was none already
   and it set none.
   */
  lemma OrphanedExactly(s: State, call: Call, q: Id)
    requires Inv(s) && q in s.pursuits
    ensures Orphaned(Step(s, call), q) <==>
            && HasCurrent(s.rows, q, DependentWon)
            && if s.pursuits[q].dependsOn.Some? then call.p == q && ClearsOwn(s, call)
               else !(call.p == q && Links(s, call))
  {
    if call.p != q {
      OthersOrphan(s, call, q);
    } else {
      hide Inv, HasCurrent, Orphaned;
      match call.request
      case PatchRequest(req, engines) => OrphanedByPatch(s, call);
      case AnswersRequest(sc, changes, spec, options, pick) => OrphanedBySave(s, call);
      case RecalculateRequest(_, _) => RecalculateOrphans(s, call);
      case SubmitRequest(_, _, _, _) => SubmitOrphans(s, call);
      case _ => OrphanedByDecision(s, call);
    }
    OrphanedMeans(s, q);
    hide Step, HasCurrent, Inv, ClearsOwn, Links;
  }

  lemma OrphanedMeans(s: State, q: Id)
    requires q in s.pursuits
    ensures Orphaned(s, q) <==> s.pursuits[q].dependsOn.None? && HasCurrent(s.rows, q, DependentWon)
  {
  }

  lemma OrphanedByDecision(s: State, call: Call)
    requires Inv(s) && call.p in s.pursuits && (call.request.BidRequest? || call.request.OutcomeRequest?)
    ensures Orphaned(Step(s, call), call.p) <==> Orphaned(s, call.p)
  {
    OwnRequests(s, call);
    HasCurrentIsNow(s.rows, call.p, DependentWon);
    HasCurrentIsNow(Step(s, call).rows, call.p, DependentWon);
    hide Step, Inv, HasCurrent, Now;
  }

  lemma OrphanedByPatch(s: State, call: Call)
    requires Inv(s) && call.p in s.pursuits && call.request.PatchRequest?
    ensures Orphaned(Step(s, call), call.p) <==>
            && HasCurrent(s.rows, call.p, DependentWon)
            && if s.pursuits[call.p].dependsOn.Some? then ClearsOwn(s, call) else !Links(s, call)
  {
    var PatchRequest(req, engines) := call.request;
    LinksIsAccepted(s, call);
    if PatchAccepted(s, call) {
      AcceptedPatch(s, call);
      PatchOrphans(s, call.scope, call.p, req, engines);
      PatchUnlinks(s, call.scope, call.p, req, engines.lpta);
    } else {
      PatchRefused(s, call);
    }
    hide Step, Links, Inv, HasCurrent, PatchFault, PatchEndpoint, PatchedPursuit, Unlinks;
  }

  lemma OrphanedBySave(s: State, call: Call)
    requires call.p in s.pursuits && call.request.AnswersRequest?
    ensures Orphaned(Step(s, call), call.p) <==>
            HasCurrent(s.rows, call.p, DependentWon) && (s.pursuits[call.p].dependsOn.Some? ==> ClearsOwn(s, call))
  {
    var AnswersRequest(sc, changes, spec, options, pick) := call.request;
    if SaveAccepted(s, call) {
      SaveOrphans(s, call.p, sc, changes, pick);
    }
    hide HasCurrent, AnswersRead, Merge, Labels, Applied, WithAnswerRow, FirstFault;
  }

  // ----- The stored blend -----

  predicate BaseRenewed(s: State, p: Id, req: Patch, engines: Engines)
    requires p in s.pursuits
  {
    var s1 := PatchedState(s, p, req);
    SoleRedone(s1, p, req, engines.sole) ||
    (RevertsToPreBh(s.pursuits[p], req) && Recalculates(s1, p, Base, BaseEngine(s1, p, req, engines.base)))
  }

  predicate DepRenewed(s: State, p: Id, req: Patch, engines: Engines)
    requires p in s.pursuits
  {
    var s1 := PatchedState(s, p, req);
    RevertsToPreBh(s.pursuits[p], req) && !SoleRedone(s1, p, req, engines.sole) &&
    Recalculates(s1, p, DependentWon, engines.dependentWon)
  }

  /** The blend of a card whose pursuit depends on nobody. */
  lemma PatchedBlend(s: State, p: Id, req: Patch, engines: Engines)
    requires p in s.pursuits
    requires PatchedPursuit(s.pursuits[p], req).dependsOn.None? && !PatchedPursuit(s.pursuits[p], req).soleSource
    ensures var base := CardPatched(s, p, req, engines).base;
            (base.Some? && base.value.blended.Some?) <==> HasBlend(s, p) && !BaseRenewed(s, p, req, engines)
  {
    hide CardOf, PatchedPursuit, AnswersRead, Labels, Recalculates, BaseEngine;
    SameRows(s, PatchedState(s, p, req), p);
    assert FactorOf(PatchedState(s, p, req), p).None?;
    assert !Recalculates(PatchedState(s, p, req), p, DependentWon, engines.dependentWon) by {
      NoDepNoRecalculation(PatchedState(s, p, req), p, engines.dependentWon);
    }
  }

  lemma NoDepNoRecalculation(s: State, p: Id, engine: Engine)
    requires p in s.pursuits && s.pursuits[p].dependsOn.None?
    ensures !Recalculates(s, p, DependentWon, engine)
  {
  }

  /** What keeps a blend on the current BASE row of the pursuit the request is made on. */
  predicate KeepsBlend(s: State, call: Call)
    requires call.p in s.pursuits
  {
    var pu := s.pursuits[call.p];
    match call.request
    case PatchRequest(req, engines) =>
      if PatchAccepted(s, call)
      then PatchedPursuit(pu, req).dependsOn.None? && !PatchedPursuit(pu, req).soleSource && !BaseRenewed(s, call.p, req, engines)
      else pu.dependsOn.None? && !pu.soleSource
    case AnswersRequest(_, _, _, _, _) =>
      !pu.soleSource && (pu.dependsOn.None? || (SaveAccepted(s, call) && SavesLpta(s, call)))
    case RecalculateRequest(sc, engine) =>
      pu.dependsOn.None? && !pu.soleSource && !MayRecalculate(s, call.scope, call.p, sc, engine)
    case SubmitRequest(sc, form, _, completed) =>
      pu.dependsOn.None? && !pu.soleSource && SubmitFault(s, call.scope, call.p, sc, form, completed).Some?
    case _ => pu.dependsOn.None? && !pu.soleSource
  }

  /**
   A request leaves a blend on a pursuit without dependency or flat rate exactly when the blend was
   there and the request, clearing the dependency or finding none, did not recalculate BASE.
   */
  lemma StaleBlendExactly(s: State, call: Call, q: Id)
    requires Inv(s) && q in s.pursuits
    ensures StaleBlend(Step(s, call), q) <==>
            if call.p == q then HasBlend(s, q) && KeepsBlend(s, call) else StaleBlend(s, q)
  {
    if call.p != q {
      BlendElsewhere(s, call, q);
    } else {
      hide Inv;
      match call.request
      case PatchRequest(req, engines) => BlendAfterPatch(s, call);
      case AnswersRequest(sc, changes, spec, options, pick) => BlendAfterSave(s, call);
      case RecalculateRequest(sc, engine) => BlendAfterRecalculate(s, call);
      case SubmitRequest(_, _, _, _) => BlendAfterSubmit(s, call);
      case _ => OwnRequests(s, call);
    }
    hide Step, CardOf, Inv;
  }

  lemma BlendElsewhere(s: State, call: Call, q: Id)
    requires Inv(s) && q in s.pursuits && call.p != q
    ensures StaleBlend(Step(s, call), q) <==> StaleBlend(s, q)
  {
    StepIsLawful(s, call);
    if q in Touched(s, call) {
      CancelledCard(s, call, q);
      assert CardOf(s, q).base.Some? ==> CurrentFor(CardOf(s, q).base.value, q, Base);
    } else {
      CardUntouched(s, Step(s, call), Touched(s, call), q);
    }
    hide Step, Touched, Inv, CardOf;
  }

  lemma BlendAfterPatch(s: State, call: Call)
    requires Inv(s) && call.p in s.pursuits && call.request.PatchRequest?
    ensures StaleBlend(Step(s, call), call.p) <==> HasBlend(s, call.p) && KeepsBlend(s, call)
  {
    var PatchRequest(req, engines) := call.request;
    if PatchAccepted(s, call) {
      AcceptedPatch(s, call);
      CardOfPatch(s, call.scope, call.p, req, engines);
      PatchOk(s, call.scope, call.p, req, engines);
      PatchStep(s, call.scope, call.p, req, engines);
      var patched := PatchedPursuit(s.pursuits[call.p], req);
      if patched.dependsOn.None? && !patched.soleSource {
        PatchedBlend(s, call.p, req, engines);
      }
    } else {
      PatchRefused(s, call);
    }
    hide Step, PatchFault, PatchEndpoint, PatchedPursuit, Inv, CardOf, CardPatched, BaseRenewed, Advances, KeepsAnswers;
  }

  lemma BlendAfterSave(s: State, call: Call)
    requires call.p in s.pursuits && call.request.AnswersRequest?
    ensures StaleBlend(Step(s, call), call.p) <==> HasBlend(s, call.p) && KeepsBlend(s, call)
  {
    var AnswersRequest(sc, changes, spec, options, pick) := call.request;
    if SaveAccepted(s, call) {
      CardOfSave(s, call.p, sc, changes, pick);
      SavedRecord(s, call.p, sc, changes, pick);
      hide Saved, AnswersFault;
    }
    hide CardOf, AnswersRead, Merge, Labels;
  }

  lemma SavedRecord(s: State, p: Id, sc: Scenario, changes: Changes, pick: nat)
    requires p in s.pursuits
    ensures var (after, drops) := Saved(s, p, sc, changes, pick);
            && after.pursuits == (if drops then s.pursuits[p := s.pursuits[p].(dependsOn := None)] else s.pursuits)
            && drops == TurnsLpta(s.pursuits[p], sc, Merge(Labels(AnswersRead(s.rows, p, sc, pick)), changes))
  {
    hide AnswersRead, Merge, Labels, Applied;
  }

  lemma BlendAfterRecalculate(s: State, call: Call)
    requires Inv(s) && call.p in s.pursuits && call.request.RecalculateRequest?
    ensures StaleBlend(Step(s, call), call.p) <==> HasBlend(s, call.p) && KeepsBlend(s, call)
  {
    var RecalculateRequest(sc, engine) := call.request;
    CardOfRecalculate(s, call.scope, call.p, sc, engine);
    RecalculateStep(s, call.scope, call.p, sc, engine);
    hide RecalculateEndpoint, CardOf, Inv, Advances, KeepsAnswers, ReadsFrom, AnswersRead, BlendFactor;
  }

  lemma SubmitOk(s: State, scope: set<Id>, p: Id, sc: Scenario, form: Submission, base: Prob, completed: Option<int>)
    ensures SubmitEndpoint(s, scope, p, sc, form, base, completed).Ok? <==> SubmitFault(s, scope, p, sc, form, completed).None?
  {
    hide Recorded;
  }

  lemma BlendAfterSubmit(s: State, call: Call)
    requires Inv(s) && call.p in s.pursuits && call.request.SubmitRequest?
    ensures StaleBlend(Step(s, call), call.p) <==> HasBlend(s, call.p) && KeepsBlend(s, call)
  {
    var SubmitRequest(sc, form, base, completed) := call.request;
    CardOfSubmit(s, call.scope, call.p, sc, form, base, completed);
    SubmitStep(s, call.scope, call.p, sc, form, base, completed);
    SubmitsBase(s, call);
    SubmitOk(s, call.scope, call.p, sc, form, base, completed);
    hide SubmitEndpoint, SubmitFault, CardOf, Inv, Advances, KeepsAnswers, ReadsFrom, BlendFactor;
  }

  lemma SubmitsBase(s: State, call: Call)
    requires call.request.SubmitRequest? && call.p in s.pursuits
    ensures var SubmitRequest(sc, form, base, completed) := call.request;
            SubmitEndpoint(s, call.scope, call.p, sc, form, base, completed).Ok? && s.pursuits[call.p].dependsOn.None? ==> sc == Base
  {
    var SubmitRequest(sc, form, base, completed) := call.request;
    if SubmitEndpoint(s, call.scope, call.p, sc, form, base, completed).Ok? {
      SubmittedScenario(s, call.scope, call.p, sc, form, base, completed);
    }
  }

  // ----- The three routes, on one ledger -----

  function ByPatch(req: Patch): Call {
    Call({0, 1}, 1, PatchRequest(req, SILENT))
  }

  const BY_LPTA: Call := Call({0, 1}, 1, AnswersRequest(Base, map[P2 := Some("LPTA")], Some(P2_ONLY), {(P2, "LPTA")}, 1))

  lemma PairHasDepRow()
    ensures HasCurrent(ROWS, 1, DependentWon) && HasBlend(PAIR, 1)
  {
    PairRows();
    assert CurrentFor(ROWS[2], 1, DependentWon);
  }

  /** A null for the dependency, and sole source turned on: both are accepted and orphan the row. */
  lemma PatchRoutes(req: Patch)
    requires req == NOTHING.(dependsOn := Put(None)) || req == NOTHING.(sole := Put(Some(true)))
    ensures PatchAccepted(PAIR, ByPatch(req)) && Orphaned(Step(PAIR, ByPatch(req)), 1)
    ensures req.sole.Unset? ==> StaleBlend(Step(PAIR, ByPatch(req)), 1)
  {
    PairIsLawful();
    PairHasDepRow();
    PatchPasses(req);
    OrphanedExactly(PAIR, ByPatch(req), 1);
    StaleBlendExactly(PAIR, ByPatch(req), 1);
    hide Step, Inv, HasCurrent, Orphaned, StaleBlend, HasBlend, CardOf, PatchFault, AnswersOf;
  }

  lemma PatchPasses(req: Patch)
    requires req == NOTHING.(dependsOn := Put(None)) || req == NOTHING.(sole := Put(Some(true)))
    ensures PatchAccepted(PAIR, ByPatch(req))
  {
    assert InOrder(MergedDates(PAIR.pursuits[1], req));
  }

  lemma LptaPasses()
    ensures SaveAccepted(PAIR, BY_LPTA) && SavesLpta(PAIR, BY_LPTA)
  {
    var changes: Changes := map[P2 := Some("LPTA")];
    PairLatest(1, Base, 1);
    assert AnswersRead(ROWS, 1, Base, 1) == PRICED;
    var merged := Merge(Labels(PRICED), changes);
    assert "LPTA" == ["Best Value", "LPTA"][1];
    PricedIsLegal("LPTA");
    hide FirstFault, AnswersRead, IsLatest;
    assert !Unresolved?({(P2, "LPTA")}, changes) && !TwoValued(PRICED, changes);
    assert AnswersFault(PAIR, {0, 1}, 1, Base, changes, Some(P2_ONLY), {(P2, "LPTA")}, 1).None?;
  }

  lemma LptaRoute()
    ensures SaveAccepted(PAIR, BY_LPTA) && Orphaned(Step(PAIR, BY_LPTA), 1) && StaleBlend(Step(PAIR, BY_LPTA), 1)
  {
    PairIsLawful();
    PairHasDepRow();
    LptaPasses();
    OrphanedExactly(PAIR, BY_LPTA, 1);
    StaleBlendExactly(PAIR, BY_LPTA, 1);
    hide Step, Inv, HasCurrent, Orphaned, StaleBlend, HasBlend, CardOf, AnswersOf;
  }
}
