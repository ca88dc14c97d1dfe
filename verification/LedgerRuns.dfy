/** Whole runs: any sequence of requests, accepted or refused, from any lawful ledger. */
module LedgerRuns {
  import opened Wrappers
  import opened Cascades
  import opened DependencyGraph
  import opened Ledger
  import opened LedgerInvariant
  import opened LedgerSteps

  datatype Request =
    | PatchRequest(req: Patch, engines: Engines)
    | BidRequest(bid: bool)
    | OutcomeRequest(outcome: Option<Outcome>, alsoSetBid: bool)
    | AnswersRequest(sc: Scenario, changes: Changes, spec: Option<Spec>, options: OptionTable, pick: nat)
    | RecalculateRequest(sc: Scenario, engine: Engine)
    | SubmitRequest(sc: Scenario, form: Submission, base: Prob, completed: Option<int>)

  /** One call: who may be seen, which pursuit is meant, what is asked. */
  datatype Call = Call(scope: set<Id>, p: Id, request: Request)

  function Step(s: State, call: Call): State {
    match call.request
    case PatchRequest(req, engines) =>
      (match PatchEndpoint(s, call.scope, call.p, req, engines) case Ok(r) => r.0 case Err(_) => s)
    case BidRequest(bid) => OrKeep(BidEndpoint(s, call.scope, call.p, bid), s)
    case OutcomeRequest(outcome, alsoSetBid) =>
      (match OutcomeEndpoint(s, call.scope, call.p, outcome, alsoSetBid) case Ok(r) => r.0 case Err(_) => s)
    case AnswersRequest(sc, changes, spec, options, pick) =>
      (match AnswersEndpoint(s, call.scope, call.p, sc, changes, spec, options, pick) case Ok(r) => r.0 case Err(_) => s)
    case RecalculateRequest(sc, engine) => OrKeep(RecalculateEndpoint(s, call.scope, call.p, sc, engine), s)
    case SubmitRequest(sc, form, base, completed) =>
      (match SubmitEndpoint(s, call.scope, call.p, sc, form, base, completed) case Ok(r) => r.0 case Err(_) => s)
  }

  function Run(s: State, calls: seq<Call>): State
    decreases |calls|
  {
    if calls == [] then s else Run(Step(s, calls[0]), calls[1..])
  }

  // ----- The plain answer map the versioned rows implement -----

  predicate SaveAccepted(s: State, call: Call) {
    call.request.AnswersRequest? &&
    AnswersEndpoint(s, call.scope, call.p, call.request.sc, call.request.changes, call.request.spec, call.request.options,
                    call.request.pick).Ok?
  }

  datatype Save = Save(p: Id, sc: Scenario, changes: Changes)

  /** The saves of a run that were accepted, in order. */
  function Saves(s: State, calls: seq<Call>): seq<Save>
    decreases |calls|
  {
    if calls == [] then []
    else (if SaveAccepted(s, calls[0])
          then [Save(calls[0].p, calls[0].request.sc, calls[0].request.changes)] else []) +
         Saves(Step(s, calls[0]), calls[1..])
  }

  function Replay(answers: map<Code, Value>, saves: seq<Save>, p: Id, sc: Scenario): map<Code, Value>
    decreases |saves|
  {
    if saves == [] then answers
    else Replay(if saves[0].p == p && saves[0].sc == sc then Applied(answers, saves[0].changes) else answers,
                saves[1..], p, sc)
  }

  function Touched(s: State, call: Call): set<Id> {
    match call.request
    case OutcomeRequest(outcome, alsoSetBid) =>
      (match OutcomeEndpoint(s, call.scope, call.p, outcome, alsoSetBid)
       case Ok(r) => {call.p} + r.1
       case Err(_) => {})
    case _ => {call.p}
  }

  lemma NothingMoved(s: State, touched: set<Id>)
    ensures Advances(s, s, touched)
  {
  }

  lemma StepIsLawful(s: State, call: Call)
    requires Inv(s)
    ensures Inv(Step(s, call)) && Advances(s, Step(s, call), Touched(s, call))
  {
    NothingMoved(s, Touched(s, call));
    hide PatchEndpoint, BidEndpoint, OutcomeEndpoint, AnswersEndpoint, RecalculateEndpoint, SubmitEndpoint;
    hide Inv, Advances, SameAnswers, AnswersOf, Disciplined;
    match call.request
    case PatchRequest(req, engines) => PatchStep(s, call.scope, call.p, req, engines);
    case BidRequest(bid) => BidStep(s, call.scope, call.p, bid);
    case OutcomeRequest(outcome, alsoSetBid) => OutcomeStep(s, call.scope, call.p, outcome, alsoSetBid);
    case AnswersRequest(sc, changes, spec, options, pick) => AnswersStep(s, call.scope, call.p, sc, changes, spec, options, pick);
    case RecalculateRequest(sc, engine) => RecalculateStep(s, call.scope, call.p, sc, engine);
    case SubmitRequest(sc, form, base, completed) => SubmitStep(s, call.scope, call.p, sc, form, base, completed);
  }

  lemma OthersKeepAnswers(s: State, call: Call)
    requires Inv(s) && !call.request.AnswersRequest?
    ensures KeepsAnswers(s.rows, Step(s, call).rows)
  {
    assert KeepsAnswers(s.rows, s.rows);
    hide PatchEndpoint, BidEndpoint, OutcomeEndpoint, RecalculateEndpoint, SubmitEndpoint;
    hide Inv, Advances, KeepsAnswers;
    match call.request
    case PatchRequest(req, engines) => PatchStep(s, call.scope, call.p, req, engines);
    case BidRequest(bid) => BidStep(s, call.scope, call.p, bid);
    case OutcomeRequest(outcome, alsoSetBid) => OutcomeStep(s, call.scope, call.p, outcome, alsoSetBid);
    case RecalculateRequest(sc, engine) => RecalculateStep(s, call.scope, call.p, sc, engine);
    case SubmitRequest(sc, form, base, completed) => SubmitStep(s, call.scope, call.p, sc, form, base, completed);
  }

  /** No other request makes an answer set readable that was not. */
  lemma OthersReadNothingNew(s: State, call: Call)
    requires Inv(s) && !call.request.AnswersRequest?
    ensures ReadsFrom(s.rows, Step(s, call).rows)
  {
    ReadsSame(s.rows);
    hide PatchEndpoint, BidEndpoint, OutcomeEndpoint, RecalculateEndpoint, SubmitEndpoint;
    hide Inv, Advances, KeepsAnswers, ReadsFrom;
    match call.request
    case PatchRequest(req, engines) => PatchStep(s, call.scope, call.p, req, engines);
    case BidRequest(bid) => BidStep(s, call.scope, call.p, bid);
    case OutcomeRequest(outcome, alsoSetBid) => OutcomeStep(s, call.scope, call.p, outcome, alsoSetBid);
    case RecalculateRequest(sc, engine) => RecalculateStep(s, call.scope, call.p, sc, engine);
    case SubmitRequest(sc, form, base, completed) => SubmitStep(s, call.scope, call.p, sc, form, base, completed);
  }

  /** An accepted save for which the database has more than one latest row to choose from. */
  ghost predicate MeetsTie(s: State, call: Call) {
    SaveAccepted(s, call) && Tied(s.rows, call.p, call.request.sc)
  }

  lemma OthersConsistent(s: State, call: Call)
    requires Inv(s) && Consistent(s) && !call.request.AnswersRequest?
    ensures Consistent(Step(s, call)) && SameAnswers(s.rows, Step(s, call).rows)
  {
    OthersKeepAnswers(s, call);
    StepDeps(s, call);
    StepIsLawful(s, call);
    if Links(s, call) {
      var PatchRequest(req, engines) := call.request;
      PatchStep(s, call.scope, call.p, req, engines);
      PatchOk(s, call.scope, call.p, req, engines);
      hide PatchEndpoint, PatchFault, KeepsAnswers, SameAnswers, Consistent, Inv, Advances;
      PatchConsistent(s, call.scope, call.p, req, engines.lpta, Step(s, call));
    } else {
      hide Step, Links, KeepsAnswers, SameAnswers, Consistent, Inv;
      FewerDeps(s, Step(s, call));
      ConsistentKept(s, Step(s, call));
    }
  }

  lemma FewerDeps(s: State, after: State)
    requires OnlyRemoves(DepsOf(s), DepsOf(after)) && after.pursuits.Keys == s.pursuits.Keys
    ensures forall q | q in s.pursuits ::
              after.pursuits[q].dependsOn.None? || after.pursuits[q].dependsOn == s.pursuits[q].dependsOn
  {
    forall q | q in s.pursuits
      ensures after.pursuits[q].dependsOn.None? || after.pursuits[q].dependsOn == s.pursuits[q].dependsOn
    {
      assert Predecessor(DepsOf(after), q) == after.pursuits[q].dependsOn;
      assert Predecessor(DepsOf(s), q) == s.pursuits[q].dependsOn;
    }
  }

  /** Only an accepted save moves an answer, and only those of its own pursuit and scenario. */
  lemma StepAnswers(s: State, call: Call, p: Id, sc: Scenario)
    requires Inv(s) && Consistent(s) && !MeetsTie(s, call)
    ensures Consistent(Step(s, call))
    ensures AnswersOf(Step(s, call).rows, p, sc) ==
            if SaveAccepted(s, call) && call.p == p && call.request.sc == sc
            then Applied(AnswersOf(s.rows, p, sc), call.request.changes)
            else AnswersOf(s.rows, p, sc)
  {
    if call.request.AnswersRequest? {
      hide AnswersEndpoint, Inv, Consistent, Applied, AnswersOf, Tied;
      var AnswersRequest(sc2, changes, spec, options, pick) := call.request;
      if SaveAccepted(s, call) {
        AnswersConsistent(s, call.scope, call.p, sc2, changes, spec, options, pick);
      }
    } else {
      OthersConsistent(s, call);
    }
  }

  /** The row discipline and the lifecycle rules hold after every run. */
  lemma {:induction false} RunKeepsInv(s: State, calls: seq<Call>)
    requires Inv(s)
    ensures Inv(Run(s, calls))
    decreases |calls|
  {
    if calls != [] {
      StepIsLawful(s, calls[0]);
      RunKeepsInv(Step(s, calls[0]), calls[1..]);
    }
  }

  /** In no call of the run does an accepted save meet a tie. */
  ghost predicate NeverMeetsTie(s: State, calls: seq<Call>)
    decreases |calls|
  {
    calls != [] ==> !MeetsTie(s, calls[0]) && NeverMeetsTie(Step(s, calls[0]), calls[1..])
  }

  /**
   The versioned ledger refines one plain answer map per pursuit and scenario, whichever row the
   database picks, as long as no accepted save meets a tie.
   */
  lemma {:induction false} RunRefinesAnswerMap(s: State, calls: seq<Call>, p: Id, sc: Scenario, pick: nat)
    requires Inv(s) && Consistent(s) && NeverMeetsTie(s, calls)
    ensures Consistent(Run(s, calls))
    ensures AnswersRead(Run(s, calls).rows, p, sc, pick) == Replay(AnswersOf(s.rows, p, sc), Saves(s, calls), p, sc)
    decreases |calls|
  {
    if calls == [] {
      AgreedRead(s.rows, p, sc, pick);
    } else {
      var next := Step(s, calls[0]);
      StepIsLawful(s, calls[0]);
      StepAnswers(s, calls[0], p, sc);
      RunRefinesAnswerMap(next, calls[1..], p, sc, pick);
      if SaveAccepted(s, calls[0]) {
        var save := Save(calls[0].p, calls[0].request.sc, calls[0].request.changes);
        assert Saves(s, calls)[1..] == Saves(next, calls[1..]);
      } else {
        assert Saves(s, calls) == Saves(next, calls[1..]);
      }
    }
    hide Inv, Consistent, AnswersOf, AnswersRead, SaveAccepted, Step, Applied;
  }

  // ----- A closed pursuit is history -----

  predicate CancelsPredecessor(s: State, call: Call, q: Id)
    requires q in s.pursuits
  {
    call.request.OutcomeRequest? && call.request.outcome == Some(Cancelled) && s.pursuits[q].dependsOn == Some(call.p)
  }

  lemma ClosedRefuses(s: State, call: Call)
    requires call.p in s.pursuits && s.pursuits[call.p].outcome.Some? && !call.request.OutcomeRequest?
    ensures Step(s, call) == s
  {
  }

  lemma OutcomeReaches(s: State, call: Call, q: Id)
    requires Inv(s) && call.request.OutcomeRequest? && q in s.pursuits && q in Touched(s, call) && q != call.p
    ensures CancelsPredecessor(s, call, q)
  {
  }

  /** Only its own outcome, or the cancellation of its predecessor, changes a closed pursuit or its rows. */
  lemma ClosedIsFrozen(s: State, call: Call, q: Id)
    requires Inv(s) && q in s.pursuits && s.pursuits[q].outcome.Some?
    requires !(call.request.OutcomeRequest? && call.p == q) && !CancelsPredecessor(s, call, q)
    ensures q in Step(s, call).pursuits && Step(s, call).pursuits[q] == s.pursuits[q]
    ensures forall i | 0 <= i < |s.rows| && s.rows[i].pursuit == q ::
              i < |Step(s, call).rows| && Step(s, call).rows[i] == s.rows[i]
    ensures forall i | |s.rows| <= i < |Step(s, call).rows| :: Step(s, call).rows[i].pursuit != q
  {
    if call.p == q {
      ClosedRefuses(s, call);
    } else {
      assert q !in Touched(s, call) by {
        if q in Touched(s, call) && call.request.OutcomeRequest? {
          OutcomeReaches(s, call, q);
        }
      }
      StepIsLawful(s, call);
    }
  }

  // ----- Auto-clear -----

  /** Cancelling resets exactly the dependents: nobody is left depending, and nothing else moves. */
  lemma AutoClearIsExact(s: State, scope: set<Id>, p: Id, alsoSetBid: bool)
    requires Inv(s) && p in s.pursuits && p in scope && s.pursuits[p].outcome != Some(Cancelled)
    ensures var r := OutcomeEndpoint(s, scope, p, Some(Cancelled), alsoSetBid);
            var gone := Dependents(s, p);
            r.Ok? && r.value.1 == gone &&
            var after := r.value.0;
            && |after.rows| == |s.rows| && after.clock == s.clock && after.pursuits.Keys == s.pursuits.Keys
            && after.pursuits[p] == s.pursuits[p].(outcome := Some(Cancelled))
            && Dependents(after, p) == {}
            && (forall q | q in s.pursuits && q != p && q !in gone :: after.pursuits[q] == s.pursuits[q])
            && (forall q | q in gone :: after.pursuits[q] == s.pursuits[q].(dependsOn := None))
            && (forall i | 0 <= i < |s.rows| && s.rows[i].pursuit !in gone :: after.rows[i] == s.rows[i])
            && (forall i | 0 <= i < |s.rows| && s.rows[i].pursuit in gone && s.rows[i].scenario == DependentWon ::
                  after.rows[i] == s.rows[i].(current := false))
            && (forall i | 0 <= i < |s.rows| && s.rows[i].pursuit in gone && CurrentFor(s.rows[i], s.rows[i].pursuit, Base) ::
                  after.rows[i] == s.rows[i].(pwin := s.rows[i].basePwin, blended := None))
            && (forall i | 0 <= i < |s.rows| && !s.rows[i].current :: after.rows[i] == s.rows[i])
  {
    var s1 := s.(pursuits := s.pursuits[p := s.pursuits[p].(outcome := Some(Cancelled))]);
    assert DependencyRules(s, p);
    assert Dependents(s1, p) == Dependents(s, p);
    var after := Cleared(s1, Dependents(s1, p));
    assert Dependents(after, p) == {};
  }

  /** Any other outcome, and a repeated cancellation, changes that pursuit alone and no row. */
  lemma OtherOutcomesClearNothing(s: State, scope: set<Id>, p: Id, outcome: Option<Outcome>, alsoSetBid: bool)
    requires Inv(s) && p in s.pursuits && (outcome != Some(Cancelled) || s.pursuits[p].outcome == Some(Cancelled))
    ensures var r := OutcomeEndpoint(s, scope, p, outcome, alsoSetBid);
            r.Ok? ==>
              && r.value.1 == {} && r.value.0.rows == s.rows && r.value.0.clock == s.clock
              && r.value.0.pursuits.Keys == s.pursuits.Keys
              && (var bid := if outcome == Some(Won) || outcome == Some(Lost) then Some(Bid) else s.pursuits[p].bid;
                  r.value.0.pursuits[p] == s.pursuits[p].(outcome := outcome, bid := bid))
              && forall q | q in s.pursuits && q != p :: r.value.0.pursuits[q] == s.pursuits[q]
  {
  }

  // ----- The dependency graph over runs -----

  /** The accepted "depends on" writes: the one kind of step that adds an edge. */
  predicate Links(s: State, call: Call) {
    && call.request.PatchRequest? && call.request.req.dependsOn.Put? && call.request.req.dependsOn.value.Some?
    && PatchEndpoint(s, call.scope, call.p, call.request.req, call.request.engines).Ok?
  }

  function LinkTarget(call: Call): Id
    requires call.request.PatchRequest? && call.request.req.dependsOn.Put? && call.request.req.dependsOn.value.Some?
  {
    call.request.req.dependsOn.value.value
  }

  lemma LostEdges(s: State, after: State)
    requires after.pursuits.Keys == s.pursuits.Keys
    requires forall q | q in s.pursuits ::
               after.pursuits[q].dependsOn.None? || after.pursuits[q].dependsOn == s.pursuits[q].dependsOn
    ensures OnlyRemoves(DepsOf(s), DepsOf(after))
  {
  }

  lemma PatchedDeps(s: State, scope: set<Id>, p: Id, req: Patch, pick: nat, after: State)
    requires PatchFault(s, scope, p, req, pick).None? && after.pursuits == s.pursuits[p := PatchedPursuit(s.pursuits[p], req)]
    ensures if req.dependsOn.Put? && req.dependsOn.value.Some?
            then && !CappedHit(DepsOf(s), req.dependsOn.value.value, p, 1, MAX_DEPTH)
                 && DepsOf(after) == DepsOf(s)[p := req.dependsOn.value]
            else OnlyRemoves(DepsOf(s), DepsOf(after))
  {
    if !(req.dependsOn.Put? && req.dependsOn.value.Some?) {
      LostEdges(s, after);
    }
  }

  lemma PatchDeps(s: State, scope: set<Id>, p: Id, req: Patch, engines: Engines)
    requires Inv(s)
    ensures var r := PatchEndpoint(s, scope, p, req, engines);
            r.Ok? ==>
              if req.dependsOn.Put? && req.dependsOn.value.Some?
              then && !CappedHit(DepsOf(s), req.dependsOn.value.value, p, 1, MAX_DEPTH)
                   && DepsOf(r.value.0) == DepsOf(s)[p := req.dependsOn.value]
              else OnlyRemoves(DepsOf(s), DepsOf(r.value.0))
  {
    PatchStep(s, scope, p, req, engines);
    PatchOk(s, scope, p, req, engines);
    var r := PatchEndpoint(s, scope, p, req, engines);
    if r.Ok? {
      PatchedDeps(s, scope, p, req, engines.lpta, r.value.0);
    }
  }

  lemma OutcomeDeps(s: State, scope: set<Id>, p: Id, outcome: Option<Outcome>, alsoSetBid: bool)
    ensures var r := OutcomeEndpoint(s, scope, p, outcome, alsoSetBid);
            r.Ok? ==> OnlyRemoves(DepsOf(s), DepsOf(r.value.0))
  {
    var r := OutcomeEndpoint(s, scope, p, outcome, alsoSetBid);
    if r.Ok? {
      LostEdges(s, r.value.0);
    }
  }

  lemma AnswersDeps(s: State, scope: set<Id>, p: Id, sc: Scenario, changes: Changes, spec: Option<Spec>,
                    options: OptionTable, pick: nat)
    ensures var r := AnswersEndpoint(s, scope, p, sc, changes, spec, options, pick);
            r.Ok? ==> OnlyRemoves(DepsOf(s), DepsOf(r.value.0))
  {
    var r := AnswersEndpoint(s, scope, p, sc, changes, spec, options, pick);
    if r.Ok? {
      hide AnswersFault, WithAnswerRow, Applied, AnswersRead;
      LostEdges(s, r.value.0);
    }
  }

  lemma StepDeps(s: State, call: Call)
    requires Inv(s)
    ensures if Links(s, call)
            then && !CappedHit(DepsOf(s), LinkTarget(call), call.p, 1, MAX_DEPTH)
                 && DepsOf(Step(s, call)) == DepsOf(s)[call.p := Some(LinkTarget(call))]
            else OnlyRemoves(DepsOf(s), DepsOf(Step(s, call)))
  {
    LostEdges(s, s);
    match call.request
    case PatchRequest(req, engines) => PatchDeps(s, call.scope, call.p, req, engines);
    case BidRequest(bid) =>
      if Step(s, call) != s {
        LostEdges(s, Step(s, call));
      }
    case OutcomeRequest(outcome, alsoSetBid) => OutcomeDeps(s, call.scope, call.p, outcome, alsoSetBid);
    case AnswersRequest(sc, changes, spec, options, pick) => AnswersDeps(s, call.scope, call.p, sc, changes, spec, options, pick);
    case RecalculateRequest(sc, engine) => RecalculateStep(s, call.scope, call.p, sc, engine);
    case SubmitRequest(sc, form, base, completed) => SubmitDeps(s, call.scope, call.p, sc, form, base, completed);
  }

  lemma SubmitDeps(s: State, scope: set<Id>, p: Id, sc: Scenario, form: Submission, base: Prob, completed: Option<int>)
    requires Inv(s)
    ensures var r := SubmitEndpoint(s, scope, p, sc, form, base, completed);
            r.Ok? ==> OnlyRemoves(DepsOf(s), DepsOf(r.value.0))
  {
    var r := SubmitEndpoint(s, scope, p, sc, form, base, completed);
    if r.Ok? {
      SubmitStep(s, scope, p, sc, form, base, completed);
      hide SubmitEndpoint;
      LostEdges(s, r.value.0);
    }
  }

  /** A step breaks the forest exactly when it links to a chain that holds its source beyond the 50th row. */
  lemma StepForestExactly(s: State, call: Call)
    requires Inv(s) && AllGrounded(DepsOf(s))
    ensures AllGrounded(DepsOf(Step(s, call))) <==>
            !(Links(s, call) && exists n: nat :: n >= 50 && Walk(DepsOf(s), LinkTarget(call), n) == Some(call.p))
  {
    StepDeps(s, call);
    if Links(s, call) {
      AcceptedWrite(DepsOf(s), call.p, LinkTarget(call), 50);
    } else {
      RemovalKeepsGrounded(DepsOf(s), DepsOf(Step(s, call)));
    }
  }

  lemma StepStaysAcyclic(s: State, call: Call)
    requires Inv(s) && ChainsWithin(DepsOf(s), 50)
    ensures AllGrounded(DepsOf(Step(s, call)))
  {
    var deps := DepsOf(s);
    ChainsWithinGrounds(deps, 50);
    StepForestExactly(s, call);
    if Links(s, call) {
      StepDeps(s, call);
      CappedIsExact(deps, LinkTarget(call), call.p, 50);
    }
  }

  /** While no chain has exceeded 50 pursuits, every run ends in a forest, where nothing depends on itself. */
  lemma {:induction false} RunStaysAcyclic(s: State, calls: seq<Call>)
    requires Inv(s) && AllGrounded(DepsOf(s))
    requires forall k | 0 <= k < |calls| :: ChainsWithin(DepsOf(Run(s, calls[..k])), 50)
    ensures AllGrounded(DepsOf(Run(s, calls))) && !Cyclic(DepsOf(Run(s, calls)))
    decreases |calls|
  {
    if calls != [] {
      assert calls[..0] == [];
      assert Run(s, calls[..0]) == s;
      var next, rest := Step(s, calls[0]), calls[1..];
      StepIsLawful(s, calls[0]);
      StepStaysAcyclic(s, calls[0]);
      forall k | 0 <= k < |rest|
        ensures ChainsWithin(DepsOf(Run(next, rest[..k])), 50)
      {
        assert calls[..k + 1][0] == calls[0] && calls[..k + 1][1..] == rest[..k];
        assert Run(s, calls[..k + 1]) == Run(next, rest[..k]);
      }
      RunStaysAcyclic(next, rest);
    } else {
      GroundedHasNoCycle(DepsOf(s));
    }
  }

  lemma LawfulIsClosed(s: State)
    requires Inv(s)
    ensures SelfContained(DepsOf(s)) && DepsOf(s).Keys == s.pursuits.Keys
  {
    forall p | p in s.pursuits && s.pursuits[p].dependsOn.Some?
      ensures s.pursuits[p].dependsOn.value in s.pursuits
    {
      assert DependencyRules(s, p);
    }
  }

  /** With at most 50 pursuits in the ledger no run can close a cycle, whatever it asks for. */
  lemma {:induction false} SmallRunStaysAcyclic(s: State, calls: seq<Call>)
    requires Inv(s) && AllGrounded(DepsOf(s)) && |s.pursuits.Keys| <= 50
    ensures AllGrounded(DepsOf(Run(s, calls))) && !Cyclic(DepsOf(Run(s, calls)))
    decreases |calls|
  {
    if calls == [] {
      GroundedHasNoCycle(DepsOf(s));
    } else {
      LawfulIsClosed(s);
      FewPursuitsWithin(DepsOf(s), 50);
      StepIsLawful(s, calls[0]);
      StepStaysAcyclic(s, calls[0]);
      SmallRunStaysAcyclic(Step(s, calls[0]), calls[1..]);
    }
    hide Step, Inv, AllGrounded, Cyclic, Touched;
  }

  function OpenPursuit(dependsOn: Option<Id>): Pursuit {
    Pursuit(None, Some(Undecided), Some(PreBh), false, false, None, None, None, None, None, dependsOn, false)
  }

  /** A ledger of open pursuits in one straight chain, with nothing assessed yet. */
  function ChainState(last: nat): State {
    State(map i: nat | i <= last :: OpenPursuit(Link(i)), [], 0)
  }

  lemma ChainStateIsLawful(last: nat)
    ensures Inv(ChainState(last)) && DepsOf(ChainState(last)) == Chain(last)
  {
    var s := ChainState(last);
    assert DepsOf(s) == Chain(last);
    forall p | p in s.pursuits
      ensures PursuitRules(s.pursuits[p]) && DependencyRules(s, p)
    {
      assert s.pursuits[p] == OpenPursuit(Link(p));
    }
  }

  function LinkTo(target: Id): Patch {
    Patch(Unset, Unset, Unset, Unset, Unset, Unset, Unset, Unset, Put(Some(target)))
  }

  lemma RootHasNoFault(s: State, last: nat, pick: nat)
    requires last > 0 && !CappedHit(DepsOf(s), last, 0, 1, MAX_DEPTH) && s.rows == []
    requires 0 in s.pursuits && last in s.pursuits
    requires s.pursuits[0] == OpenPursuit(None) && s.pursuits[last].outcome.None?
    ensures PatchFault(s, {0, last}, 0, LinkTo(last), pick).None?
  {
    assert AnswersRead(s.rows, 0, Base, pick) == map[];
    assert DependencyFault(s, {0, last}, 0, last, pick).None?;
  }

  lemma RootMayLink(last: nat, engines: Engines)
    requires last > 0 && !CappedHit(Chain(last), last, 0, 1, MAX_DEPTH)
    ensures Links(ChainState(last), Call({0, last}, 0, PatchRequest(LinkTo(last), engines)))
  {
    var s := ChainState(last);
    ChainStateIsLawful(last);
    assert s.pursuits[0] == OpenPursuit(Link(0)) && s.pursuits[last] == OpenPursuit(Link(last));
    RootHasNoFault(s, last, engines.lpta);
    PatchOk(s, {0, last}, 0, LinkTo(last), engines);
  }

  /** The bound is tight: on a chain of 51 open pursuits one PATCH of the root is accepted and closes a cycle. */
  lemma FiftyOneCloses(last: nat, engines: Engines)
    requires last == 50
    ensures Inv(ChainState(last)) && AllGrounded(DepsOf(ChainState(last)))
    ensures var call := Call({0, last}, 0, PatchRequest(LinkTo(last), engines));
            Links(ChainState(last), call) && Cyclic(DepsOf(Step(ChainState(last), call)))
  {
    ChainStateIsLawful(last);
    CapIsTight(last);
    RootMayLink(last, engines);
    StepDeps(ChainState(last), Call({0, last}, 0, PatchRequest(LinkTo(last), engines)));
  }
}
