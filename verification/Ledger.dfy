/**
 The pursuit and assessment ledger: what is stored, and what each endpoint does to it.
 Each endpoint is one transaction, given here as a function from the state before to the state
 after. The statements a transaction is made of (demote, insert, blend, clear) come first.
 */
module Ledger {
  import opened Wrappers
  import opened Cascades
  import opened DependencyGraph

  datatype Scenario = Base | DependentWon
  datatype Kind = Questionnaire | BlackHat | Ptw
  datatype Outcome = Won | Lost | Cancelled | NoBidMade
  datatype BidDecision = Bid | NoBid | Undecided
  datatype Stage = PreBh | PostBh | PostPtw

  type Prob = r: real | 0.0 <= r <= 1.0
  type BidderCount = n: int | 1 <= n <= 6 witness 1

  /** The three shapes of a stored answer: exactly one of option, number and boolean is present. */
  datatype Value = Choice(answer: string) | Number(number: real) | Flag(flag: bool)

  datatype Pursuit = Pursuit(
    outcome: Option<Outcome>, bid: Option<BidDecision>, stage: Option<Stage>, isProduct: bool,
    soleSource: bool, bidders: Option<int>,
    bpStart: Option<int>, due: Option<int>, award: Option<int>, end: Option<int>,
    dependsOn: Option<Id>, bhPtwComplete: bool)

  datatype Row = Row(
    pursuit: Id, scenario: Scenario, kind: Kind, current: bool,
    basePwin: Option<real>, pwin: Option<real>, blended: Option<real>, solePwin: bool,
    at: nat, answers: map<Code, Value>)

  /** `clock` is the time of the next request: all writes of a request store that one time. */
  datatype State = State(pursuits: map<Id, Pursuit>, rows: seq<Row>, clock: nat)

  datatype Error =
    | NotFound | Closed | NoWritableFields | OneBidder | DatesOutOfOrder | UnknownCode
    | SoleSourceDependency | LptaDependency | TargetNotFound | SelfDependency | DependencyCycle
    | NoDependentWon | PastPreBh | NoAnswers | NoPriceAnswer | EngineFailed | SoleSourceRule
    | SpecUnavailable | Faulty(fault: Fault) | UnknownAnswer | QuestionnaireFirst | CompletedTooEarly
    | BadPricing | BidRequired | BadRequest | ConstraintViolated

  /**
   What a recalculation gets from outside: which of several equally late answer rows the database
   returns, and then the engine call with everything that can fail before it, which fails or
   returns a probability.
   */
  datatype Engine = Fails(pick: nat) | Solves(pick: nat, pwin: Prob)

  const SOLE_SOURCE_PWIN: real := 0.95

  // ----- Reading the ledger -----

  predicate For(r: Row, p: Id, sc: Scenario) {
    r.pursuit == p && r.scenario == sc
  }

  predicate CurrentFor(r: Row, p: Id, sc: Scenario) {
    r.current && For(r, p, sc)
  }

  predicate AnswersFor(r: Row, p: Id, sc: Scenario) {
    r.kind == Questionnaire && For(r, p, sc)
  }

  function FindCurrent(rows: seq<Row>, p: Id, sc: Scenario): (found: Option<nat>)
    ensures found.Some? ==> found.value < |rows| && CurrentFor(rows[found.value], p, sc)
    ensures found.None? ==> forall i | 0 <= i < |rows| :: !CurrentFor(rows[i], p, sc)
  {
    if rows == [] then None
    else
      var last := |rows| - 1;
      if CurrentFor(rows[last], p, sc) then Some(last) else FindCurrent(rows[..last], p, sc)
  }

  /** Rows that share the greatest timestamp of their scenario's questionnaire rows: the database may return any of them. */
  predicate IsLatest(rows: seq<Row>, p: Id, sc: Scenario, i: nat) {
    && i < |rows| && AnswersFor(rows[i], p, sc)
    && forall j | 0 <= j < |rows| && AnswersFor(rows[j], p, sc) :: rows[j].at <= rows[i].at
  }

  /** One of the latest, the one inserted last: the answers live there, whatever row is current. */
  function LatestQuestionnaire(rows: seq<Row>, p: Id, sc: Scenario): (found: Option<nat>)
    ensures found.Some? ==> found.value < |rows| && AnswersFor(rows[found.value], p, sc)
    ensures found.Some? ==>
              forall i | 0 <= i < |rows| && AnswersFor(rows[i], p, sc) :: rows[i].at <= rows[found.value].at
    ensures found.None? ==> forall i | 0 <= i < |rows| :: !AnswersFor(rows[i], p, sc)
  {
    if rows == [] then None
    else
      var last := |rows| - 1;
      var before := LatestQuestionnaire(rows[..last], p, sc);
      if AnswersFor(rows[last], p, sc) && (before.None? || rows[before.value].at <= rows[last].at)
      then Some(last) else before
  }

  function AnswersOf(rows: seq<Row>, p: Id, sc: Scenario): map<Code, Value> {
    match LatestQuestionnaire(rows, p, sc)
    case None => map[]
    case Some(i) => rows[i].answers
  }

  /** The row a query for the latest one gets: the one the database picks, where that is a latest one at all. */
  function Picked(rows: seq<Row>, p: Id, sc: Scenario, pick: nat): (found: Option<nat>)
    ensures found.Some? ==> IsLatest(rows, p, sc, found.value)
    ensures found.None? <==> LatestQuestionnaire(rows, p, sc).None?
    ensures IsLatest(rows, p, sc, pick) ==> found == Some(pick)
  {
    if IsLatest(rows, p, sc, pick) then Some(pick) else LatestQuestionnaire(rows, p, sc)
  }

  function AnswersRead(rows: seq<Row>, p: Id, sc: Scenario, pick: nat): map<Code, Value> {
    match Picked(rows, p, sc, pick)
    case None => map[]
    case Some(i) => rows[i].answers
  }

  /** The answers as labels: a number or a boolean has none. */
  function Labels(answers: map<Code, Value>): Answers {
    map c | c in answers && answers[c].Choice? :: answers[c].answer
  }

  function CurrentPwin(rows: seq<Row>, p: Id, sc: Scenario): Option<real> {
    match FindCurrent(rows, p, sc)
    case None => None
    case Some(i) => rows[i].pwin
  }

  function DepsOf(s: State): Deps {
    map p | p in s.pursuits :: s.pursuits[p].dependsOn
  }

  // ----- Statements -----

  function Demoted(rows: seq<Row>, p: Id, sc: Scenario): (after: seq<Row>)
    ensures |after| == |rows|
    ensures forall i | 0 <= i < |rows| ::
              after[i] == if CurrentFor(rows[i], p, sc) then rows[i].(current := false) else rows[i]
  {
    seq(|rows|, i requires 0 <= i < |rows| =>
      if CurrentFor(rows[i], p, sc) then rows[i].(current := false) else rows[i])
  }

  function BlendValue(base: real, depWin: real, factor: real): real {
    base + (depWin - base) * factor
  }

  /** How likely the predecessor counts: certain once decided, its own live Pwin while open. */
  function BlendFactor(s: State, pred: Id): real {
    var outcome := if pred in s.pursuits then s.pursuits[pred].outcome else None;
    match outcome
    case Some(Won) => 1.0
    case Some(_) => 0.0
    case None => CurrentPwin(s.rows, pred, Base).GetOr(0.0)
  }

  function ApplyBlend(s: State, p: Id, pred: Id): State {
    match FindCurrent(s.rows, p, Base)
    case None => s
    case Some(i) =>
      if s.rows[i].basePwin.None? then s
      else
        var base := s.rows[i].basePwin.value;
        var depWin := CurrentPwin(s.rows, p, DependentWon).GetOr(base);
        var blended := BlendValue(base, depWin, BlendFactor(s, pred));
        s.(rows := s.rows[i := s.rows[i].(pwin := Some(blended), blended := Some(blended))])
  }

  function BlendIfDependent(s: State, p: Id): State
    requires p in s.pursuits
  {
    match s.pursuits[p].dependsOn
    case None => s
    case Some(pred) => ApplyBlend(s, p, pred)
  }

  /** Demote the row that is current for the scenario, then insert its successor. */
  function Superseded(s: State, p: Id, sc: Scenario, kind: Kind, base: real, pwin: Option<real>,
                      answers: map<Code, Value>): State
  {
    s.(rows := Demoted(s.rows, p, sc) + [Row(p, sc, kind, true, Some(base), pwin, None, false, s.clock, answers)])
  }

  /** The end of a request that stored its time. */
  function Ticked(s: State): State {
    s.(clock := s.clock + 1)
  }

  /** What clearing a dependency does to one row of a cleared pursuit. */
  function ClearedRow(r: Row): Row {
    if !r.current then r
    else match r.scenario
      case DependentWon => r.(current := false)
      case Base => r.(pwin := r.basePwin, blended := None)
  }

  /** The state once every pursuit in `gone` has lost its dependency, its row being reset with it. */
  function Cleared(s: State, gone: set<Id>): (after: State)
    ensures |after.rows| == |s.rows|
    ensures forall i | 0 <= i < |s.rows| ::
              after.rows[i] == if s.rows[i].pursuit in gone then ClearedRow(s.rows[i]) else s.rows[i]
  {
    State(map p | p in s.pursuits :: if p in gone then s.pursuits[p].(dependsOn := None) else s.pursuits[p],
          seq(|s.rows|, i requires 0 <= i < |s.rows| =>
            if s.rows[i].pursuit in gone then ClearedRow(s.rows[i]) else s.rows[i]),
          s.clock)
  }

  function Dependents(s: State, pred: Id): set<Id> {
    set p | p in s.pursuits && s.pursuits[p].dependsOn == Some(pred)
  }

  // ----- Recalculation -----

  /** Every refusal precedes the first write, so an `Err` says that nothing was stored. */
  function Recalculated(s: State, p: Id, sc: Scenario, engine: Engine): Result<State, Error> {
    if p !in s.pursuits then Err(NotFound)
    else
      var pu := s.pursuits[p];
      var answers := AnswersRead(s.rows, p, sc, engine.pick);
      if sc == DependentWon && pu.dependsOn.None? then Err(NoDependentWon)
      else if pu.stage.Some? && pu.stage.value != PreBh then Err(PastPreBh)
      else if answers == map[] then Err(NoAnswers)
      else if P1 !in Labels(answers) then Err(NoPriceAnswer)
      else if engine.Fails? then Err(EngineFailed)
      else Ok(BlendIfDependent(Superseded(s, p, sc, Questionnaire, engine.pwin, Some(engine.pwin), answers), p))
  }

  function RecalculateEndpoint(s: State, scope: set<Id>, p: Id, sc: Scenario, engine: Engine): Result<State, Error> {
    if p !in s.pursuits || p !in scope then Err(NotFound)
    else if s.pursuits[p].outcome.Some? then Err(Closed)
    else if s.pursuits[p].soleSource then Err(SoleSourceRule)
    else match Recalculated(s, p, sc, engine)
      case Err(error) => Err(error)
      case Ok(after) => Ok(Ticked(after))
  }

  // ----- PATCH of one pursuit -----

  /** A field of the request body: not mentioned, or mentioned with a value that may be null. */
  datatype Field<+T> = Unset | Put(value: Option<T>)

  /** A reference code of the request: one that resolves, or one that does not. */
  datatype Ref<+T> = Known(value: T) | Unresolved

  datatype Patch = Patch(
    bid: Field<BidDecision>, bidders: Field<BidderCount>, sole: Field<bool>,
    due: Field<int>, award: Field<int>, end: Field<int>,
    stage: Field<Ref<Stage>>, isProduct: Field<Ref<bool>>, dependsOn: Field<Id>)

  datatype PatchReply = PatchReply(dependencyCleared: bool, needsRecalc: bool)

  function Choose<T>(field: Field<T>, stored: Option<T>): Option<T> {
    match field
    case Unset => stored
    case Put(value) => value
  }

  predicate MergedSole(pu: Pursuit, req: Patch) {
    Choose(req.sole, Some(pu.soleSource)) == Some(true)
  }

  function MergedBidders(pu: Pursuit, req: Patch): Option<int> {
    match req.bidders
    case Unset => pu.bidders
    case Put(None) => None
    case Put(Some(n)) => Some(n)
  }

  predicate InOrder(dates: seq<Option<int>>) {
    forall i, j | 0 <= i < j < |dates| && dates[i].Some? && dates[j].Some? :: dates[i].value <= dates[j].value
  }

  function MergedDates(pu: Pursuit, req: Patch): seq<Option<int>> {
    [pu.bpStart, Choose(req.due, pu.due), Choose(req.award, pu.award), Choose(req.end, pu.end)]
  }

  predicate Unresolvable<T>(field: Field<Ref<T>>) {
    field.Put? && field.value == Some(Unresolved)
  }

  predicate IsLpta(answers: map<Code, Value>) {
    Lookup(Labels(answers), P2) == Some("LPTA")
  }

  /** The checks a "depends on" write must pass, in order. */
  function DependencyFault(s: State, scope: set<Id>, p: Id, target: Id, pick: nat): Option<Error> {
    if IsLpta(AnswersRead(s.rows, p, Base, pick)) then Some(LptaDependency)
    else if target !in scope || target !in s.pursuits || s.pursuits[target].outcome.Some? then Some(TargetNotFound)
    else if target == p then Some(SelfDependency)
    else if CappedHit(DepsOf(s), target, p, 1, MAX_DEPTH) then Some(DependencyCycle)
    else None
  }

  function PatchFault(s: State, scope: set<Id>, p: Id, req: Patch, pick: nat): Option<Error> {
    if req == Patch(Unset, Unset, Unset, Unset, Unset, Unset, Unset, Unset, Unset) then Some(NoWritableFields)
    else if p !in s.pursuits || p !in scope then Some(NotFound)
    else
      var pu := s.pursuits[p];
      if pu.outcome.Some? then Some(Closed)
      else if MergedSole(pu, req) && MergedBidders(pu, req).GetOr(1) != 1 then Some(OneBidder)
      else if !InOrder(MergedDates(pu, req)) then Some(DatesOutOfOrder)
      else if Unresolvable(req.isProduct) || Unresolvable(req.stage) then Some(UnknownCode)
      else if req.dependsOn.Put? && req.dependsOn.value.Some? && MergedSole(pu, req) then Some(SoleSourceDependency)
      else if req.dependsOn.Put? && req.dependsOn.value.Some? &&
              DependencyFault(s, scope, p, req.dependsOn.value.value, pick).Some?
      then DependencyFault(s, scope, p, req.dependsOn.value.value, pick)
      else if req.sole == Put(None) then Some(ConstraintViolated)
      else None
  }

  /** Turning sole source on drops a dependency the request does not itself mention. */
  predicate DropsDependency(pu: Pursuit, req: Patch) {
    req.dependsOn.Unset? && req.sole == Put(Some(true)) && !pu.soleSource && pu.dependsOn.Some?
  }

  function PatchedPursuit(pu: Pursuit, req: Patch): Pursuit {
    var dates := MergedDates(pu, req);
    pu.(bid := Choose(req.bid, pu.bid), bidders := MergedBidders(pu, req), soleSource := MergedSole(pu, req),
        due := dates[1], award := dates[2], end := dates[3],
        stage := match req.stage
                 case Unset => pu.stage
                 case Put(None) => None
                 case Put(Some(Unresolved)) => pu.stage
                 case Put(Some(Known(stage))) => Some(stage),
        isProduct := match req.isProduct
                     case Unset => pu.isProduct
                     case Put(None) => false
                     case Put(Some(Unresolved)) => pu.isProduct
                     case Put(Some(Known(product))) => product,
        dependsOn := if DropsDependency(pu, req) then None else Choose(req.dependsOn, pu.dependsOn))
  }

  /** The flat 95% rule: on the current BASE row in place, or on a first row that has no answers. */
  function SoleSourceOn(s: State, p: Id): State {
    match FindCurrent(s.rows, p, Base)
    case Some(i) =>
      s.(rows := s.rows[i := s.rows[i].(pwin := Some(SOLE_SOURCE_PWIN), blended := Some(SOLE_SOURCE_PWIN),
                                        solePwin := true, at := s.clock)])
    case None =>
      s.(rows := s.rows + [Row(p, Base, Questionnaire, true, None, Some(SOLE_SOURCE_PWIN), Some(SOLE_SOURCE_PWIN),
                               true, s.clock, map[])])
  }

  predicate StaleSolePwin(s: State, p: Id) {
    var i := FindCurrent(s.rows, p, Base);
    i.Some? && s.rows[i.value].solePwin
  }

  function OrKeep(r: Result<State, Error>, s: State): State {
    match r
    case Ok(after) => after
    case Err(_) => s
  }

  /** The ledger's answer to a changed sole-source flag; the booleans say "recalculated" and "must be recalculated". */
  function AfterSole(s: State, p: Id, req: Patch, engine: Engine): (State, bool, bool)
    requires p in s.pursuits
  {
    if req.sole.Unset? then (s, false, false)
    else if s.pursuits[p].soleSource then (SoleSourceOn(s, p), false, false)
    else if !StaleSolePwin(s, p) then (s, false, false)
    else
      var r := Recalculated(s, p, Base, engine);
      (OrKeep(r, s), r.Ok?, r.Err?)
  }

  predicate RevertsToPreBh(pu: Pursuit, req: Patch) {
    req.stage == Put(Some(Known(PreBh))) && pu.stage.Some? && pu.stage.value != PreBh
  }

  predicate HasQuestionnaire(rows: seq<Row>, p: Id, sc: Scenario) {
    LatestQuestionnaire(rows, p, sc).Some?
  }

  /** Both scenarios afresh; a refusal is reported and never undoes the stage change. */
  function AfterRevert(s: State, p: Id, engineBase: Engine, engineDep: Engine): (State, bool) {
    var base := Recalculated(s, p, Base, engineBase);
    var s1 := OrKeep(base, s);
    if !HasQuestionnaire(s1.rows, p, DependentWon) then (s1, base.Err?)
    else
      var dep := Recalculated(s1, p, DependentWon, engineDep);
      (OrKeep(dep, s1), base.Err? || dep.Err?)
  }

  /** What a PATCH gets from outside: the answer row its LPTA check reads, and up to three recalculations. */
  datatype Engines = Engines(lpta: nat, sole: Engine, base: Engine, dependentWon: Engine)

  /** The writes of an accepted PATCH: the record, then what the ledger makes of a changed flag and of a revert. */
  function Patched(s: State, p: Id, req: Patch, engines: Engines): (State, PatchReply)
    requires p in s.pursuits
  {
    var pu := s.pursuits[p];
    var s1 := s.(pursuits := s.pursuits[p := PatchedPursuit(pu, req)]);
    var (s2, baseDone, stale) := AfterSole(s1, p, req, engines.sole);
    if RevertsToPreBh(pu, req) && !baseDone then
      var (s3, failed) := AfterRevert(s2, p, engines.base, engines.dependentWon);
      (Ticked(s3), PatchReply(DropsDependency(pu, req), stale || failed))
    else (Ticked(s2), PatchReply(DropsDependency(pu, req), stale))
  }

  function PatchEndpoint(s: State, scope: set<Id>, p: Id, req: Patch, engines: Engines)
    : Result<(State, PatchReply), Error>
  {
    var fault := PatchFault(s, scope, p, req, engines.lpta);
    if fault.Some? then Err(fault.value) else Ok(Patched(s, p, req, engines))
  }

  // ----- Bid decision and outcome -----

  function BidEndpoint(s: State, scope: set<Id>, p: Id, bid: bool): Result<State, Error> {
    if p !in s.pursuits || p !in scope then Err(NotFound)
    else if s.pursuits[p].outcome.Some? then Err(Closed)
    else Ok(s.(pursuits := s.pursuits[p := s.pursuits[p].(bid := Some(if bid then Bid else NoBid))]))
  }

  predicate Decided(outcome: Option<Outcome>) {
    outcome == Some(Won) || outcome == Some(Lost)
  }

  function OutcomeEndpoint(s: State, scope: set<Id>, p: Id, outcome: Option<Outcome>, alsoSetBid: bool)
    : Result<(State, set<Id>), Error>
  {
    if outcome == Some(NoBidMade) then Err(BadRequest)
    else if p !in s.pursuits || p !in scope then Err(NotFound)
    else
      var pu := s.pursuits[p];
      if Decided(outcome) && pu.bid != Some(Bid) && !alsoSetBid then Err(BidRequired)
      else
        var closed := pu.(outcome := outcome, bid := if Decided(outcome) && alsoSetBid then Some(Bid) else pu.bid);
        var s1 := s.(pursuits := s.pursuits[p := closed]);
        if outcome == Some(Cancelled) && pu.outcome != outcome
        then Ok((Cleared(s1, Dependents(s1, p)), Dependents(s1, p)))
        else Ok((s1, {}))
  }

  // ----- Answer saves -----

  /** The active option rows of the database, against which a label is resolved before it is written. */
  type OptionTable = set<(Code, string)>

  predicate Unresolved?(options: OptionTable, changes: Changes) {
    exists c | c in changes :: changes[c].Some? && (c, changes[c].value) !in options
  }

  function Applied(answers: map<Code, Value>, changes: Changes): map<Code, Value> {
    map c | c in answers.Keys + changes.Keys && (c in changes ==> changes[c].Some?)
      :: if c in changes then Choice(changes[c].value) else answers[c]
  }

  /** An option written over a stored number or boolean would leave two values in one row. */
  predicate TwoValued(answers: map<Code, Value>, changes: Changes) {
    exists c | c in changes :: changes[c].Some? && c in answers && !answers[c].Choice?
  }

  /** The row that takes the answers, with a first row inserted when the scenario has none. */
  function WithAnswerRow(s: State, p: Id, sc: Scenario, pick: nat): (State, nat) {
    match Picked(s.rows, p, sc, pick)
    case Some(i) => (s, i)
    case None =>
      var first := Row(p, sc, Questionnaire, FindCurrent(s.rows, p, sc).None?, None, None, None, false, s.clock, map[]);
      (s.(rows := s.rows + [first]), |s.rows|)
  }

  function AnswersFault(s: State, scope: set<Id>, p: Id, sc: Scenario, changes: Changes,
                        spec: Option<Spec>, options: OptionTable, pick: nat): Option<Error>
  {
    if changes == map[] || InvestPct in changes then Some(BadRequest)
    else if p !in s.pursuits || p !in scope then Some(NotFound)
    else
      var pu := s.pursuits[p];
      var stored := AnswersRead(s.rows, p, sc, pick);
      if pu.outcome.Some? then Some(Closed)
      else if sc == DependentWon && pu.dependsOn.None? then Some(NoDependentWon)
      else if spec.None? then Some(SpecUnavailable)
      else
        var fault := FirstFault(spec.value, pu.isProduct, Merge(Labels(stored), changes), 0);
        if fault.Some? then Some(Faulty(fault.value))
        else if Unresolved?(options, changes) then Some(UnknownAnswer)
        else if TwoValued(stored, changes) then Some(ConstraintViolated)
        else None
  }

  /** An LPTA pursuit has no dependency: saving that answer for BASE drops one. */
  predicate TurnsLpta(pu: Pursuit, sc: Scenario, merged: Answers) {
    sc == Base && Lookup(merged, P2) == Some("LPTA") && pu.dependsOn.Some?
  }

  /** The writes of an accepted save, and whether they drop the dependency. */
  function Saved(s: State, p: Id, sc: Scenario, changes: Changes, pick: nat): (State, bool)
    requires p in s.pursuits
  {
    var pu := s.pursuits[p];
    var stored := AnswersRead(s.rows, p, sc, pick);
    var (s1, i) := WithAnswerRow(s, p, sc, pick);
    var s2 := s1.(rows := s1.rows[i := s1.rows[i].(answers := Applied(stored, changes))]);
    var drops := TurnsLpta(pu, sc, Merge(Labels(stored), changes));
    (Ticked(if drops then s2.(pursuits := s2.pursuits[p := pu.(dependsOn := None)]) else s2), drops)
  }

  function AnswersEndpoint(s: State, scope: set<Id>, p: Id, sc: Scenario, changes: Changes,
                           spec: Option<Spec>, options: OptionTable, pick: nat): Result<(State, bool), Error>
  {
    var fault := AnswersFault(s, scope, p, sc, changes, spec, options, pick);
    if fault.Some? then Err(fault.value) else Ok(Saved(s, p, sc, changes, pick))
  }

  // ----- Black Hat and PTW -----

  /** A Black Hat names a price option whose fee is then computed; a PTW carries its own margin. */
  datatype Submission =
    | BlackHatForm(pricing: Option<real>)
    | PtwForm

  function KindOf(form: Submission): Kind {
    if form.BlackHatForm? then BlackHat else Ptw
  }

  predicate AnyQuestionnaire(rows: seq<Row>, p: Id) {
    exists i | 0 <= i < |rows| :: rows[i].pursuit == p && rows[i].kind == Questionnaire
  }

  predicate Analysed(rows: seq<Row>, p: Id, sc: Scenario) {
    exists i | 0 <= i < |rows| :: CurrentFor(rows[i], p, sc) && rows[i].kind != Questionnaire
  }

  predicate Complete(rows: seq<Row>, p: Id, dependent: bool) {
    Analysed(rows, p, Base) && (dependent ==> Analysed(rows, p, DependentWon))
  }

  function SubmitFault(s: State, scope: set<Id>, p: Id, sc: Scenario, form: Submission, completed: Option<int>)
    : Option<Error>
  {
    if p !in s.pursuits || p !in scope then Some(NotFound)
    else
      var pu := s.pursuits[p];
      if pu.outcome.Some? then Some(Closed)
      else if sc == DependentWon && pu.dependsOn.None? then Some(NoDependentWon)
      else if !AnyQuestionnaire(s.rows, p) then Some(QuestionnaireFirst)
      else if completed.Some? && pu.bpStart.Some? && completed.value < pu.bpStart.value then Some(CompletedTooEarly)
      else if form.BlackHatForm? && (form.pricing.None? || form.pricing.value < 0.0 || form.pricing.value > 1.0)
      then Some(BadPricing)
      else None
  }

  /** The row of a submission: on a dependent pursuit a BASE one is stored without a Pwin, which the blend then fills in. */
  function Submitted(s: State, p: Id, sc: Scenario, kind: Kind, base: Prob): State
    requires p in s.pursuits
  {
    var deferred := s.pursuits[p].dependsOn.Some? && sc == Base;
    BlendIfDependent(Superseded(s, p, sc, kind, base, if deferred then None else Some(base), map[]), p)
  }

  /** The writes of an accepted submission: its row, and the completion flag the rows then call for. */
  function Recorded(s: State, p: Id, sc: Scenario, kind: Kind, base: Prob): (State, bool)
    requires p in s.pursuits
  {
    var pu := s.pursuits[p];
    var s1 := Submitted(s, p, sc, kind, base);
    var complete := Complete(s1.rows, p, pu.dependsOn.Some?);
    (Ticked(s1.(pursuits := s1.pursuits[p := pu.(bhPtwComplete := complete)])), complete)
  }

  function SubmitEndpoint(s: State, scope: set<Id>, p: Id, sc: Scenario, form: Submission, base: Prob,
                          completed: Option<int>): Result<(State, bool), Error>
  {
    var fault := SubmitFault(s, scope, p, sc, form, completed);
    if fault.Some? then Err(fault.value) else Ok(Recorded(s, p, sc, KindOf(form), base))
  }
}
