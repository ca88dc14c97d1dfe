/**
 The store itself: the endpoints as the methods that update it, statement by statement. Each is
 proved against its function in `Ledger`; a refused request leaves the store as it found it.
 */
module LedgerStore {
  import opened Wrappers
  import opened Cascades
  import opened DependencyGraph
  import opened Ledger
  import opened LedgerInvariant
  import opened LedgerSteps

  /** The current BASE row moved from its standalone Pwin towards the dependent-won one, as far as the predecessor weighs. */
  ghost predicate Weighed(s: State, after: seq<Row>, p: Id, pred: Id) {
    forall i: nat, weight: real, depWin: real |
      && i < |s.rows| && CurrentFor(s.rows[i], p, Base) && s.rows[i].basePwin.Some?
      && IsWeight(s, pred, weight) && IsPwinOr(s.rows, p, DependentWon, s.rows[i].basePwin.value, depWin) ::
      && i < |after| && after[i].pwin.Some? && after[i].blended == after[i].pwin
      && after[i].pwin.value - s.rows[i].basePwin.value == weight * (depWin - s.rows[i].basePwin.value)
  }

  lemma ApplyBlendWeighs(s: State, p: Id, pred: Id)
    ensures OneCurrent(s.rows) ==> Weighed(s, ApplyBlend(s, p, pred).rows, p, pred)
  {
    var after := ApplyBlend(s, p, pred).rows;
    hide CurrentFor, OneCurrent, IsWeight, IsPwinOr, ApplyBlend;
    if OneCurrent(s.rows) {
      forall i: nat, weight: real, depWin: real |
        && i < |s.rows| && CurrentFor(s.rows[i], p, Base) && s.rows[i].basePwin.Some?
        && IsWeight(s, pred, weight) && IsPwinOr(s.rows, p, DependentWon, s.rows[i].basePwin.value, depWin)
        ensures && i < |after| && after[i].pwin.Some? && after[i].blended == after[i].pwin
                && after[i].pwin.value - s.rows[i].basePwin.value == weight * (depWin - s.rows[i].basePwin.value)
      {
        BlendStores(s, p, pred, i, weight, depWin);
      }
    }
  }

  class Store {
    var pursuits: map<Id, Pursuit>
    var rows: seq<Row>
    var clock: nat

    ghost function Contents(): State
      reads this
    {
      State(pursuits, rows, clock)
    }

    ghost predicate Valid()
      reads this
    {
      Inv(Contents())
    }

    /** A store loaded from existing tables. */
    constructor (pursuits: map<Id, Pursuit>, rows: seq<Row>, clock: nat)
      requires Inv(State(pursuits, rows, clock))
      ensures Valid() && Contents() == State(pursuits, rows, clock)
    {
      this.pursuits, this.rows, this.clock := pursuits, rows, clock;
    }

    // ----- Shared parts of the transactions -----

    method ApplyDependencyBlend(p: Id, pred: Id)
      modifies this`rows
      ensures Contents() == ApplyBlend(old(Contents()), p, pred)
      ensures OneCurrent(old(rows)) ==> Weighed(old(Contents()), rows, p, pred)
    {
      ghost var before := Contents();
      var found := FindCurrent(rows, p, Base);
      if found.None? || rows[found.value].basePwin.None? {
        ApplyBlendWeighs(before, p, pred);
        return;
      }
      var base := rows[found.value].basePwin.value;
      var depWin := base;
      var won := FindCurrent(rows, p, DependentWon);
      if won.Some? && rows[won.value].pwin.Some? {
        depWin := rows[won.value].pwin.value;
      }
      var outcome := if pred in pursuits then pursuits[pred].outcome else None;
      var factor: real;
      if outcome == Some(Won) {
        factor := 1.0;
      } else if outcome == Some(Lost) || outcome == Some(Cancelled) || outcome == Some(NoBidMade) {
        factor := 0.0;
      } else {
        var live := FindCurrent(rows, pred, Base);
        factor := if live.Some? && rows[live.value].pwin.Some? then rows[live.value].pwin.value else 0.0;
      }
      var blended := base + (depWin - base) * factor;
      rows := rows[found.value := rows[found.value].(pwin := Some(blended), blended := Some(blended))];
      assert factor == BlendFactor(before, pred);
      assert depWin == CurrentPwin(before.rows, p, DependentWon).GetOr(base);
      assert blended == BlendValue(base, depWin, factor);
      assert Contents() == ApplyBlend(before, p, pred);
      ApplyBlendWeighs(before, p, pred);
    }

    /** Demote, insert, carry every stored answer forward, blend; or refuse before any of it. */
    method RecalculatePwin(p: Id, sc: Scenario, engine: Engine) returns (fault: Option<Error>)
      modifies this`rows
      ensures match Recalculated(old(Contents()), p, sc, engine)
              case Ok(after) => fault == None && Contents() == after
              case Err(error) => fault == Some(error) && Contents() == old(Contents())
    {
      if p !in pursuits {
        return Some(NotFound);
      }
      if sc == DependentWon && pursuits[p].dependsOn.None? {
        return Some(NoDependentWon);
      }
      if pursuits[p].stage.Some? && pursuits[p].stage.value != PreBh {
        return Some(PastPreBh);
      }
      var answers := AnswersRead(rows, p, sc, engine.pick);
      if answers == map[] {
        return Some(NoAnswers);
      }
      if P1 !in Labels(answers) {
        return Some(NoPriceAnswer);
      }
      if engine.Fails? {
        return Some(EngineFailed);
      }
      rows := Demoted(rows, p, sc);
      InsertWithAnswers(Row(p, sc, Questionnaire, true, Some(engine.pwin), Some(engine.pwin), None, false, clock, map[]), answers);
      if pursuits[p].dependsOn.Some? {
        ApplyDependencyBlend(p, pursuits[p].dependsOn.value);
      }
      return None;
    }

    /** Inserts a row and then its answers, one by one. */
    method InsertWithAnswers(r: Row, answers: map<Code, Value>)
      requires r.answers == map[]
      modifies this`rows
      ensures rows == old(rows) + [r.(answers := answers)]
    {
      rows := rows + [r];
      var todo := answers.Keys;
      assert answers - todo == map[];
      while todo != {}
        invariant todo <= answers.Keys
        invariant rows == old(rows) + [r.(answers := answers - todo)]
        decreases |todo|
      {
        var c :| c in todo;
        var last := |rows| - 1;
        rows := rows[last := rows[last].(answers := rows[last].answers[c := answers[c]])];
        assert (answers - todo)[c := answers[c]] == answers - (todo - {c});
        todo := todo - {c};
      }
      assert answers - {} == answers;
    }

    /** Every dependent of a cancelled pursuit loses its dependency, its row being reset with it. */
    method AutoClearDependents(pred: Id) returns (cleared: set<Id>)
      modifies this`pursuits, this`rows
      ensures cleared == Dependents(old(Contents()), pred)
      ensures Contents() == Cleared(old(Contents()), cleared)
    {
      ghost var before := Contents();
      var dependents := set q | q in pursuits && pursuits[q].dependsOn == Some(pred);
      cleared := {};
      NothingCleared(before);
      while cleared != dependents
        invariant cleared <= dependents && dependents == Dependents(before, pred)
        invariant Contents() == Cleared(before, cleared)
        decreases dependents - cleared
      {
        hide Cleared;
        assert dependents - cleared != {};
        var q :| q in dependents - cleared;
        ClearedOneMore(before, cleared, q);
        ClearDependent(q);
        cleared := cleared + {q};
      }
    }

    /** The three statements for one dependent. */
    method ClearDependent(q: Id)
      requires q in pursuits
      modifies this`pursuits, this`rows
      ensures Contents() == Cleared(old(Contents()), {q})
    {
      ghost var before := Contents();
      pursuits := pursuits[q := pursuits[q].(dependsOn := None)];
      rows := seq(|rows|, i requires 0 <= i < |rows| reads this =>
        if CurrentFor(rows[i], q, DependentWon) then rows[i].(current := false) else rows[i]);
      rows := seq(|rows|, i requires 0 <= i < |rows| reads this =>
        if CurrentFor(rows[i], q, Base) then rows[i].(pwin := rows[i].basePwin, blended := None) else rows[i]);
      assert pursuits == Cleared(before, {q}).pursuits;
      assert rows == Cleared(before, {q}).rows;
    }

    // ----- Endpoints -----

    method PatchPursuit(scope: set<Id>, p: Id, req: Patch, engines: Engines) returns (r: Result<PatchReply, Error>)
      requires Valid()
      modifies this
      ensures Valid()
      ensures match PatchEndpoint(old(Contents()), scope, p, req, engines)
              case Ok(result) => r == Ok(result.1) && Contents() == result.0
              case Err(error) => r == Err(error) && Contents() == old(Contents())
    {
      PatchStep(Contents(), scope, p, req, engines);
      hide Inv, Advances, PatchFault, Patched, KeepsAnswers, PatchedPursuit;
      var fault := PatchFault(State(pursuits, rows, clock), scope, p, req, engines.lpta);
      if fault.Some? {
        return Err(fault.value);
      }
      assert p in pursuits;
      var reply := WritePatch(p, req, engines);
      return Ok(reply);
    }

    method WritePatch(p: Id, req: Patch, engines: Engines) returns (reply: PatchReply)
      requires p in pursuits
      modifies this
      ensures (Contents(), reply) == Patched(old(Contents()), p, req, engines)
    {
      hide PatchedPursuit, DropsDependency, RevertsToPreBh, AfterSole, AfterRevert;
      var pu := pursuits[p];
      var dependencyCleared := DropsDependency(pu, req);
      pursuits := pursuits[p := PatchedPursuit(pu, req)];
      var needsRecalc, baseDone := ReactToSoleSource(p, req, engines.sole);
      if RevertsToPreBh(pu, req) && !baseDone {
        var failed := ReactToRevert(p, engines.base, engines.dependentWon);
        needsRecalc := needsRecalc || failed;
      }
      clock := clock + 1;
      return PatchReply(dependencyCleared, needsRecalc);
    }

    method ReactToSoleSource(p: Id, req: Patch, engine: Engine) returns (needsRecalc: bool, baseDone: bool)
      requires p in pursuits
      modifies this`rows
      ensures (Contents(), baseDone, needsRecalc) == AfterSole(old(Contents()), p, req, engine)
    {
      needsRecalc, baseDone := false, false;
      if req.sole.Put? && pursuits[p].soleSource {
        var found := FindCurrent(rows, p, Base);
        if found.Some? {
          rows := rows[found.value := rows[found.value].(pwin := Some(SOLE_SOURCE_PWIN), blended := Some(SOLE_SOURCE_PWIN),
                                                         solePwin := true, at := clock)];
        } else {
          rows := rows + [Row(p, Base, Questionnaire, true, None, Some(SOLE_SOURCE_PWIN), Some(SOLE_SOURCE_PWIN),
                              true, clock, map[])];
        }
      } else if req.sole.Put? {
        var found := FindCurrent(rows, p, Base);
        if found.Some? && rows[found.value].solePwin {
          var fault := RecalculatePwin(p, Base, engine);
          needsRecalc, baseDone := fault.Some?, fault.None?;
        }
      }
    }

    method ReactToRevert(p: Id, engineBase: Engine, engineDep: Engine) returns (failed: bool)
      modifies this`rows
      ensures (Contents(), failed) == AfterRevert(old(Contents()), p, engineBase, engineDep)
    {
      var fault := RecalculatePwin(p, Base, engineBase);
      failed := fault.Some?;
      if LatestQuestionnaire(rows, p, DependentWon).Some? {
        fault := RecalculatePwin(p, DependentWon, engineDep);
        failed := failed || fault.Some?;
      }
    }

    method SetBid(scope: set<Id>, p: Id, bid: bool) returns (r: Result<BidDecision, Error>)
      requires Valid()
      modifies this
      ensures Valid()
      ensures match BidEndpoint(old(Contents()), scope, p, bid)
              case Ok(after) => Contents() == after && p in pursuits && r.Ok? && pursuits[p].bid == Some(r.value)
              case Err(error) => r == Err(error) && Contents() == old(Contents())
      ensures r.Ok? <==> p in old(pursuits) && p in scope && old(pursuits)[p].outcome.None?
      ensures r.Ok? ==> (r.value == Bid <==> bid) && (r.value == NoBid <==> !bid)
    {
      BidStep(Contents(), scope, p, bid);
      var decision := if bid then Bid else NoBid;
      if p !in pursuits || p !in scope {
        return Err(NotFound);
      }
      if pursuits[p].outcome.Some? {
        return Err(Closed);
      }
      if pursuits[p].bid != Some(decision) {
        pursuits := pursuits[p := pursuits[p].(bid := Some(decision))];
      }
      assert pursuits == old(pursuits)[p := old(pursuits)[p].(bid := Some(decision))];
      return Ok(decision);
    }

    /** Returns the dependents whose dependency the new outcome cleared. */
    method SetOutcome(scope: set<Id>, p: Id, outcome: Option<Outcome>, alsoSetBid: bool) returns (r: Result<set<Id>, Error>)
      requires Valid()
      modifies this
      ensures Valid()
      ensures match OutcomeEndpoint(old(Contents()), scope, p, outcome, alsoSetBid)
              case Ok(result) => r == Ok(result.1) && Contents() == result.0
              case Err(error) => r == Err(error) && Contents() == old(Contents())
    {
      OutcomeStep(Contents(), scope, p, outcome, alsoSetBid);
      if outcome == Some(NoBidMade) {
        return Err(BadRequest);
      }
      if p !in pursuits || p !in scope {
        return Err(NotFound);
      }
      var pu := pursuits[p];
      if Decided(outcome) && pu.bid != Some(Bid) && !alsoSetBid {
        return Err(BidRequired);
      }
      var bid := if Decided(outcome) && alsoSetBid then Some(Bid) else pu.bid;
      pursuits := pursuits[p := pu.(outcome := outcome, bid := bid)];
      var cleared: set<Id> := {};
      if outcome == Some(Cancelled) && pu.outcome != outcome {
        cleared := AutoClearDependents(p);
      }
      return Ok(cleared);
    }

    /** Returns whether an LPTA answer dropped the dependency. */
    method SetAnswers(scope: set<Id>, p: Id, sc: Scenario, changes: Changes, spec: Option<Spec>, options: OptionTable,
                      pick: nat)
      returns (r: Result<bool, Error>)
      requires Valid()
      modifies this
      ensures Valid()
      ensures match AnswersEndpoint(old(Contents()), scope, p, sc, changes, spec, options, pick)
              case Ok(result) => r == Ok(result.1) && Contents() == result.0
              case Err(error) => r == Err(error) && Contents() == old(Contents())
    {
      AnswersStep(Contents(), scope, p, sc, changes, spec, options, pick);
      hide Inv, Advances, AnswersFault, Saved, TwoValued, AnswersRead;
      var fault := CheckAnswers(scope, p, sc, changes, spec, options, pick);
      if fault.Some? {
        return Err(fault.value);
      }
      var drops := SaveAnswers(p, sc, changes, pick);
      return Ok(drops);
    }

    method SaveAnswers(p: Id, sc: Scenario, changes: Changes, pick: nat) returns (drops: bool)
      requires p in pursuits
      modifies this
      ensures (Contents(), drops) == Saved(old(Contents()), p, sc, changes, pick)
    {
      hide AnswersRead, Applied, Labels, Merge, TurnsLpta;
      var pu := pursuits[p];
      drops := TurnsLpta(pu, sc, Merge(Labels(AnswersRead(rows, p, sc, pick)), changes));
      WriteAnswers(p, sc, changes, pick);
      if drops {
        pursuits := pursuits[p := pu.(dependsOn := None)];
      }
      clock := clock + 1;
    }

    /** The cascade check sees the whole set the save would produce, not the changed questions alone. */
    method CheckAnswers(scope: set<Id>, p: Id, sc: Scenario, changes: Changes, spec: Option<Spec>, options: OptionTable,
                        pick: nat)
      returns (fault: Option<Error>)
      ensures fault == AnswersFault(Contents(), scope, p, sc, changes, spec, options, pick)
      ensures fault.None? ==> p in pursuits
    {
      if changes == map[] || InvestPct in changes {
        return Some(BadRequest);
      }
      if p !in pursuits || p !in scope {
        return Some(NotFound);
      }
      var pu := pursuits[p];
      if pu.outcome.Some? {
        return Some(Closed);
      }
      if sc == DependentWon && pu.dependsOn.None? {
        return Some(NoDependentWon);
      }
      if spec.None? {
        return Some(SpecUnavailable);
      }
      var stored := AnswersRead(rows, p, sc, pick);
      var illegal := FindFault(spec.value, pu.isProduct, Merge(Labels(stored), changes));
      if illegal.Some? {
        return Some(Faulty(illegal.value));
      }
      if Unresolved?(options, changes) {
        return Some(UnknownAnswer);
      }
      if TwoValued(stored, changes) {
        return Some(ConstraintViolated);
      }
      return None;
    }

    /** Writes to the questionnaire row that was read, or to a first one inserted for the scenario. */
    method WriteAnswers(p: Id, sc: Scenario, changes: Changes, pick: nat)
      modifies this`rows
      ensures var (s1, i) := WithAnswerRow(old(Contents()), p, sc, pick);
              i < |s1.rows| &&
              rows == s1.rows[i := s1.rows[i].(answers := Applied(AnswersRead(old(rows), p, sc, pick), changes))]
    {
      var latest := Picked(rows, p, sc, pick);
      if latest.Some? {
        UpsertAnswers(latest.value, changes);
      } else {
        var current := FindCurrent(rows, p, sc).None?;
        rows := rows + [Row(p, sc, Questionnaire, current, None, None, None, false, clock, map[])];
        UpsertAnswers(|rows| - 1, changes);
      }
    }

    /** Deletes each cleared answer and upserts each set one. */
    method UpsertAnswers(i: nat, changes: Changes)
      requires i < |rows|
      modifies this`rows
      ensures rows == old(rows)[i := old(rows)[i].(answers := Applied(old(rows)[i].answers, changes))]
    {
      ghost var stored := rows[i].answers;
      var answers := rows[i].answers;
      var todo := changes.Keys;
      NothingApplied(stored, changes);
      while todo != {}
        invariant todo <= changes.Keys
        invariant answers == Applied(stored, changes - todo)
        invariant rows == old(rows)[i := old(rows)[i].(answers := answers)]
        decreases |todo|
      {
        var c :| c in todo;
        AppliedOneMore(stored, changes, todo, c);
        answers := match changes[c] case None => answers - {c} case Some(answer) => answers[c := Choice(answer)];
        rows := rows[i := rows[i].(answers := answers)];
        todo := todo - {c};
      }
      assert changes - {} == changes;
    }

    method Recalculate(scope: set<Id>, p: Id, sc: Scenario, engine: Engine) returns (fault: Option<Error>)
      requires Valid()
      modifies this`rows, this`clock
      ensures Valid()
      ensures match RecalculateEndpoint(old(Contents()), scope, p, sc, engine)
              case Ok(after) => fault == None && Contents() == after
              case Err(error) => fault == Some(error) && Contents() == old(Contents())
    {
      RecalculateStep(Contents(), scope, p, sc, engine);
      hide Inv, Advances, KeepsAnswers, Recalculated, Ticked;
      if p !in pursuits || p !in scope {
        return Some(NotFound);
      }
      if pursuits[p].outcome.Some? {
        return Some(Closed);
      }
      if pursuits[p].soleSource {
        return Some(SoleSourceRule);
      }
      fault := WriteRecalculation(p, sc, engine);
    }

    method WriteRecalculation(p: Id, sc: Scenario, engine: Engine) returns (fault: Option<Error>)
      modifies this`rows, this`clock
      ensures match Recalculated(old(Contents()), p, sc, engine)
              case Ok(after) => fault == None && Contents() == Ticked(after)
              case Err(error) => fault == Some(error) && Contents() == old(Contents())
    {
      hide Recalculated;
      fault := RecalculatePwin(p, sc, engine);
      if fault.None? {
        clock := clock + 1;
      }
    }

    /** Black Hat and PTW. Returns whether every scenario the pursuit needs now has an analysed row. */
    method Submit(scope: set<Id>, p: Id, sc: Scenario, form: Submission, base: Prob, completed: Option<int>)
      returns (r: Result<bool, Error>)
      requires Valid()
      modifies this
      ensures Valid()
      ensures match SubmitEndpoint(old(Contents()), scope, p, sc, form, base, completed)
              case Ok(result) => r == Ok(result.1) && Contents() == result.0
              case Err(error) => r == Err(error) && Contents() == old(Contents())
    {
      SubmitStep(Contents(), scope, p, sc, form, base, completed);
      hide Inv, Advances, SubmitFault, Recorded, KeepsAnswers;
      var fault := SubmitFault(State(pursuits, rows, clock), scope, p, sc, form, completed);
      if fault.Some? {
        return Err(fault.value);
      }
      assert p in pursuits;
      var complete := Record(p, sc, KindOf(form), base);
      return Ok(complete);
    }

    method Record(p: Id, sc: Scenario, kind: Kind, base: Prob) returns (complete: bool)
      requires p in pursuits
      modifies this
      ensures (Contents(), complete) == Recorded(old(Contents()), p, sc, kind, base)
    {
      var dependent := pursuits[p].dependsOn.Some?;
      RecordSubmission(p, sc, kind, base);
      hide Submitted, Complete;
      complete := RecomputeComplete(p, dependent);
      clock := clock + 1;
    }

    /** A BASE submission on a dependent pursuit goes in without a Pwin; the blend that follows supplies it. */
    method RecordSubmission(p: Id, sc: Scenario, kind: Kind, base: Prob)
      requires p in pursuits
      modifies this`rows
      ensures Contents() == Submitted(old(Contents()), p, sc, kind, base)
    {
      var dependsOn := pursuits[p].dependsOn;
      var pwin: Option<real> := if dependsOn.Some? && sc == Base then None else Some(base);
      rows := Demoted(rows, p, sc);
      rows := rows + [Row(p, sc, kind, true, Some(base), pwin, None, false, clock, map[])];
      if dependsOn.Some? {
        ApplyDependencyBlend(p, dependsOn.value);
      }
    }

    method RecomputeComplete(p: Id, dependent: bool) returns (complete: bool)
      requires p in pursuits
      modifies this`pursuits
      ensures complete == Complete(rows, p, dependent)
      ensures pursuits == old(pursuits)[p := old(pursuits)[p].(bhPtwComplete := complete)]
    {
      var done: set<Scenario> := {};
      for i := 0 to |rows|
        invariant pursuits == old(pursuits)
        invariant forall sc :: sc in done <==> Analysed(rows[..i], p, sc)
      {
        var r := rows[i];
        assert rows[..i + 1] == rows[..i] + [r];
        if r.pursuit == p && r.current && r.kind != Questionnaire {
          assert CurrentFor(rows[..i + 1][i], p, r.scenario);
          done := done + {r.scenario};
        }
        AnalysedOneMore(rows[..i], r, p);
      }
      assert rows[..|rows|] == rows;
      complete := (if dependent then {Base, DependentWon} else {Base}) <= done;
      pursuits := pursuits[p := pursuits[p].(bhPtwComplete := complete)];
    }
  }

  lemma NothingCleared(s: State)
    ensures Cleared(s, {}) == s
  {
    assert Cleared(s, {}).rows == s.rows && Cleared(s, {}).pursuits == s.pursuits;
  }

  lemma ClearedOneMore(s: State, gone: set<Id>, q: Id)
    requires q in s.pursuits && q !in gone
    ensures q in Cleared(s, gone).pursuits && Cleared(Cleared(s, gone), {q}) == Cleared(s, gone + {q})
  {
    var twice, once := Cleared(Cleared(s, gone), {q}), Cleared(s, gone + {q});
    assert twice.rows == once.rows;
    assert twice.pursuits == once.pursuits;
  }

  lemma NothingApplied(stored: map<Code, Value>, changes: Changes)
    ensures Applied(stored, changes - changes.Keys) == stored
  {
  }

  lemma AppliedOneMore(stored: map<Code, Value>, changes: Changes, todo: set<Code>, c: Code)
    requires c in todo && todo <= changes.Keys
    ensures Applied(stored, changes - (todo - {c})) ==
            match changes[c]
            case None => Applied(stored, changes - todo) - {c}
            case Some(answer) => Applied(stored, changes - todo)[c := Choice(answer)]
  {
    var before, after := changes - todo, changes - (todo - {c});
    assert after == before[c := changes[c]];
  }

  lemma AnalysedOneMore(rows: seq<Row>, r: Row, p: Id)
    ensures forall sc :: Analysed(rows + [r], p, sc) <==>
                         Analysed(rows, p, sc) || (CurrentFor(r, p, sc) && r.kind != Questionnaire)
  {
    forall sc
      ensures Analysed(rows + [r], p, sc) <==> Analysed(rows, p, sc) || (CurrentFor(r, p, sc) && r.kind != Questionnaire)
    {
      if CurrentFor(r, p, sc) && r.kind != Questionnaire {
        assert CurrentFor((rows + [r])[|rows|], p, sc);
      }
      if Analysed(rows, p, sc) {
        var i :| 0 <= i < |rows| && CurrentFor(rows[i], p, sc) && rows[i].kind != Questionnaire;
        assert CurrentFor((rows + [r])[i], p, sc);
      }
    }
  }
}
