/** What every endpoint keeps: the discipline of the assessment rows and the rules of the pursuit lifecycle. */
module LedgerInvariant {
  import opened Wrappers
  import opened Cascades
  import opened DependencyGraph
  import opened Ledger

  // ----- Row discipline -----

  /** Stored before `clock`. Within a request that writes at time `t` the bound is `t + 1`. */
  ghost predicate Stamped(rows: seq<Row>, clock: nat) {
    forall i | 0 <= i < |rows| :: rows[i].at < clock
  }

  /** At most one current row per pursuit and scenario. */
  ghost predicate OneCurrent(rows: seq<Row>) {
    forall i, j | 0 <= i < j < |rows| && rows[i].current && rows[j].current ::
      rows[i].pursuit != rows[j].pursuit || rows[i].scenario != rows[j].scenario
  }

  ghost predicate HasCurrent(rows: seq<Row>, p: Id, sc: Scenario) {
    exists i :: 0 <= i < |rows| && CurrentFor(rows[i], p, sc)
  }

  /** Once a pursuit has any BASE row, one of them is current. */
  ghost predicate BaseIsCurrent(rows: seq<Row>) {
    forall i | 0 <= i < |rows| && rows[i].scenario == Base :: HasCurrent(rows, rows[i].pursuit, Base)
  }

  /** A current questionnaire row is the latest one: the live Pwin and the answers cannot drift apart. */
  ghost predicate CurrentIsLatest(rows: seq<Row>) {
    forall i, j | 0 <= i < |rows| && 0 <= j < |rows| && rows[i].current && rows[i].kind == Questionnaire &&
                  AnswersFor(rows[j], rows[i].pursuit, rows[i].scenario) :: rows[j].at <= rows[i].at
  }

  predicate InRange(value: Option<real>) {
    value.Some? ==> 0.0 <= value.value <= 1.0
  }

  predicate RowInRange(r: Row) {
    InRange(r.basePwin) && InRange(r.pwin) && InRange(r.blended)
  }

  ghost predicate AllInRange(rows: seq<Row>) {
    forall i | 0 <= i < |rows| :: RowInRange(rows[i])
  }

  ghost predicate Disciplined(rows: seq<Row>, clock: nat) {
    Stamped(rows, clock) && OneCurrent(rows) && BaseIsCurrent(rows) && CurrentIsLatest(rows) && AllInRange(rows)
  }

  // ----- Lifecycle rules -----

  ghost predicate PursuitRules(pu: Pursuit) {
    && (pu.soleSource ==> pu.dependsOn.None? && (pu.bidders.None? || pu.bidders == Some(1)))
    && (Decided(pu.outcome) ==> pu.bid == Some(Bid))
    && InOrder([pu.bpStart, pu.due, pu.award, pu.end])
  }

  predicate Abandoned(outcome: Option<Outcome>) {
    outcome == Some(Cancelled) || outcome == Some(NoBidMade)
  }

  ghost predicate DependencyRules(s: State, p: Id)
    requires p in s.pursuits
  {
    s.pursuits[p].dependsOn.Some? ==>
      var pred := s.pursuits[p].dependsOn.value;
      pred != p && pred in s.pursuits && !Abandoned(s.pursuits[pred].outcome)
  }

  ghost predicate Lifecycle(s: State) {
    && (forall p | p in s.pursuits :: PursuitRules(s.pursuits[p]))
    && (forall p | p in s.pursuits :: DependencyRules(s, p))
    && (forall i | 0 <= i < |s.rows| :: s.rows[i].pursuit in s.pursuits)
  }

  ghost predicate Inv(s: State) {
    Disciplined(s.rows, s.clock) && Lifecycle(s)
  }

  // ----- Where the answers live -----

  /** Equally late rows hold the same answers, so it makes no difference which one a query gets. */
  ghost predicate Agreed(rows: seq<Row>) {
    forall p: Id, sc: Scenario, i: nat | IsLatest(rows, p, sc, i) :: rows[i].answers == AnswersOf(rows, p, sc)
  }

  /** A pursuit whose latest BASE answers say LPTA depends on nobody. */
  ghost predicate LptaRules(s: State) {
    forall p | p in s.pursuits && s.pursuits[p].dependsOn.Some? :: !IsLpta(AnswersOf(s.rows, p, Base))
  }

  ghost predicate Consistent(s: State) {
    Agreed(s.rows) && LptaRules(s)
  }

  lemma AgreedRead(rows: seq<Row>, p: Id, sc: Scenario, pick: nat)
    requires Agreed(rows)
    ensures AnswersRead(rows, p, sc, pick) == AnswersOf(rows, p, sc)
  {
    var found := Picked(rows, p, sc, pick);
    if found.Some? {
      assert IsLatest(rows, p, sc, found.value);
    }
  }

  ghost predicate SameAnswers(rows: seq<Row>, after: seq<Row>) {
    forall p: Id, sc: Scenario :: AnswersOf(after, p, sc) == AnswersOf(rows, p, sc)
  }

  /** From agreed rows: agreed rows again, with the same answers for every pursuit and scenario. */
  ghost predicate KeepsAnswers(rows: seq<Row>, after: seq<Row>) {
    Agreed(rows) ==> Agreed(after) && SameAnswers(rows, after)
  }

  lemma KeepsAnswersTwice(a: seq<Row>, b: seq<Row>, c: seq<Row>)
    requires KeepsAnswers(a, b) && KeepsAnswers(b, c)
    ensures KeepsAnswers(a, c)
  {
    if Agreed(a) {
      forall p: Id, sc: Scenario
        ensures AnswersOf(c, p, sc) == AnswersOf(a, p, sc)
      {
        assert AnswersOf(b, p, sc) == AnswersOf(a, p, sc);
      }
    }
  }

  /** An answer set that a query may get. */
  ghost predicate Readable(rows: seq<Row>, p: Id, sc: Scenario, answers: map<Code, Value>) {
    exists pick: nat :: AnswersRead(rows, p, sc, pick) == answers
  }

  /** Every answer set that can be read afterwards could be read before. */
  ghost predicate ReadsFrom(rows: seq<Row>, after: seq<Row>) {
    forall p: Id, sc: Scenario, pick: nat :: Readable(rows, p, sc, AnswersRead(after, p, sc, pick))
  }

  lemma ReadsFromTwice(a: seq<Row>, b: seq<Row>, c: seq<Row>)
    requires ReadsFrom(a, b) && ReadsFrom(b, c)
    ensures ReadsFrom(a, c)
  {
    forall p: Id, sc: Scenario, pick: nat
      ensures Readable(a, p, sc, AnswersRead(c, p, sc, pick))
    {
      assert Readable(b, p, sc, AnswersRead(c, p, sc, pick));
      var k: nat :| AnswersRead(b, p, sc, k) == AnswersRead(c, p, sc, pick);
      assert Readable(a, p, sc, AnswersRead(b, p, sc, k));
    }
    hide AnswersRead;
  }

  lemma ReadsSame(rows: seq<Row>)
    ensures ReadsFrom(rows, rows)
  {
  }

  /** A latest row is read when the database picks it. */
  lemma LatestIsReadable(rows: seq<Row>, p: Id, sc: Scenario, i: nat)
    requires IsLatest(rows, p, sc, i)
    ensures Readable(rows, p, sc, rows[i].answers)
  {
    assert AnswersRead(rows, p, sc, i) == rows[i].answers;
  }

  /** What decides where answers are read, and what is read there. */
  predicate SameAnswerPart(r: Row, after: Row) {
    && after.pursuit == r.pursuit && after.scenario == r.scenario && after.kind == r.kind
    && after.at == r.at && after.answers == r.answers
  }

  ghost predicate SameAnswerRows(rows: seq<Row>, after: seq<Row>, p: Id, sc: Scenario) {
    && |after| == |rows|
    && forall i | 0 <= i < |rows| ::
         && AnswersFor(after[i], p, sc) == AnswersFor(rows[i], p, sc)
         && (AnswersFor(rows[i], p, sc) ==> after[i].at == rows[i].at && after[i].answers == rows[i].answers)
  }

  lemma {:induction false} SameLatest(rows: seq<Row>, after: seq<Row>, p: Id, sc: Scenario)
    requires SameAnswerRows(rows, after, p, sc)
    ensures LatestQuestionnaire(after, p, sc) == LatestQuestionnaire(rows, p, sc)
    ensures AnswersOf(after, p, sc) == AnswersOf(rows, p, sc)
  {
    if rows != [] {
      var last := |rows| - 1;
      assert SameAnswerRows(rows[..last], after[..last], p, sc);
      SameLatest(rows[..last], after[..last], p, sc);
    }
  }

  lemma SameIsLatest(rows: seq<Row>, after: seq<Row>, p: Id, sc: Scenario, i: nat)
    requires SameAnswerRows(rows, after, p, sc)
    ensures IsLatest(after, p, sc, i) == IsLatest(rows, p, sc, i)
  {
    if i < |rows| && AnswersFor(rows[i], p, sc) {
      assert forall j | 0 <= j < |rows| :: AnswersFor(after[j], p, sc) == AnswersFor(rows[j], p, sc);
    }
  }

  lemma PartsKeep(rows: seq<Row>, after: seq<Row>)
    requires |after| == |rows| && forall i | 0 <= i < |rows| :: SameAnswerPart(rows[i], after[i])
    ensures KeepsAnswers(rows, after)
  {
    forall p: Id, sc: Scenario
      ensures SameAnswerRows(rows, after, p, sc) && AnswersOf(after, p, sc) == AnswersOf(rows, p, sc)
    {
      assert SameAnswerRows(rows, after, p, sc);
      SameLatest(rows, after, p, sc);
    }
    if Agreed(rows) {
      forall p: Id, sc: Scenario, i: nat | IsLatest(after, p, sc, i)
        ensures after[i].answers == AnswersOf(after, p, sc)
      {
        SameIsLatest(rows, after, p, sc, i);
        assert SameAnswerPart(rows[i], after[i]);
      }
    }
  }

  /** The same rows are latest, so each pick reads what it read. */
  lemma PartsRead(rows: seq<Row>, after: seq<Row>, p: Id, sc: Scenario, pick: nat)
    requires |after| == |rows| && forall i | 0 <= i < |rows| :: SameAnswerPart(rows[i], after[i])
    ensures AnswersRead(after, p, sc, pick) == AnswersRead(rows, p, sc, pick)
  {
    assert SameAnswerRows(rows, after, p, sc);
    SameLatest(rows, after, p, sc);
    SameIsLatest(rows, after, p, sc, pick);
    hide IsLatest, LatestQuestionnaire;
  }

  lemma PartsReadFrom(rows: seq<Row>, after: seq<Row>)
    requires |after| == |rows| && forall i | 0 <= i < |rows| :: SameAnswerPart(rows[i], after[i])
    ensures ReadsFrom(rows, after)
  {
    forall p: Id, sc: Scenario, pick: nat
      ensures Readable(rows, p, sc, AnswersRead(after, p, sc, pick))
    {
      PartsRead(rows, after, p, sc, pick);
    }
    hide AnswersRead;
  }

  lemma AppendedElsewhere(rows: seq<Row>, r: Row, p: Id, sc: Scenario)
    requires !AnswersFor(r, p, sc)
    ensures LatestQuestionnaire(rows + [r], p, sc) == LatestQuestionnaire(rows, p, sc)
    ensures AnswersOf(rows + [r], p, sc) == AnswersOf(rows, p, sc)
  {
    assert (rows + [r])[..|rows|] == rows;
  }

  lemma AppendedNewest(rows: seq<Row>, r: Row, p: Id, sc: Scenario)
    requires AnswersFor(r, p, sc) && forall i | 0 <= i < |rows| :: rows[i].at <= r.at
    ensures LatestQuestionnaire(rows + [r], p, sc) == Some(|rows|)
    ensures AnswersOf(rows + [r], p, sc) == r.answers
  {
    assert (rows + [r])[..|rows|] == rows;
  }

  /** An appended row is one of the latest of its own scenario, and the earlier ones among them are exactly those as late. */
  lemma AppendedLatest(rows: seq<Row>, r: Row, p: Id, sc: Scenario, i: nat)
    requires forall j | 0 <= j < |rows| :: rows[j].at <= r.at
    ensures IsLatest(rows + [r], p, sc, i) <==>
            if AnswersFor(r, p, sc) then i == |rows| || (IsLatest(rows, p, sc, i) && rows[i].at == r.at)
            else IsLatest(rows, p, sc, i)
  {
    var after := rows + [r];
    assert after[|rows|] == r;
    assert forall j | 0 <= j < |rows| :: after[j] == rows[j];
    if IsLatest(after, p, sc, i) && AnswersFor(r, p, sc) && i < |rows| {
      assert after[|rows|].at <= after[i].at;
    }
  }

  /** A row of another scenario or kind is never picked. */
  lemma AppendRead(rows: seq<Row>, r: Row, p: Id, sc: Scenario, pick: nat)
    requires !AnswersFor(r, p, sc) && forall j | 0 <= j < |rows| :: rows[j].at <= r.at
    ensures AnswersRead(rows + [r], p, sc, pick) == AnswersRead(rows, p, sc, pick)
  {
    AppendedElsewhere(rows, r, p, sc);
    AppendedLatest(rows, r, p, sc, pick);
    hide IsLatest;
  }

  lemma AppendReadsFrom(rows: seq<Row>, r: Row)
    requires forall j | 0 <= j < |rows| :: rows[j].at <= r.at
    requires r.kind == Questionnaire ==> Readable(rows, r.pursuit, r.scenario, r.answers)
    ensures ReadsFrom(rows, rows + [r])
  {
    forall p: Id, sc: Scenario, pick: nat
      ensures Readable(rows, p, sc, AnswersRead(rows + [r], p, sc, pick))
    {
      if AnswersFor(r, p, sc) {
        var found := Picked(rows + [r], p, sc, pick);
        LatestIsOne(rows + [r], p, sc, |rows|);
        AppendedLatest(rows, r, p, sc, found.value);
        if found.value < |rows| {
          LatestIsReadable(rows, p, sc, found.value);
        }
      } else {
        AppendRead(rows, r, p, sc, pick);
      }
    }
    hide Readable, IsLatest;
  }

  /** A row appended with the answers its scenario already reads. */
  lemma AppendKeepsAnswers(rows: seq<Row>, r: Row)
    requires forall j | 0 <= j < |rows| :: rows[j].at <= r.at
    requires r.kind == Questionnaire && Agreed(rows) ==> r.answers == AnswersOf(rows, r.pursuit, r.scenario)
    ensures KeepsAnswers(rows, rows + [r])
  {
    if Agreed(rows) {
      forall p: Id, sc: Scenario
        ensures AnswersOf(rows + [r], p, sc) == AnswersOf(rows, p, sc)
      {
        if AnswersFor(r, p, sc) {
          AppendedNewest(rows, r, p, sc);
        } else {
          AppendedElsewhere(rows, r, p, sc);
        }
      }
      forall p: Id, sc: Scenario, i: nat | IsLatest(rows + [r], p, sc, i)
        ensures (rows + [r])[i].answers == AnswersOf(rows + [r], p, sc)
      {
        AppendedLatest(rows, r, p, sc, i);
      }
    }
  }

  /** Two rows that differ at most in what the Pwin columns hold. */
  predicate SameButPwin(r: Row, after: Row) {
    && after.pursuit == r.pursuit && after.scenario == r.scenario && after.kind == r.kind
    && after.current == r.current && after.basePwin == r.basePwin && after.at == r.at && after.answers == r.answers
  }

  ghost predicate OnlyPwins(rows: seq<Row>, after: seq<Row>) {
    |after| == |rows| && forall i | 0 <= i < |rows| :: SameButPwin(rows[i], after[i])
  }

  /** An update in place that moves no key and no timestamp, and demotes nothing in BASE. */
  predicate InPlace(r: Row, after: Row) {
    && after.pursuit == r.pursuit && after.scenario == r.scenario && after.kind == r.kind && after.at == r.at
    && (after.current ==> r.current) && (r.current && r.scenario == Base ==> after.current)
  }

  lemma BaseStaysCurrent(rows: seq<Row>, after: seq<Row>)
    requires |after| == |rows| && BaseIsCurrent(rows)
    requires forall i | 0 <= i < |rows| :: after[i].pursuit == rows[i].pursuit && after[i].scenario == rows[i].scenario
    requires forall i | 0 <= i < |rows| && rows[i].scenario == Base && rows[i].current :: after[i].current
    ensures BaseIsCurrent(after)
  {
    forall i | 0 <= i < |after| && after[i].scenario == Base
      ensures HasCurrent(after, after[i].pursuit, Base)
    {
      assert HasCurrent(rows, rows[i].pursuit, Base);
      var j :| 0 <= j < |rows| && CurrentFor(rows[j], rows[i].pursuit, Base);
      assert CurrentFor(after[j], after[i].pursuit, Base);
    }
  }

  lemma InPlaceKeeps(rows: seq<Row>, after: seq<Row>, clock: nat)
    requires |after| == |rows| && Disciplined(rows, clock) && AllInRange(after)
    requires forall i | 0 <= i < |rows| :: InPlace(rows[i], after[i])
    ensures Disciplined(after, clock)
  {
    BaseStaysCurrent(rows, after);
    assert CurrentIsLatest(after) by {
      forall i, j | 0 <= i < |after| && 0 <= j < |after| && after[i].current && after[i].kind == Questionnaire &&
                    AnswersFor(after[j], after[i].pursuit, after[i].scenario)
        ensures after[j].at <= after[i].at
      {
        assert InPlace(rows[i], after[i]) && InPlace(rows[j], after[j]);
        assert AnswersFor(rows[j], rows[i].pursuit, rows[i].scenario);
      }
    }
    assert Stamped(after, clock) by {
      assert forall i | 0 <= i < |rows| :: InPlace(rows[i], after[i]);
    }
    assert OneCurrent(after) by {
      assert forall i | 0 <= i < |rows| :: InPlace(rows[i], after[i]);
    }
  }

  lemma OnlyPwinsKeeps(rows: seq<Row>, after: seq<Row>, clock: nat)
    requires OnlyPwins(rows, after) && Disciplined(rows, clock) && AllInRange(after)
    ensures Disciplined(after, clock) && KeepsAnswers(rows, after) && ReadsFrom(rows, after)
  {
    forall i | 0 <= i < |rows|
      ensures InPlace(rows[i], after[i]) && SameAnswerPart(rows[i], after[i])
    {
      assert SameButPwin(rows[i], after[i]);
    }
    InPlaceKeeps(rows, after, clock);
    PartsKeep(rows, after);
    PartsReadFrom(rows, after);
  }

  /** Where the same rows are current, the same one is found. */
  lemma {:induction false} SameFound(rows: seq<Row>, after: seq<Row>, p: Id, sc: Scenario)
    requires |after| == |rows|
    requires forall i | 0 <= i < |rows| :: CurrentFor(after[i], p, sc) == CurrentFor(rows[i], p, sc)
    ensures FindCurrent(after, p, sc) == FindCurrent(rows, p, sc)
  {
    if rows != [] {
      SameFound(rows[..|rows| - 1], after[..|rows| - 1], p, sc);
    }
  }

  // ----- The blend -----

  lemma ProductSign(a: real, b: real)
    requires a >= 0.0 && b >= 0.0
    ensures a * b >= 0.0
  {
  }

  /** A factor in [0,1] puts the blend between the two values it blends. */
  lemma BlendIsBetween(base: real, depWin: real, factor: real)
    requires 0.0 <= factor <= 1.0
    ensures base <= depWin ==> base <= BlendValue(base, depWin, factor) <= depWin
    ensures depWin <= base ==> depWin <= BlendValue(base, depWin, factor) <= base
  {
    var gap := if base <= depWin then depWin - base else base - depWin;
    ProductSign(gap, factor);
    ProductSign(gap, 1.0 - factor);
    assert gap * (1.0 - factor) == gap - gap * factor;
    assert (depWin - base) * factor == if base <= depWin then gap * factor else -(gap * factor);
  }

  /** The blend moves with the predecessor's Pwin, up when winning helps and down when it hurts. */
  lemma BlendIsMonotone(base: real, depWin: real, low: real, high: real)
    requires low <= high
    ensures depWin >= base ==> BlendValue(base, depWin, low) <= BlendValue(base, depWin, high)
    ensures depWin <= base ==> BlendValue(base, depWin, low) >= BlendValue(base, depWin, high)
  {
    var gap := if base <= depWin then depWin - base else base - depWin;
    ProductSign(gap, high - low);
    assert gap * (high - low) == gap * high - gap * low;
    assert (depWin - base) * high == if base <= depWin then gap * high else -(gap * high);
    assert (depWin - base) * low == if base <= depWin then gap * low else -(gap * low);
  }

  /** With weight 0 it is the one value, with 1 the other, and in between it moves along a straight line. */
  lemma BlendIsAffine(base: real, depWin: real, f: real, g: real, t: real)
    ensures BlendValue(base, depWin, 0.0) == base && BlendValue(base, depWin, 1.0) == depWin
    ensures BlendValue(base, depWin, t * f + (1.0 - t) * g) ==
            t * BlendValue(base, depWin, f) + (1.0 - t) * BlendValue(base, depWin, g)
  {
    var gap := depWin - base;
    assert gap * (t * f + (1.0 - t) * g) == t * (gap * f) + (1.0 - t) * (gap * g);
    assert t * (base + gap * f) == t * base + t * (gap * f);
    assert (1.0 - t) * (base + gap * g) == (1.0 - t) * base + (1.0 - t) * (gap * g);
  }

  lemma BlendIsProportional(base: real, depWin: real, weight: real)
    ensures BlendValue(base, depWin, weight) - base == weight * (depWin - base)
  {
  }

  /** The weight of a predecessor: 1 once won, 0 once decided otherwise, and while it is open the Pwin of its current BASE row. */
  ghost predicate IsWeight(s: State, pred: Id, weight: real) {
    if pred in s.pursuits && s.pursuits[pred].outcome.Some?
    then weight == if s.pursuits[pred].outcome.value == Won then 1.0 else 0.0
    else IsPwinOr(s.rows, pred, Base, 0.0, weight)
  }

  /** The Pwin of the current row of a scenario, or the default where there is no such row or it has none. */
  ghost predicate IsPwinOr(rows: seq<Row>, p: Id, sc: Scenario, default: real, pwin: real) {
    if exists i :: 0 <= i < |rows| && CurrentFor(rows[i], p, sc) && rows[i].pwin.Some?
    then exists i :: 0 <= i < |rows| && CurrentFor(rows[i], p, sc) && rows[i].pwin == Some(pwin)
    else pwin == default
  }

  lemma PwinIsCurrent(rows: seq<Row>, p: Id, sc: Scenario, default: real, pwin: real)
    requires OneCurrent(rows)
    ensures IsPwinOr(rows, p, sc, default, pwin) <==> pwin == CurrentPwin(rows, p, sc).GetOr(default)
  {
    var found := FindCurrent(rows, p, sc);
    if found.Some? {
      assert forall i | 0 <= i < |rows| && CurrentFor(rows[i], p, sc) :: i == found.value;
    }
  }

  lemma WeightIsFactor(s: State, pred: Id, weight: real)
    requires OneCurrent(s.rows)
    ensures IsWeight(s, pred, weight) <==> weight == BlendFactor(s, pred)
  {
    PwinIsCurrent(s.rows, pred, Base, 0.0, weight);
    hide IsPwinOr, CurrentPwin, OneCurrent;
  }

  /** A blend moves the stored Pwin from the standalone value towards the dependent-won one, as far as the predecessor weighs. */
  lemma BlendStores(s: State, p: Id, pred: Id, i: nat, weight: real, depWin: real)
    requires OneCurrent(s.rows) && i < |s.rows| && CurrentFor(s.rows[i], p, Base) && s.rows[i].basePwin.Some?
    requires IsWeight(s, pred, weight) && IsPwinOr(s.rows, p, DependentWon, s.rows[i].basePwin.value, depWin)
    ensures var after := ApplyBlend(s, p, pred).rows;
            && |after| == |s.rows| && after[i].pwin.Some? && after[i].blended == after[i].pwin
            && after[i].pwin.value - s.rows[i].basePwin.value == weight * (depWin - s.rows[i].basePwin.value)
  {
    var base := s.rows[i].basePwin.value;
    assert FindCurrent(s.rows, p, Base) == Some(i);
    WeightIsFactor(s, pred, weight);
    PwinIsCurrent(s.rows, p, DependentWon, base, depWin);
    BlendIsProportional(base, depWin, weight);
    hide BlendValue, BlendFactor, IsPwinOr, IsWeight, CurrentPwin, FindCurrent, OneCurrent;
  }

  lemma FactorInRange(s: State, pred: Id)
    requires AllInRange(s.rows)
    ensures 0.0 <= BlendFactor(s, pred) <= 1.0
  {
  }

  lemma BlendKeeps(s: State, p: Id, pred: Id)
    requires Disciplined(s.rows, s.clock + 1)
    ensures var after := ApplyBlend(s, p, pred);
            && after.pursuits == s.pursuits && after.clock == s.clock
            && OnlyPwins(s.rows, after.rows) && Disciplined(after.rows, s.clock + 1)
            && KeepsAnswers(s.rows, after.rows) && ReadsFrom(s.rows, after.rows)
            && forall i | 0 <= i < |s.rows| && !CurrentFor(s.rows[i], p, Base) :: after.rows[i] == s.rows[i]
  {
    var after := ApplyBlend(s, p, pred);
    if after != s {
      var i := FindCurrent(s.rows, p, Base).value;
      assert RowInRange(s.rows[i]);
      var base := s.rows[i].basePwin.value;
      var depWin := CurrentPwin(s.rows, p, DependentWon).GetOr(base);
      assert 0.0 <= depWin <= 1.0;
      FactorInRange(s, pred);
      BlendIsBetween(base, depWin, BlendFactor(s, pred));
      forall j | 0 <= j < |after.rows|
        ensures RowInRange(after.rows[j])
      {
        assert RowInRange(s.rows[j]);
      }
    }
    OnlyPwinsKeeps(s.rows, after.rows, s.clock + 1);
  }

  // ----- Demote and insert -----

  lemma DemotedAnswers(rows: seq<Row>, p: Id, sc: Scenario)
    ensures KeepsAnswers(rows, Demoted(rows, p, sc))
  {
    PartsKeep(rows, Demoted(rows, p, sc));
  }

  /** A successor row of any kind keeps the discipline. */
  lemma SupersededKeeps(s: State, p: Id, sc: Scenario, kind: Kind, base: Prob, pwin: Option<real>, answers: map<Code, Value>)
    requires Disciplined(s.rows, s.clock + 1) && InRange(pwin)
    ensures var after := Superseded(s, p, sc, kind, base, pwin, answers);
            Disciplined(after.rows, s.clock + 1)
  {
    var r := Row(p, sc, kind, true, Some(base), pwin, None, false, s.clock, answers);
    SuccessorBase(s.rows, r);
    SuccessorLatest(s.rows, r);
    SuccessorRest(s.rows, r);
  }

  lemma SuccessorBase(rows: seq<Row>, r: Row)
    requires BaseIsCurrent(rows) && r.current
    ensures BaseIsCurrent(Demoted(rows, r.pursuit, r.scenario) + [r])
  {
    var after := Demoted(rows, r.pursuit, r.scenario) + [r];
    assert CurrentFor(after[|rows|], r.pursuit, r.scenario);
    forall i | 0 <= i < |after| && after[i].scenario == Base
      ensures HasCurrent(after, after[i].pursuit, Base)
    {
      if !For(after[i], r.pursuit, r.scenario) {
        assert HasCurrent(rows, rows[i].pursuit, Base);
        var j :| 0 <= j < |rows| && CurrentFor(rows[j], rows[i].pursuit, Base);
        assert CurrentFor(after[j], after[i].pursuit, Base);
      }
    }
  }

  lemma SuccessorLatest(rows: seq<Row>, r: Row)
    requires CurrentIsLatest(rows) && Stamped(rows, r.at + 1)
    ensures CurrentIsLatest(Demoted(rows, r.pursuit, r.scenario) + [r])
  {
    var after := Demoted(rows, r.pursuit, r.scenario) + [r];
    forall i, j | 0 <= i < |after| && 0 <= j < |after| && after[i].current && after[i].kind == Questionnaire &&
                  AnswersFor(after[j], after[i].pursuit, after[i].scenario)
      ensures after[j].at <= after[i].at
    {
      if i < |rows| {
        assert !For(rows[i], r.pursuit, r.scenario);
        assert j < |rows| && AnswersFor(rows[j], rows[i].pursuit, rows[i].scenario);
      }
    }
  }

  lemma SuccessorRest(rows: seq<Row>, r: Row)
    requires Stamped(rows, r.at + 1) && OneCurrent(rows) && AllInRange(rows) && r.current && RowInRange(r)
    ensures var after := Demoted(rows, r.pursuit, r.scenario) + [r];
            Stamped(after, r.at + 1) && OneCurrent(after) && AllInRange(after)
  {
    var after := Demoted(rows, r.pursuit, r.scenario) + [r];
    assert AllInRange(after) by {
      assert forall i | 0 <= i < |rows| :: RowInRange(rows[i]) && RowInRange(after[i]);
    }
    assert OneCurrent(after) by {
      assert forall i | 0 <= i < |rows| && after[i].current :: rows[i].current && !For(rows[i], r.pursuit, r.scenario);
    }
  }

  /** A recalculated row that carries the answers it was computed from leaves every answer where it was. */
  lemma SupersededAnswers(s: State, p: Id, sc: Scenario, kind: Kind, base: real, pwin: Option<real>,
                          answers: map<Code, Value>, pick: nat)
    requires Stamped(s.rows, s.clock + 1)
    requires kind == Questionnaire ==> answers == AnswersRead(s.rows, p, sc, pick)
    ensures KeepsAnswers(s.rows, Superseded(s, p, sc, kind, base, pwin, answers).rows)
    ensures ReadsFrom(s.rows, Superseded(s, p, sc, kind, base, pwin, answers).rows)
  {
    SupersededReads(s, p, sc, kind, base, pwin, answers, pick);
    var demoted := Demoted(s.rows, p, sc);
    var r := Row(p, sc, kind, true, Some(base), pwin, None, false, s.clock, answers);
    DemotedAnswers(s.rows, p, sc);
    if Agreed(s.rows) {
      AgreedRead(s.rows, p, sc, pick);
      AppendKeepsAnswers(demoted, r);
      KeepsAnswersTwice(s.rows, demoted, demoted + [r]);
    }
  }

  lemma SupersededReads(s: State, p: Id, sc: Scenario, kind: Kind, base: real, pwin: Option<real>,
                        answers: map<Code, Value>, pick: nat)
    requires Stamped(s.rows, s.clock + 1)
    requires kind == Questionnaire ==> answers == AnswersRead(s.rows, p, sc, pick)
    ensures ReadsFrom(s.rows, Superseded(s, p, sc, kind, base, pwin, answers).rows)
  {
    var demoted := Demoted(s.rows, p, sc);
    var r := Row(p, sc, kind, true, Some(base), pwin, None, false, s.clock, answers);
    PartsReadFrom(s.rows, demoted);
    PartsRead(s.rows, demoted, p, sc, pick);
    hide ReadsFrom, AnswersRead;
    AppendReadsFrom(demoted, r);
    ReadsFromTwice(s.rows, demoted, demoted + [r]);
  }

  // ----- Sole source -----

  lemma SoleSourceKeeps(s: State, p: Id)
    requires Disciplined(s.rows, s.clock + 1)
    ensures var after := SoleSourceOn(s, p);
            Disciplined(after.rows, s.clock + 1) && KeepsAnswers(s.rows, after.rows) && ReadsFrom(s.rows, after.rows)
  {
    var after := SoleSourceOn(s, p);
    match FindCurrent(s.rows, p, Base)
    case Some(i) => RestampKeeps(s.rows, s.clock, p, i, after.rows);
    case None => FirstRowKeeps(s.rows, s.clock, p, after.rows[|s.rows|]);
  }

  lemma RestampKeeps(rows: seq<Row>, now: nat, p: Id, i: nat, after: seq<Row>)
    requires Disciplined(rows, now + 1) && i < |rows| && CurrentFor(rows[i], p, Base)
    requires after == rows[i := rows[i].(pwin := Some(SOLE_SOURCE_PWIN), blended := Some(SOLE_SOURCE_PWIN),
                                        solePwin := true, at := now)]
    ensures Disciplined(after, now + 1) && KeepsAnswers(rows, after) && ReadsFrom(rows, after)
  {
    RestampReads(rows, now, i, after);
    assert AllInRange(after) by {
      assert forall j | 0 <= j < |rows| :: RowInRange(rows[j]);
    }
    BaseStaysCurrent(rows, after);
    RestampLatest(rows, now, i, after);
    RestampAgreed(rows, now, i, after);
  }

  lemma RestampLatest(rows: seq<Row>, now: nat, i: nat, after: seq<Row>)
    requires Stamped(rows, now + 1) && OneCurrent(rows) && CurrentIsLatest(rows) && i < |rows| && rows[i].current
    requires |after| == |rows| && InPlace(rows[i], after[i].(at := rows[i].at)) && after[i].at == now && after[i].current
    requires forall j | 0 <= j < |rows| && j != i :: after[j] == rows[j]
    ensures CurrentIsLatest(after) && Stamped(after, now + 1)
  {
    forall k, j | 0 <= k < |after| && 0 <= j < |after| && after[k].current && after[k].kind == Questionnaire &&
                  AnswersFor(after[j], after[k].pursuit, after[k].scenario)
      ensures after[j].at <= after[k].at
    {
      if k != i {
        assert j != i;
        assert AnswersFor(rows[j], rows[k].pursuit, rows[k].scenario);
      }
    }
  }

  /** Stamping the current row with the time of the request, which no row exceeds. */
  lemma RestampedLatest(rows: seq<Row>, now: nat, i: nat, after: seq<Row>, q: Id, sc: Scenario, k: nat)
    requires Disciplined(rows, now + 1) && i < |rows| && rows[i].current
    requires |after| == |rows| && SameAnswerPart(rows[i].(at := now), after[i])
    requires forall j | 0 <= j < |rows| && j != i :: after[j] == rows[j]
    ensures IsLatest(after, q, sc, k) <==>
            if AnswersFor(rows[i], q, sc) then k == i || (IsLatest(rows, q, sc, k) && rows[k].at == now)
            else IsLatest(rows, q, sc, k)
    ensures AnswersFor(rows[i], q, sc) ==> IsLatest(rows, q, sc, i)
  {
    assert SameAnswerPart(rows[i].(at := now), after[i]);
    assert forall j | 0 <= j < |rows| :: AnswersFor(after[j], q, sc) == AnswersFor(rows[j], q, sc);
    if AnswersFor(rows[i], q, sc) {
      assert forall j | 0 <= j < |rows| && AnswersFor(rows[j], q, sc) :: rows[j].at <= rows[i].at;
      if IsLatest(after, q, sc, k) && k != i {
        assert after[i].at <= after[k].at;
      }
    } else {
      assert SameAnswerRows(rows, after, q, sc);
      SameIsLatest(rows, after, q, sc, k);
    }
  }

  lemma RestampReads(rows: seq<Row>, now: nat, i: nat, after: seq<Row>)
    requires Disciplined(rows, now + 1) && i < |rows| && rows[i].current
    requires |after| == |rows| && SameAnswerPart(rows[i].(at := now), after[i])
    requires forall j | 0 <= j < |rows| && j != i :: after[j] == rows[j]
    ensures ReadsFrom(rows, after)
  {
    forall q: Id, sc: Scenario, pick: nat
      ensures Readable(rows, q, sc, AnswersRead(after, q, sc, pick))
    {
      var found := Picked(after, q, sc, pick);
      if found.Some? {
        RestampedLatest(rows, now, i, after, q, sc, found.value);
        LatestIsReadable(rows, q, sc, found.value);
      } else {
        NoneRestamped(rows, after, i, q, sc);
        assert AnswersRead(rows, q, sc, pick) == map[];
      }
    }
    hide Readable, IsLatest, Disciplined;
  }

  lemma NoneRestamped(rows: seq<Row>, after: seq<Row>, i: nat, q: Id, sc: Scenario)
    requires |after| == |rows| && i < |rows| && AnswersFor(after[i], q, sc) == AnswersFor(rows[i], q, sc)
    requires forall j | 0 <= j < |rows| && j != i :: after[j] == rows[j]
    requires LatestQuestionnaire(after, q, sc).None?
    ensures LatestQuestionnaire(rows, q, sc).None?
  {
    assert forall j | 0 <= j < |rows| :: AnswersFor(after[j], q, sc) == AnswersFor(rows[j], q, sc);
  }

  lemma RestampAgreed(rows: seq<Row>, now: nat, i: nat, after: seq<Row>)
    requires Disciplined(rows, now + 1) && i < |rows| && rows[i].current
    requires |after| == |rows| && SameAnswerPart(rows[i].(at := now), after[i])
    requires forall j | 0 <= j < |rows| && j != i :: after[j] == rows[j]
    ensures KeepsAnswers(rows, after)
  {
    if Agreed(rows) {
      hide Disciplined, IsLatest;
      forall q: Id, sc: Scenario, k: nat | IsLatest(after, q, sc, k)
        ensures after[k].answers == AnswersOf(rows, q, sc)
      {
        RestampedLatest(rows, now, i, after, q, sc, k);
      }
      forall q: Id, sc: Scenario
        ensures AnswersOf(after, q, sc) == AnswersOf(rows, q, sc)
      {
        RestampAnswers(rows, now, i, after, q, sc);
      }
    }
  }

  lemma RestampAnswers(rows: seq<Row>, now: nat, i: nat, after: seq<Row>, q: Id, sc: Scenario)
    requires Agreed(rows) && Disciplined(rows, now + 1) && i < |rows| && rows[i].current
    requires |after| == |rows| && SameAnswerPart(rows[i].(at := now), after[i])
    requires forall j | 0 <= j < |rows| && j != i :: after[j] == rows[j]
    ensures AnswersOf(after, q, sc) == AnswersOf(rows, q, sc)
  {
    if AnswersFor(rows[i], q, sc) {
      LatestIsOne(after, q, sc, i);
      var k := LatestQuestionnaire(after, q, sc).value;
      RestampedLatest(rows, now, i, after, q, sc, k);
    } else {
      assert SameAnswerRows(rows, after, q, sc);
      SameLatest(rows, after, q, sc);
    }
  }

  /** The row that is read is one of the latest. */
  lemma LatestIsOne(rows: seq<Row>, p: Id, sc: Scenario, i: nat)
    requires i < |rows| && AnswersFor(rows[i], p, sc)
    ensures var found := LatestQuestionnaire(rows, p, sc);
            found.Some? && IsLatest(rows, p, sc, found.value)
  {
  }

  lemma FirstRowKeeps(rows: seq<Row>, now: nat, p: Id, r: Row)
    requires Disciplined(rows, now + 1) && FindCurrent(rows, p, Base).None?
    requires r == Row(p, Base, Questionnaire, true, None, Some(SOLE_SOURCE_PWIN), Some(SOLE_SOURCE_PWIN), true, now, map[])
    ensures Disciplined(rows + [r], now + 1) && KeepsAnswers(rows, rows + [r]) && ReadsFrom(rows, rows + [r])
  {
    forall i | 0 <= i < |rows|
      ensures !For(rows[i], p, Base)
    {
      assert BaseIsCurrent(rows);
    }
    AppendKeeps(rows, r);
    assert LatestQuestionnaire(rows, p, Base).None?;
    AppendKeepsAnswers(rows, r);
    assert AnswersRead(rows, p, Base, 0) == map[];
    AppendReadsFrom(rows, r);
  }

  /** A first questionnaire row: current exactly when the scenario has no current row yet. */
  lemma AppendKeeps(rows: seq<Row>, r: Row)
    requires Disciplined(rows, r.at + 1) && RowInRange(r)
    requires r.current <==> FindCurrent(rows, r.pursuit, r.scenario).None?
    requires forall i | 0 <= i < |rows| :: !AnswersFor(rows[i], r.pursuit, r.scenario)
    ensures Disciplined(rows + [r], r.at + 1)
  {
    AppendBase(rows, r);
    AppendLatest(rows, r);
    assert AllInRange(rows + [r]);
    assert Stamped(rows + [r], r.at + 1);
    assert OneCurrent(rows + [r]);
  }

  lemma AppendBase(rows: seq<Row>, r: Row)
    requires BaseIsCurrent(rows)
    requires r.current <==> FindCurrent(rows, r.pursuit, r.scenario).None?
    ensures BaseIsCurrent(rows + [r])
  {
    var after := rows + [r];
    forall i | 0 <= i < |after| && after[i].scenario == Base
      ensures HasCurrent(after, after[i].pursuit, Base)
    {
      if i < |rows| {
        assert HasCurrent(rows, rows[i].pursuit, Base);
        var j :| 0 <= j < |rows| && CurrentFor(rows[j], rows[i].pursuit, Base);
        assert CurrentFor(after[j], after[i].pursuit, Base);
      } else if r.current {
        assert CurrentFor(after[i], after[i].pursuit, Base);
      } else {
        var j := FindCurrent(rows, r.pursuit, r.scenario).value;
        assert CurrentFor(after[j], after[i].pursuit, Base);
      }
    }
  }

  lemma AppendLatest(rows: seq<Row>, r: Row)
    requires CurrentIsLatest(rows) && Stamped(rows, r.at + 1)
    requires r.current <==> FindCurrent(rows, r.pursuit, r.scenario).None?
    requires forall i | 0 <= i < |rows| :: !AnswersFor(rows[i], r.pursuit, r.scenario)
    ensures CurrentIsLatest(rows + [r])
  {
    var after := rows + [r];
    forall i, j | 0 <= i < |after| && 0 <= j < |after| && after[i].current && after[i].kind == Questionnaire &&
                  AnswersFor(after[j], after[i].pursuit, after[i].scenario)
      ensures after[j].at <= after[i].at
    {
      if i < |rows| {
        assert AnswersFor(rows[i], rows[i].pursuit, rows[i].scenario);
        assert j < |rows|;
      }
    }
  }

  // ----- Clearing dependents -----

  lemma ClearedKeeps(s: State, gone: set<Id>)
    requires Disciplined(s.rows, s.clock)
    ensures var after := Cleared(s, gone);
            Disciplined(after.rows, after.clock) && KeepsAnswers(s.rows, after.rows) && ReadsFrom(s.rows, after.rows)
  {
    var after := Cleared(s, gone).rows;
    forall i | 0 <= i < |after|
      ensures RowInRange(after[i]) && InPlace(s.rows[i], after[i]) && SameAnswerPart(s.rows[i], after[i])
    {
      assert RowInRange(s.rows[i]);
    }
    InPlaceKeeps(s.rows, after, s.clock);
    PartsKeep(s.rows, after);
    PartsReadFrom(s.rows, after);
  }

  // ----- Saving answers -----

  lemma AnswerRowKeeps(s: State, p: Id, sc: Scenario, pick: nat)
    requires Disciplined(s.rows, s.clock + 1)
    ensures var (s1, i) := WithAnswerRow(s, p, sc, pick);
            && Disciplined(s1.rows, s.clock + 1) && KeepsAnswers(s.rows, s1.rows)
            && IsLatest(s1.rows, p, sc, i) && s1.rows[i].answers == AnswersRead(s.rows, p, sc, pick)
  {
    var (s1, i) := WithAnswerRow(s, p, sc, pick);
    if Picked(s.rows, p, sc, pick).None? {
      var r := s1.rows[|s.rows|];
      assert s1.rows == s.rows + [r];
      AppendKeeps(s.rows, r);
      AppendKeepsAnswers(s.rows, r);
      AppendedLatest(s.rows, r, p, sc, i);
    }
  }

  lemma WrittenDiscipline(rows: seq<Row>, clock: nat, i: nat, answers: map<Code, Value>)
    requires Disciplined(rows, clock) && i < |rows|
    ensures Disciplined(rows[i := rows[i].(answers := answers)], clock)
  {
    var after := rows[i := rows[i].(answers := answers)];
    forall j | 0 <= j < |rows|
      ensures RowInRange(after[j]) && InPlace(rows[j], after[j])
    {
      assert RowInRange(rows[j]);
    }
    hide RowInRange, Disciplined;
    assert AllInRange(after);
    InPlaceKeeps(rows, after, clock);
  }

  /** Two questionnaire rows of one scenario share the greatest timestamp. */
  ghost predicate Tied(rows: seq<Row>, p: Id, sc: Scenario) {
    exists i: nat, j: nat :: i < j && IsLatest(rows, p, sc, i) && IsLatest(rows, p, sc, j)
  }

  lemma WrittenLatest(rows: seq<Row>, i: nat, answers: map<Code, Value>, q: Id, sc: Scenario, k: nat)
    requires i < |rows|
    ensures IsLatest(rows[i := rows[i].(answers := answers)], q, sc, k) == IsLatest(rows, q, sc, k)
  {
    var after := rows[i := rows[i].(answers := answers)];
    assert forall j | 0 <= j < |rows| :: AnswersFor(after[j], q, sc) == AnswersFor(rows[j], q, sc) && after[j].at == rows[j].at;
  }

  lemma WrittenElsewhere(rows: seq<Row>, i: nat, answers: map<Code, Value>, q: Id, sc: Scenario)
    requires i < |rows| && !AnswersFor(rows[i], q, sc)
    ensures AnswersOf(rows[i := rows[i].(answers := answers)], q, sc) == AnswersOf(rows, q, sc)
  {
    var after := rows[i := rows[i].(answers := answers)];
    assert SameAnswerRows(rows, after, q, sc);
    SameLatest(rows, after, q, sc);
  }

  /** Writing into the one latest row changes the answers of that pursuit and scenario, and no others. */
  lemma WrittenAnswers(rows: seq<Row>, p: Id, sc: Scenario, i: nat, answers: map<Code, Value>)
    requires Agreed(rows) && IsLatest(rows, p, sc, i) && !Tied(rows, p, sc)
    ensures var after := rows[i := rows[i].(answers := answers)];
            && Agreed(after)
            && forall q: Id, sc2: Scenario ::
                 AnswersOf(after, q, sc2) == if q == p && sc2 == sc then answers else AnswersOf(rows, q, sc2)
  {
    var after := rows[i := rows[i].(answers := answers)];
    forall q: Id, sc2: Scenario
      ensures AnswersOf(after, q, sc2) == if q == p && sc2 == sc then answers else AnswersOf(rows, q, sc2)
    {
      if q == p && sc2 == sc {
        WrittenLatest(rows, i, answers, p, sc, i);
        LatestIsOne(after, p, sc, i);
        var k := LatestQuestionnaire(after, p, sc).value;
        WrittenLatest(rows, i, answers, p, sc, k);
        OnlyLatest(rows, p, sc, i, k);
      } else {
        WrittenElsewhere(rows, i, answers, q, sc2);
      }
    }
    forall q: Id, sc2: Scenario, k: nat | IsLatest(after, q, sc2, k)
      ensures after[k].answers == AnswersOf(after, q, sc2)
    {
      WrittenLatest(rows, i, answers, q, sc2, k);
      if q == p && sc2 == sc {
        OnlyLatest(rows, p, sc, i, k);
      }
    }
  }

  lemma OnlyLatest(rows: seq<Row>, p: Id, sc: Scenario, i: nat, k: nat)
    requires !Tied(rows, p, sc) && IsLatest(rows, p, sc, i) && IsLatest(rows, p, sc, k)
    ensures i == k
  {
  }

  /** Written into one of several, they are no longer read alike, unless nothing changed. */
  lemma WrittenOnTie(rows: seq<Row>, p: Id, sc: Scenario, i: nat, answers: map<Code, Value>)
    requires Agreed(rows) && IsLatest(rows, p, sc, i) && Tied(rows, p, sc)
    ensures Agreed(rows[i := rows[i].(answers := answers)]) <==> answers == rows[i].answers
  {
    var after := rows[i := rows[i].(answers := answers)];
    if answers == rows[i].answers {
      assert after == rows;
    } else {
      var k: nat, l: nat :| k < l && IsLatest(rows, p, sc, k) && IsLatest(rows, p, sc, l);
      var other := if k == i then l else k;
      assert rows[other].answers == AnswersOf(rows, p, sc) == rows[i].answers;
      WrittenLatest(rows, i, answers, p, sc, i);
      WrittenLatest(rows, i, answers, p, sc, other);
      assert after[other].answers != after[i].answers;
    }
  }
}
