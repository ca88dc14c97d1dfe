/** FTE demand by month and labor category: what one call contributes, and what a portfolio adds up to. */
module Staffing {
  import opened Wrappers
  import opened Sums
  import opened Calendar
  import opened Escalation
  import opened Phasing

  // ----- One pursuit, one category -----

  ghost predicate Contributes(fte: map<Phase, real>, dates: map<Phase, Span>, p: Phase, k: Month) {
    p in fte && fte[p] != 0.0 && Live(dates, p) && Overlap(dates[p], k) > 0
  }

  ghost predicate SomeContribution(fte: map<Phase, real>, dates: map<Phase, Span>, k: Month) {
    exists p :: Contributes(fte, dates, p, k)
  }

  /** The months' entries, as far as the phases in `done` go. */
  ghost predicate Spread(out: map<Month, real>, done: map<Phase, real>, dates: map<Phase, Span>) {
    && (forall k: Month :: At(out, k) == MonthShare(done, dates, k))
    && (forall k: Month :: k in out <==> SomeContribution(done, dates, k))
    && Total(out) == Total(LiveFte(done, dates))
  }

  lemma ShareAdds(done: map<Phase, real>, dates: map<Phase, Span>, p: Phase, v: real, k: Month)
    requires p !in done
    ensures MonthShare(done[p := v], dates, k) ==
            MonthShare(done, dates, k) + if Live(dates, p) then Share(v, dates[p], k) else 0.0
  {
    hide Share;
    var before := map q | q in done :: PhaseShare(done, dates, q, k);
    var more := done[p := v];
    var after := map q | q in more :: PhaseShare(more, dates, q, k);
    assert after == before[p := At(before, p) + PhaseShare(more, dates, p, k)];
    TotalAdd(before, p, PhaseShare(more, dates, p, k));
  }

  lemma LiveAdds(done: map<Phase, real>, dates: map<Phase, Span>, p: Phase, v: real)
    requires p !in done
    ensures Total(LiveFte(done[p := v], dates)) == Total(LiveFte(done, dates)) + if Live(dates, p) then v else 0.0
  {
    if Live(dates, p) {
      assert LiveFte(done[p := v], dates) == LiveFte(done, dates)[p := At(LiveFte(done, dates), p) + v];
      TotalAdd(LiveFte(done, dates), p, v);
    } else {
      assert LiveFte(done[p := v], dates) == LiveFte(done, dates);
    }
  }

  lemma ZeroShare(span: Span, k: Month)
    ensures Share(0.0, span, k) == 0.0
  {
  }

  lemma ContributesAdds(done: map<Phase, real>, dates: map<Phase, Span>, p: Phase, v: real, k: Month)
    requires p !in done
    ensures SomeContribution(done[p := v], dates, k) <==>
            SomeContribution(done, dates, k) || (v != 0.0 && Live(dates, p) && Overlap(dates[p], k) > 0)
  {
    hide Overlap;
    var after := done[p := v];
    forall q
      ensures Contributes(after, dates, q, k) <==>
              if q == p then v != 0.0 && Live(dates, p) && Overlap(dates[p], k) > 0 else Contributes(done, dates, q, k)
    {
    }
    if v != 0.0 && Live(dates, p) && Overlap(dates[p], k) > 0 {
      assert Contributes(after, dates, p, k);
    }
    if q :| Contributes(done, dates, q, k) {
      assert Contributes(after, dates, q, k);
    }
  }

  lemma SpreadOneMore(before: map<Month, real>, out: map<Month, real>, done: map<Phase, real>, dates: map<Phase, Span>,
                      p: Phase, v: real)
    requires p !in done && Spread(before, done, dates)
    requires if v == 0.0 || !Live(dates, p) then out == before
             else && (forall k: Month :: At(out, k) == At(before, k) + Share(v, dates[p], k))
                  && (forall k: Month :: k in out <==> k in before || Overlap(dates[p], k) > 0)
                  && Total(out) == Total(before) + v
    ensures Spread(out, done[p := v], dates)
  {
    hide Share, Overlap, MonthShare, LiveFte, Total, At, Contributes, SomeContribution;
    LiveAdds(done, dates, p, v);
    forall k: Month
      ensures At(out, k) == MonthShare(done[p := v], dates, k)
      ensures k in out <==> SomeContribution(done[p := v], dates, k)
    {
      ShareAdds(done, dates, p, v, k);
      ContributesAdds(done, dates, p, v, k);
      if Live(dates, p) {
        ZeroShare(dates[p], k);
      }
    }
  }

  lemma NothingSpread(dates: map<Phase, Span>)
    ensures Spread(map[], map[], dates)
  {
    forall k: Month
      ensures MonthShare(map[], dates, k) == 0.0
    {
      var none: map<Phase, real> := map[];
      assert (map p | p in none :: PhaseShare(none, dates, p, k)) == map[];
    }
    assert LiveFte(map[], dates) == map[];
  }

  /**
   Pro-rating by exact day overlap. The total is conserved: the entries add up to the FTE of the
   phases that have a day left, so a phase cut short is compressed into its remaining days.
   */
  method ProRate(fte: map<Phase, real>, dates: map<Phase, Span>) returns (out: map<Month, real>)
    ensures forall k: Month :: At(out, k) == MonthShare(fte, dates, k)
    ensures forall k: Month :: k in out <==> SomeContribution(fte, dates, k)
    ensures Total(out) == Total(LiveFte(fte, dates))
    ensures (forall p | p in fte :: fte[p] >= 0.0) ==> forall k | k in out :: out[k] >= 0.0
  {
    hide Share, Overlap, MonthShare, LiveFte, Total, SomeContribution, Spread;
    out := map[];
    var todo := fte.Keys;
    NothingSpread(dates);
    assert fte - todo == map[];
    while todo != {}
      invariant todo <= fte.Keys
      invariant Spread(out, fte - todo, dates)
      decreases |todo|
    {
      var p :| p in todo;
      ghost var before := out;
      if fte[p] != 0.0 && p in dates && dates[p].start < dates[p].end {
        out := SpreadPhase(out, fte[p], dates[p]);
      }
      SpreadOneMore(before, out, fte - todo, dates, p, fte[p]);
      assert (fte - todo)[p := fte[p]] == fte - (todo - {p});
      todo := todo - {p};
    }
    assert fte - todo == fte;
    SpreadMeans(out, fte, dates);
  }

  lemma SpreadMeans(out: map<Month, real>, fte: map<Phase, real>, dates: map<Phase, Span>)
    requires Spread(out, fte, dates)
    ensures forall k: Month :: At(out, k) == MonthShare(fte, dates, k)
    ensures forall k: Month :: k in out <==> SomeContribution(fte, dates, k)
    ensures Total(out) == Total(LiveFte(fte, dates))
    ensures (forall p | p in fte :: fte[p] >= 0.0) ==> forall k | k in out :: out[k] >= 0.0
  {
    hide Share, MonthShare, LiveFte, Total, Contributes;
    if forall p | p in fte :: fte[p] >= 0.0 {
      forall k | k in out
        ensures out[k] >= 0.0
      {
        MonthShareNonNegative(fte, dates, k);
        assert At(out, k) == out[k];
      }
    }
  }

  lemma MonthShareNonNegative(fte: map<Phase, real>, dates: map<Phase, Span>, k: Month)
    requires forall p | p in fte :: fte[p] >= 0.0
    ensures MonthShare(fte, dates, k) >= 0.0
  {
    var shares := map p | p in fte :: PhaseShare(fte, dates, p, k);
    forall p | p in shares
      ensures shares[p] >= 0.0
    {
      if Live(dates, p) {
        ShareOfNone(fte[p], dates[p], k);
        PortionNonNegative(fte[p], Overlap(dates[p], k), dates[p].end - dates[p].start);
      }
    }
    TotalNonNegative(shares);
  }

  /** A cut changes no start, so the phases with a day left are those that begin before their end and the cancellation. */
  lemma CutConserves(fte: map<Phase, real>, dates: map<Phase, Span>, cancel: int)
    ensures LiveFte(fte, map p | p in dates :: Cut(dates[p], Some(cancel))) ==
            map p | p in fte && p in dates && dates[p].start < dates[p].end && dates[p].start < cancel :: fte[p]
  {
  }

  /** A static category keeps its FTE; a variable one is deflated by the year the work lands in. */
  ghost function Entry(v: real, isStatic: bool, k: Month, rates: ClientRates): real {
    if isStatic then v else Escalated(v, YearOf(k), rates)
  }

  lemma EscalatedAdds(a: real, b: real, year: int, rates: ClientRates)
    ensures Escalated(a + b, year, rates) == Escalated(a, year, rates) + Escalated(b, year, rates)
    ensures Escalated(0.0, year, rates) == 0.0
  {
    hide Factor;
  }

  /** An entry is the FTE itself, or what escalates back to it. */
  ghost predicate Deflated(entry: real, v: real, isStatic: bool, k: Month, rates: ClientRates) {
    var factor := Factor(rates, k / 12, BASE_YEAR);
    if isStatic || factor <= 0.0 then entry == v else entry * factor == v
  }

  lemma EntryIsDeflated(v: real, isStatic: bool, k: Month, rates: ClientRates)
    ensures Deflated(Entry(v, isStatic, k, rates), v, isStatic, k, rates)
  {
    EscalatedMeans(v, k / 12, rates);
    hide Factor;
  }

  method MonthlyContributions(fte: map<Phase, real>, dates: map<Phase, Span>, isStatic: bool, rates: ClientRates)
    returns (out: map<Month, real>)
    ensures forall k: Month :: At(out, k) == Entry(MonthShare(fte, dates, k), isStatic, k, rates)
    ensures forall k: Month :: k in out <==> SomeContribution(fte, dates, k)
    ensures isStatic ==> Total(out) == Total(LiveFte(fte, dates))
    ensures forall k: Month :: Deflated(At(out, k), MonthShare(fte, dates, k), isStatic, k, rates)
  {
    hide Share, MonthShare, LiveFte, Total, SomeContribution, Escalated, Factor;
    var raw := ProRate(fte, dates);
    if isStatic {
      return raw;
    }
    out := map[];
    var todo := raw.Keys;
    while |todo| > 0
      invariant todo <= raw.Keys
      invariant out.Keys == raw.Keys - todo
      invariant forall k | k in out :: out[k] == Escalated(raw[k], YearOf(k), rates)
      decreases |todo|
    {
      var k := Pick(todo);
      var v := ApplyEscalationToFte(raw[k], YearOf(k), rates);
      out := out[k := v];
      todo := todo - {k};
    }
    forall k: Month
      ensures At(out, k) == Escalated(MonthShare(fte, dates, k), YearOf(k), rates)
    {
      assert At(raw, k) == MonthShare(fte, dates, k);
      EscalatedAdds(0.0, 0.0, YearOf(k), rates);
    }
    forall k: Month
      ensures Deflated(At(out, k), MonthShare(fte, dates, k), false, k, rates)
    {
      EntryIsDeflated(MonthShare(fte, dates, k), false, k, rates);
    }
  }

  // ----- The portfolio -----

  type Category = string

  /** One staffed pursuit; without a due date it cannot be phased. */
  datatype Record = Record(due: Option<int>, cancel: Option<int>, weeks: map<Phase, real>,
                           fte: map<Category, map<Phase, real>>)

  datatype Basis = Basis(isStatic: map<Category, bool>, rates: ClientRates)

  predicate Static(basis: Basis, c: Category) {
    c in basis.isStatic && basis.isStatic[c]
  }

  function PhaseSpan(due: int, weeks: map<Phase, real>, p: Phase): Span {
    match p
    case Final => Span(Boundary(due, weeks, 1), Boundary(due, weeks, 0))
    case PreProp => Span(Boundary(due, weeks, 2), Boundary(due, weeks, 1))
    case Sol => Span(Boundary(due, weeks, 3), Boundary(due, weeks, 2))
    case Strat => Span(Boundary(due, weeks, 4), Boundary(due, weeks, 3))
    case En => Span(due, due + Days(weeks, En))
  }

  /** The dates the phases have left. */
  function DatesOf(r: Record): map<Phase, Span>
    requires r.due.Some?
  {
    map p | p in PHASES :: Cut(PhaseSpan(r.due.value, r.weeks, p), r.cancel)
  }

  /** What is left of a plan: the same first days, and of each phase the days before the cancellation. */
  ghost predicate Remaining(plan: map<Phase, Span>, left: map<Phase, Span>, cancel: Option<int>) {
    && left.Keys == plan.Keys
    && (forall p | p in plan :: left[p].start == plan[p].start)
    && forall p, day | p in plan :: In(left[p], day) <==> In(plan[p], day) && (cancel.Some? ==> day < cancel.value)
  }

  function PlanOf(r: Record): map<Phase, Span>
    requires r.due.Some?
  {
    map p | p in PHASES :: PhaseSpan(r.due.value, r.weeks, p)
  }

  /** The phases of a pursuit are planned by its weeks back from its due date and cut at its cancellation. */
  lemma DatesAreRemaining(r: Record)
    requires r.due.Some?
    ensures Planned(PlanOf(r), r.due.value, r.weeks) && Remaining(PlanOf(r), DatesOf(r), r.cancel)
  {
    PlanIsPhased(r.due.value, r.weeks, PlanOf(r));
    PhasedIsPlanned(PlanOf(r), r.due.value, r.weeks);
    hide Boundary, Days, Planned, PhaseSpan;
    if r.cancel.Some? {
      forall p: Phase, day: int | p in PHASES
        ensures In(DatesOf(r)[p], day) <==> In(PlanOf(r)[p], day) && day < r.cancel.value
      {
        CutKeepsDaysBefore(PlanOf(r)[p], r.cancel.value, day);
      }
    }
  }

  lemma PlanIsPhased(due: int, weeks: map<Phase, real>, plan: map<Phase, Span>)
    requires plan == map p | p in PHASES :: PhaseSpan(due, weeks, p)
    ensures Phased(plan, due, weeks) && plan.Keys == PHASES
  {
    assert BACKWARD[0] == Final && BACKWARD[1] == PreProp && BACKWARD[2] == Sol && BACKWARD[3] == Strat;
    hide Boundary, Days;
  }

  method RemainingDates(r: Record) returns (dates: map<Phase, Span>)
    requires r.due.Some?
    ensures dates == DatesOf(r)
  {
    var planned := ComputePhaseDates(r.due.value, r.weeks);
    assert BACKWARD[0] == Final && BACKWARD[1] == PreProp && BACKWARD[2] == Sol && BACKWARD[3] == Strat;
    assert forall p | p in planned :: planned[p] == PhaseSpan(r.due.value, r.weeks, p);
    dates := ApplyCutoff(planned, r.cancel);
  }

  /** What one pursuit adds to one cell of the demand table, before escalation. */
  ghost function RawCell(r: Record, c: Category, k: Month): real {
    if r.due.None? || c !in r.fte then 0.0 else MonthShare(r.fte[c], DatesOf(r), k)
  }

  ghost function Cell(r: Record, basis: Basis, c: Category, k: Month): real {
    Entry(RawCell(r, c, k), Static(basis, c), k, basis.rates)
  }

  ghost function DemandCell(records: seq<Record>, basis: Basis, c: Category, k: Month): real {
    if records == [] then 0.0
    else DemandCell(records[..|records| - 1], basis, c, k) + Cell(records[|records| - 1], basis, c, k)
  }

  ghost function RawDemandCell(records: seq<Record>, c: Category, k: Month): real {
    if records == [] then 0.0
    else RawDemandCell(records[..|records| - 1], c, k) + RawCell(records[|records| - 1], c, k)
  }

  type Table = map<(Month, Category), real>

  /** Adds one category's months into the table. */
  method AddContributions(before: Table, months: map<Month, real>, c: Category) returns (out: Table)
    ensures forall k: Month, d: Category :: At(out, (k, d)) == At(before, (k, d)) + if d == c then At(months, k) else 0.0
  {
    out := before;
    var todo := months.Keys;
    assert forall k: Month | k !in todo :: At(months, k) == 0.0;
    while |todo| > 0
      invariant todo <= months.Keys
      invariant forall k: Month, d: Category :: At(out, (k, d)) == At(before, (k, d)) +
                  if d == c && k !in todo then At(months, k) else 0.0
      decreases |todo|
    {
      var k := Pick(todo);
      out := out[(k, c) := At(out, (k, c)) + months[k]];
      todo := todo - {k};
    }
  }

  method AddRecord(before: Table, r: Record, basis: Basis) returns (out: Table)
    requires r.due.Some?
    ensures forall k: Month, d: Category :: At(out, (k, d)) == At(before, (k, d)) + Cell(r, basis, d, k)
  {
    hide MonthShare, Total, Escalated, DatesOf, SomeContribution, LiveFte;
    out := before;
    var dates := RemainingDates(r);
    var todo := r.fte.Keys;
    while todo != {}
      invariant todo <= r.fte.Keys
      invariant forall k: Month, d: Category :: At(out, (k, d)) == At(before, (k, d)) +
                  if d in todo || d !in r.fte then 0.0 else Cell(r, basis, d, k)
      decreases |todo|
    {
      var c :| c in todo;
      var months := MonthlyContributions(r.fte[c], dates, Static(basis, c), basis.rates);
      out := AddContributions(out, months, c);
      todo := todo - {c};
    }
    forall k: Month, d: Category | d !in r.fte
      ensures Cell(r, basis, d, k) == 0.0
    {
      EscalatedAdds(0.0, 0.0, YearOf(k), basis.rates);
    }
  }

  /** The demand table: every cell is the sum of what the pursuits contribute to it. */
  method Demand(records: seq<Record>, basis: Basis) returns (monthly: Table, skipped: nat)
    ensures forall k: Month, c: Category :: At(monthly, (k, c)) == DemandCell(records, basis, c, k)
    ensures skipped == |set i | 0 <= i < |records| && records[i].due.None?|
  {
    hide Cell, RawCell;
    monthly, skipped := map[], 0;
    for i := 0 to |records|
      invariant forall k: Month, c: Category :: At(monthly, (k, c)) == DemandCell(records[..i], basis, c, k)
      invariant skipped == |set j | 0 <= j < i && records[j].due.None?|
    {
      assert (set j | 0 <= j < i + 1 && records[j].due.None?) ==
             (set j | 0 <= j < i && records[j].due.None?) + if records[i].due.None? then {i} else {};
      assert records[..i + 1][..i] == records[..i];
      if records[i].due.None? {
        skipped := skipped + 1;
        UnphasedAddsNothing(records[i], basis);
      } else {
        monthly := AddRecord(monthly, records[i], basis);
      }
    }
    assert records[..|records|] == records;
  }

  lemma UnphasedAddsNothing(r: Record, basis: Basis)
    requires r.due.None?
    ensures forall k: Month, c: Category :: Cell(r, basis, c, k) == 0.0
  {
    forall k: Month, c: Category
      ensures Cell(r, basis, c, k) == 0.0
    {
      EscalatedAdds(0.0, 0.0, YearOf(k), basis.rates);
    }
  }

  /** Deflating pursuit by pursuit and adding up is adding up and deflating once. */
  lemma {:induction false} DemandFactors(records: seq<Record>, basis: Basis, c: Category, k: Month)
    ensures DemandCell(records, basis, c, k) == Entry(RawDemandCell(records, c, k), Static(basis, c), k, basis.rates)
  {
    hide Escalated, RawCell;
    if records == [] {
      EscalatedAdds(0.0, 0.0, YearOf(k), basis.rates);
    } else {
      var rest := records[..|records| - 1];
      DemandFactors(rest, basis, c, k);
      EscalatedAdds(RawDemandCell(rest, c, k), RawCell(records[|records| - 1], c, k), YearOf(k), basis.rates);
    }
  }

  /** For a static category the table holds the pro-rated FTE; for a variable one escalating a cell gives it back. */
  lemma DemandDeflates(records: seq<Record>, basis: Basis, c: Category, k: Month)
    ensures Deflated(DemandCell(records, basis, c, k), RawDemandCell(records, c, k),
                     c in basis.isStatic && basis.isStatic[c], k, basis.rates)
  {
    hide Deflated, Entry, DemandCell, RawDemandCell;
    DemandFactors(records, basis, c, k);
    EntryIsDeflated(RawDemandCell(records, c, k), Static(basis, c), k, basis.rates);
  }

  lemma {:induction false} DemandWithout(before: seq<Record>, r: Record, after: seq<Record>, basis: Basis, c: Category, k: Month)
    ensures DemandCell(before + [r] + after, basis, c, k) == DemandCell(before + after, basis, c, k) + Cell(r, basis, c, k)
    decreases |after|
  {
    hide Cell;
    if after == [] {
      assert before + [r] + after == before + [r] && before + after == before;
      assert (before + [r])[..|before|] == before;
    } else {
      var last := |after| - 1;
      DemandWithout(before, r, after[..last], basis, c, k);
      assert (before + [r] + after)[..|before| + 1 + last] == before + [r] + after[..last];
      assert (before + after)[..|before| + last] == before + after[..last];
    }
  }

  lemma MultisetCancel(a: multiset<Record>, b: multiset<Record>, r: Record)
    requires a + multiset{r} == b + multiset{r}
    ensures a == b
  {
    assert a == (a + multiset{r}) - multiset{r};
    assert b == (b + multiset{r}) - multiset{r};
  }

  /** The order in which the pursuits come makes no difference. */
  lemma {:induction false} DemandIgnoresOrder(records: seq<Record>, others: seq<Record>, basis: Basis, c: Category, k: Month)
    requires multiset(records) == multiset(others)
    ensures DemandCell(records, basis, c, k) == DemandCell(others, basis, c, k)
    decreases |records|
  {
    hide Cell;
    if records == [] {
      assert |multiset(others)| == 0;
      assert others == [];
    } else {
      var last := |records| - 1;
      var r := records[last];
      assert records == records[..last] + [r];
      assert r in multiset(others);
      var i :| 0 <= i < |others| && others[i] == r;
      assert others == others[..i] + [r] + others[i + 1..];
      assert multiset(others) == multiset(others[..i] + others[i + 1..]) + multiset{r};
      assert multiset(records) == multiset(records[..last]) + multiset{r};
      MultisetCancel(multiset(records[..last]), multiset(others[..i] + others[i + 1..]), r);
      DemandWithout(others[..i], r, others[i + 1..], basis, c, k);
      DemandIgnoresOrder(records[..last], others[..i] + others[i + 1..], basis, c, k);
    }
  }
}
