/** Staffing phases: stacked backward from the proposal due date, cut at a cancellation, spread over months. */
module Phasing {
  import opened Wrappers
  import opened Sums
  import opened Calendar

  datatype Phase = Final | PreProp | Sol | Strat | En

  const PHASES: set<Phase> := {Final, PreProp, Sol, Strat, En}

  /** Days [start, end). */
  datatype Span = Span(start: int, end: int)

  const BACKWARD: seq<Phase> := [Final, PreProp, Sol, Strat]

  predicate In(span: Span, day: int) {
    span.start <= day < span.end
  }

  /** Nearest integer, a tie going to the even one. */
  function RoundHalfEven(x: real): (r: int)
    ensures -0.5 <= r as real - x <= 0.5
    ensures (r as real - x == 0.5 || r as real - x == -0.5) ==> r % 2 == 0
    ensures x >= 0.0 ==> r >= 0
  {
    var f := x.Floor;
    var d := x - f as real;
    if d < 0.5 then f else if d > 0.5 then f + 1 else if f % 2 == 0 then f else f + 1
  }

  /** A missing phase has no weeks. */
  function Days(weeks: map<Phase, real>, phase: Phase): int {
    RoundHalfEven((if phase in weeks then weeks[phase] else 0.0) * 7.0)
  }

  /** Where the cursor stands after the first `i` backward phases. */
  function Boundary(due: int, weeks: map<Phase, real>, i: nat): int
    requires i <= |BACKWARD|
  {
    if i == 0 then due else Boundary(due, weeks, i - 1) - Days(weeks, BACKWARD[i - 1])
  }

  ghost predicate Phased(out: map<Phase, Span>, due: int, weeks: map<Phase, real>) {
    && (forall i: nat | i < |BACKWARD| ::
          BACKWARD[i] in out && out[BACKWARD[i]] == Span(Boundary(due, weeks, i + 1), Boundary(due, weeks, i)))
    && En in out && out[En] == Span(due, due + Days(weeks, En))
  }

  /** The nearest whole number of days to seven per week, a tie going to the even one. */
  predicate Lasts(span: Span, weeks: real) {
    var miss := (span.end - span.start) as real - 7.0 * weeks;
    -0.5 <= miss <= 0.5 && (miss == 0.5 || miss == -0.5 ==> (span.end - span.start) % 2 == 0)
  }

  /** Back to back before the due date and EN after it, each as long as its weeks; a missing phase has none. */
  ghost predicate Planned(out: map<Phase, Span>, due: int, weeks: map<Phase, real>) {
    && (forall p: Phase :: p in out)
    && (forall p: Phase | p in weeks :: Lasts(out[p], weeks[p]))
    && (forall p: Phase | p !in weeks :: out[p].start == out[p].end)
    && out[Strat].end == out[Sol].start && out[Sol].end == out[PreProp].start && out[PreProp].end == out[Final].start
    && out[Final].end == due == out[En].start
  }

  lemma PhasedIsPlanned(out: map<Phase, Span>, due: int, weeks: map<Phase, real>)
    requires Phased(out, due, weeks) && out.Keys == PHASES
    ensures Planned(out, due, weeks)
  {
    FourBoundaries(out, due, weeks);
    forall p: Phase
      ensures p in out && out[p].end - out[p].start == Days(weeks, p)
    {
      match p case Final => case PreProp => case Sol => case Strat => case En =>
    }
    forall p: Phase
      ensures p in weeks ==> Lasts(out[p], weeks[p])
      ensures p !in weeks ==> out[p].start == out[p].end
    {
      DaysLast(weeks, p, out[p]);
    }
    hide Days, Lasts;
  }

  lemma DaysLast(weeks: map<Phase, real>, p: Phase, span: Span)
    requires span.end - span.start == Days(weeks, p)
    ensures p in weeks ==> Lasts(span, weeks[p])
    ensures p !in weeks ==> span.start == span.end
  {
    hide RoundHalfEven;
  }

  method ComputePhaseDates(due: int, weeks: map<Phase, real>) returns (out: map<Phase, Span>)
    ensures Phased(out, due, weeks) && out.Keys == PHASES
    ensures Planned(out, due, weeks)
  {
    hide Days, Lasts, Planned;
    out := map[];
    var cursor := due;
    for i := 0 to |BACKWARD|
      invariant cursor == Boundary(due, weeks, i)
      invariant forall p :: p in out <==> exists j: nat :: j < i && BACKWARD[j] == p
      invariant forall j: nat | j < i ::
                  BACKWARD[j] in out && out[BACKWARD[j]] == Span(Boundary(due, weeks, j + 1), Boundary(due, weeks, j))
    {
      var phase := BACKWARD[i];
      var end := cursor;
      var start := end - Days(weeks, phase);
      out := out[phase := Span(start, end)];
      cursor := start;
    }
    out := out[En := Span(due, due + Days(weeks, En))];
    PhasedIsPlanned(out, due, weeks);
  }

  /** The phases are adjacent and disjoint, and cover exactly the window from the first day of strategy to the last of EN. */
  lemma PhasesTile(out: map<Phase, Span>, due: int, weeks: map<Phase, real>, day: int)
    requires Planned(out, due, weeks) && forall p | p in weeks :: weeks[p] >= 0.0
    ensures (exists p :: p in out && In(out[p], day)) <==> out[Strat].start <= day < out[En].end
    ensures forall p, q | p in out && q in out && In(out[p], day) && In(out[q], day) :: p == q
  {
    forall p: Phase
      ensures out[p].start <= out[p].end
    {
      assert p in weeks ==> Lasts(out[p], weeks[p]);
    }
    hide Lasts;
    if out[Strat].start <= day < out[En].end {
      var p := if day >= due then En else if day >= out[Final].start then Final
               else if day >= out[PreProp].start then PreProp else if day >= out[Sol].start then Sol else Strat;
      assert In(out[p], day);
    }
    if p: Phase :| p in out && In(out[p], day) {
      match p case Final => case PreProp => case Sol => case Strat => case En =>
    }
  }

  lemma FourBoundaries(out: map<Phase, Span>, due: int, weeks: map<Phase, real>)
    requires Phased(out, due, weeks)
    ensures Final in out && out[Final] == Span(due - Days(weeks, Final), due)
    ensures PreProp in out && out[PreProp] == Span(out[Final].start - Days(weeks, PreProp), out[Final].start)
    ensures Sol in out && out[Sol] == Span(out[PreProp].start - Days(weeks, Sol), out[PreProp].start)
    ensures Strat in out && out[Strat] == Span(out[Sol].start - Days(weeks, Strat), out[Sol].start)
  {
    hide Days;
    assert BACKWARD[0] == Final && BACKWARD[1] == PreProp && BACKWARD[2] == Sol && BACKWARD[3] == Strat;
    assert out[BACKWARD[0]] == Span(Boundary(due, weeks, 1), Boundary(due, weeks, 0));
    assert out[BACKWARD[1]] == Span(Boundary(due, weeks, 2), Boundary(due, weeks, 1));
    assert out[BACKWARD[2]] == Span(Boundary(due, weeks, 3), Boundary(due, weeks, 2));
    assert out[BACKWARD[3]] == Span(Boundary(due, weeks, 4), Boundary(due, weeks, 3));
  }

  // ----- Cancellation -----

  function Cut(span: Span, cancel: Option<int>): Span {
    match cancel
    case None => span
    case Some(day) =>
      var end := if span.end <= day then span.end else day;
      if end <= span.start then Span(span.start, span.start) else Span(span.start, end)
  }

  method ApplyCutoff(dates: map<Phase, Span>, cancel: Option<int>) returns (out: map<Phase, Span>)
    ensures out == map p | p in dates :: Cut(dates[p], cancel)
  {
    if cancel.None? {
      out := map p | p in dates :: dates[p];
      return;
    }
    out := map[];
    var todo := dates.Keys;
    while todo != {}
      invariant todo <= dates.Keys
      invariant out == map p | p in dates && p !in todo :: Cut(dates[p], cancel)
      decreases |todo|
    {
      var phase :| phase in todo;
      var span := dates[phase];
      var end := if span.end <= cancel.value then span.end else cancel.value;
      out := out[phase := if end <= span.start then Span(span.start, span.start) else Span(span.start, end)];
      todo := todo - {phase};
    }
  }

  /** A cut keeps exactly the days before the cancellation. */
  lemma CutKeepsDaysBefore(span: Span, cancel: int, day: int)
    ensures In(Cut(span, Some(cancel)), day) <==> In(span, day) && day < cancel
  {
  }

  /** Two cuts are one at the earlier date; in particular a repeated cut changes nothing. */
  lemma CutsCombine(span: Span, a: int, b: int)
    ensures Cut(Cut(span, Some(a)), Some(b)) == Cut(span, Some(if a <= b then a else b))
    ensures Cut(Cut(span, Some(a)), Some(a)) == Cut(span, Some(a))
  {
  }

  // ----- Pro-rating over calendar months -----

  function Min(a: int, b: int): int {
    if a <= b then a else b
  }

  function Max(a: int, b: int): int {
    if a <= b then b else a
  }

  /** Days of the span that fall in month `k`. */
  function Overlap(span: Span, k: Month): int {
    Max(0, Min(span.end, MonthStart(k + 1)) - Max(span.start, MonthStart(k)))
  }

  function DaysOf(span: Span): set<int> {
    set day | span.start <= day < span.end && In(span, day)
  }

  lemma {:induction false} DaysCount(span: Span)
    ensures |DaysOf(span)| == Max(0, span.end - span.start)
    decreases Max(0, span.end - span.start)
  {
    if span.start < span.end {
      var shorter := Span(span.start, span.end - 1);
      DaysCount(shorter);
      OneMoreDay(span);
    } else {
      assert DaysOf(span) == {};
    }
    hide DaysOf;
  }

  lemma OneMoreDay(span: Span)
    requires span.start < span.end
    ensures DaysOf(span) == DaysOf(Span(span.start, span.end - 1)) + {span.end - 1}
    ensures span.end - 1 !in DaysOf(Span(span.start, span.end - 1))
  {
  }

  /** The overlap is the number of days that the span and the month have in common. */
  lemma OverlapCounts(span: Span, k: Month)
    ensures Overlap(span, k) == |DaysOf(span) * DaysOf(Span(MonthStart(k), MonthStart(k + 1)))|
  {
    var common := Span(Max(span.start, MonthStart(k)), Min(span.end, MonthStart(k + 1)));
    DaysCount(common);
    hide MonthStart;
    assert DaysOf(span) * DaysOf(Span(MonthStart(k), MonthStart(k + 1))) == DaysOf(common);
  }

  predicate Live(dates: map<Phase, Span>, p: Phase) {
    p in dates && dates[p].start < dates[p].end
  }

  /** `n` days' worth of an amount spread evenly over `days` days. */
  function Portion(amount: real, n: int, days: int): real
    requires days > 0
  {
    amount * n as real / days as real
  }

  lemma PortionsAdd(amount: real, a: int, b: int, days: int)
    requires days > 0
    ensures Portion(amount, a, days) + Portion(amount, b, days) == Portion(amount, a + b, days)
  {
    var d := days as real;
    assert amount * a as real + amount * b as real == amount * (a + b) as real;
    assert (amount * a as real + amount * b as real) / d == amount * a as real / d + amount * b as real / d;
  }

  lemma PortionEnds(amount: real, days: int)
    requires days > 0
    ensures Portion(amount, 0, days) == 0.0 && Portion(amount, days, days) == amount
  {
  }

  lemma PortionNonNegative(amount: real, n: int, days: int)
    requires days > 0 && n >= 0 && amount >= 0.0
    ensures Portion(amount, n, days) >= 0.0
  {
    assert amount * n as real >= 0.0;
  }

  function Share(fte: real, span: Span, k: Month): real {
    if span.start < span.end then Portion(fte, Overlap(span, k), span.end - span.start) else 0.0
  }

  /** The month's share is to the whole as its days are to all days. */
  lemma ShareIsProportional(fte: real, span: Span, k: Month)
    requires span.start < span.end
    ensures Share(fte, span, k) * (span.end - span.start) as real == fte * Overlap(span, k) as real
  {
    hide Overlap;
  }

  function PhaseShare(fte: map<Phase, real>, dates: map<Phase, Span>, p: Phase, k: Month): real {
    if p in fte && Live(dates, p) then Share(fte[p], dates[p], k) else 0.0
  }

  /** What month `k` should hold: the shares of all phases. */
  ghost function MonthShare(fte: map<Phase, real>, dates: map<Phase, Span>, k: Month): real {
    Total(map p | p in fte :: PhaseShare(fte, dates, p, k))
  }

  /** The FTE of the phases that have a day left. */
  function LiveFte(fte: map<Phase, real>, dates: map<Phase, Span>): map<Phase, real> {
    map p | p in fte && Live(dates, p) :: fte[p]
  }

  /** How much of the span lies before month `k`. */
  function Before(span: Span, k: Month): int {
    Max(span.start, Min(span.end, MonthStart(k))) - span.start
  }

  lemma OverlapIsStep(span: Span, k: Month)
    requires span.start < span.end
    ensures Overlap(span, k) == Before(span, k + 1) - Before(span, k)
  {
    MonthLength(k);
    hide MonthStart;
  }

  lemma NoOverlapOutside(span: Span, k: Month)
    requires MonthStart(k + 1) <= span.start || span.end <= MonthStart(k)
    ensures Overlap(span, k) == 0
  {
    hide MonthStart;
  }

  /** Months before the first and after the last month of the span hold nothing of it. */
  lemma ShareOutside(fte: real, span: Span, first: Month, past: Month, k: Month)
    requires MonthStart(first) <= span.start && span.end <= MonthStart(past)
    requires k < first || past <= k
    ensures Share(fte, span, k) == 0.0 && Overlap(span, k) == 0
  {
    hide MonthStart, Portion;
    ShareOfNone(fte, span, k);
    if k < first {
      MonthsIncrease(k + 1, first);
    } else {
      MonthsIncrease(past, k);
    }
    NoOverlapOutside(span, k);
  }

  /** The loop state once the months before `k` are done. */
  ghost predicate SpreadUpTo(before: map<Month, real>, out: map<Month, real>, fte: real, span: Span, first: Month, k: Month)
    requires span.start < span.end
  {
    && first <= k
    && (forall j: Month :: At(out, j) == At(before, j) + if first <= j < k then Share(fte, span, j) else 0.0)
    && (forall j: Month :: j in out <==> j in before || (first <= j < k && Overlap(span, j) > 0))
    && Total(out) == Total(before) + Covered(fte, span, k)
  }

  /** The part of the FTE that falls before month `k`. */
  function Covered(fte: real, span: Span, k: Month): real
    requires span.start < span.end
  {
    Portion(fte, Before(span, k), span.end - span.start)
  }

  lemma CoveredStep(fte: real, span: Span, k: Month)
    requires span.start < span.end
    ensures Covered(fte, span, k + 1) == Covered(fte, span, k) + Share(fte, span, k)
  {
    OverlapIsStep(span, k);
    PortionsAdd(fte, Before(span, k), Overlap(span, k), span.end - span.start);
    hide Before, Overlap, MonthStart, Portion;
  }

  function WithShare(out: map<Month, real>, fte: real, span: Span, k: Month): map<Month, real> {
    if Overlap(span, k) > 0 then out[k := At(out, k) + Share(fte, span, k)] else out
  }

  lemma WithShareAt(out: map<Month, real>, fte: real, span: Span, k: Month, j: Month)
    ensures At(WithShare(out, fte, span, k), j) == At(out, j) + if j == k then Share(fte, span, k) else 0.0
    ensures j in WithShare(out, fte, span, k) <==> j in out || (j == k && Overlap(span, k) > 0)
  {
    ShareOfNone(fte, span, k);
    hide Overlap, Share;
  }

  lemma WithShareTotal(out: map<Month, real>, fte: real, span: Span, k: Month)
    ensures Total(WithShare(out, fte, span, k)) == Total(out) + Share(fte, span, k)
  {
    ShareOfNone(fte, span, k);
    TotalAdd(out, k, Share(fte, span, k));
    hide Overlap, Share, Total;
  }

  lemma SpreadStep(before: map<Month, real>, out: map<Month, real>, fte: real, span: Span, first: Month, k: Month)
    requires span.start < span.end && SpreadUpTo(before, out, fte, span, first, k)
    ensures SpreadUpTo(before, WithShare(out, fte, span, k), fte, span, first, k + 1)
  {
    hide Overlap, Before, MonthStart, Total, Share, Covered, Portion, WithShare;
    CoveredStep(fte, span, k);
    WithShareTotal(out, fte, span, k);
    var next := WithShare(out, fte, span, k);
    forall j: Month
      ensures At(next, j) == At(before, j) + if first <= j < k + 1 then Share(fte, span, j) else 0.0
      ensures j in next <==> j in before || (first <= j < k + 1 && Overlap(span, j) > 0)
    {
      WithShareAt(out, fte, span, k, j);
    }
  }

  lemma ShareOfNone(fte: real, span: Span, k: Month)
    ensures Overlap(span, k) == 0 ==> Share(fte, span, k) == 0.0
    ensures Overlap(span, k) >= 0
  {
    hide MonthStart, Portion;
    if span.start < span.end {
      PortionEnds(fte, span.end - span.start);
    }
  }

  /** One phase's FTE spread over its months: what each month gains, which months appear, and what the total gains. */
  method SpreadPhase(before: map<Month, real>, fte: real, span: Span) returns (out: map<Month, real>)
    requires span.start < span.end
    ensures forall k: Month :: At(out, k) == At(before, k) + Share(fte, span, k)
    ensures forall k: Month :: k in out <==> k in before || Overlap(span, k) > 0
    ensures Total(out) == Total(before) + fte
  {
    hide *;
    out := before;
    var first := MonthOf(span.start);
    var y, m := YearOf(first), MonthNumber(first);
    MonthParts(first);
    SpreadStart(before, fte, span, first);
    while MonthStart(MonthIn(y, m)) < span.end
      invariant 1 <= m <= 12
      invariant SpreadUpTo(before, out, fte, span, first, MonthIn(y, m))
      decreases span.end - MonthStart(MonthIn(y, m))
    {
      MonthLength(MonthIn(y, m));
      NextMonthIn(y, m);
      SpreadStep(before, out, fte, span, first, MonthIn(y, m));
      out := AddMonth(out, fte, span, MonthIn(y, m));
      m := m + 1;
      if m == 13 {
        y, m := y + 1, 1;
      }
    }
    SpreadDone(before, out, fte, span, first, MonthIn(y, m));
  }

  lemma SpreadStart(before: map<Month, real>, fte: real, span: Span, first: Month)
    requires span.start < span.end && MonthStart(first) <= span.start
    ensures SpreadUpTo(before, before, fte, span, first, first)
  {
    NothingBefore(fte, span, first);
    hide MonthStart, Share, Overlap, Before, Total, Covered, Portion;
  }

  lemma NothingBefore(fte: real, span: Span, first: Month)
    requires span.start < span.end && MonthStart(first) <= span.start
    ensures Covered(fte, span, first) == 0.0
  {
    hide MonthStart, Portion;
    PortionEnds(fte, span.end - span.start);
    assert Before(span, first) == 0;
  }

  method AddMonth(before: map<Month, real>, fte: real, span: Span, k: Month) returns (out: map<Month, real>)
    requires span.start < span.end
    ensures out == WithShare(before, fte, span, k)
  {
    out := before;
    var overlap := Min(span.end, MonthStart(k + 1)) - Max(span.start, MonthStart(k));
    OverlapIs(fte, span, k, overlap);
    hide MonthStart, Share, Overlap, Portion;
    if overlap > 0 {
      out := out[k := At(out, k) + Portion(fte, overlap, span.end - span.start)];
    }
  }

  lemma OverlapIs(fte: real, span: Span, k: Month, overlap: int)
    requires span.start < span.end && overlap == Min(span.end, MonthStart(k + 1)) - Max(span.start, MonthStart(k))
    ensures overlap > 0 <==> Overlap(span, k) > 0
    ensures overlap > 0 ==> Share(fte, span, k) == Portion(fte, overlap, span.end - span.start)
  {
    hide MonthStart, Portion;
  }

  lemma SpreadDone(before: map<Month, real>, out: map<Month, real>, fte: real, span: Span, first: Month, past: Month)
    requires span.start < span.end && SpreadUpTo(before, out, fte, span, first, past)
    requires MonthStart(first) <= span.start && span.end <= MonthStart(past)
    ensures forall k: Month :: At(out, k) == At(before, k) + Share(fte, span, k)
    ensures forall k: Month :: k in out <==> k in before || Overlap(span, k) > 0
    ensures Total(out) == Total(before) + fte
  {
    EverythingBefore(fte, span, past);
    hide MonthStart, Share, Overlap, Before, Total, Covered, Portion;
    forall k: Month | k < first || past <= k
      ensures Share(fte, span, k) == 0.0 && Overlap(span, k) == 0
    {
      ShareOutside(fte, span, first, past, k);
    }
  }

  lemma EverythingBefore(fte: real, span: Span, past: Month)
    requires span.start < span.end <= MonthStart(past)
    ensures Covered(fte, span, past) == fte
  {
    hide MonthStart, Portion;
    PortionEnds(fte, span.end - span.start);
    assert Before(span, past) == span.end - span.start;
  }
}
