/**
 The demo generator's yearly spread. A year's window ends on 31 December exclusive, so the spread
 loses exactly the Dec 31 days and the days outside the plan years.
 */
module YearSpread {
  import opened Calendar
  import opened Phasing
  import opened Wrappers

  const FIRST_YEAR: int := 2026
  const PLAN_YEARS: nat := 5

  datatype Outcome = Won | Lost | Canceled | Pending

  datatype DemoRow = DemoRow(bid: bool, outcome: Option<Outcome>, bp: real, bpStart: int, due: int,
                             value: real, award: int, end: int)

  /** An amount spread evenly over the days from `start` to `end`. */
  datatype Job = Job(amount: real, start: int, end: int)

  function Length(job: Job): int {
    Max(1, job.end - job.start)
  }

  function BpJob(r: DemoRow): Option<Job> {
    if !r.bid || r.outcome == Some(Canceled) then None else Some(Job(r.bp, r.bpStart, r.due))
  }

  const ASSUMED_PWIN: real := 0.30

  function RevJob(r: DemoRow): Option<Job> {
    if !r.bid || r.outcome == Some(Lost) || r.outcome == Some(Canceled) then None
    else Some(Job(r.value * if r.outcome == Some(Won) then 1.0 else ASSUMED_PWIN, r.award, r.end))
  }

  /** The overlap of [start, end) with [1 January, 31 December). */
  function YearDays(job: Job, y: int): int {
    Max(0, Min(job.end, YearStart(y + 1) - 1) - Max(job.start, YearStart(y)))
  }

  function YearShare(job: Option<Job>, y: int): real {
    if job.None? then 0.0 else Portion(job.value.amount, YearDays(job.value, y), Length(job.value))
  }

  // ----- Which days are counted -----

  ghost predicate IsDec31(day: int) {
    exists y: int :: day + 1 == YearStart(y)
  }

  /** Inside `n` plan years from `first` on, and not a 31 December. */
  ghost predicate Counted(day: int, first: int, n: nat) {
    YearStart(first) <= day < YearStart(first + n) && !IsDec31(day)
  }

  ghost function CountedDays(start: int, end: int, first: int, n: nat): nat
    decreases end - start
  {
    if end <= start then 0 else CountedDays(start, end - 1, first, n) + if Counted(end - 1, first, n) then 1 else 0
  }

  function SpreadDays(job: Job, first: int, n: nat): int {
    if n == 0 then 0 else SpreadDays(job, first, n - 1) + YearDays(job, first + n - 1)
  }

  lemma {:induction false} YearsIncrease(y: int, z: int)
    requires y <= z
    ensures YearStart(y) + 365 * (z - y) <= YearStart(z)
    decreases z - y
  {
    hide YearStart;
    if y < z {
      YearLength(y);
      YearsIncrease(y + 1, z);
    }
  }

  /** A day of a year is its 31 December or none. */
  lemma Dec31Within(day: int, y: int)
    requires YearStart(y) <= day < YearStart(y + 1)
    ensures IsDec31(day) <==> day + 1 == YearStart(y + 1)
  {
    hide YearStart;
    if IsDec31(day) {
      var z :| day + 1 == YearStart(z);
      if z <= y {
        YearsIncrease(z, y);
      } else {
        YearsIncrease(y + 1, z);
      }
    }
  }

  predicate InYear(day: int, y: int) {
    YearStart(y) <= day < YearStart(y + 1) - 1
  }

  /** One more year counts its own days, and no day of it was counted before. */
  lemma CountedOneMore(day: int, first: int, n: nat)
    ensures Counted(day, first, n + 1) <==> Counted(day, first, n) || InYear(day, first + n)
    ensures !(Counted(day, first, n) && InYear(day, first + n))
  {
    hide YearStart, IsDec31;
    var y := first + n;
    YearsIncrease(first, y);
    YearLength(y);
    if YearStart(y) <= day < YearStart(y + 1) {
      Dec31Within(day, y);
    }
  }

  lemma {:induction false} DaysOneMore(start: int, end: int, first: int, n: nat)
    ensures CountedDays(start, end, first, n + 1) ==
            CountedDays(start, end, first, n) + YearDays(Job(0.0, start, end), first + n)
    decreases end - start
  {
    hide YearStart, Counted;
    YearLength(first + n);
    if start < end {
      DaysOneMore(start, end - 1, first, n);
      CountedOneMore(end - 1, first, n);
    }
  }

  lemma {:induction false} NoYearsCounted(start: int, end: int, first: int)
    ensures CountedDays(start, end, first, 0) == 0
    decreases end - start
  {
    if start < end {
      NoYearsCounted(start, end - 1, first);
    }
  }

  lemma SameWindow(job: Job, y: int)
    ensures YearDays(Job(0.0, job.start, job.end), y) == YearDays(job, y)
  {
  }

  /** The overlaps of a window with the plan years add up to exactly its counted days. */
  lemma {:induction false} SpreadCounts(job: Job, first: int, n: nat)
    ensures SpreadDays(job, first, n) == CountedDays(job.start, job.end, first, n)
    decreases n
  {
    hide CountedDays, YearDays, YearStart;
    SameWindow(job, first + n - 1);
    if n == 0 {
      NoYearsCounted(job.start, job.end, first);
    } else {
      SpreadCounts(job, first, n - 1);
      DaysOneMore(job.start, job.end, first, n - 1);
    }
  }

  lemma {:induction false} CountedAtMost(start: int, end: int, first: int, n: nat)
    ensures CountedDays(start, end, first, n) <= Max(0, end - start)
    decreases end - start
  {
    if start < end {
      CountedAtMost(start, end - 1, first, n);
    }
  }

  // ----- What the spread adds up to -----

  function SpreadAmount(job: Job, first: int, n: nat): real {
    if n == 0 then 0.0 else SpreadAmount(job, first, n - 1) + YearShare(Some(job), first + n - 1)
  }

  lemma {:induction false} AmountOfDays(job: Job, first: int, n: nat)
    ensures SpreadAmount(job, first, n) == Portion(job.amount, SpreadDays(job, first, n), Length(job))
    decreases n
  {
    hide Portion, YearDays;
    if n == 0 {
      PortionEnds(job.amount, Length(job));
    } else {
      AmountOfDays(job, first, n - 1);
      PortionsAdd(job.amount, SpreadDays(job, first, n - 1), YearDays(job, first + n - 1), Length(job));
    }
  }

  /** The shortfall of a spread is exactly the portion of the days it does not count; it never overshoots. */
  lemma SpreadShortfall(job: Job, first: int, n: nat)
    requires job.amount >= 0.0
    ensures var counted := CountedDays(job.start, job.end, first, n);
            && SpreadAmount(job, first, n) == Portion(job.amount, counted, Length(job))
            && job.amount - SpreadAmount(job, first, n) == Portion(job.amount, Length(job) - counted, Length(job))
            && 0.0 <= SpreadAmount(job, first, n) <= job.amount
  {
    hide Portion, CountedDays;
    var counted := CountedDays(job.start, job.end, first, n);
    AmountOfDays(job, first, n);
    SpreadCounts(job, first, n);
    CountedAtMost(job.start, job.end, first, n);
    PortionsAdd(job.amount, counted, Length(job) - counted, Length(job));
    PortionEnds(job.amount, Length(job));
    PortionNonNegative(job.amount, counted, Length(job));
    PortionNonNegative(job.amount, Length(job) - counted, Length(job));
  }

  lemma {:induction false} AllCounted(start: int, end: int, first: int, n: nat)
    ensures CountedDays(start, end, first, n) == end - start && start <= end <==>
            start <= end && forall day | start <= day < end :: Counted(day, first, n)
    decreases end - start
  {
    hide Counted;
    if start < end {
      AllCounted(start, end - 1, first, n);
      CountedAtMost(start, end - 1, first, n);
    }
  }

  lemma WholePortion(amount: real, days: int, length: int)
    requires amount > 0.0 && length > 0
    ensures Portion(amount, days, length) == amount <==> days == length
  {
    PortionEnds(amount, length);
    if Portion(amount, days, length) == amount {
      assert amount * days as real == amount * length as real;
    }
  }

  /** A positive amount is spread in full exactly when the window has a day and each of its days is counted. */
  lemma SpreadIsWholeExactly(job: Job, first: int, n: nat)
    requires job.amount > 0.0
    ensures SpreadAmount(job, first, n) == job.amount <==> CountedDays(job.start, job.end, first, n) == Length(job)
    ensures SpreadAmount(job, first, n) == job.amount <==>
            job.start < job.end && forall day | job.start <= day < job.end :: Counted(day, first, n)
  {
    SpreadShortfall(job, first, n);
    WholePortion(job.amount, CountedDays(job.start, job.end, first, n), Length(job));
    AllCounted(job.start, job.end, first, n);
    CountedAtMost(job.start, job.end, first, n);
    hide Portion, CountedDays, Counted;
  }

  /** Two over 31 December 2026 and 1 January 2027: one is lost. */
  const NEW_YEAR: Job := Job(2.0, YearStart(2027) - 1, YearStart(2027) + 1)

  lemma NewYearIsShort()
    ensures IsDec31(NEW_YEAR.start) && NEW_YEAR.start + 1 < NEW_YEAR.end
    ensures SpreadAmount(NEW_YEAR, FIRST_YEAR, PLAN_YEARS) == 1.0 < NEW_YEAR.amount
  {
    assert NEW_YEAR.start + 1 == YearStart(2027);
    assert YearDays(NEW_YEAR, 2026) == 0 && YearDays(NEW_YEAR, 2027) == 1;
    assert YearDays(NEW_YEAR, 2028) == 0 && YearDays(NEW_YEAR, 2029) == 0 && YearDays(NEW_YEAR, 2030) == 0;
    AmountOfDays(NEW_YEAR, FIRST_YEAR, PLAN_YEARS);
    hide YearDays, YearStart;
    assert SpreadDays(NEW_YEAR, 2026, 2) == 1;
    assert SpreadDays(NEW_YEAR, 2026, 4) == 1;
  }

  // ----- The two loops -----

  function Jobs(rows: seq<DemoRow>, revenue: bool): seq<Option<Job>> {
    seq(|rows|, i requires 0 <= i < |rows| => if revenue then RevJob(rows[i]) else BpJob(rows[i]))
  }

  /** What year `y` should hold. */
  function YearSum(jobs: seq<Option<Job>>, y: int): real {
    if jobs == [] then 0.0 else YearSum(jobs[..|jobs| - 1], y) + YearShare(jobs[|jobs| - 1], y)
  }

  predicate IsPlanYear(y: int) {
    FIRST_YEAR <= y < FIRST_YEAR + PLAN_YEARS
  }

  method AddJob(before: map<int, real>, job: Job) returns (out: map<int, real>)
    requires forall y: int :: IsPlanYear(y) ==> y in before
    ensures forall y: int :: IsPlanYear(y) ==> y in out && out[y] == before[y] + YearShare(Some(job), y)
  {
    hide YearStart, Portion;
    out := before;
    var days := Length(job);
    for y := FIRST_YEAR to FIRST_YEAR + PLAN_YEARS
      invariant forall z: int | IsPlanYear(z) ::
                  z in out && out[z] == before[z] + if z < y then YearShare(Some(job), z) else 0.0
    {
      var overlap := Min(job.end, YearStart(y + 1) - 1) - Max(job.start, YearStart(y));
      PortionEnds(job.amount, days);
      if overlap > 0 {
        out := out[y := out[y] + Portion(job.amount, overlap, days)];
      }
    }
  }

  method SpreadByYear(jobs: seq<Option<Job>>) returns (out: map<int, real>)
    ensures forall y: int :: IsPlanYear(y) ==> y in out && out[y] == YearSum(jobs, y)
  {
    hide YearStart, Portion, YearShare;
    out := map y: int | FIRST_YEAR <= y < FIRST_YEAR + PLAN_YEARS && IsPlanYear(y) :: 0.0;
    for i := 0 to |jobs|
      invariant forall y: int :: IsPlanYear(y) ==> y in out && out[y] == YearSum(jobs[..i], y)
    {
      assert jobs[..i + 1][..i] == jobs[..i];
      if jobs[i].Some? {
        out := AddJob(out, jobs[i].value);
      } else {
        NoJobNoShare(jobs[i]);
      }
    }
    assert jobs[..|jobs|] == jobs;
  }

  lemma NoJobNoShare(job: Option<Job>)
    requires job.None?
    ensures forall y: int :: YearShare(job, y) == 0.0
  {
  }

  // ----- The tables by outcome -----

  /** The year's part of the awards of the won bids. */
  function WonRevenue(rows: seq<DemoRow>, y: int): real {
    if rows == [] then 0.0
    else
      var r := rows[|rows| - 1];
      WonRevenue(rows[..|rows| - 1], y) +
      if r.bid && r.outcome == Some(Won) then YearShare(Some(Job(r.value, r.award, r.end)), y) else 0.0
  }

  /** The same of the bids that are still open. */
  function OpenRevenue(rows: seq<DemoRow>, y: int): real {
    if rows == [] then 0.0
    else
      var r := rows[|rows| - 1];
      OpenRevenue(rows[..|rows| - 1], y) +
      if r.bid && (r.outcome.None? || r.outcome.value == Pending) then YearShare(Some(Job(r.value, r.award, r.end)), y) else 0.0
  }

  /** The year's part of the proposal budgets of all bids that were not canceled. */
  function BidBudget(rows: seq<DemoRow>, y: int): real {
    if rows == [] then 0.0
    else
      var r := rows[|rows| - 1];
      BidBudget(rows[..|rows| - 1], y) +
      if r.bid && (r.outcome.None? || r.outcome.value == Won || r.outcome.value == Lost || r.outcome.value == Pending)
      then YearShare(Some(Job(r.bp, r.bpStart, r.due)), y) else 0.0
  }

  lemma ShareScales(amount: real, factor: real, start: int, end: int, y: int)
    ensures YearShare(Some(Job(amount * factor, start, end)), y) == factor * YearShare(Some(Job(amount, start, end)), y)
  {
    hide YearStart;
  }

  /** A won award counts in full, an open one at 30 percent, and a lost or canceled one or one not bid for not at all. */
  lemma {:induction false} RevenueByOutcome(rows: seq<DemoRow>, y: int)
    ensures YearSum(Jobs(rows, true), y) == WonRevenue(rows, y) + 0.3 * OpenRevenue(rows, y)
    decreases |rows|
  {
    if rows != [] {
      var rest, r := rows[..|rows| - 1], rows[|rows| - 1];
      RevenueByOutcome(rest, y);
      assert Jobs(rows, true)[..|rows| - 1] == Jobs(rest, true);
      ShareScales(r.value, 1.0, r.award, r.end, y);
      ShareScales(r.value, 0.3, r.award, r.end, y);
    }
    hide YearShare;
  }

  lemma {:induction false} BudgetByOutcome(rows: seq<DemoRow>, y: int)
    ensures YearSum(Jobs(rows, false), y) == BidBudget(rows, y)
    decreases |rows|
  {
    if rows != [] {
      var rest, r := rows[..|rows| - 1], rows[|rows| - 1];
      BudgetByOutcome(rest, y);
      assert Jobs(rows, false)[..|rows| - 1] == Jobs(rest, false);
      NoShareOf(BpJob(r), y);
    }
    hide YearShare;
  }

  method BpByYear(rows: seq<DemoRow>) returns (out: map<int, real>)
    ensures forall y: int :: IsPlanYear(y) ==> y in out && out[y] == YearSum(Jobs(rows, false), y)
    ensures forall y: int | 2026 <= y <= 2030 :: y in out && out[y] == BidBudget(rows, y)
  {
    out := SpreadByYear(Jobs(rows, false));
    forall y: int | IsPlanYear(y)
      ensures out[y] == BidBudget(rows, y)
    {
      BudgetByOutcome(rows, y);
    }
    assert forall y: int | 2026 <= y <= 2030 :: IsPlanYear(y);
  }

  method RevByYear(rows: seq<DemoRow>) returns (out: map<int, real>)
    ensures forall y: int :: IsPlanYear(y) ==> y in out && out[y] == YearSum(Jobs(rows, true), y)
    ensures forall y: int | 2026 <= y <= 2030 :: y in out && out[y] == WonRevenue(rows, y) + 0.3 * OpenRevenue(rows, y)
  {
    out := SpreadByYear(Jobs(rows, true));
    forall y: int | IsPlanYear(y)
      ensures out[y] == WonRevenue(rows, y) + 0.3 * OpenRevenue(rows, y)
    {
      RevenueByOutcome(rows, y);
    }
    assert forall y: int | 2026 <= y <= 2030 :: IsPlanYear(y);
  }

  function PlanTotal(jobs: seq<Option<Job>>, n: nat): real {
    if n == 0 then 0.0 else PlanTotal(jobs, n - 1) + YearSum(jobs, FIRST_YEAR + n - 1)
  }

  function JobTotal(jobs: seq<Option<Job>>, n: nat): real {
    if jobs == [] then 0.0
    else
      var last := jobs[|jobs| - 1];
      JobTotal(jobs[..|jobs| - 1], n) + if last.None? then 0.0 else SpreadAmount(last.value, FIRST_YEAR, n)
  }

  /** Adding up the years is adding up the jobs, each short by its own uncounted days. */
  lemma {:induction false} YearsAreJobs(jobs: seq<Option<Job>>, n: nat)
    ensures PlanTotal(jobs, n) == JobTotal(jobs, n)
    decreases n
  {
    hide YearShare;
    if n == 0 {
      NoYearsNoTotal(jobs);
    } else {
      YearsAreJobs(jobs, n - 1);
      OneMoreYear(jobs, n - 1);
    }
  }

  lemma {:induction false} NoYearsNoTotal(jobs: seq<Option<Job>>)
    ensures JobTotal(jobs, 0) == 0.0
    decreases |jobs|
  {
    if jobs != [] {
      NoYearsNoTotal(jobs[..|jobs| - 1]);
    }
  }

  lemma {:induction false} OneMoreYear(jobs: seq<Option<Job>>, n: nat)
    ensures JobTotal(jobs, n + 1) == JobTotal(jobs, n) + YearSum(jobs, FIRST_YEAR + n)
    decreases |jobs|
  {
    if jobs != [] {
      NoShareOf(jobs[|jobs| - 1], FIRST_YEAR + n);
      hide YearShare;
      OneMoreYear(jobs[..|jobs| - 1], n);
    }
  }

  lemma NoShareOf(job: Option<Job>, y: int)
    ensures job.None? ==> YearShare(job, y) == 0.0
  {
  }
}
