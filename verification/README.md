# Capture pursuits: the ledger, its arithmetic and its trees

A capture-planning application keeps *pursuits* (opportunities a company may bid on) and, for each,
a growing ledger of *assessments*: rows that hold a probability of winning (Pwin) for one of two
scenarios, with the questionnaire answers it came from. Requests from users change both. This
project models that ledger as one state machine over its endpoints, with the computations beside it.

- `Ledger` is the data model and what each endpoint does, as a function from the state before to
  the state after or to an error. `LedgerStore` has the same endpoints as methods of a class that
  update its fields statement by statement, each proved against its function. `LedgerInvariant`
  and `LedgerSteps` say what every statement and every endpoint keeps, `LedgerRuns` what holds
  after any sequence of requests, `LedgerCurrent` what a pursuit shows after each request,
  `LedgerRows` what each request makes of every stored row, `LedgerRetired` what no run does to one,
  and `LedgerFacts` what single endpoints achieve. `LedgerAccepts` says for every endpoint which
  requests it accepts and that every refusal has the cause it names, `LedgerWrites` what the
  accepted ones store, both without the functions that define the endpoints.
- `LedgerTies`, `LedgerOrphans`, `LedgerFlags`, `LedgerRate` and `LedgerTypes` take one rule each
  that the endpoints do not keep, and say exactly which requests break it, with runs on the small
  ledgers of `LedgerExample` and their own.
- `DependencyGraph` is the "depends on" relation with the depth-capped cycle check; `BlendForest`
  is the blended Pwin as a fixpoint over that relation, and `BlendSteps` says what requests do to it.
- `LedgerPaths` lifts the connectedness of legal answer sets to runs of accepted saves.
- `Cascades` is the questionnaire as a constraint system read from the engine's spec;
  `DemoGates` is the demo generator's independent repair of an answer set.
- `Sums`, `Calendar`, `Phasing`, `Escalation` and `Staffing` are the monthly staffing demand;
  `YearSpread` is the demo generator's spreading of amounts over calendar years.
- `Slugs` and `MarketSync` are market codes and the job that aligns markets with the engine.
- `OrgTree` is the organisation tree: scope, assignable nodes, rollups and labels.

Every request is one atomic step. All its writes carry one timestamp, as those of one database
transaction do; where two rows are equally late, which of them a query gets is a parameter. So are
the answer of the engine ("fails" or a number in [0,1]), the set of pursuits the caller may see,
the spec, and the option rows of the database.

## What the code does not keep

Some rules a reader might expect are false of the code. The model follows the code. For each there
is the exact condition under which a request breaks the rule, in terms of the state before it, and
a run that breaks it. The conditions hold on every lawful ledger, one whose equally late rows
disagree included; where a rule is about keeping something, it starts from a ledger that has it.

- The latest answers are not always one set. A PATCH that sets sole source and reverts the stage
  can leave two equally late questionnaire rows (`LedgerTies.TieExactly`); a save then reaches one
  of them only (`LedgerTies.SaveOnTieExactly`, `LedgerTies.TieLosesSave`).
- The cycle check follows at most 50 rows, so a dependency write can close a cycle. It does so
  exactly when the target's chain holds the source beyond the 50th row
  (`LedgerRuns.StepForestExactly`); 51 chained pursuits are enough (`LedgerRuns.FiftyOneCloses`),
  and 50 pursuits in all are not (`LedgerRuns.SmallRunStaysAcyclic`).
  The comment at `api/app/plan_scope.py:463` says that this endpoint never creates a cycle.
- Clearing a dependency by PATCH, by sole source turned on or by an LPTA answer leaves the
  DEPENDENT_WON row current (`LedgerOrphans.OrphanedExactly`), and the first and the last leave the
  stored blend (`LedgerOrphans.StaleBlendExactly`); only a cancellation resets the rows
  (`LedgerRuns.AutoClearIsExact`). Runs: `LedgerOrphans.PatchRoutes`, `LedgerOrphans.LptaRoute`.
- "Sole source means 0.95" holds when the flag is set (`LedgerRate.SoleRateExactly`) and is lost
  by a revert, a submission, or the flag turned off (`LedgerRate.RateExactly`; runs
  `LedgerRate.RevertLoses`, `LedgerRate.SubmitLoses`, `LedgerRate.TurnOffLoses`).
- The completion flag is exact when a submission stores it. Recalculations, PATCHes, LPTA answers
  and cancelled predecessors can make it wrong (`LedgerFlags.FlagExactly`, `LedgerFlags.FlagRun`).
- A change of the opportunity type may leave stored answers illegal
  (`LedgerTypes.TypeChangeExactly`, `LedgerTypes.TypeRun`).
- A predecessor's new outcome or Pwin is not pushed to its dependents: they stop showing their value
  exactly when the weight it takes, known before the request, differs from the one it had
  (`BlendSteps.StepSettledExactly`, `BlendSteps.WeightAfterIs`, `BlendSteps.WinLeavesDependent`).
  Whether the pursuit called shows its own value is decided in `BlendSteps.OwnSettledExactly`.
- The comment at `ddl/01_schema.sql:407` calls the assessment table append-only and its Pwins never
  updated in place. What each request makes of each stored row is given (`LedgerRows.RowAfterIs`). A
  stored Pwin is overwritten exactly on the current BASE row, when the flat rate, a new
  DEPENDENT_WON value or the auto-clear brings another value (`LedgerRows.OverwrittenExactly`); its
  time is, exactly when the flat rate is written (`LedgerRows.RestampedExactly`); and a save
  overwrites the answers in place, even on a row that is no longer current
  (`LedgerRows.ReansweredExactly`). Runs: `LedgerRows.StoredPwinIsOverwritten`,
  `LedgerRetired.RetiredRowIsReanswered`. What is left of the rule: origin and base Pwin are final
  (`LedgerRetired.RunIsAppendOnly`), and from any state a row that is not current never becomes so again
  and keeps every column except its answers (`LedgerRetired.RunRetires`).
- The yearly spread loses every 31 December: a positive amount is spread in full exactly when its
  window has a day and every day of it is counted (`YearSpread.SpreadIsWholeExactly`,
  `YearSpread.SpreadShortfall`); two days around a new year lose half (`YearSpread.NewYearIsShort`).

## Model

| member | source | states |
|---|---|---|
| `LedgerRuns.RunRefinesAnswerMap` | api/app/routers/write.py:1137-1232 | After any run in which no accepted save meets a tie, and whichever of equally late rows the database picks, the answers read for each (pursuit, scenario) are the accepted saves replayed in order on one plain map, and no pursuit whose BASE answers say LPTA has a dependency |
| `LedgerRuns.StepAnswers` | api/app/recalc.py:439-473 | Outside a tie only an accepted save of that pursuit and scenario moves an answer; recalculations, submissions, toggles, reverts and auto-clears carry all three value shapes over |
| `LedgerRuns.RunKeepsInv` | api/app/plan_scope.py:480-502 | After every run, ties or not: one current row at most per (pursuit, scenario), one exactly for BASE once it has a row, a current questionnaire row is as late as any, every stored number is in [0,1], and the lifecycle rules on sole source, abandoned predecessors, WON/LOST and date order hold |
| `LedgerRuns.StepIsLawful` | api/app/routers/write.py:154-528 | Every request keeps that invariant, loses no row, and touches no pursuit or row but its own and the dependents a cancellation clears |
| `LedgerRuns.OthersReadNothingNew` | api/app/recalc.py:439-473 | With ties or without: no request but a save makes an answer set readable that was not |
| `LedgerRows.RowAfterIs` | api/app/recalc.py:138-188 | Every stored row after any request, accepted or refused, computed from the state before it |
| `LedgerRows.OverwrittenExactly` | ddl/01_schema.sql:407-410 | A request overwrites a stored Pwin or blend if and only if the row is the current BASE row of the pursuit called, where the flat rate or the blend with a new DEPENDENT_WON value differs from what it holds, or of a dependent of a pursuit newly cancelled, where its own Pwin without a blend does |
| `LedgerRows.RestampedExactly` | api/app/routers/write.py:407-412 | A request overwrites a row's time or flat-rate mark if and only if it is an accepted PATCH that mentions sole source and leaves it on, and the row is the current BASE row |
| `LedgerRows.RetiredExactly` | api/app/recalc.py:417-420 | A row ceases to be current if and only if its scenario gets a successor, or it is the DEPENDENT_WON row of a dependent of a pursuit newly cancelled; none becomes current again |
| `LedgerRows.ReansweredExactly` | api/app/routers/write.py:1214-1232 | A row's answers are overwritten if and only if an accepted save that changes them picks it, whether it is current or not |
| `LedgerRows.StoredPwinIsOverwritten` | api/app/recalc.py:186-188 | On a lawful pair one recalculation and one cancellation, both accepted, each put another Pwin in the place of a stored one |
| `LedgerRetired.RetiredRowIsReanswered` | api/app/routers/write.py:1214-1232 | After a submission, an accepted save overwrites the answers of the questionnaire row that is no longer current |
| `LedgerRetired.RunRetires` | ddl/01_schema.sql:407-410 | From any state and over any run, a row that is not current stays so and keeps every column except its answers |
| `LedgerRetired.RunIsAppendOnly` | ddl/01_schema.sql:407-410 | No run removes a row, changes whose it is, its type or its base Pwin, sets its time back, takes off its flat-rate mark or makes it current again, and once not current it keeps all but its answers |
| `LedgerRuns.ClosedIsFrozen` | api/app/routers/write.py:239-243 | A closed pursuit and its rows change only by its own outcome request or by the cancellation of its predecessor |
| `LedgerRuns.AutoClearIsExact` | api/app/plan_scope.py:523-581 | Cancelling leaves nobody depending on the pursuit, gives each former dependent its own Pwin back without a blend, demotes its DEPENDENT_WON row, and moves nothing else |
| `LedgerRuns.OtherOutcomesClearNothing` | api/app/routers/write.py:677-713 | Any other outcome, and a repeated cancellation, changes that pursuit alone and no row; in particular no dependent is blended again |
| `LedgerRuns.StepDeps` | api/app/routers/write.py:339-357 | The only step that adds a dependency is an accepted PATCH whose capped walk missed the source; every other step only removes dependencies |
| `LedgerRuns.StepForestExactly` | api/app/plan_scope.py:505-520 | On a forest a step leaves a forest if and only if it is not a link to a chain that holds its source beyond the 50th row |
| `LedgerRuns.StepStaysAcyclic` | api/app/plan_scope.py:505-520 | While no chain exceeds 50 pursuits, every step leaves a forest |
| `LedgerRuns.RunStaysAcyclic` | api/app/plan_scope.py:505-520 | While no chain on the way exceeds 50 pursuits, every run ends without a dependency cycle |
| `LedgerRuns.SmallRunStaysAcyclic` | api/app/plan_scope.py:505-520 | From a forest of at most 50 pursuits no run, whatever it asks for, ends in a dependency cycle |
| `LedgerRuns.FiftyOneCloses` | api/app/plan_scope.py:505-520 | The bound is tight: in a lawful ledger of 51 chained pursuits one PATCH of the root is accepted and closes a cycle |
| `LedgerTies.TieExactly` | api/app/routers/write.py:401-406 | From rows without a tie, a request leaves two equally late questionnaire rows if and only if it is a PATCH that sets sole source and reverts the stage of a pursuit whose current BASE row is a questionnaire with a price answer, the engine answering |
| `LedgerTies.SaveOnTieExactly` | api/app/recalc.py:76-87 | An accepted save leaves one answer set to read if and only if it meets no tie or changes nothing |
| `LedgerTies.ConsistentExactly` | api/app/routers/write.py:1188-1254 | A request keeps both the one answer set to read and the rule that no pursuit whose BASE answers say LPTA has a dependency, if and only if it is no save that meets a tie and changes something |
| `LedgerTies.RunWithoutDoublePatch` | api/app/recalc.py:69-87 | A run without such a PATCH never ties, and refines the plain answer map with no condition on what the database picks |
| `LedgerTies.DoubleTies` | api/app/routers/write.py:401-513 | On a lawful ledger one such PATCH is accepted and ties |
| `LedgerTies.TieLosesSave` | api/app/routers/write.py:1137-1232 | After it, whichever row the next accepted save goes to, another one that lacks it can be read |
| `DependencyGraph.CappedHitIsWalk` | api/app/plan_scope.py:505-516 | The recursive query finds the source exactly when a walk of fewer than 50 predecessors reaches it |
| `DependencyGraph.CappedIsExact` | api/app/plan_scope.py:505-516 | With no chain beyond the cap the query decides reachability |
| `DependencyGraph.AcceptedWrite` | api/app/plan_scope.py:505-520 | An accepted write keeps a forest a forest if and only if the source is nowhere on the target's chain beyond the cap |
| `DependencyGraph.StaysGrounded` | api/app/plan_scope.py:505-520 | Linking to a target that does not reach the source keeps every chain finite |
| `DependencyGraph.RemovalKeepsGrounded` | api/app/routers/write.py:1248-1254 | Removing dependencies keeps every chain finite |
| `DependencyGraph.GroundedHasNoCycle` | api/app/plan_scope.py:505-520 | A graph whose chains all end has no cycle |
| `DependencyGraph.CapIsTight` | api/app/plan_scope.py:512 | For every cap, on a chain of one pursuit more the check misses the cycle |
| `DependencyGraph.FewPursuitsWithin` | api/app/plan_scope.py:505-516 | With no more pursuits than the cap no chain of a forest exceeds it, by counting the different pursuits on it |
| `LedgerFacts.SavedSetIsLegal` | api/app/routers/write.py:1137-1159 | After any accepted save the whole answer set of the row written is legal under all cascades for the pursuit's type; without a tie so is whatever is read |
| `LedgerFacts.RunFills` | api/app/routers/bhptw.py:185-205 | No run leaves a row with a base Pwin but no Pwin: a deferred BASE submission is always filled in |
| `LedgerFacts.SubmittedPwin` | api/app/routers/bhptw.py:238-266 | After a BASE submission the current Pwin is the analyst's value, or for a dependent pursuit that value blended with the predecessor's |
| `LedgerFacts.RecalculatedShows` | api/app/recalc.py:417-487 | An accepted recalculation leaves a current questionnaire row with the engine's value and the answers it read; a BASE row of a dependent pursuit shows the blend, and a DEPENDENT_WON value is at once blended into the BASE row |
| `LedgerFlags.CompletionIsExact` | api/app/routers/bhptw.py:113-129 | The completion flag a submission stores says exactly that each scenario the pursuit needs shows a Black Hat or PTW row |
| `LedgerFlags.FlagExactly` | api/app/routers/bhptw.py:113-129 | From an exact flag, a request makes it inexact if and only if its guard holds: a recalculation of a complete pursuit, a PATCH that recalculates, links or unlinks, an LPTA answer or the cancellation of the predecessor when only DEPENDENT_WON was missing; a submission never does |
| `LedgerFlags.FlagRun` | api/app/recalc.py:417-438 | A PTW submission and then a recalculation, both accepted: the flag stays on and is wrong |
| `LedgerFacts.PatchWrites` | api/app/routers/write.py:233-374 | An accepted PATCH is of an open pursuit, stores each field it mentions (the type included, null counting as services), keeps the others, ends a dependency where sole source begins and reports exactly the dependencies dropped unasked |
| `LedgerFacts.FailedEngineTouchesNothing` | api/app/routers/write.py:438-524 | When every engine call fails, a PATCH that does not set sole source leaves every row untouched, and a revert reports that a recalculation is owed |
| `LedgerAccepts.PatchAcceptedExactly` | api/app/routers/write.py:154-374 | A PATCH without a target is accepted if and only if the pursuit is stored, visible and open, some field is mentioned, the merged flag is off or at most one bidder is left, the merged dates are in order, the codes resolve and the flag is not null |
| `LedgerAccepts.LinkAcceptedExactly` | api/app/plan_scope.py:480-520 | One with a target is accepted if and only if, beyond that, sole source ends off, the BASE answers read do not say LPTA, and the target is another stored, visible pursuit without an outcome from which no walk of fewer than 50 predecessors reaches the source |
| `LedgerAccepts.PatchRefusalIsTrue` | api/app/routers/write.py:154-374 | A refused PATCH names a cause that holds of what is stored and of the request |
| `LedgerAccepts.BidAcceptedExactly` | api/app/routers/write.py:545-577 | A bid decision is accepted if and only if the pursuit is stored, visible and open |
| `LedgerAccepts.OutcomeAcceptedExactly` | api/app/routers/write.py:655-676 | An outcome is accepted on any visible pursuit, closed or open, if and only if it is not "no bid made", and a won or lost one is of a bid or sets the bid too |
| `LedgerAccepts.DecisionRefusalIsTrue` | api/app/routers/write.py:545-577 | A refused bid decision or outcome names a cause that holds |
| `LedgerAccepts.RecalculationAcceptedExactly` | api/app/routers/recalc.py:42-71 | A recalculation is accepted if and only if the pursuit is stored, visible, open and not sole source, has the scenario, is not past the first stage, the answers read hold a price label, and the engine answers |
| `LedgerAccepts.RecalculationRefusalIsTrue` | api/app/recalc.py:234-330 | A refused one names a cause that holds |
| `LedgerAccepts.SaveAcceptedExactly` | api/app/routers/write.py:1104-1186 | A save is accepted if and only if the pursuit is stored, visible and open and has the scenario, every code is one that may be saved, the labels that result are legal, each answer set is an active option, and none takes the place of a number or a boolean |
| `LedgerAccepts.SaveRefusalIsTrue` | api/app/routers/write.py:1104-1186 | A refused save names a cause that holds |
| `LedgerAccepts.SubmissionAcceptedExactly` | api/app/routers/bhptw.py:72-169 | A Black Hat or PTW submission is accepted if and only if the pursuit is stored, visible and open and has the scenario, some row of it is a questionnaire, it is not completed before a present B&P start, and a Black Hat has a price within [0,1] |
| `LedgerAccepts.SubmissionRefusalIsTrue` | api/app/routers/bhptw.py:72-169 | A refused submission names a cause that holds |
| `LedgerWrites.BidWrites` | api/app/routers/write.py:545-577 | An accepted decision stores BID if and only if a bid was asked for and NO_BID if and only if not, and changes no other field, pursuit, row or the clock |
| `LedgerWrites.SaveWrites` | api/app/routers/write.py:1188-1254 | An accepted save sets, clears and keeps the answers of one questionnaire row, the one that was read or a first one, a first one being current exactly where nothing else is, and drops the dependency if and only if the BASE answers then say LPTA |
| `LedgerWrites.AnswersReadMeans` | api/app/recalc.py:69-87 | What is read is the answer set of a questionnaire row of the scenario than which none is later, of the one the database picks where it is one, and nothing where there is no row |
| `LedgerWrites.SubmissionWrites` | api/app/routers/bhptw.py:171-213 | An accepted submission stores one new row of its kind with the analyst's value and no answers, retires the one that was current, and moves only the completion flag of the record; without a blend the Pwin is the base Pwin |
| `LedgerWrites.WritesBlend` | api/app/recalc.py:138-188 | After an accepted recalculation or submission of a dependent pursuit, what the current BASE row shows lies beyond its base Pwin by the weight of the predecessor times the way to the dependent-won value |
| `LedgerWrites.FlatRateWrites` | api/app/routers/write.py:401-424 | Setting sole source without a revert writes 0.95 and the mark on the current BASE row alone, or inserts a first row without answers |
| `LedgerWrites.NeedsRecalcExactly` | api/app/routers/write.py:426-526 | An accepted PATCH reports that a recalculation is owed if and only if one that it called for was refused: that of a flag turned off, the BASE one of a revert, or the DEPENDENT_WON one where that scenario has a questionnaire |
| `LedgerRate.SoleRateExactly` | api/app/routers/write.py:383-424 | A PATCH that sets sole source shows 0.95 if and only if the same request does not also revert the stage of a pursuit with a price answer, on its current questionnaire row or as picked, with the engine returning another value |
| `LedgerRate.RateExactly` | api/app/routers/write.py:498-504 | A sole-source pursuit showing 0.95 goes on showing it after any request, except exactly after a solved revert, an accepted submission, or the flag turned off and recalculated, each with another value |
| `LedgerRate.RevertLoses` | api/app/routers/write.py:498-513 | One accepted revert that replaces the rate while the flag stays on |
| `LedgerRate.SubmitLoses` | api/app/routers/bhptw.py:171-205 | One accepted Black Hat submission that replaces the rate |
| `LedgerRate.TurnOffLoses` | api/app/routers/write.py:426-441 | One accepted PATCH that turns the flag off and replaces the rate |
| `LedgerOrphans.OrphanedExactly` | api/app/routers/write.py:339-348 | On any lawful ledger, a request leaves a current DEPENDENT_WON row without a dependency if and only if the row was there and it took the dependency away by a null, by sole source turned on or by an LPTA answer, or there was none already and it set none; a cancellation never does |
| `LedgerOrphans.StaleBlendExactly` | api/app/routers/write.py:1246-1254 | A request leaves a stored blend without dependency or flat rate if and only if the blend was there and the request, clearing the dependency or finding none, did not recalculate BASE |
| `LedgerOrphans.PatchRoutes` | api/app/routers/write.py:339-348 | On one lawful ledger both PATCH routes are accepted and orphan the row, the null leaving the blend too |
| `LedgerOrphans.LptaRoute` | api/app/routers/write.py:1246-1254 | On the same ledger the LPTA answer is accepted and leaves both |
| `LedgerTypes.TypeChangeExactly` | api/app/routers/write.py:1018-1032 | After an accepted PATCH, whatever set is read could be read before, and is the one read before if nothing else was changed or the equally late rows agreed; where it was legal it stays so if and only if the type stays, or each answered question whose options depend on the type fits the new one |
| `LedgerTypes.SwitchedLegal` | api/app/routers/write.py:1035-1079 | A legal set is legal for the other type if and only if each answered question with two lists holds an option of the other list, for services TM1B is not the removed option and a forced TM2 holds a forced one, and for products a TM2 that was forced is on its own list |
| `LedgerTypes.TypeRun` | api/app/routers/write.py:263-284 | Over the shipped questionnaire, an accepted save and then an accepted PATCH of the type turn a legal stored set into an illegal one, whichever row is read |
| `LedgerInvariant.BlendIsBetween` | api/app/recalc.py:147-188 | For a factor in [0,1] the blend lies between base and dependent-won Pwin, so in [0,1] |
| `LedgerInvariant.BlendIsMonotone` | api/app/recalc.py:147-188 | The blend rises or falls with the predecessor's Pwin as the dependent-won value lies above or below the base |
| `LedgerInvariant.BlendIsAffine` | api/app/recalc.py:184 | With weight 0 the blend is the base Pwin, with weight 1 the dependent-won one, and between two weights it moves in proportion |
| `LedgerInvariant.BlendStores` | api/app/recalc.py:147-188 | The stored Pwin less the base Pwin is the predecessor's weight times the difference to the dependent-won Pwin, the weight being 1 for won, 0 for any other outcome, else the current BASE Pwin or 0 |
| `LedgerInvariant.BlendKeeps` | api/app/recalc.py:138-188 | A blend changes Pwin columns only, keeps the row discipline and every answer |
| `LedgerInvariant.SupersededKeeps` | api/app/recalc.py:417-438 | Demoting the current row and inserting its successor keeps the row discipline |
| `LedgerInvariant.SupersededAnswers` | api/app/recalc.py:439-473 | With the answers read carried to a questionnaire successor, or with a Black Hat or PTW one, agreed rows stay agreed, every answer map reads as before, and in any case nothing is readable that was not |
| `LedgerInvariant.SoleSourceKeeps` | api/app/routers/write.py:401-422 | The flat-rate write, in place or as a first row, keeps the row discipline and every answer |
| `LedgerInvariant.ClearedKeeps` | api/app/plan_scope.py:560-577 | Resetting the rows of cleared dependents keeps the row discipline and every answer |
| `LedgerInvariant.AnswerRowKeeps` | api/app/routers/write.py:1188-1212 | The first row an answer save inserts is current exactly when nothing else is, is then a latest one, and the row discipline holds |
| `LedgerInvariant.WrittenAnswers` | api/app/routers/write.py:1214-1232 | Writing the one latest questionnaire row changes the answers of that pursuit and scenario and no others |
| `LedgerInvariant.WrittenOnTie` | api/app/routers/write.py:1214-1232 | Written into one of several equally late rows, answers are still read alike if and only if nothing changed |
| `LedgerCurrent.CardOfPatch` | api/app/routers/write.py:383-524 | The current rows of the pursuit after an accepted PATCH, computed from those before it, the request and the engine answers alone |
| `LedgerCurrent.CardOfRecalculate` | api/app/recalc.py:191-487 | When a recalculation is accepted, in terms of what is stored, and the current rows it leaves |
| `LedgerCurrent.CardOfSubmit` | api/app/routers/bhptw.py:171-205 | The current rows an accepted submission leaves |
| `LedgerCurrent.CardUntouched` | api/app/routers/write.py:154-528 | A pursuit that a step does not touch shows the rows it showed |
| `LedgerSteps.RecalculatedStep` | api/app/recalc.py:234-474 | A recalculation moves rows of its own pursuit only, keeps agreed answers, and makes no answer set readable that was not |
| `LedgerSteps.PatchUpdateKeepsInv` | api/app/routers/write.py:245-357 | The updated record alone already obeys the lifecycle rules |
| `LedgerSteps.PatchStep` | api/app/routers/write.py:154-528 | An accepted PATCH keeps the invariant and agreed answers, makes no answer set readable that was not, touches its own pursuit only, and stores the patched record |
| `LedgerSteps.RecalculateStep` | api/app/routers/recalc.py:42-71 | The endpoint keeps the invariant, the pursuit records and agreed answers |
| `LedgerSteps.BidStep` | api/app/routers/write.py:535-577 | A bid decision keeps the invariant and every row |
| `LedgerSteps.OutcomeStep` | api/app/routers/write.py:640-714 | An outcome keeps the invariant and agreed answers, and touches its pursuit and the cleared dependents only |
| `LedgerSteps.AnswersStep` | api/app/routers/write.py:1082-1257 | A save keeps the invariant, touches its own pursuit only and never stores a second value beside a number or boolean |
| `LedgerSteps.AnswersConsistent` | api/app/routers/write.py:1188-1254 | Outside a tie a save applies the changes to one answer map, leaves all others, and an LPTA answer leaves no dependency |
| `LedgerSteps.PatchConsistent` | api/app/plan_scope.py:480-493 | An accepted link has read the LPTA answer, so no LPTA pursuit gains a dependency |
| `LedgerSteps.SubmitStep` | api/app/routers/bhptw.py:143-283 | A Black Hat or PTW submission keeps the invariant and agreed answers, and changes nothing of the pursuit but its completion flag |
| `LedgerStore.Store.ApplyDependencyBlend` | api/app/recalc.py:90-188 | The method overwrites the current BASE row with the blend the ledger function defines, which lies beyond the base Pwin by the weight times the way to the dependent-won value; or nothing where there is no row or no base Pwin |
| `LedgerStore.Store.RecalculatePwin` | api/app/recalc.py:191-491 | Either every check passes and the new state is the specified one, or the error is the first failing check and nothing was written |
| `LedgerStore.Store.InsertWithAnswers` | api/app/recalc.py:422-473 | The insert and the loop over the answers append one row that holds exactly the given answers |
| `LedgerStore.Store.AutoClearDependents` | api/app/plan_scope.py:523-581 | The loop ends in the state with every dependent cleared, and returns exactly the dependents |
| `LedgerStore.Store.ClearDependent` | api/app/plan_scope.py:560-577 | The three statements for one dependent clear it alone |
| `LedgerStore.Store.PatchPursuit` | api/app/routers/write.py:154-528 | Keeps the invariant; the new state and reply, or the error with the store unchanged, are those of the endpoint function |
| `LedgerStore.Store.WritePatch` | api/app/routers/write.py:359-524 | The record, the reaction to the flag and, unless that recalculated, the reaction to a revert, all at one time |
| `LedgerStore.Store.ReactToSoleSource` | api/app/routers/write.py:383-449 | Flat rate on, recalculation when it goes off, and the two flags of the reply |
| `LedgerStore.Store.ReactToRevert` | api/app/routers/write.py:498-524 | Both scenarios afresh; a refusal is reported and what preceded it stays |
| `LedgerStore.Store.SetBid` | api/app/routers/write.py:535-577 | Accepts exactly on a stored, visible and open pursuit; stores and returns BID for a bid and NO_BID for none, a repeated decision changing nothing |
| `LedgerStore.Store.SetOutcome` | api/app/routers/write.py:640-714 | Keeps the invariant; stores the outcome, auto-clears on a new cancellation and returns whom it cleared |
| `LedgerStore.Store.SetAnswers` | api/app/routers/write.py:1082-1257 | Keeps the invariant; an accepted save is stored and an LPTA answer drops the dependency, a refused one leaves the store unchanged |
| `LedgerStore.Store.SaveAnswers` | api/app/routers/write.py:1188-1254 | The writes of an accepted save, and whether they drop the dependency |
| `LedgerStore.Store.CheckAnswers` | api/app/routers/write.py:1104-1186 | Returns the first fault in the endpoint's order, or none |
| `LedgerStore.Store.WriteAnswers` | api/app/routers/write.py:1188-1232 | Writes to the questionnaire row that was read or to a first one, whose currency depends on what is current |
| `LedgerStore.Store.UpsertAnswers` | api/app/routers/write.py:1214-1232 | The delete-or-upsert loop stores exactly the changed map on one row |
| `LedgerStore.Store.Recalculate` | api/app/routers/recalc.py:43-71 | Keeps the invariant; refuses closed and sole-source pursuits before any write |
| `LedgerStore.Store.Submit` | api/app/routers/bhptw.py:143-283 | Keeps the invariant; records the row, blends, recomputes the completion flag, or refuses with the store unchanged |
| `LedgerStore.Store.Record` | api/app/routers/bhptw.py:171-213 | The writes of an accepted submission, and the completion it reports |
| `LedgerStore.Store.RecordSubmission` | api/app/routers/bhptw.py:171-213 | Demotes, inserts with the Pwin deferred on a dependent BASE, and blends |
| `LedgerStore.Store.RecomputeComplete` | api/app/routers/bhptw.py:113-129 | The collected scenarios cover the needed ones exactly when the ledger says complete |
| `BlendForest.OnePassSettlesAll` | api/app/recalc.py:90-188 | On a forest one pass of the blend in any predecessors-first order makes each stored BASE Pwin, and each blended value, the recursively defined one |
| `BlendForest.PassIsDetermined` | api/app/recalc.py:90-188 | Each row after a pass is given: blend targets hold the recursive value twice, all other rows are untouched |
| `BlendForest.PassIgnoresOrder` | api/app/recalc.py:90-188 | Two predecessors-first orders end in the same ledger |
| `BlendForest.SettledIsFixed` | api/app/recalc.py:90-188 | After a pass any further call changes nothing |
| `BlendForest.SameValue` | api/app/recalc.py:138-188 | The recursive value depends on no Pwin column a blend overwrites |
| `BlendForest.OrderExists` | api/app/recalc.py:90-188 | On every forest such an order exists |
| `BlendSteps.WritesSettle` | api/app/recalc.py:475-487 | An accepted recalculation or submission leaves its pursuit at its recursive value, when its predecessor was |
| `BlendSteps.StepSettledExactly` | api/app/recalc.py:138-188 | After a request that closes no cycle, a settled pursuit it does not touch stays settled if and only if the first touched pursuit that feeds it up its chain takes the weight it had, the one it takes being known before the request |
| `BlendSteps.WeightAfterIs` | api/app/recalc.py:155-184 | The weight a touched pursuit takes, from the state before: 1 or 0 by the outcome asked for, its own Pwin for a released dependent, else the Pwin it is going to show blended with its predecessor's weight as it is |
| `BlendSteps.OwnSettledExactly` | api/app/routers/write.py:339-374 | After any other request than an outcome, the pursuit called is settled if and only if what it is going to show, and for a dependent one its stored blend, equals that value |
| `BlendSteps.ValueMoves` | api/app/recalc.py:138-188 | An untouched pursuit changes its recursive value if and only if such a pursuit changes its weight |
| `BlendSteps.ReleasedIsSettled` | api/app/plan_scope.py:523-581 | A dependent that a cancellation releases is settled at its own Pwin |
| `BlendSteps.WinLeavesDependent` | api/app/routers/write.py:677-713 | On a lawful settled pair, winning the predecessor is accepted and leaves the dependent at a Pwin that is no longer its value |
| `Cascades.FindFault` | api/app/routers/write.py:1148-1159 | The check loop passes exactly the legal answer sets, and otherwise returns the first fault |
| `Cascades.LegalAtMeans` | api/app/routers/write.py:1035-1079 | What makes an answer legal, question by question: TM3 by TM2's answer, TM1B without the removed option and TM2 by the force rule for services, everything else by the question's own list |
| `Cascades.MergedLookup` | api/app/routers/write.py:1137 | The merged set holds what the request says of a question it mentions, a null clearing it, and else what was stored |
| `Cascades.LegalTaken` | api/app/routers/write.py:1035-1079 | An answer stays legal in any set that agrees on what its rule looks at |
| `Cascades.ClearedIsLegal` | api/app/routers/write.py:1146-1159 | Clearing TM3, then TM2, then TM1B keeps a legal set legal |
| `Cascades.SettingReaches` | api/app/routers/write.py:1146-1159 | From the cleared set, setting the target's answers in cascade order passes legal sets only and ends at the target |
| `Cascades.LegalSetsAreConnected` | api/app/routers/write.py:1035-1079 | From any legal set every other of the same type is reached by single-question changes that pass through legal sets only, when no TM2 condition that counts looks at TM3 |
| `LedgerPaths.StoredSetsAreConnected` | api/app/routers/write.py:1104-1254 | The same over the ledger: from a legal stored set of options any legal set with option rows is reached by answer requests of one question each, all accepted |
| `Cascades.Tm3ConditionSeparates` | api/app/routers/write.py:1057-1067 | That hypothesis is needed: with a TM2 condition on TM3 a legal set exists that no single save enters from another |
| `DemoGates.DemoPursuit.EnforceGates` | gen_demo.py:157-184 | The in-place repair computes the three gates in turn, the first two for types that are no products |
| `DemoGates.IsProductMeans` | gen_demo.py:187-189 | A type counts as a product exactly when one of three words stands somewhere in it, in any case |
| `DemoGates.GateMeans` | gen_demo.py:157-184 | What a repair makes of each answer, a TM3 that TM2 does not allow becoming the first one that it does, all others staying |
| `DemoGates.LowerMeans` | gen_demo.py:187-189 | Lower-casing maps one alphabet to the other and leaves every other character |
| `DemoGates.GatedIsLegal` | api/app/routers/write.py:1035-1079 | Whatever was drawn from the base options, the repaired set passes the server's cascade check |
| `DemoGates.GateChangesOnlyIllegal` | gen_demo.py:173-184 | The repair changes a drawn set if and only if the server would refuse it |
| `DemoGates.GateIsIdempotent` | gen_demo.py:173-184 | A second repair changes nothing |
| `DemoGates.ShippedSetsAreConnected` | gen_demo.py:157-184 | The shipped rules have no TM2 condition on TM3, so any two legal sets of one type are connected by accepted single saves |
| `Phasing.ComputePhaseDates` | api/app/routers/staffing.py:52-70 | The backward loop gives each phase a span of the nearest whole number of days to seven per week, ties to the even one, back to back up to the due date and EN after it; a missing phase has no day |
| `Phasing.RoundHalfEven` | api/app/routers/staffing.py:64 | Nearest integer, ties to the even one |
| `Phasing.PhasesTile` | api/app/routers/staffing.py:52-70 | Of spans of such lengths, for non-negative weeks, the phases are adjacent and disjoint and cover exactly the days from the first of strategy to the last of EN |
| `Phasing.ApplyCutoff` | api/app/routers/staffing.py:72-81 | Each span is cut at the cancel date, a span that would end before its start collapsing |
| `Phasing.CutKeepsDaysBefore` | api/app/routers/staffing.py:72-81 | A cutoff keeps exactly the days before the cancel date |
| `Phasing.CutsCombine` | api/app/routers/staffing.py:72-81 | Two cutoffs are one at the earlier date; a cutoff is idempotent |
| `Phasing.OverlapIsStep` | api/app/routers/staffing.py:45-49 | The half-open month windows tile a span: the overlap is the growth of the part already covered |
| `Phasing.OverlapCounts` | api/app/routers/staffing.py:45-49 | The overlap of a span with a month is the number of days they share |
| `Phasing.ShareIsProportional` | api/app/routers/staffing.py:108-120 | A month's share of a phase is to the phase's FTE as the days they share are to the days of the phase |
| `Phasing.SpreadPhase` | api/app/routers/staffing.py:108-120 | The month loop of one phase ends, adds to each month its share by days, touches only months it overlaps, and adds exactly the phase's FTE in all |
| `Staffing.ProRate` | api/app/routers/staffing.py:99-124 | Before escalation each month holds the shares of all phases, none negative, and the months sum to exactly the FTE of the phases with a day left |
| `Staffing.CutConserves` | api/app/routers/staffing.py:72-81 | After a cutoff the conserved FTE is that of the phases starting before the cancel date: a partly cancelled phase is compressed, not reduced |
| `Staffing.DatesAreRemaining` | api/app/routers/staffing.py:52-81 | The spans a pursuit staffs are the planned ones without the days from the cancel date on |
| `Staffing.MonthlyContributions` | api/app/routers/staffing.py:84-124 | Each month, escalated again by its own year, is its pro-rated share, or is it as it stands for a static category, whose total is then conserved; the months listed are those with a contribution |
| `Staffing.AddRecord` | api/app/routers/bootstrap.py:316-327 | One pursuit adds its own cell to each month and category and nothing else |
| `Staffing.Demand` | api/app/routers/staffing.py:273-293 | Every cell of the demand table is the sum of the pursuits' contributions, and the number of pursuits without a due date is returned |
| `Staffing.DemandFactors` | api/app/routers/staffing.py:121-124 | Deflating per pursuit and adding up equals adding up and deflating once |
| `Staffing.DemandDeflates` | api/app/routers/staffing.py:121-124 | Escalated again, a cell of the demand table is the raw demand of that month and category |
| `Staffing.DemandIgnoresOrder` | api/app/routers/staffing.py:280-293 | The demand table does not depend on the order of the pursuits |
| `Calendar.YearLength` | api/app/routers/staffing.py:45-49 | A Gregorian year has 366 days if and only if it is divisible by 4 and not by 100, or by 400, and 365 otherwise |
| `Calendar.MonthLength` | api/app/routers/staffing.py:45-49 | Each month window has the days of its month, 28 or 29 in February, across year ends too |
| `Escalation.ResolveEscalationRate` | api/app/staffing_escalation.py:31-43 | The lookup is total and returns the rate of the greatest known year not after, else of the earliest known year |
| `Escalation.FindRateYear` | api/app/staffing_escalation.py:39-43 | The search returns the one year whose rate holds |
| `Escalation.HoldsForIsUnique` | api/app/staffing_escalation.py:39-43 | Only one known year holds for a given year |
| `Escalation.ComputeCumulativeEscalationFactor` | api/app/staffing_escalation.py:46-58 | The loop computes the compound factor from the base year up to the target |
| `Escalation.ApplyEscalationToFte` | api/app/staffing_escalation.py:61-72 | Times the factor the result is the FTE that went in, and as it is when the factor is not positive |
| `Escalation.EscalatedMeans` | api/app/staffing_escalation.py:61-72 | Multiplied by a positive factor, the escalated FTE is the FTE that went in |
| `Escalation.GivenRateHolds` | api/app/staffing_escalation.py:31-43 | A year that the tenant gives a rate has that rate, whatever the generic table says |
| `Escalation.GenericRates` | api/app/staffing_escalation.py:21-43 | Without overrides the rate of every year, held flat before 2026 and after 2031 |
| `Escalation.GenericFactors` | api/app/staffing_escalation.py:46-58 | Without overrides the first three yearly steps compound 2.83, 5.4 and 2.65 percent |
| `Escalation.FactorSplits` | api/app/staffing_escalation.py:46-58 | The factor is multiplicative over adjacent year ranges |
| `Escalation.FactorIsPositive` | api/app/staffing_escalation.py:46-72 | With every rate above -1 the factor is positive, so the division is always the branch taken |
| `Escalation.NextKnownExists` | api/app/staffing_escalation.py:39-43 | After every year there is a next known one or none, so the override laws below cover every override from the base year on |
| `Escalation.OverrideIsLocal` | api/app/staffing_escalation.py:31-43 | Overriding a year changes the rate of exactly the years up to the next known one, and of all earlier years where it is the first known |
| `Escalation.OverrideLeavesEarlier` | api/app/staffing_escalation.py:46-58 | An override changes no factor up to its year |
| `Escalation.OverrideScalesLater` | api/app/staffing_escalation.py:46-58 | An override scales each later factor by the power of the ratio of the new to the old yearly step, once for each year moved before the target |
| `Escalation.LastOverrideCompounds` | api/app/staffing_escalation.py:39-58 | Overriding the last known year leaves the factors up to it alone, is held flat after it, and scales every later factor by the power of the ratio of the yearly steps |
| `YearSpread.SpreadCounts` | gen_demo.py:377-390 | The yearly overlaps of a window sum to the number of its days inside the plan years that are not 31 December |
| `YearSpread.SpreadShortfall` | gen_demo.py:377-390 | A spread never exceeds the amount, and falls short by exactly the portion of the uncounted days |
| `YearSpread.SpreadIsWholeExactly` | gen_demo.py:377-390 | A positive amount is spread in full if and only if its window has a day, all days lie in the plan years and none is a 31 December |
| `YearSpread.NewYearIsShort` | gen_demo.py:385-387 | Of an amount over 31 December 2026 and 1 January 2027 half is lost |
| `YearSpread.CountedOneMore` | gen_demo.py:385-387 | Consecutive years count disjoint days and skip exactly 31 December |
| `YearSpread.BpByYear` | gen_demo.py:377-390 | Each plan year holds the shares of the budgets of all bid rows that are not cancelled, lost ones included |
| `YearSpread.RevByYear` | gen_demo.py:402-425 | The same for revenue: won rows at full value, open bid rows at 30 percent, lost, cancelled and unbid ones nothing |
| `YearSpread.YearsAreJobs` | gen_demo.py:377-425 | Summed over years the tables equal the sum of the rows' spreads, so the shortfall law holds for whole tables |
| `YearSpread.RevenueByOutcome` | gen_demo.py:402-425 | A year's revenue is the sum over the rows, each by its outcome: won at full value, open and bid at the assumed Pwin, any other nothing |
| `YearSpread.BudgetByOutcome` | gen_demo.py:377-390 | A year's budget is the sum over the rows that are bid and open, won or lost |
| `Slugs.MarketCode` | migrate_workbook.py:270-279 | The character loop and the repeated replacement end, and give the mapped, run-collapsed, stripped upper-cased name, whatever characters beyond ASCII count as letters |
| `Slugs.SlugsAgree` | api/app/market_sync.py:93-100 | On every ASCII name the regular-expression slug equals the workbook importer's; only the fallback for the empty slug differs |
| `Slugs.SlugsAgreeExactly` | api/app/market_sync.py:100 | Beyond ASCII, whatever white space the sync job strips: the two slugs agree if and only if no character but an ASCII letter or digit counts as one |
| `Slugs.RunsCollapse` | api/app/market_sync.py:100 | Replacing each run of other characters by one underscore equals mapping characters and collapsing runs |
| `Slugs.AlphabetsMean` | api/app/market_sync.py:100 | The characters kept are those of the two alphabets and the ten digits, and upper-casing maps one alphabet to the other |
| `Slugs.TrimMeans` | api/app/market_sync.py:100 | Stripping takes white space off both ends and nothing else |
| `Slugs.SpacesMean` | api/app/market_sync.py:100 | White space is the ten ASCII characters that Python strips |
| `Slugs.SlugIsIdempotent` | migrate_workbook.py:270-279 | A code is upper-case, without double or outer underscores, and is its own code |
| `Slugs.GenerateCode` | api/app/market_sync.py:93-106 | The suffix search ends with the first candidate no existing code has |
| `Slugs.CandidatesDiffer` | api/app/market_sync.py:101-106 | Different suffixes give different candidates |
| `Slugs.TakenAtMost` | api/app/market_sync.py:101-106 | No more candidates can be taken than there are codes, which bounds the search |
| `MarketSync.MarketTable.ApplyMarketSync` | api/app/market_sync.py:109-167 | Old rows keep place, name, code and active flag and are flagged exactly when not reported; missing names get one active row each, in sorted order, with the first code the rows above leave free; the report lists exactly the changes |
| `MarketSync.MarketTable.CreateMissing` | api/app/market_sync.py:135-155 | The first loop goes through the names in sorted order, unflags reported rows and creates missing ones, all codes staying distinct |
| `MarketSync.MarketTable.Treat` | api/app/market_sync.py:141-155 | The body of that loop for one name |
| `MarketSync.MarketTable.FlagAbsent` | api/app/market_sync.py:157-164 | The second loop flags exactly the earlier rows that were not reported, and returns those newly flagged |
| `MarketSync.EngineNamesMean` | api/app/market_sync.py:130 | A name counts as reported if and only if it is not empty, has no white space at its ends, and is some reported string but for white space around it |
| `MarketSync.BeforeMeans` | api/app/market_sync.py:135 | The order of the names is that of a dictionary |
| `MarketSync.SyncConverges` | api/app/market_sync.py:109-167 | After any history of syncs a market is flagged exactly when the last list lacks it, the names are the initial ones and all ever seen, no row, code or active flag changed, and codes are distinct |
| `MarketSync.RowsAreKept` | api/app/market_sync.py:109-167 | A row once made, at any point of a history, keeps its place, name, code and active flag to the end |
| `MarketSync.RepeatIsNoOp` | api/app/market_sync.py:109-167 | Receiving the same list again changes nothing and reports nothing |
| `MarketSync.SyncIsDetermined` | api/app/market_sync.py:109-167 | A sync has one result: the table and the list decide every row, code and report |
| `OrgTree.VisibleIsClosed` | ddl/07_scope.sql:26-41 | The visible set holds every active node below a visible one |
| `OrgTree.AssignableIsLeaves` | api/app/plan_scope.py:293-320 | Computed from a downward-closed visible set alone, the assignable nodes are exactly the visible leaves of the whole tree |
| `OrgTree.AssignableIsAntichain` | api/app/plan_scope.py:293-320 | No assignable node lies below another |
| `OrgTree.RollupIsSubtree` | api/app/plan_scope.py:223-238 | The recursive query lists every node of the subtree once and nothing else |
| `OrgTree.RoundsEnough` | ddl/01_schema.sql:46-102 | The nesting ends the recursion: rounds past the third add no row |
| `OrgTree.CandidateNodes` | api/app/plan_scope.py:149-177 | The loop over the assigned nodes collects exactly the visible set |
| `OrgTree.RollupStaysInScope` | api/app/plan_scope.py:223-238 | Everything a validated node rolls up is itself visible |
| `OrgTree.RollupAdds` | api/app/routers/bootstrap.py:215-226 | A rollup sum is the node's own value plus the rollup sums of its active children |
| `OrgTree.LabelPath` | api/app/plan_scope.py:275-290 | The climb ends and gives the names along the one parent chain down to the node that starts at the nearest license boundary, root or child of an inactive node |
| `OrgTree.LabelChainIsUnique` | api/app/plan_scope.py:275-290 | A node has one such chain, so its label is determined |

## Left out

- Slugs.MarketCode: takes the upper-cased name; beyond ASCII, upper-casing itself and which characters count as letters or as white space are parameters.
- DemoGates.IsProductMeans: lower-casing is that of ASCII.
- Calendar.MonthLength: days are numbers on an unbounded calendar; the date range from year 1 to 9999 and the four-digit year keys are not modelled.
- Fields that take no part in any rule here (names, planned award value, fee rate, investment, market, owner, organisation node, outcome date, opportunity id) and the checks on them.
- Addressing a dependency by opportunity id: it is addressed by the pursuit's own identity, and an unknown or invisible one is "not found".
- The lost-update guard on `updated_at`, roles, sessions, HTTP, the audit log, row-level security and isolation between transactions.
- The engine, its solver, and the scoring and fee tables that build its request: one parameter stands for "any of it fails" or the Pwin it returns.
- Recalculation previews, which store nothing.
- Floating-point error, the six-digit rounding of stored probabilities and display rounding: numbers are exact reals.
- Questionnaire versions: there is one, and an option is identified by its label.
- Timestamps and reasons of market flags, market-sync runs that fail, and local markets that share a name.
- Sorting of option lists and the display filter on test-fixture nodes.
- Presence, history, dashboard layout, user administration and plan-year writes: single-row writes without rules across them.
- Workbook reading, SQL generation and the demo generator's random building and rescaling loops.
