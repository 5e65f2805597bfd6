# Scenario engine of the battery-line what-if and optimization pages

This project models, in Dafny, the decision logic behind two pages of an
operator dashboard for a simulated battery-manufacturing line.

The what-if page works like this:
- An operator picks process parameters and sets their values.
- The picks are collected into a draft, and the draft is sealed into a named scenario on a queue.
- The operator then simulates one queued scenario or compares several.
- A simulation first tries four hand-authored failure patterns: overheated welding, process-wide overload, optimized efficiency and mixed performance.
- When no pattern fires, it falls back to a heuristic built on the mean value. A name-based bonus is added for temperature and vibration parameters, and both results are clamped.
- A comparison ranks the scenarios by risk and by longevity and gives a trade-off verdict.

The optimization page has four objective sliders. Its matcher selects the first baked-in scenario whose four objective bands all contain the slider values.

Modules, following the source's structure:
- `Common` holds `Option`, the duplicate-free predicate, and the checkbox toggle that both pages use.
- `Parameters` holds parameter entries, scenarios and the per-process parameter catalog. It also holds the label operations: the bare name before the first space, ASCII lower-casing and substring search.
- `PatternDetector` holds the lookup keyed by bare name, the four patterns, the first-match detector as a function, and the loop that fills the lookup as a method.
- `RiskSimulator` holds the simulator as a function. The method holds the sum and remark loops and the clamps written as reassignments.
- `Comparator` holds the metric lines, a stable insertion sort, the ranking and the comparison method.
- `WhatIfState` holds the builder's state as a class. Its handlers are methods whose contracts state the whole new state.
- `ObjectiveMatcher` holds the baked-in scenarios and the range matcher.
- `OptimizationPage` holds the optimization page's state as a value, with one function per handler.

Displayed numbers are kept as the numbers their strings spell:
- The failure percentage is `(p*100).toFixed(0)` read back by `parseInt`, i.e. the nearest integer with halves rounded up.
- The time is `t.toFixed(1)` read back by `parseFloat`, i.e. the nearest tenth.
- The comparator ranks on these rounded values, as the source does.

Where the source's comments and its code disagree, the model follows the code:
- The detector's doc comment (`src/components/WhatIfAnalysis.js:187`) asks for a welding temperature above 100°C. The code (line 215) tests `> 80`, and the model uses 80.
- The matcher's comment (`src/components/Optimization.js:259`) says the bands are ±10% of the target. The second scenario's defect band (3.4–4.2 around 3.8) and energy band (113–137 around 125) are not exactly ±10%. The model uses the authored numbers. The lemma `TargetsInsideRanges` proves that every target is its band's midpoint.
- The source defines two baked-in scenarios, not four.
- An all-100 scenario does not always reach the 95% cap and the 10-minute floor. When its welding temperature, ambient temperature and humidity keys are all present, the welding pattern fires first and reports 93% and 12.0 minutes (`AllHundredWelding`). Otherwise it is reported at 95% and 10.0 minutes (`AllHundredScenario`).

## Model

| member | source | states |
|---|---|---|
| Common.Remove | src/components/WhatIfAnalysis.js:403 | the filtered list holds exactly the old members other than the removed one, is no longer, and is unchanged when the item was absent; RemoveAppend fixes its order and occurrences |
| Common.RemoveAppend | src/components/WhatIfAnalysis.js:403 | the filter distributes over concatenation and keeps a one-element list exactly when that element is not the removed one, so it keeps the other elements in their original order, each occurrence kept |
| Common.RemoveCutsOut | src/components/WhatIfAnalysis.js:403 | in a duplicate-free list the filter cuts out the one occurrence and leaves the elements before and after it in place |
| Common.Toggle | src/components/WhatIfAnalysis.js:401-407 | afterwards the item is present exactly when it was absent before; every other item keeps its membership; a new item is appended at the end, and a present one is filtered out |
| Common.ToggleCutsOut | src/components/WhatIfAnalysis.js:401-404 | unticking an item of a duplicate-free selection removes that one position and keeps every other item in its order |
| Common.RemoveKeepsNoDup | src/components/WhatIfAnalysis.js:403 | filtering a duplicate-free list keeps it duplicate-free |
| Common.ToggleKeepsNoDup | src/components/WhatIfAnalysis.js:400-407 | a toggled selection never holds a parameter twice |
| Parameters.BareName | src/components/WhatIfAnalysis.js:208 | the label up to its first space; its meaning is stated by BareNameSpec, BareNameUnique and BareNameOfUnitLabel |
| Parameters.CatalogProcesses | src/components/WhatIfAnalysis.js:51-177 | the parameter catalog `process_feature_map` has exactly the eight stations of the line as keys, each with a non-empty parameter list |
| Parameters.BareNameSpec | src/components/WhatIfAnalysis.js:208 | `split(" ")[0]` is a prefix of the label, contains no space, and stops at the first space or at the end |
| Parameters.BareNameUnique | src/components/WhatIfAnalysis.js:208 | those three properties determine the bare name uniquely |
| Parameters.BareNameOfUnitLabel | src/components/WhatIfAnalysis.js:207-208 | a label `key (unit)` whose key has no space reduces to the key |
| Parameters.IncludesIff | src/components/WhatIfAnalysis.js:304-311 | `includes` holds exactly when the word occurs at some position of the text |
| PatternDetector.ParamMap | src/components/WhatIfAnalysis.js:204-210 | the lookup written entry by entry under bare names; its meaning is stated by ParamMapLookup and ParamMapWithin |
| PatternDetector.Detect | src/components/WhatIfAnalysis.js:203-276 | the four pattern tests in authored order; its meaning is stated by DetectCases and the lemmas after it |
| PatternDetector.ParamMapLookup | src/components/WhatIfAnalysis.js:204-210 | a key is present exactly when some entry has that bare name, and it holds the value of the last such entry |
| PatternDetector.ExceedsIsComparison | src/components/WhatIfAnalysis.js:213-237 | for non-negative thresholds the truthiness test `m[k] &&` adds nothing to `m[k] > t`; a missing key means the rule does not apply |
| PatternDetector.CheckForPredefinedScenario | src/components/WhatIfAnalysis.js:203-276 | the loop-built lookup and the four tests in order give exactly the detector function's answer |
| PatternDetector.DetectCases | src/components/WhatIfAnalysis.js:212-275 | each pattern is reported exactly when its rule holds and no earlier rule does; no pattern is reported exactly when all four fail |
| PatternDetector.WeldingPreemptsMixed | src/components/WhatIfAnalysis.js:212-273 | an input satisfying both the welding rule and the mixed rule is reported as overheated welding |
| PatternDetector.DetectEmpty | src/components/WhatIfAnalysis.js:249-256 | an empty parameter list counts as all-optimal, because `every` holds vacuously |
| PatternDetector.DetectNoneHasEntries | src/components/WhatIfAnalysis.js:249-275 | when no pattern fires the list is non-empty, so the mean is defined |
| PatternDetector.PayloadBounds | src/components/WhatIfAnalysis.js:221-272 | every payload's probability lies in [0, 1] and its time is positive |
| PatternDetector.CountAbovePositive | src/components/WhatIfAnalysis.js:263 | the count of values above a threshold is positive exactly when some value exceeds it |
| PatternDetector.CountBelowPositive | src/components/WhatIfAnalysis.js:264 | the count of values below a threshold is positive exactly when some value lies below it |
| PatternDetector.CountAboveTwo | src/components/WhatIfAnalysis.js:263-265 | "at least two above" holds exactly when two distinct positions hold such values |
| PatternDetector.OptimalExcludesMixed | src/components/WhatIfAnalysis.js:249-265 | an all-optimal list has no value above 80 and never satisfies the mixed rule |
| PatternDetector.HazardExcludesOptimal | src/components/WhatIfAnalysis.js:212-252 | an input satisfying the welding or the overload rule is never all-optimal |
| PatternDetector.NoHazardKeys | src/components/WhatIfAnalysis.js:212-246 | without `welding_temperature` and `temperature` keys neither threshold rule can fire |
| PatternDetector.WeldingExample | src/components/WhatIfAnalysis.js:212-228 | welding 90, ambient 45, humidity 75 is detected as overheated welding |
| PatternDetector.OverloadExample | src/components/WhatIfAnalysis.js:230-246 | temperature 95, energy 85, cycle time 95 is detected as process-wide overload |
| PatternDetector.OptimalExample | src/components/WhatIfAnalysis.js:248-260 | values all 50 without hazard keys are detected as optimized efficiency |
| PatternDetector.MixedExample | src/components/WhatIfAnalysis.js:262-273 | values 90, 85, 10, 5 without hazard keys are detected as mixed performance |
| RiskSimulator.ClampProbability | src/components/WhatIfAnalysis.js:315-316 | the clamped probability lies in [0.05, 0.95], equals the input inside that band, and equals the bound that was crossed outside it |
| RiskSimulator.ClampTime | src/components/WhatIfAnalysis.js:319-321 | the clamped time lies in [10, 60], equals the input inside that band, and equals the bound that was crossed outside it |
| RiskSimulator.Simulate | src/components/WhatIfAnalysis.js:283-340 | a detected pattern's payload, or else the default analysis; its meaning is stated by SimulateBounds, SimulatePremade and the example lemmas |
| RiskSimulator.DefaultAnalysis | src/components/WhatIfAnalysis.js:294-339 | the mean-based heuristic with bonuses, clamps and remarks; its meaning is stated by DefaultProbabilityMonotone, DefaultTimeMonotone, AdjustmentAtMostOnce and RemarksAt |
| RiskSimulator.SimulateScenario | src/components/WhatIfAnalysis.js:283-340 | the step-by-step simulator returns exactly the simulator function's output |
| RiskSimulator.RunDefaultAnalysis | src/components/WhatIfAnalysis.js:294-339 | the running sum, the bonuses, the reassigning clamps and the remark loop give exactly the default analysis |
| RiskSimulator.PercentBounds | src/components/WhatIfAnalysis.js:336 | a probability in [0.05, 0.95] is displayed as a percentage in [5, 95] |
| RiskSimulator.TenthsBounds | src/components/WhatIfAnalysis.js:337 | a time in [10, 60] rounded to a tenth stays in [10, 60] |
| RiskSimulator.PayloadTexts | src/components/WhatIfAnalysis.js:284-292 | the four payloads display as 93%/12.0, 95%/10.0, 10%/55.0 and 70%/25.0 |
| RiskSimulator.WeldingExampleOutput | src/components/WhatIfAnalysis.js:212-228 | the welding example simulates to 93% and 12.0 minutes with the welding explanation |
| RiskSimulator.OverloadExampleOutput | src/components/WhatIfAnalysis.js:230-246 | the overload example simulates to 95% and 10.0 minutes |
| RiskSimulator.OptimalExampleOutput | src/components/WhatIfAnalysis.js:248-260 | any scenario whose values are all 50 simulates to 10% and 55.0 minutes, whatever its labels |
| RiskSimulator.MixedExampleOutput | src/components/WhatIfAnalysis.js:262-273 | values 90, 85, 10, 5 simulate to 70% and 25.0 minutes |
| RiskSimulator.SimulateBounds | src/components/WhatIfAnalysis.js:283-340 | for every input the reported risk is 5–95% and the time 10–60 minutes |
| RiskSimulator.SimulatePremade | src/components/WhatIfAnalysis.js:284-292 | a detected pattern's payload and explanation are reported unchanged |
| RiskSimulator.DefaultTimeMonotone | src/components/WhatIfAnalysis.js:319-321 | the default time lies in [10, 60] and never grows as the mean grows |
| RiskSimulator.DefaultProbabilityMonotone | src/components/WhatIfAnalysis.js:301-316 | the default probability lies in [0.05, 0.95] and never shrinks as the mean or the bonus grows |
| RiskSimulator.AnyMentionsByLabels | src/components/WhatIfAnalysis.js:304-313 | the `some` test depends only on which labels occur |
| RiskSimulator.AdjustmentAtMostOnce | src/components/WhatIfAnalysis.js:304-314 | the bonus is 0, 0.1 or 0.2, and two lists with the same labels get the same bonus however often each label repeats |
| RiskSimulator.SumOfConstant | src/components/WhatIfAnalysis.js:295-298 | a list whose values are all c sums to c times its length |
| RiskSimulator.DefaultAnalysisOfConstant | src/components/WhatIfAnalysis.js:295-321 | for a list whose values are all c, the default analysis works from the mean c |
| RiskSimulator.RemarksAt | src/components/WhatIfAnalysis.js:324-331 | the analysis has one line per entry carrying its label, its value and "stress" above 70, "under-performance" below 30, else "optimal" |
| RiskSimulator.ParamMapWithin | src/components/WhatIfAnalysis.js:204-210 | any bound on all the entry values also bounds every value in the lookup |
| RiskSimulator.LowConstantUndetected | src/components/WhatIfAnalysis.js:212-275 | a non-empty list whose values all equal one constant below 40 fires no pattern |
| RiskSimulator.AllZeroScenario | src/components/WhatIfAnalysis.js:295-321 | an all-zero list without temperature or vibration labels gives the 5% floor and the 60.0-minute ceiling |
| RiskSimulator.AllTwentyScenario | src/components/WhatIfAnalysis.js:295-321 | an all-20 list without temperature or vibration labels gives 20% and 50.0 minutes |
| RiskSimulator.AllHundredDetect | src/components/WhatIfAnalysis.js:212-275 | an all-100 list that misses the welding pattern can only trigger the overload pattern, or none |
| RiskSimulator.AllHundredWelding | src/components/WhatIfAnalysis.js:212-228 | an all-100 list fires the welding pattern exactly when the welding-temperature, ambient-temperature and humidity keys are all present, and then gives 93% and 12.0 minutes |
| RiskSimulator.AllHundredDefault | src/components/WhatIfAnalysis.js:295-321 | the default analysis of an all-100 list sits at the 95% cap and the 10.0-minute floor, whatever the bonus |
| RiskSimulator.AllHundredScenario | src/components/WhatIfAnalysis.js:283-321 | an all-100 list that misses the welding pattern gives 95% and 10.0 minutes |
| RiskSimulator.OptimalSumAtLeast | src/components/WhatIfAnalysis.js:249-252 | a list whose values all lie in the optimal band [40, 60] sums to at least 40 per entry |
| RiskSimulator.MeanTwentyDetect | src/components/WhatIfAnalysis.js:212-275 | a non-empty list with mean 20 that fires neither hazard pattern is reported as mixed performance or not at all, never as optimal |
| RiskSimulator.MeanTwentyDefault | src/components/WhatIfAnalysis.js:295-321 | the default analysis at mean 20 gives at most 40% (20% plus at most both bonuses) and 50.0 minutes |
| RiskSimulator.MeanTwentyOutcome | src/components/WhatIfAnalysis.js:283-340 | a list with mean 20 that fires neither hazard pattern is reported at no more than 70% and at least 25.0 minutes |
| Comparator.FirstMinIndex | src/components/WhatIfAnalysis.js:357-360 | the index holds the smallest key, and no earlier index holds one as small |
| Comparator.Insert | src/components/WhatIfAnalysis.js:357-360 | one step of the stable sort, placing a line before the first with a key at least its own; its meaning is stated by InsertPerm, InsertHead and InsertSorted |
| Comparator.SortBy | src/components/WhatIfAnalysis.js:357-360 | the stable sort by one criterion; its meaning is stated by SortByFacts and SortByHead |
| Comparator.InsertPerm | src/components/WhatIfAnalysis.js:357-360 | insertion adds exactly one occurrence of the new line |
| Comparator.InsertHead | src/components/WhatIfAnalysis.js:357-360 | after insertion the head is the new line when its key is not above the old head's key, and the old head otherwise |
| Comparator.InsertSorted | src/components/WhatIfAnalysis.js:357-360 | inserting into a sorted list keeps it sorted |
| Comparator.SortByFacts | src/components/WhatIfAnalysis.js:357-360 | the sort returns a sorted permutation of its input |
| Comparator.SortByHead | src/components/WhatIfAnalysis.js:357-360 | the head of the stable sort is the earliest line with the smallest key |
| Comparator.Rank | src/components/WhatIfAnalysis.js:357-376 | a report exists exactly for non-empty input, keeps every line, and says "best on both" exactly when the two winners' names are equal |
| Comparator.Compare | src/components/WhatIfAnalysis.js:346-379 | the comparison report as a function; its meaning is stated by CompareMetrics, CompareWinners and the comparison lemmas after it |
| Comparator.CompareScenarios | src/components/WhatIfAnalysis.js:346-379 | the loop of simulations and the two sorts give exactly the comparison function's report |
| Comparator.CompareMetrics | src/components/WhatIfAnalysis.js:362-365 | a report exists exactly for a non-empty list and lists every scenario's metrics in input order |
| Comparator.RankWinners | src/components/WhatIfAnalysis.js:357-367 | best by risk is the earliest line with the lowest percentage; best by longevity is the earliest with the longest time |
| Comparator.CompareWinners | src/components/WhatIfAnalysis.js:346-367 | the same two winner properties for whole scenarios, through their simulations |
| Comparator.DominantWins | src/components/WhatIfAnalysis.js:357-376 | a line lower in risk and longer in time wins both rankings, with the "best on both" verdict, in either order |
| Comparator.TieGoesToFirst | src/components/WhatIfAnalysis.js:357-367 | on a full tie the first line in input order wins both rankings |
| Comparator.AverageTwentyBeatsWelding | src/components/WhatIfAnalysis.js:346-376 | a scenario whose values average 20 and that fires neither hazard pattern beats an overheated-welding scenario on both rankings, with the "best on both" verdict, whichever of the two is listed first |
| ObjectiveMatcher.FirstMatch | src/components/Optimization.js:263-276 | a found scenario is in the scanned list and all four of its bands contain the inputs; nothing is found only when no entry matches (FirstMatchSpec adds that it is the first match) |
| ObjectiveMatcher.CheckForScenarioMatch | src/components/Optimization.js:260-277 | over the two authored entries of `bakedScenarios` (153-255): a match is a baked-in scenario whose bands contain the inputs, and no match means neither scenario's bands do |
| ObjectiveMatcher.FirstMatchSpec | src/components/Optimization.js:260-277 | the scan returns the first entry in list order whose bands all contain the inputs, and nothing exactly when no entry matches |
| ObjectiveMatcher.MatchIsBakedAndInRange | src/components/Optimization.js:263-273 | a match is one of the baked-in scenarios, and all eight inclusive comparisons hold for it |
| ObjectiveMatcher.TargetsInsideRanges | src/components/Optimization.js:164-213 | every authored band contains its target, and every target is its band's midpoint |
| ObjectiveMatcher.CheckForScenarioMatchCases | src/components/Optimization.js:260-277 | with the two authored entries the matcher is two range tests tried in list order |
| ObjectiveMatcher.TargetsSelectTheirScenario | src/components/Optimization.js:164-213 | (70, 3, 90, 1000) selects scenario 1 and (85, 3.8, 125, 1350) selects scenario 2 |
| ObjectiveMatcher.NoInputMatchesBoth | src/components/Optimization.js:166-210 | the defect bands [2.7, 3.3] and [3.4, 4.2] are disjoint, so no input matches both scenarios |
| ObjectiveMatcher.OrderIrrelevant | src/components/Optimization.js:260-277 | scanning the two entries in reverse order gives the same answer |
| ObjectiveMatcher.InitialSlidersMatchNothing | src/components/Optimization.js:357-360 | the initial slider values (50, 5, 100, 1000) match no scenario |
| OptimizationPage.SliderMax | src/components/Optimization.js:438-441 | every slider's maximum is positive |
| OptimizationPage.SetObjective | src/components/Optimization.js:438-455 | moving a slider changes only that objective's value, and a previously matched scenario stays shown |
| OptimizationPage.SelectProcess | src/components/Optimization.js:474 | the process selector changes only the process and keeps the parameter selection |
| OptimizationPage.HandleParamChange | src/components/Optimization.js:366-370 | the parameter is selected afterwards exactly when it was not before, every other parameter keeps its membership, and nothing else changes |
| OptimizationPage.HandleOptimize | src/components/Optimization.js:372-380 | the stored match is nothing exactly when no baked-in scenario matches the four sliders, and otherwise the first match; nothing else changes |
| OptimizationPage.TransitionsKeepValid | src/components/Optimization.js:357-380 | the initial state and every handler keep each slider inside its range and the selection free of duplicates |
| OptimizationPage.ParamChangeTwice | src/components/Optimization.js:366-370 | toggling the same parameter twice restores every parameter's membership |
| OptimizationPage.OptimizeIdempotent | src/components/Optimization.js:372-380 | optimizing twice in a row changes nothing the second time |
| OptimizationPage.OptimizeInitialFindsNothing | src/components/Optimization.js:357-380 | optimizing before any slider moves stores no match |
| OptimizationPage.OptimizeAtTargets | src/components/Optimization.js:372-380 | optimizing at the second scenario's targets stores that scenario |
| WhatIfState.SelectedScenarios | src/components/WhatIfAnalysis.js:472 | the selection filter is never longer than the queue; SelectedScenariosSpec and SelectedScenariosAppend state which scenarios it keeps and in what order |
| WhatIfState.NewEntries | src/components/WhatIfAnalysis.js:428-432 | one draft entry per pick in pick order, with the current process and the stored value or 50; DraftValuesComeFromSliders states that a valid page never uses the 50 |
| WhatIfState.FlipAt | src/components/WhatIfAnalysis.js:462-466 | the queue with one flag flipped; its meaning is stated by FlipAtCount and FlipOutsideQueue |
| WhatIfState.SelectedScenariosSpec | src/components/WhatIfAnalysis.js:472 | the filter keeps exactly the selected scenarios, all flagged, and is the identity on a fully selected queue |
| WhatIfState.SelectedScenariosAppend | src/components/WhatIfAnalysis.js:472 | the filter distributes over concatenation and keeps a one-scenario queue exactly when it is selected, so it keeps the selected scenarios in queue order, each occurrence once |
| WhatIfState.FlipAtCount | src/components/WhatIfAnalysis.js:461-466 | flipping an in-range position changes the number selected by exactly one, and flipping again restores the queue |
| WhatIfState.FlipOutsideQueue | src/components/WhatIfAnalysis.js:463-464 | an index outside the queue leaves it unchanged |
| WhatIfState.WhatIfAnalysis.constructor | src/components/WhatIfAnalysis.js:383-397 | the page starts on "cell_prep", a process of the catalog, with everything else empty, and the invariant holds |
| WhatIfState.WhatIfAnalysis.SelectProcess | src/components/WhatIfAnalysis.js:524-528 | choosing a process clears the picks and their values and changes nothing else |
| WhatIfState.WhatIfAnalysis.HandleParamToggle | src/components/WhatIfAnalysis.js:400-412 | the new selection is the toggled list itself, so order is kept: the parameter is appended when absent and cut out in place when present; the parameter keeps its value or gets 50, every other value is unchanged, and nothing else changes |
| WhatIfState.WhatIfAnalysis.HandleParamSlider | src/components/WhatIfAnalysis.js:415-420 | only that parameter's value changes |
| WhatIfState.WhatIfAnalysis.SetScenarioName | src/components/WhatIfAnalysis.js:612-613 | only the name changes |
| WhatIfState.WhatIfAnalysis.HandleAddParamsToScenario | src/components/WhatIfAnalysis.js:423-437 | rejected with no change exactly when nothing is picked; otherwise the old draft plus one entry per pick, with picks and values cleared |
| WhatIfState.WhatIfAnalysis.HandleAddScenarioToQueue | src/components/WhatIfAnalysis.js:440-458 | rejected with no change exactly when the name is blank after trimming or the draft is empty; otherwise the old queue plus the unselected scenario, with the draft and name reset |
| WhatIfState.WhatIfAnalysis.ToggleScenarioSelected | src/components/WhatIfAnalysis.js:461-468 | only the indexed scenario's flag flips, and the shown insight is discarded |
| WhatIfState.WhatIfAnalysis.HandleCompareSelected | src/components/WhatIfAnalysis.js:471-480 | rejected with no change exactly when fewer than two scenarios are selected; otherwise only the insight changes, to the report on the selected ones |
| WhatIfState.WhatIfAnalysis.HandleSimulateScenario | src/components/WhatIfAnalysis.js:483-501 | rejected with no change unless exactly one scenario is selected; otherwise only the insight changes, to that scenario's simulation |
| WhatIfState.DraftValuesComeFromSliders | src/components/WhatIfAnalysis.js:408-432 | on a valid page every picked parameter has a stored value, so each draft entry the picks would create carries its slider's value and never the default 50 |
| WhatIfState.QueuedScenarioSimulates | src/components/WhatIfAnalysis.js:445-458 | on a valid page every queued scenario has entries, so it is reported as optimized efficiency only when it has a parameter and all its values lie in [40, 60]; its risk is within 5–95% |
| WhatIfState.CompareGuardYieldsReport | src/components/WhatIfAnalysis.js:471-479 | on a valid page that passes the two-scenario guard the comparison always yields a report whose metric lines are the selected scenarios' evaluations in queue order |
| WhatIfState.BlankNames | src/components/WhatIfAnalysis.js:441 | the empty name and a name of spaces, tabs and line breaks are blank; a name with a non-white-space character at any position is not |

## Left out

- The page markup, styling, charts, progress bars and the 3D scene are left out. They only display the engine's outputs.
- PDF export is left out. It is document I/O through a foreign library.
- The dashboard's polling of a remote endpoint and its timers are left out. They are network and clock plumbing.
- The Python server and the machine-learning scripts (model training, prediction, random input generation) are left out. They are foreign libraries and randomness.
- `alert` and `console.log` are left out. A rejecting handler returns `accepted == false` instead.
- The report prose is left out: the explanation texts, the "Comparison Report" template and the simulation text block. A report is kept as the values it interpolates: names, percentages, minutes, patterns, remark kinds and the trade-off verdict.
- RiskSimulator.Percent and RiskSimulator.Tenths model `toFixed` on exact reals with halves rounded up. They do not model IEEE-754 binary rounding, where a value such as 1.005 may round down.
- Parameters.LowerChar maps only ASCII letters. The catalog's only non-ASCII character is the degree sign '°' of the temperature units. It has no case mapping, so `toLowerCase` leaves it unchanged, as LowerChar does. Case mapping of other non-ASCII letters is not modelled.
- The catalog (`process_feature_map`) is modelled as constants, with a lemma about its process keys only. Lemmas that evaluate bare names of the literal labels are too costly for the verifier. The examples are therefore stated for any entries whose bare names are the required keys.
- The baked scenarios' before/after chart series, recommendations and summary prose are left out. They are display data the matcher never reads.
- Comparator.Compare returns no report for an empty list, where the source throws on `sortedByRisk[0]`. The page never calls it with fewer than two scenarios.
- OptimizationPage.SetObjective requires a value within the slider's range, which the range input guarantees. `Number` on a non-numeric string is not modelled.
- WhatIfState.WhatIfAnalysis.HandleParamSlider takes the value as a real. The string-to-number conversion of the input event is not modelled.
- Copying entries (`{ ...entry }`) when a scenario is sealed is not modelled separately. Entries are values in the model, so no aliasing can arise.
