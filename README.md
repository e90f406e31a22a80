# Knapsack optimisation reports: a Dafny model

This project models the reporting and experiment core of a multiple-knapsack
optimisation tool. The tool's frontend runs repeated experiments against a
backend. Each experiment is a hill climbing variant, simulated annealing, the
"all methods" endpoint or a sweep over genetic-algorithm configurations.
The frontend then condenses the outcomes into statistics, summaries and a
"best method" verdict. The model covers these parts:

- `ReportsService` (`reports_service.dfy`): `runIndividualExperiments` and
  `runAllMethodsExperiment`, with their `process*` helpers.
- `AllMethods` (`handle_all_methods.dfy`): `handleAllMethods`, which makes two
  backend calls and turns the replies into tagged items.
- `GeneticSweep` (`genetic_sweep.dfy`): `runGeneticAlgorithmExperiments`, the
  five `analyze*Impact` verdicts and the per-configuration statistics.
- `ReportSummaries` (`report_summaries.dfy`): `generateBasicMethodsSummary`,
  `generateComparisonSummary`, `findBestMethod` and
  `calculateStandardDeviation`.
- `Stats` (`stats.dfy`): `calculateStats`, with sum, minimum, maximum, mean
  and population variance.
- `MethodResults` (`prepare_method_results.dfy`): `prepareMethodResults`,
  which builds the display list.
- `Partition` (`partition.dfy`): `randomSplitInt`, which splits a total into
  random parts.
- `KnapsackService` (`knapsack.dfy`): the backend routines
  `generate_knapsack_problem`, `generate_initial_solution`,
  `evaluate_solution`, `successors` and `successor`.
- `Basics` and `ReportTypes` hold shared values: `Option`, extended reals for
  `-Infinity`, and the shapes of payloads, responses and results.

Everything that is awaited, timed or random is an input of the model:

- `setup(i)` is the instance of repetition `i`. A failed setup aborts the
  whole run, because the source awaits it outside any `try`.
- The backend replies are functions of the repetition and the request.
- The random draws are finite sequences.
- `Math.sqrt` is a parameter `sqrt`. The model only requires that it is a
  square root on the non-negative reals (`Stats.IsSqrt`).

Numbers are exact reals or unbounded integers.

Three behaviours of the code are easy to miss:

- `generate_initial_solution` adds random items while the bag's weight is at
  most the capacity (backend/service.py:96), so the loop only ends once the
  weight is strictly over it. Every bag it returns is over capacity, as
  `KnapsackService.GenerateInitialSolution` states.
- `randomSplitInt` draws each breakpoint independently
  (frontend/src/utils/randomSplit.ts:4-7), so two breakpoints can be equal.
  Equal breakpoints give an interior part of zero, as
  `Partition.InteriorPartCanBeZero` shows.
- A `setupKnapsacks` failure aborts a whole run: it is awaited outside every
  `try` (frontend/src/pages/Reports/service/index.tsx:64, 138 and 349). Only
  solver failures fall back to the repetition's initial value.

## Model

| member | source | states |
|---|---|---|
| Stats.MinOf | frontend/src/pages/Reports/utils/calculateStats.ts:9 | `Math.min` of a non-empty series is one of its elements and no element is smaller |
| Stats.MaxOf | frontend/src/pages/Reports/utils/calculateStats.ts:10 | `Math.max` of a non-empty series is one of its elements and no element is larger |
| Stats.CalculateStats | frontend/src/pages/Reports/utils/calculateStats.ts:1-18 | all zeros for an empty series; otherwise min and max are elements bounding every element, avg is sum / length between them, std is the non-negative root of the population variance |
| Stats.MeanBetween | frontend/src/pages/Reports/utils/calculateStats.ts:9-11 | the mean of a non-empty series lies between its minimum and maximum |
| Stats.ConstantSeriesStats | frontend/src/pages/Reports/utils/calculateStats.ts:7-17 | a constant series has min = max = avg = that constant and std = 0 |
| Stats.StdOfVariance | frontend/src/pages/Reports/utils/calculateStats.ts:12-15 | a series whose variance is d² (d ≥ 0) has std exactly d |
| Stats.TextbookExample | frontend/src/pages/Reports/utils/calculateStats.ts:11-15 | the series 2,4,4,4,5,5,7,9 has avg 5 and std 2 |
| ReportsService.TrialValue | frontend/src/pages/Reports/service/index.tsx:897-911 | a method's value is the sum of the returned values, or the initial value when the reply failed or had no values |
| ReportsService.ProcessHillClimbing | frontend/src/pages/Reports/service/index.tsx:889-912 | plain hill climbing contributes the sum of its reply's values, else the initial value |
| ReportsService.ProcessHillClimbingTry | frontend/src/pages/Reports/service/index.tsx:914-942 | the retrying hill climb with the given `Tmax` contributes the sum of its values, else the initial value |
| ReportsService.ProcessSimulatedAnnealing | frontend/src/pages/Reports/service/index.tsx:944-973 | an annealing variant contributes the sum of its values, else the initial value |
| ReportsService.RunAnnealingVariants | frontend/src/pages/Reports/service/index.tsx:101-110 | each variant's value in the repetition is appended to the series of its key, in key order, and the keys stay as they were |
| ReportsService.RunIndividualExperiments | frontend/src/pages/Reports/service/index.tsx:29-121 | completes iff all 20 setups succeed, else aborts at the first failed one; then every series has 20 entries, entry i being repetition i's initial value or method value, the nine annealing keys in order, and no tempera series |
| ReportsService.MethodValue | frontend/src/pages/Reports/service/index.tsx:986-998 | an array of current values gives its sum with missing entries as 0, a number gives itself, anything else gives no value |
| ReportsService.SumOrZeroOfPresent | frontend/src/pages/Reports/service/index.tsx:988-991 | with no missing entries the zero-defaulting sum is the plain sum |
| ReportsService.ProcessAllMethodsResponse | frontend/src/pages/Reports/service/index.tsx:975-1023 | a valued result with a known tag appends its value to exactly that tag's series; otherwise nothing changes |
| ReportsService.ValidRecords | frontend/src/pages/Reports/service/index.tsx:177-192 | the records kept are no more than the results and none lacks `current_values` |
| ReportsService.TagValuesAtMostOne | frontend/src/pages/Reports/service/index.tsx:166-174 | when the tags of a reply are distinct, each tag receives at most one value from it |
| ReportsService.ProcessAll | frontend/src/pages/Reports/service/index.tsx:166-174 | each known series grows by exactly the values of the results with its tag, in list order |
| ReportsService.RepetitionItemsDistinct | frontend/src/pages/Reports/utils/handleAllMethods.ts:8-75 | one repetition's items number at most four and carry distinct tags |
| ReportsService.CollectedBound | frontend/src/pages/Reports/service/index.tsx:136-174 | over n repetitions with distinct tags, a method series has at most n entries |
| ReportsService.CollectedRecordsBound | frontend/src/pages/Reports/service/index.tsx:177-192 | over n repetitions of at most four items, at most 4n records, none without `current_values` |
| ReportsService.AllMethodsStep | frontend/src/pages/Reports/service/index.tsx:136-193 | one more successful repetition extends the initial values, series and records by that repetition's contribution |
| ReportsService.RunAllMethodsExperiment | frontend/src/pages/Reports/service/index.tsx:123-212 | completes iff all 20 setups succeed; 20 initial values, each method series equal to the values its tag received repetition by repetition (so at most 20), `allResults` equal to the kept records (at most 80, all with values), no annealing series |
| AllMethods.SecondRequest | frontend/src/pages/Reports/utils/handleAllMethods.ts:18-25 | the second call carries the same instance with `Tmax` doubled |
| AllMethods.ItemsPresentIff | frontend/src/pages/Reports/utils/handleAllMethods.ts:30-66 | a known tag occurs among the items iff its response field is present, and then it carries that field's solutions and values |
| AllMethods.IndexOfTag | frontend/src/pages/Reports/utils/handleAllMethods.ts:30-66 | a present field yields an item with its tag at some position |
| AllMethods.ItemsOrderedDistinct | frontend/src/pages/Reports/utils/handleAllMethods.ts:30-66 | at most four items, known tags, in the fixed order slope_climbing, try_again, tempera, try_again_2n, hence distinct |
| AllMethods.HandleAllMethods | frontend/src/pages/Reports/utils/handleAllMethods.ts:8-75 | the empty list when either call throws, otherwise the items of the present fields; at most four, with known distinct tags |
| GeneticSweep.RequestOf | frontend/src/pages/Reports/service/index.tsx:354-364 | the GA request carries the instance, the item count of each knapsack and the configuration |
| GeneticSweep.GATrial | frontend/src/pages/Reports/service/index.tsx:366-394 | with solutions, the trial value is the sum of final values (missing as 0); without, it is the initial value; the improvement is always value minus initial value |
| GeneticSweep.SummaryStatistics | frontend/src/pages/Reports/service/index.tsx:397-401 | a configuration's average is sum / count, best and worst are elements bounding all results, and worst ≤ average ≤ best |
| GeneticSweep.SummaryDeviation | frontend/src/pages/Reports/service/index.tsx:402-407 | a configuration's standard deviation is the non-negative root of the population variance |
| GeneticSweep.ConvergenceGeneration | frontend/src/pages/Reports/service/index.tsx:428 | the convergence generation is the floor of 80% of the generations |
| GeneticSweep.Select | frontend/src/pages/Reports/service/index.tsx:455-460 | a bucket holds only experiments meeting the criterion and is non-empty iff some experiment meets it |
| GeneticSweep.SelectCounts | frontend/src/pages/Reports/service/index.tsx:455-460 | a bucket keeps every experiment meeting the criterion exactly as often as it occurs, and nothing else |
| GeneticSweep.BucketMean | frontend/src/pages/Reports/service/index.tsx:462-467 | a bucket mean exists iff the bucket is non-empty (the source's 0/0 is NaN) |
| GeneticSweep.BucketsPartition | frontend/src/pages/Reports/service/index.tsx:455-460 | complementary criteria split the experiments: the two buckets' sizes add up to the total |
| GeneticSweep.GuardedVerdict | frontend/src/pages/Reports/service/index.tsx:474-490 | neutral message when a bucket is empty, else the "high" message exactly when the high bucket's mean is strictly greater |
| GeneticSweep.AnalyzePopulationImpact | frontend/src/pages/Reports/service/index.tsx:454-472 | "larger populations" iff both buckets are non-empty and the large bucket's mean is strictly greater; else "smaller populations" |
| GeneticSweep.AnalyzeGenerationImpact | frontend/src/pages/Reports/service/index.tsx:474-490 | "insufficient data" iff a bucket is empty; "more generations" iff both non-empty and the many-generations mean is strictly greater; otherwise "few generations" |
| GeneticSweep.AnalyzeCrossoverImpact | frontend/src/pages/Reports/service/index.tsx:492-514 | default message iff a bucket is empty; "high crossover" iff both non-empty and its mean is strictly greater; otherwise "low crossover" |
| GeneticSweep.AnalyzeMutationImpact | frontend/src/pages/Reports/service/index.tsx:516-536 | default message iff a bucket is empty; "high mutation" iff both non-empty and its mean is strictly greater; otherwise "low mutation" |
| GeneticSweep.AnalyzeEliteImpact | frontend/src/pages/Reports/service/index.tsx:538-560 | default message iff a bucket is empty; "high elitism" iff both non-empty and its mean is strictly greater; otherwise "lower elitism" |
| GeneticSweep.BuiltInGenerations | frontend/src/pages/Reports/service/index.tsx:220-331 | the sweep has 15 configurations, none with more than 200 generations |
| GeneticSweep.GenerationVerdictWithoutMany | frontend/src/pages/Reports/service/index.tsx:474-490 | without any configuration above 200 generations the generation verdict is "insufficient data" |
| GeneticSweep.BuiltInGenerationVerdict | frontend/src/pages/Reports/service/index.tsx:474-490 | on the built-in configurations the generation verdict is always "insufficient data" |
| GeneticSweep.PopulationWithoutLarge | frontend/src/pages/Reports/service/index.tsx:454-472 | without a population above 100 the population verdict is "smaller populations" |
| GeneticSweep.TrialSeriesAt | frontend/src/pages/Reports/service/index.tsx:347-395 | entry i of a configuration's results, improvements and times is trial i's value, value minus initial value, and measured time |
| GeneticSweep.ExperimentTotalsSnoc | frontend/src/pages/Reports/service/index.tsx:408-412 | one more experiment adds its mean improvement and its execution time to the running totals |
| GeneticSweep.RecordOf | frontend/src/pages/Reports/service/index.tsx:419-429 | an experiment record keeps its configuration and 20 results and improvements |
| GeneticSweep.RecordedStep | frontend/src/pages/Reports/service/index.tsx:339-430 | appending configuration c's record keeps the recorded prefix in step with the configurations |
| GeneticSweep.RecordedConfigs | frontend/src/pages/Reports/service/index.tsx:339-430 | recorded experiment k carries configuration k |
| GeneticSweep.RunConfiguration | frontend/src/pages/Reports/service/index.tsx:342-430 | completes iff its 20 setups succeed, else aborts at the first failed one; the result is that configuration's record |
| GeneticSweep.BestStep | frontend/src/pages/Reports/service/index.tsx:414-417 | a strictly greater average takes the lead; a tie or a lower one keeps the earlier leader |
| GeneticSweep.BestOfThreeExample | frontend/src/pages/Reports/service/index.tsx:414-417 | with averages 10, 15 and 12, the second configuration wins with 15 |
| GeneticSweep.SweepStep | frontend/src/pages/Reports/service/index.tsx:339-430 | one configuration's record advances records, leader and totals together |
| GeneticSweep.SweepFinishedRecords | frontend/src/pages/Reports/service/index.tsx:432-451 | after the last configuration, experiment k is configuration k's record |
| GeneticSweep.SweepFinishedFigures | frontend/src/pages/Reports/service/index.tsx:432-451 | the report holds the first best configuration, count, mean improvement, total and per-trial time, and the five verdicts |
| GeneticSweep.RunSweep | frontend/src/pages/Reports/service/index.tsx:333-451 | completes iff all setups succeed, else aborts at the first failed one; a completed report holds each configuration's record and the summary figures |
| GeneticSweep.RunGeneticAlgorithmExperiments | frontend/src/pages/Reports/service/index.tsx:216-451 | 300 trials; completes iff all setups succeed; the report covers 15 configurations and its generation verdict is "insufficient data" |
| ReportSummaries.CalculateStandardDeviation | frontend/src/pages/Reports/service/index.tsx:823-832 | 0 for an empty series, else the non-negative root of the population variance |
| ReportSummaries.SummaryOf | frontend/src/pages/Reports/service/index.tsx:650-656 | a method summary's count is the length and its min, max, average and deviation agree with `calculateStats` |
| ReportSummaries.FiniteOfNums | frontend/src/pages/Reports/service/index.tsx:645-647 | the number filter keeps a series of plain numbers unchanged |
| ReportSummaries.SummaryEntry | frontend/src/pages/Reports/service/index.tsx:648-657 | a summary entry is keyed by its property and counts the finite numbers |
| ReportSummaries.BasicSummaryMembers | frontend/src/pages/Reports/service/index.tsx:643-660 | an entry is in the summary iff it is the summary of a non-empty array property with at least one finite number |
| ReportSummaries.BasicSummaryDistinct | frontend/src/pages/Reports/service/index.tsx:643-660 | distinct property names give distinct summary keys |
| ReportSummaries.BasicSummaryKeys | frontend/src/pages/Reports/service/index.tsx:643-660 | the summary's keys are the summarised properties, in property order |
| ReportSummaries.ExperimentSummaryKeys | frontend/src/pages/Reports/service/index.tsx:643-660 | for an individual experiment without tempera values, the summary has exactly the four keys initialSolutions, hillClimbing, hillClimbingNAttempts, hillClimbing2NAttempts |
| ReportSummaries.GenerateBasicMethodsSummary | frontend/src/pages/Reports/service/index.tsx:635-661 | null without results, else the summary of every summarisable property |
| ReportSummaries.FirstTags | frontend/src/pages/Reports/service/index.tsx:687-691 | the group keys are exactly the tags that occur, each once |
| ReportSummaries.GroupedStep | frontend/src/pages/Reports/service/index.tsx:687-694 | one more result creates its group on first sight and appends a numeric value to it |
| ReportSummaries.GroupSummariesMembers | frontend/src/pages/Reports/service/index.tsx:696-707 | a group appears in the summary iff it has numeric values, with the summary of those values |
| ReportSummaries.GroupSummariesDistinct | frontend/src/pages/Reports/service/index.tsx:696-707 | distinct group keys give summary entries with distinct keys |
| ReportSummaries.GroupSummariesStep | frontend/src/pages/Reports/service/index.tsx:697-707 | the summary over one more key adds that key's summary exactly when it has values |
| ReportSummaries.ComparisonSummaryMembers | frontend/src/pages/Reports/service/index.tsx:684-710 | an entry is in the comparison summary iff its tag occurs and has numeric values, with their summary; no tag has two entries |
| ReportSummaries.NoNumbersNoComparison | frontend/src/pages/Reports/service/index.tsx:689-691 | when no `newValue` is a number the comparison summary is empty |
| ReportSummaries.GenerateComparisonSummary | frontend/src/pages/Reports/service/index.tsx:684-710 | the loops compute the comparison summary |
| ReportSummaries.JsMax | frontend/src/pages/Reports/service/index.tsx:724-726 | NaN iff a NaN is present; -Infinity iff no number is present; otherwise a present number that no number exceeds |
| ReportSummaries.JsMaxOfNums | frontend/src/pages/Reports/service/index.tsx:724-726 | on plain numbers the JavaScript maximum is the series maximum |
| ReportSummaries.BasicStepByPeak | frontend/src/pages/Reports/service/index.tsx:722-731 | a property takes the lead exactly when its peak is strictly above the current best |
| ReportSummaries.LeadsStep | frontend/src/pages/Reports/service/index.tsx:719-733 | one more property keeps the first-largest leader invariant |
| ReportSummaries.BestBasicLeads | frontend/src/pages/Reports/service/index.tsx:719-733 | the basic scan ends with the first-largest leader |
| ReportSummaries.BestBasicIsFirstLargest | frontend/src/pages/Reports/service/index.tsx:719-733 | "Unknown" iff no property has a numeric peak; else the first property with the largest peak, as a basic method |
| ReportSummaries.GeneticChoice | frontend/src/pages/Reports/service/index.tsx:736-747 | the genetic algorithm wins iff its best value is finite and strictly above every basic peak, and then it carries its name, value and configuration |
| ReportSummaries.ExperimentBestIsSeries | frontend/src/pages/Reports/service/index.tsx:719-733 | the annealing object of an experiment is never chosen, since it is not an array |
| ReportSummaries.FindBestMethod | frontend/src/pages/Reports/service/index.tsx:712-749 | the method's scan yields the specified best method |
| MethodResults.RemoveFirst | frontend/src/pages/Reports/utils/prepareMethodResults.ts:28 | removing a pattern never lengthens the string |
| MethodResults.RemoveFirstAbsent | frontend/src/pages/Reports/utils/prepareMethodResults.ts:28 | a string without the pattern is left unchanged |
| MethodResults.RemoveFirstOccurrence | frontend/src/pages/Reports/utils/prepareMethodResults.ts:28 | only the first occurrence of the pattern is removed |
| MethodResults.AnnealingKeySuffix | frontend/src/pages/Reports/utils/prepareMethodResults.ts:28 | the key 'annealing03' is shown with the suffix '03' |
| MethodResults.AnnealingPrefixName | frontend/src/pages/Reports/utils/prepareMethodResults.ts:28 | a key starting with 'annealing' is shown as 'Tempera Simulada ' plus the rest of the key |
| MethodResults.WithStats | frontend/src/pages/Reports/utils/prepareMethodResults.ts:33-36 | each entry keeps its name and series and carries that series' `calculateStats` |
| MethodResults.BaseResults | frontend/src/pages/Reports/utils/prepareMethodResults.ts:9-24 | the five fixed series in their fixed order with their display names |
| MethodResults.AnnealingResults | frontend/src/pages/Reports/utils/prepareMethodResults.ts:26-31 | one entry per annealing key, in key order |
| MethodResults.PrepareMethodResults | frontend/src/pages/Reports/utils/prepareMethodResults.ts:4-37 | five fixed entries followed by one per annealing key, each with its series and statistics |
| MethodResults.EmptyTemperaStats | frontend/src/pages/Reports/utils/prepareMethodResults.ts:20-35 | an empty tempera series shows all-zero statistics |
| MethodResults.AnnealingConfigNames | frontend/src/pages/Reports/service/index.tsx:50-60 | the nine annealing variants are shown as 'Tempera Simulada 01' … '09' |
| MethodResults.IndividualExperimentNames | frontend/src/pages/Reports/utils/prepareMethodResults.ts:4-37 | an individual experiment shows 14 entries, the annealing ones named 01 … 09 |
| Partition.Breakpoints | frontend/src/utils/randomSplit.ts:4-7 | one breakpoint per draw, each `floor(r·(total−1)) + 1` |
| Partition.BreakpointBounds | frontend/src/utils/randomSplit.ts:6 | a breakpoint lies in 1..total, and in 1..total−1 when total ≥ 2 |
| Partition.InsertIsPermutation | frontend/src/utils/randomSplit.ts:9 | insertion adds exactly the new element |
| Partition.InsertIsSorted | frontend/src/utils/randomSplit.ts:9 | insertion into a sorted list keeps it sorted |
| Partition.SortIsSortedPermutation | frontend/src/utils/randomSplit.ts:9 | the numeric sort yields a sorted permutation of its input |
| Partition.SortExample | frontend/src/utils/randomSplit.ts:9 | [5, 5, 0, 10] sorts to [0, 5, 5, 10] |
| Partition.Differences | frontend/src/utils/randomSplit.ts:11-14 | one fewer entry than the points, each the gap between consecutive points |
| Partition.TotalOfDifferences | frontend/src/utils/randomSplit.ts:11-14 | the gaps add up to last point minus first point |
| Partition.DifferencesExample | frontend/src/utils/randomSplit.ts:11-14 | the points 0, 5, 5, 10 give the parts 5, 0, 5 |
| Partition.SortedPoints | frontend/src/utils/randomSplit.ts:8-9 | the sorted points start at 0 and end at total, with interior ends inside 1..total−1 |
| Partition.SplitLength | frontend/src/utils/randomSplit.ts:1-16 | [total] for at most one part, else exactly `parts` parts |
| Partition.SinglePart | frontend/src/utils/randomSplit.ts:2 | one part is the whole total |
| Partition.SplitNonNegative | frontend/src/utils/randomSplit.ts:8-14 | every part is non-negative |
| Partition.SplitSumAndEnds | frontend/src/utils/randomSplit.ts:1-16 | the parts add up to the total; for total ≥ 2 the first and last parts are at least 1 |
| Partition.InteriorPartCanBeZero | frontend/src/utils/randomSplit.ts:1-16 | splitting 10 into 3 with two equal draws gives [5, 0, 5] |
| Partition.RandomSplitInt | frontend/src/utils/randomSplit.ts:1-16 | the loop computes the split: one part for parts ≤ 1, otherwise `parts` non-negative parts; they sum to the total when total ≥ 1, and both end parts are positive when total ≥ 2 |
| KnapsackService.DotFacts | backend/service.py:118-119 | the weighted sum of an all-zero selection is 0, and of a 0/1 selection over non-negative values is between 0 and the total |
| KnapsackService.DotUpdate | backend/service.py:118-119 | changing one entry changes the weighted sum by the difference times that item's value |
| KnapsackService.EvaluateSolution | backend/service.py:106-120 | an empty selection costs and weighs 0; a 0/1 selection's cost and weight lie between 0 and the totals |
| KnapsackService.EvaluateExample | backend/service.py:118-120 | selecting items 1 and 3 of weights 2,5,8 and costs 10,20,15 gives cost 25 and weight 10 |
| KnapsackService.EvaluateFlip | backend/service.py:118-119 | flipping item p changes cost and weight by ± that item's cost and weight |
| KnapsackService.ClampAllWithinCapacity | backend/service.py:56-72 | the generated weights of a knapsack never exceed its capacity in total |
| KnapsackService.ClampAllBounds | backend/service.py:56-72 | every generated weight is between 0 and the largest draw |
| KnapsackService.ClampAllKeepsFittingDraws | backend/service.py:60-63 | draws that fit the capacity are kept unchanged |
| KnapsackService.GenerateKnapsack | backend/service.py:51-73 | one knapsack's weights are its draws clamped against the running total and the capacity; its costs are its cost draws |
| KnapsackService.GenerateKnapsackProblem | backend/service.py:38-79 | raises exactly when min_weight > max_weight and some knapsack has an item, at the first such knapsack; otherwise, per knapsack, its count of weights and costs, weights clamped to fit the capacity, costs 1..100 as drawn |
| KnapsackService.FillOverCapacity | backend/service.py:96-100 | a fill that ends ends with a 0/1 bag strictly over the capacity |
| KnapsackService.GenerateInitialSolution | backend/service.py:81-104 | solutions iff every bag's fill ends, each a 0/1 bag of its size strictly over capacity; an empty knapsack or exhausted draws are reported at the first knapsack whose fill does not end, every earlier bag being filled |
| KnapsackService.WalkFindsBetter | backend/service.py:144-160 | a walk that stops stops at a solution within the weight limit and strictly better than the current cost, with its true cost and weight |
| KnapsackService.WalkFromCopy | backend/service.py:143-160 | the flipping loop on a copy computes the walk |
| KnapsackService.Successors | backend/service.py:123-162 | when every walk stops, 2·len successors, each the walk's result and each feasible and strictly better |
| KnapsackService.Successor | backend/service.py:275-291 | raises exactly when n = 0; otherwise exactly bit p is flipped and the new cost is the old cost ± item p's cost |

## Left out

- Network calls, `performance.now()`, and the randomness of `Math.random` and `random.randint` are inputs, not effects. Distributions are not modelled.
- The `while` loops over random draws in `generate_initial_solution` and `successors` may run forever in the source. The model reads draws from finite sequences and reports exhausted draws as an outcome (`DrawsExhausted`, or a walk that does not stop), so non-termination is not modelled.
- Floating point is modelled as exact reals. Rounding, `Infinity` from overflow and `-0` are not modelled. NaN is modelled only where the source produces or compares it: an empty bucket mean, a NaN element in `findBestMethod`, and the `!isNaN` filter.
- `Math.sqrt` is a parameter that is only assumed to be a square root.
- JavaScript objects are association lists in insertion order. Integer-like keys, which JavaScript enumerates first, and prototype properties are not modelled.
- `Array.prototype.sort` is modelled as an insertion sort on integers. Only its result, a sorted permutation, matters here.
- The source's `try`/`catch` around a solver call folds a thrown call and a missing reply into the same fallback value. Console logging is left out.
- `exportReport`, `exportReportAsCSV`, `generateGASummary`, `generateRecommendations` and `generateStatisticalAnalysis` are left out. They only format or download reports.
- `useKnapsackSetup` is not part of this model. It is an external collaborator, modelled as the `setup` input.
- The backend's `simplex_method`, `slope_climbing_method`, `slope_climb_try_again_method` and `tempera` are not part of this model. They are solver internals seen only through their replies.
- ReportsService.ValidRecords: states that every kept record has a value and that no more records than results are kept. It does not state which results are kept.
