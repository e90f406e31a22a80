/**
 * `runGeneticAlgorithmExperiments` and the `analyze*Impact` verdicts of
 * `ReportsService` (frontend/src/pages/Reports/service/index.tsx): fifteen
 * fixed genetic-algorithm configurations, twenty trials each, per-configuration
 * statistics, the best configuration and five threshold verdicts.
 *
 * The awaited calls are inputs indexed by the trial number `t` = 20 * c + i
 * (configuration c, trial i): `setup(t)` is its instance and `ga(t, request)`
 * the reply of the genetic-algorithm endpoint. `executionTime` is the elapsed
 * time the reply carries (a `performance.now` difference in the source).
 */
module GeneticSweep {

  import opened Basics
  import opened Stats
  import opened ReportTypes
  import ReportsService

  /** `GeneticAlgorithmConfig`. */
  datatype GAConfig = GAConfig(
    populationSize: int, generations: int, crossOverRate: real, mutationRate: real, keepIndividuals: real)

  /** The fifteen configurations: populations 50, 100 and 200, each with five parameter variants. */
  const GAConfigurations: seq<GAConfig> := [
    GAConfig(50, 100, 0.7, 0.01, 0.1),
    GAConfig(50, 200, 0.7, 0.01, 0.1),
    GAConfig(50, 100, 0.8, 0.01, 0.1),
    GAConfig(50, 100, 0.7, 0.02, 0.1),
    GAConfig(50, 100, 0.7, 0.01, 0.2),
    GAConfig(100, 100, 0.7, 0.01, 0.1),
    GAConfig(100, 200, 0.7, 0.01, 0.1),
    GAConfig(100, 100, 0.8, 0.01, 0.1),
    GAConfig(100, 100, 0.7, 0.02, 0.1),
    GAConfig(100, 100, 0.7, 0.01, 0.2),
    GAConfig(200, 100, 0.7, 0.01, 0.1),
    GAConfig(200, 200, 0.7, 0.01, 0.1),
    GAConfig(200, 100, 0.8, 0.01, 0.1),
    GAConfig(200, 100, 0.7, 0.02, 0.1),
    GAConfig(200, 100, 0.7, 0.01, 0.2)
  ]

  const TrialsPerConfig: nat := 20

  /** The genetic-algorithm request: the instance, its knapsack lengths and the configuration. */
  datatype GARequest = GARequest(
    costs: seq<seq<int>>, weights: seq<seq<int>>, lengths: seq<int>, maximumWeights: seq<int>, config: GAConfig)

  function RequestOf(base: Payload, config: GAConfig): (r: GARequest)
    ensures |r.lengths| == |base.costs| && forall k :: 0 <= k < |base.costs| ==> r.lengths[k] == |base.costs[k]|
    ensures r.costs == base.costs && r.weights == base.weights && r.maximumWeights == base.maximumWeights
    ensures r.config == config
  {
    GARequest(base.costs, base.weights, seq(|base.costs|, k requires 0 <= k < |base.costs| => |base.costs[k]|),
              base.maximumWeights, config)
  }

  /**
   * The reply of the genetic-algorithm endpoint: thrown, or returned after
   * `elapsed` time with a `solutions` list (missing when the response or its
   * field is missing) whose entries carry a possibly missing `final_value`.
   */
  datatype GAReply = GAThrew | GAReturned(elapsed: real, solutions: Option<seq<Option<real>>>)

  predicate HasSolutions(reply: GAReply)
  {
    reply.GAReturned? && reply.solutions.Some? && |reply.solutions.value| > 0
  }

  /**
   * One trial: with a non-empty solution list, the sum of the final values
   * (a missing one counts as 0) and its improvement over the initial value;
   * otherwise the initial value and improvement 0.
   */
  function GATrial(reply: GAReply, initialValue: real): (r: (real, real))
    ensures HasSolutions(reply) ==>
      r.0 == ReportsService.SumOrZero(reply.solutions.value) && r.1 == r.0 - initialValue
    ensures !HasSolutions(reply) ==> r == (initialValue, 0.0)
    ensures r.1 == r.0 - initialValue
  {
    if HasSolutions(reply) then
      var finalValue := ReportsService.SumOrZero(reply.solutions.value);
      (finalValue, finalValue - initialValue)
    else (initialValue, 0.0)
  }

  /** The time a trial adds: its elapsed time if the call returned, nothing if it threw. */
  function TrialTime(reply: GAReply): real
  {
    if reply.GAReturned? then reply.elapsed else 0.0
  }

  /** `GAExperimentResult`. */
  datatype GAExperiment = GAExperiment(
    config: GAConfig,
    results: seq<real>,
    averageValue: real,
    bestValue: real,
    worstValue: real,
    standardDeviation: real,
    improvements: seq<real>,
    executionTime: real,
    convergenceGeneration: int)

  /** The record of one configuration's trials; `SummaryStatistics` states what its figures are. */
  function Summarise(config: GAConfig, results: seq<real>, improvements: seq<real>, executionTime: real,
                     sqrt: real -> real): (e: GAExperiment)
    requires |results| > 0
  {
    GAExperiment(config, results, Mean(results), MaxOf(results), MinOf(results), sqrt(Variance(results)),
                 improvements, executionTime, config.generations * 4 / 5)
  }

  /**
   * The statistics of one configuration's trials: its own results, the mean,
   * and the largest and smallest result, with worst <= average <= best.
   */
  lemma SummaryStatistics(config: GAConfig, results: seq<real>, improvements: seq<real>, executionTime: real,
                          sqrt: real -> real)
    requires |results| > 0
    ensures var e := Summarise(config, results, improvements, executionTime, sqrt);
      && e.config == config && e.results == results && e.improvements == improvements
      && e.executionTime == executionTime
      && e.averageValue == Sum(results) / |results| as real
      && e.bestValue in results && (forall k :: 0 <= k < |results| ==> results[k] <= e.bestValue)
      && e.worstValue in results && (forall k :: 0 <= k < |results| ==> e.worstValue <= results[k])
      && e.worstValue <= e.averageValue <= e.bestValue
  {
    MeanBetween(results);
  }

  /** The standard deviation is the non-negative square root of the population variance. */
  lemma SummaryDeviation(config: GAConfig, results: seq<real>, improvements: seq<real>, executionTime: real,
                         sqrt: real -> real)
    requires IsSqrt(sqrt) && |results| > 0
    ensures var e := Summarise(config, results, improvements, executionTime, sqrt);
      e.standardDeviation >= 0.0 && e.standardDeviation * e.standardDeviation == Variance(results)
  {
    VarianceNonNegative(results);
    SqrtOf(sqrt, Variance(results));
  }

  /** The convergence generation is `Math.floor(generations * 0.8)`. */
  lemma ConvergenceGeneration(config: GAConfig, results: seq<real>, improvements: seq<real>, executionTime: real,
                              sqrt: real -> real)
    requires |results| > 0
    ensures var g := Summarise(config, results, improvements, executionTime, sqrt).convergenceGeneration;
      g as real <= config.generations as real * 0.8 < g as real + 1.0
  {
  }

  /** The summary figures of the sweep. */
  datatype GASummary = GASummary(
    totalExperiments: nat,
    bestOverallValue: ExtReal,
    averageImprovement: real,
    totalExecutionTime: real,
    averageExecutionTime: real)

  /** The five verdicts. */
  datatype ComparisonAnalysis = ComparisonAnalysis(
    populationImpact: string, generationImpact: string, crossoverImpact: string,
    mutationImpact: string, eliteImpact: string)

  /** `GAReportData`. */
  datatype GAReport = GAReport(
    experiments: seq<GAExperiment>, bestConfiguration: GAConfig, summary: GASummary, comparisonAnalysis: ComparisonAnalysis)

  // ---------------------------------------------------------------------------
  // The verdicts

  const PopulationLarger := "Populações maiores tendem a produzir melhores resultados"
  const PopulationSmaller := "Populações menores são mais eficientes para este problema"
  const GenerationsInsufficient := "Dados insuficientes para análise de gerações"
  const GenerationsMore := "Mais gerações levam a melhores soluções"
  const GenerationsFew := "Poucas gerações são suficientes para este problema"
  const CrossoverDefault := "Taxa de cruzamento padrão (0.7) é adequada"
  const CrossoverHigh := "Taxa de cruzamento alta melhora os resultados"
  const CrossoverLow := "Taxa de cruzamento baixa é mais eficaz"
  const MutationDefault := "Taxa de mutação padrão (0.01) é adequada"
  const MutationHigh := "Taxa de mutação alta previne convergência prematura"
  const MutationLow := "Taxa de mutação baixa é mais estável"
  const EliteDefault := "Elitismo padrão (10%) é adequado"
  const EliteHigh := "Maior elitismo acelera convergência"
  const EliteLow := "Menor elitismo mantém diversidade"

  /** `experiments.filter(p)`. */
  function Select(exps: seq<GAExperiment>, p: GAExperiment -> bool): (r: seq<GAExperiment>)
    ensures |r| <= |exps|
    ensures forall k :: 0 <= k < |r| ==> p(r[k]) && r[k] in exps
    ensures (exists k :: 0 <= k < |exps| && p(exps[k])) <==> |r| > 0
  {
    if |exps| == 0 then []
    else
      var rest := Select(exps[..|exps| - 1], p);
      assert forall k :: 0 <= k < |rest| ==> rest[k] in exps by {
        forall k | 0 <= k < |rest| ensures rest[k] in exps {
          assert rest[k] in exps[..|exps| - 1];
        }
      }
      if p(exps[|exps| - 1]) then rest + [exps[|exps| - 1]]
      else
        assert forall k :: 0 <= k < |exps| - 1 ==> exps[k] == exps[..|exps| - 1][k];
        rest
  }

  /**
   * The filter keeps every experiment meeting `p`, each exactly as often as it
   * occurs in `exps`, and nothing else.
   */
  lemma {:induction false} SelectCounts(exps: seq<GAExperiment>, p: GAExperiment -> bool)
    ensures forall e :: multiset(Select(exps, p))[e] == if p(e) then multiset(exps)[e] else 0
    ensures forall k :: 0 <= k < |exps| && p(exps[k]) ==> exps[k] in Select(exps, p)
    decreases |exps|
  {
    if |exps| > 0 {
      var init := exps[..|exps| - 1];
      var last := exps[|exps| - 1];
      SelectCounts(init, p);
      assert exps == init + [last];
      assert multiset(exps) == multiset(init) + multiset{last};
      var r := Select(exps, p);
      if p(last) {
        assert r == Select(init, p) + [last];
        assert multiset(r) == multiset(Select(init, p)) + multiset{last};
      } else {
        assert r == Select(init, p);
      }
      forall k | 0 <= k < |exps| && p(exps[k])
        ensures exps[k] in r
      {
        assert multiset(r)[exps[k]] == multiset(exps)[exps[k]] > 0;
      }
    }
  }

  /** `Σ averageValue` over a bucket, folded from the left. */
  function SumAverages(bucket: seq<GAExperiment>): real
  {
    if |bucket| == 0 then 0.0 else SumAverages(bucket[..|bucket| - 1]) + bucket[|bucket| - 1].averageValue
  }

  /** The mean average value of a bucket; `None` stands for the `NaN` of an empty bucket. */
  function BucketMean(bucket: seq<GAExperiment>): (m: Option<real>)
    ensures m.Some? <==> |bucket| > 0
  {
    if |bucket| == 0 then None else Some(SumAverages(bucket) / |bucket| as real)
  }

  /** `a > b` where `NaN` compares false. */
  predicate Greater(a: Option<real>, b: Option<real>)
  {
    a.Some? && b.Some? && a.value > b.value
  }

  predicate SmallPopulation(e: GAExperiment) { e.config.populationSize <= 100 }
  predicate LargePopulation(e: GAExperiment) { e.config.populationSize > 100 }
  predicate FewGenerations(e: GAExperiment) { e.config.generations <= 200 }
  predicate ManyGenerations(e: GAExperiment) { e.config.generations > 200 }
  predicate LowCrossover(e: GAExperiment) { e.config.crossOverRate <= 0.7 }
  predicate HighCrossover(e: GAExperiment) { e.config.crossOverRate > 0.7 }
  predicate LowMutation(e: GAExperiment) { e.config.mutationRate <= 0.01 }
  predicate HighMutation(e: GAExperiment) { e.config.mutationRate > 0.01 }
  predicate LowElite(e: GAExperiment) { e.config.keepIndividuals <= 0.1 }
  predicate HighElite(e: GAExperiment) { e.config.keepIndividuals > 0.1 }

  /**
   * A guarded verdict: the neutral message when either bucket is empty; else
   * the high message exactly when the high bucket's mean is strictly greater.
   */
  function GuardedVerdict(low: seq<GAExperiment>, high: seq<GAExperiment>,
                          neutral: string, highMessage: string, lowMessage: string): (v: string)
    ensures (|low| == 0 || |high| == 0) ==> v == neutral
    ensures |low| > 0 && |high| > 0 && Greater(BucketMean(high), BucketMean(low)) ==> v == highMessage
    ensures |low| > 0 && |high| > 0 && !Greater(BucketMean(high), BucketMean(low)) ==> v == lowMessage
  {
    if |low| == 0 || |high| == 0 then neutral
    else if Greater(BucketMean(high), BucketMean(low)) then highMessage
    else lowMessage
  }

  /**
   * analyzePopulationImpact: no empty-bucket guard, so larger populations are
   * credited exactly when both buckets are non-empty and the large bucket's
   * mean is strictly greater.
   */
  function AnalyzePopulationImpact(exps: seq<GAExperiment>): (v: string)
    ensures v == PopulationLarger <==>
      (exists k :: 0 <= k < |exps| && SmallPopulation(exps[k]))
      && (exists k :: 0 <= k < |exps| && LargePopulation(exps[k]))
      && Greater(BucketMean(Select(exps, LargePopulation)), BucketMean(Select(exps, SmallPopulation)))
    ensures v == PopulationLarger || v == PopulationSmaller
  {
    if Greater(BucketMean(Select(exps, LargePopulation)), BucketMean(Select(exps, SmallPopulation)))
    then PopulationLarger
    else PopulationSmaller
  }

  /** analyzeGenerationImpact: threshold 200 generations. */
  function AnalyzeGenerationImpact(exps: seq<GAExperiment>): (v: string)
    ensures v == GenerationsInsufficient <==>
      (forall k :: 0 <= k < |exps| ==> !FewGenerations(exps[k]))
      || (forall k :: 0 <= k < |exps| ==> !ManyGenerations(exps[k]))
    ensures v == GenerationsMore <==>
      |Select(exps, FewGenerations)| > 0 && |Select(exps, ManyGenerations)| > 0
      && Greater(BucketMean(Select(exps, ManyGenerations)), BucketMean(Select(exps, FewGenerations)))
    ensures v == GenerationsInsufficient || v == GenerationsMore || v == GenerationsFew
  {
    GuardedVerdict(Select(exps, FewGenerations), Select(exps, ManyGenerations),
                   GenerationsInsufficient, GenerationsMore, GenerationsFew)
  }

  /** analyzeCrossoverImpact: threshold rate 0.7. */
  function AnalyzeCrossoverImpact(exps: seq<GAExperiment>): (v: string)
    ensures v == CrossoverDefault <==>
      (forall k :: 0 <= k < |exps| ==> !LowCrossover(exps[k]))
      || (forall k :: 0 <= k < |exps| ==> !HighCrossover(exps[k]))
    ensures v == CrossoverHigh <==>
      |Select(exps, LowCrossover)| > 0 && |Select(exps, HighCrossover)| > 0
      && Greater(BucketMean(Select(exps, HighCrossover)), BucketMean(Select(exps, LowCrossover)))
    ensures v == CrossoverDefault || v == CrossoverHigh || v == CrossoverLow
  {
    GuardedVerdict(Select(exps, LowCrossover), Select(exps, HighCrossover),
                   CrossoverDefault, CrossoverHigh, CrossoverLow)
  }

  /** analyzeMutationImpact: threshold rate 0.01. */
  function AnalyzeMutationImpact(exps: seq<GAExperiment>): (v: string)
    ensures v == MutationDefault <==>
      (forall k :: 0 <= k < |exps| ==> !LowMutation(exps[k]))
      || (forall k :: 0 <= k < |exps| ==> !HighMutation(exps[k]))
    ensures v == MutationHigh <==>
      |Select(exps, LowMutation)| > 0 && |Select(exps, HighMutation)| > 0
      && Greater(BucketMean(Select(exps, HighMutation)), BucketMean(Select(exps, LowMutation)))
    ensures v == MutationDefault || v == MutationHigh || v == MutationLow
  {
    GuardedVerdict(Select(exps, LowMutation), Select(exps, HighMutation),
                   MutationDefault, MutationHigh, MutationLow)
  }

  /** analyzeEliteImpact: threshold share 0.1 of individuals kept. */
  function AnalyzeEliteImpact(exps: seq<GAExperiment>): (v: string)
    ensures v == EliteDefault <==>
      (forall k :: 0 <= k < |exps| ==> !LowElite(exps[k]))
      || (forall k :: 0 <= k < |exps| ==> !HighElite(exps[k]))
    ensures v == EliteHigh <==>
      |Select(exps, LowElite)| > 0 && |Select(exps, HighElite)| > 0
      && Greater(BucketMean(Select(exps, HighElite)), BucketMean(Select(exps, LowElite)))
    ensures v == EliteDefault || v == EliteHigh || v == EliteLow
  {
    GuardedVerdict(Select(exps, LowElite), Select(exps, HighElite),
                   EliteDefault, EliteHigh, EliteLow)
  }

  /** The built-in configurations use 100 or 200 generations, never more. */
  lemma BuiltInGenerations()
    ensures |GAConfigurations| == 15
    ensures forall j :: 0 <= j < |GAConfigurations| ==> GAConfigurations[j].generations <= 200
  {
  }

  /** Without an experiment above 200 generations the generation verdict finds no data to compare. */
  lemma GenerationVerdictWithoutMany(exps: seq<GAExperiment>)
    requires forall k :: 0 <= k < |exps| ==> exps[k].config.generations <= 200
    ensures AnalyzeGenerationImpact(exps) == GenerationsInsufficient
  {
    assert forall k :: 0 <= k < |exps| ==> !ManyGenerations(exps[k]);
  }

  /** The experiments of the built-in configurations leave the generation verdict without data. */
  lemma BuiltInGenerationVerdict(exps: seq<GAExperiment>)
    requires |exps| == |GAConfigurations|
    requires forall k :: 0 <= k < |exps| ==> exps[k].config == GAConfigurations[k]
    ensures AnalyzeGenerationImpact(exps) == GenerationsInsufficient
  {
    BuiltInGenerations();
    GenerationVerdictWithoutMany(exps);
  }

  /** With no large population the comparison meets `NaN`, so smaller populations are credited. */
  lemma PopulationWithoutLarge(exps: seq<GAExperiment>)
    requires forall k :: 0 <= k < |exps| ==> exps[k].config.populationSize <= 100
    ensures AnalyzePopulationImpact(exps) == PopulationSmaller
  {
    assert forall k :: 0 <= k < |exps| ==> !LargePopulation(exps[k]);
  }

  /** Each bucket test splits the experiments in two: every experiment lands in exactly one bucket. */
  lemma {:induction false} BucketsPartition(exps: seq<GAExperiment>, low: GAExperiment -> bool, high: GAExperiment -> bool)
    requires forall e :: low(e) <==> !high(e)
    ensures |Select(exps, low)| + |Select(exps, high)| == |exps|
  {
    if |exps| > 0 {
      BucketsPartition(exps[..|exps| - 1], low, high);
    }
  }

  // ---------------------------------------------------------------------------
  // The sweep


  /** Every setup call numbered from `lo` up to `hi` produced an instance. */
  ghost predicate ReadyRange(setup: nat -> Setup, lo: nat, hi: nat)
  {
    forall t :: lo <= t < hi ==> setup(t).Ready?
  }

  /** The number of trial `i` of configuration `c`. */
  function TrialNumber(c: nat, i: nat): nat
  {
    TrialsPerConfig * c + i
  }

  /** The result and improvement of trial `t` with configuration `config`. */
  function Trial(setup: nat -> Setup, ga: (nat, GARequest) -> GAReply, t: nat, config: GAConfig): (real, real)
    requires setup(t).Ready?
  {
    GATrial(ga(t, RequestOf(setup(t).payload, config)), ReportsService.InitialValue(setup, t))
  }

  /** The results of the first `n` trials of configuration `config`, the `c`-th. */
  function TrialResults(setup: nat -> Setup, ga: (nat, GARequest) -> GAReply, config: GAConfig, c: nat, n: nat)
    : (s: seq<real>)
    requires ReadyRange(setup, TrialNumber(c, 0), TrialNumber(c, n))
    ensures |s| == n
  {
    if n == 0 then []
    else TrialResults(setup, ga, config, c, n - 1) + [Trial(setup, ga, TrialNumber(c, n - 1), config).0]
  }

  /** The improvements of the first `n` trials of configuration `config`, the `c`-th. */
  function TrialImprovements(setup: nat -> Setup, ga: (nat, GARequest) -> GAReply, config: GAConfig, c: nat, n: nat)
    : (s: seq<real>)
    requires ReadyRange(setup, TrialNumber(c, 0), TrialNumber(c, n))
    ensures |s| == n
  {
    if n == 0 then []
    else TrialImprovements(setup, ga, config, c, n - 1) + [Trial(setup, ga, TrialNumber(c, n - 1), config).1]
  }

  /** The time each of the first `n` trials of configuration `config`, the `c`-th, adds. */
  function TrialTimes(setup: nat -> Setup, ga: (nat, GARequest) -> GAReply, config: GAConfig, c: nat, n: nat)
    : (s: seq<real>)
    requires ReadyRange(setup, TrialNumber(c, 0), TrialNumber(c, n))
    ensures |s| == n
  {
    if n == 0 then []
    else
      var t := TrialNumber(c, n - 1);
      TrialTimes(setup, ga, config, c, n - 1) + [TrialTime(ga(t, RequestOf(setup(t).payload, config)))]
  }

  /**
   * Entry `i` of each series is trial `i`'s own: its result, its improvement
   * over its initial value, and the time it adds.
   */
  lemma {:induction false} TrialSeriesAt(setup: nat -> Setup, ga: (nat, GARequest) -> GAReply, config: GAConfig,
                                         c: nat, n: nat, i: nat)
    requires ReadyRange(setup, TrialNumber(c, 0), TrialNumber(c, n)) && i < n
    ensures setup(TrialNumber(c, i)).Ready?
    ensures TrialResults(setup, ga, config, c, n)[i] == Trial(setup, ga, TrialNumber(c, i), config).0
    ensures TrialImprovements(setup, ga, config, c, n)[i] == Trial(setup, ga, TrialNumber(c, i), config).1
    ensures TrialImprovements(setup, ga, config, c, n)[i]
      == TrialResults(setup, ga, config, c, n)[i] - ReportsService.InitialValue(setup, TrialNumber(c, i))
    ensures TrialTimes(setup, ga, config, c, n)[i]
      == TrialTime(ga(TrialNumber(c, i), RequestOf(setup(TrialNumber(c, i)).payload, config)))
  {
    if i < n - 1 {
      TrialSeriesAt(setup, ga, config, c, n - 1, i);
    }
  }

  /** The mean improvement of each experiment. */
  function MeanImprovements(exps: seq<GAExperiment>): (s: seq<real>)
    requires forall k :: 0 <= k < |exps| ==> |exps[k].improvements| > 0
    ensures |s| == |exps|
  {
    seq(|exps|, k requires 0 <= k < |exps| => Mean(exps[k].improvements))
  }

  /** The execution time of each experiment. */
  function ExecutionTimes(exps: seq<GAExperiment>): (s: seq<real>)
    ensures |s| == |exps|
  {
    seq(|exps|, k requires 0 <= k < |exps| => exps[k].executionTime)
  }

  /** Appending an experiment appends its mean improvement and its execution time. */
  lemma ExperimentTotalsSnoc(exps: seq<GAExperiment>, e: GAExperiment)
    requires forall k :: 0 <= k < |exps| ==> |exps[k].improvements| > 0
    requires |e.improvements| > 0
    ensures Sum(MeanImprovements(exps + [e])) == Sum(MeanImprovements(exps)) + Mean(e.improvements)
    ensures Sum(ExecutionTimes(exps + [e])) == Sum(ExecutionTimes(exps)) + e.executionTime
  {
    var next := exps + [e];
    assert MeanImprovements(next)[..|exps|] == MeanImprovements(exps);
    assert ExecutionTimes(next)[..|exps|] == ExecutionTimes(exps);
  }

  /** The experiment of configuration `config`, the `c`-th: the summary of its own 20 trials. */
  function RecordOf(setup: nat -> Setup, ga: (nat, GARequest) -> GAReply, sqrt: real -> real,
                    config: GAConfig, c: nat): (e: GAExperiment)
    requires ReadyRange(setup, TrialNumber(c, 0), TrialNumber(c, TrialsPerConfig))
    ensures e.config == config && |e.results| == TrialsPerConfig && |e.improvements| == TrialsPerConfig
  {
    Summarise(config, TrialResults(setup, ga, config, c, TrialsPerConfig),
              TrialImprovements(setup, ga, config, c, TrialsPerConfig),
              Sum(TrialTimes(setup, ga, config, c, TrialsPerConfig)), sqrt)
  }

  /** The first `n` experiments are, entry by entry, the records of the first `n` configurations. */
  ghost predicate Recorded(setup: nat -> Setup, ga: (nat, GARequest) -> GAReply, sqrt: real -> real,
                           configs: seq<GAConfig>, n: nat, exps: seq<GAExperiment>)
  {
    && n <= |configs| && |exps| == n && ReadyRange(setup, 0, TrialNumber(n, 0))
    && forall k {:trigger RecordOf(setup, ga, sqrt, configs[k], k)} :: 0 <= k < n ==>
         ReadyRange(setup, TrialNumber(k, 0), TrialNumber(k, TrialsPerConfig))
         && exps[k] == RecordOf(setup, ga, sqrt, configs[k], k)
  }

  /** Completing configuration `c` with its own record extends the recorded experiments. */
  lemma RecordedStep(setup: nat -> Setup, ga: (nat, GARequest) -> GAReply, sqrt: real -> real,
                     configs: seq<GAConfig>, c: nat, exps: seq<GAExperiment>, e: GAExperiment)
    requires c < |configs| && Recorded(setup, ga, sqrt, configs, c, exps)
    requires ReadyRange(setup, TrialNumber(c, 0), TrialNumber(c, TrialsPerConfig))
    requires e == RecordOf(setup, ga, sqrt, configs[c], c)
    ensures Recorded(setup, ga, sqrt, configs, c + 1, exps + [e])
  {
    var next := exps + [e];
    forall k | 0 <= k < c + 1
      ensures ReadyRange(setup, TrialNumber(k, 0), TrialNumber(k, TrialsPerConfig))
      ensures next[k] == RecordOf(setup, ga, sqrt, configs[k], k)
    {
      if k < c {
        assert next[k] == exps[k];
        assert exps[k] == RecordOf(setup, ga, sqrt, configs[k], k);
      }
    }
  }

  /** Recorded experiments carry their configurations, in order. */
  lemma RecordedConfigs(setup: nat -> Setup, ga: (nat, GARequest) -> GAReply, sqrt: real -> real,
                        configs: seq<GAConfig>, n: nat, exps: seq<GAExperiment>)
    requires Recorded(setup, ga, sqrt, configs, n, exps)
    ensures forall k :: 0 <= k < n ==> exps[k].config == configs[k]
  {
    forall k | 0 <= k < n
      ensures exps[k].config == configs[k]
    {
      assert exps[k] == RecordOf(setup, ga, sqrt, configs[k], k);
    }
  }

  /**
   * The 20 trials of configuration `config`, the `c`-th: the first failing
   * setup aborts the run; otherwise each trial's result and improvement, and
   * the experiment summarising them with the time of the calls that returned.
   */
  method RunConfiguration(setup: nat -> Setup, ga: (nat, GARequest) -> GAReply, sqrt: real -> real,
                          config: GAConfig, c: nat)
    returns (outcome: RunOutcome<GAExperiment>)
    ensures outcome.Completed? <==> ReadyRange(setup, TrialNumber(c, 0), TrialNumber(c, TrialsPerConfig))
    ensures outcome.Aborted? ==>
      && TrialNumber(c, 0) <= outcome.repetition < TrialNumber(c, TrialsPerConfig)
      && setup(outcome.repetition).SetupFailed?
      && ReadyRange(setup, TrialNumber(c, 0), outcome.repetition)
    ensures outcome.Completed? ==> outcome.value == RecordOf(setup, ga, sqrt, config, c)
  {
    var configResults: seq<real> := [];
    var improvements: seq<real> := [];
    var configExecutionTime := 0.0;

    for i := 0 to TrialsPerConfig
      invariant ReadyRange(setup, TrialNumber(c, 0), TrialNumber(c, i))
      invariant configResults == TrialResults(setup, ga, config, c, i)
      invariant improvements == TrialImprovements(setup, ga, config, c, i)
      invariant configExecutionTime == Sum(TrialTimes(setup, ga, config, c, i))
    {
      var t := TrialsPerConfig * c + i;
      var ready := setup(t);
      if ready.SetupFailed? {
        assert t == TrialNumber(c, i);
        assert !ReadyRange(setup, TrialNumber(c, 0), TrialNumber(c, TrialsPerConfig)) by {
          assert TrialNumber(c, 0) <= t < TrialNumber(c, TrialsPerConfig) && !setup(t).Ready?;
        }
        return Aborted(t);
      }
      var initialValue := Sum(ready.payload.currentValues);
      var reply := ga(t, RequestOf(ready.payload, config));
      SumSnoc(TrialTimes(setup, ga, config, c, i), TrialTime(reply));
      if reply.GAReturned? {
        configExecutionTime := configExecutionTime + reply.elapsed;
      }
      var trial := GATrial(reply, initialValue);
      configResults := configResults + [trial.0];
      improvements := improvements + [trial.1];
    }
    outcome := Completed(Summarise(config, configResults, improvements, configExecutionTime, sqrt));
  }

  /** Experiment `b` holds the largest average, no earlier one reaches it, and `best`/`value` are its own. */
  ghost predicate LeadsAt(exps: seq<GAExperiment>, b: nat, best: GAConfig, value: ExtReal)
  {
    && b < |exps| && best == exps[b].config && value == Fin(exps[b].averageValue)
    && (forall k :: 0 <= k < |exps| ==> exps[k].averageValue <= exps[b].averageValue)
    && (forall k :: 0 <= k < b ==> exps[k].averageValue < exps[b].averageValue)
  }

  /** The best configuration is the first one, in input order, with the largest average value. */
  ghost predicate FirstBest(exps: seq<GAExperiment>, best: GAConfig, value: ExtReal)
  {
    exists b: nat :: LeadsAt(exps, b, best, value)
  }

  /** Three configurations averaging 10, 15 and 12: the second one is the best, with value 15. */
  lemma BestOfThreeExample(exps: seq<GAExperiment>, best: GAConfig, value: ExtReal)
    requires |exps| == 3
    requires exps[0].averageValue == 10.0 && exps[1].averageValue == 15.0 && exps[2].averageValue == 12.0
    requires FirstBest(exps, best, value)
    ensures best == exps[1].config && value == Fin(15.0)
  {
    var b: nat :| LeadsAt(exps, b, best, value);
    assert exps[1].averageValue <= exps[b].averageValue;
  }

  /** One step of the running maximum `averageValue > bestOverallValue`, which keeps the earliest leader. */
  lemma BestStep(exps: seq<GAExperiment>, e: GAExperiment, b: nat, best: GAConfig, value: ExtReal)
    requires (|exps| == 0 && value == NegInf) || LeadsAt(exps, b, best, value)
    ensures Above(e.averageValue, value) ==> LeadsAt(exps + [e], |exps|, e.config, Fin(e.averageValue))
    ensures !Above(e.averageValue, value) ==> LeadsAt(exps + [e], b, best, value)
  {
    var next := exps + [e];
    assert forall k :: 0 <= k < |exps| ==> next[k] == exps[k];
  }

  /**
   * The state of the sweep after `c` configurations: their records, their
   * running totals and, once there is one, the first experiment with the
   * largest average as the best so far.
   */
  ghost predicate SweepState(setup: nat -> Setup, ga: (nat, GARequest) -> GAReply, sqrt: real -> real,
                             configs: seq<GAConfig>, c: nat, exps: seq<GAExperiment>,
                             b: nat, best: GAConfig, value: ExtReal, totalImprovement: real, totalTime: real)
  {
    && Recorded(setup, ga, sqrt, configs, c, exps)
    && (forall k :: 0 <= k < c ==> |exps[k].improvements| == TrialsPerConfig)
    && totalImprovement == Sum(MeanImprovements(exps))
    && totalTime == Sum(ExecutionTimes(exps))
    && (c == 0 ==> value == NegInf)
    && (c > 0 ==> LeadsAt(exps, b, best, value))
  }

  /** Configuration `c` completing with its own record advances the sweep state by one. */
  lemma SweepStep(setup: nat -> Setup, ga: (nat, GARequest) -> GAReply, sqrt: real -> real,
                  configs: seq<GAConfig>, c: nat, exps: seq<GAExperiment>,
                  b: nat, best: GAConfig, value: ExtReal, totalImprovement: real, totalTime: real, e: GAExperiment)
    requires c < |configs| && SweepState(setup, ga, sqrt, configs, c, exps, b, best, value, totalImprovement, totalTime)
    requires ReadyRange(setup, TrialNumber(c, 0), TrialNumber(c, TrialsPerConfig))
    requires e == RecordOf(setup, ga, sqrt, configs[c], c)
    ensures |e.improvements| == TrialsPerConfig
    ensures Above(e.averageValue, value) ==>
      SweepState(setup, ga, sqrt, configs, c + 1, exps + [e], c, e.config, Fin(e.averageValue),
                 totalImprovement + Mean(e.improvements), totalTime + e.executionTime)
    ensures !Above(e.averageValue, value) ==>
      SweepState(setup, ga, sqrt, configs, c + 1, exps + [e], b, best, value,
                 totalImprovement + Mean(e.improvements), totalTime + e.executionTime)
  {
    ExperimentTotalsSnoc(exps, e);
    BestStep(exps, e, b, best, value);
    RecordedStep(setup, ga, sqrt, configs, c, exps, e);
    var next := exps + [e];
    assert forall k :: 0 <= k < c ==> next[k] == exps[k];
  }

  /** A finished sweep over `configs`: the records, the best configuration and the summary figures. */
  ghost predicate SweepReport(setup: nat -> Setup, ga: (nat, GARequest) -> GAReply, sqrt: real -> real,
                              configs: seq<GAConfig>, report: GAReport)
  {
    ReportRecords(setup, ga, sqrt, configs, report.experiments) && ReportFigures(|configs|, report)
  }

  /** One record per configuration, in order. */
  ghost predicate ReportRecords(setup: nat -> Setup, ga: (nat, GARequest) -> GAReply, sqrt: real -> real,
                                configs: seq<GAConfig>, exps: seq<GAExperiment>)
  {
    && Recorded(setup, ga, sqrt, configs, |configs|, exps)
    && (forall c :: 0 <= c < |configs| ==> exps[c].config == configs[c])
  }

  /** `count` experiments of 20 trials each, the best configuration, the summary figures and the five verdicts. */
  ghost predicate ReportFigures(count: nat, report: GAReport)
  {
    && count > 0 && |report.experiments| == count
    && (forall c :: 0 <= c < count ==> |report.experiments[c].improvements| == TrialsPerConfig)
    && FirstBest(report.experiments, report.bestConfiguration, report.summary.bestOverallValue)
    && report.summary.totalExperiments == count
    && report.summary.averageImprovement == Sum(MeanImprovements(report.experiments)) / count as real
    && report.summary.totalExecutionTime == Sum(ExecutionTimes(report.experiments))
    && report.summary.averageExecutionTime
       == report.summary.totalExecutionTime / (count * TrialsPerConfig) as real
    && report.comparisonAnalysis == ComparisonAnalysis(
         AnalyzePopulationImpact(report.experiments), AnalyzeGenerationImpact(report.experiments),
         AnalyzeCrossoverImpact(report.experiments), AnalyzeMutationImpact(report.experiments),
         AnalyzeEliteImpact(report.experiments))
  }

  /** The report the sweep builds from its final state. */
  function FinalReport(configs: seq<GAConfig>, exps: seq<GAExperiment>, best: GAConfig, value: ExtReal,
                       totalImprovement: real, totalTime: real): GAReport
    requires |configs| > 0
  {
    GAReport(
      exps, best,
      GASummary(|configs|, value, totalImprovement / |configs| as real,
                totalTime, totalTime / (|configs| * TrialsPerConfig) as real),
      ComparisonAnalysis(
        AnalyzePopulationImpact(exps), AnalyzeGenerationImpact(exps), AnalyzeCrossoverImpact(exps),
        AnalyzeMutationImpact(exps), AnalyzeEliteImpact(exps)))
  }

  /** The state after the last configuration yields the records of the report. */
  lemma SweepFinishedRecords(setup: nat -> Setup, ga: (nat, GARequest) -> GAReply, sqrt: real -> real,
                             configs: seq<GAConfig>, exps: seq<GAExperiment>,
                             b: nat, best: GAConfig, value: ExtReal, totalImprovement: real, totalTime: real)
    requires |configs| > 0
    requires SweepState(setup, ga, sqrt, configs, |configs|, exps, b, best, value, totalImprovement, totalTime)
    ensures ReportRecords(setup, ga, sqrt, configs, exps)
  {
    RecordedConfigs(setup, ga, sqrt, configs, |configs|, exps);
  }

  /** The state after the last configuration yields the figures of the report. */
  lemma SweepFinishedFigures(setup: nat -> Setup, ga: (nat, GARequest) -> GAReply, sqrt: real -> real,
                             configs: seq<GAConfig>, exps: seq<GAExperiment>,
                             b: nat, best: GAConfig, value: ExtReal, totalImprovement: real, totalTime: real)
    requires |configs| > 0
    requires SweepState(setup, ga, sqrt, configs, |configs|, exps, b, best, value, totalImprovement, totalTime)
    ensures ReportFigures(|configs|, FinalReport(configs, exps, best, value, totalImprovement, totalTime))
  {
    assert LeadsAt(exps, b, best, value);
  }

  /**
   * The loop of runGeneticAlgorithmExperiments over a configuration list:
   * configuration `c` uses the setups numbered 20 * c to 20 * c + 19, and
   * the first failing one aborts the run.
   */
  method RunSweep(configs: seq<GAConfig>, setup: nat -> Setup, ga: (nat, GARequest) -> GAReply, sqrt: real -> real)
    returns (run: RunOutcome<GAReport>)
    requires |configs| > 0
    ensures run.Completed? <==> ReadyRange(setup, 0, |configs| * TrialsPerConfig)
    ensures run.Aborted? ==>
      && run.repetition < |configs| * TrialsPerConfig && setup(run.repetition).SetupFailed?
      && ReadyRange(setup, 0, run.repetition)
    ensures run.Completed? ==> SweepReport(setup, ga, sqrt, configs, run.value)
  {
    var experiments: seq<GAExperiment> := [];
    var bestConfiguration := configs[0];
    var bestOverallValue := NegInf;
    ghost var bestIndex := 0;
    var totalImprovement := 0.0;
    var totalExecutionTime := 0.0;

    for c := 0 to |configs|
      invariant SweepState(setup, ga, sqrt, configs, c, experiments,
                           bestIndex, bestConfiguration, bestOverallValue, totalImprovement, totalExecutionTime)
    {
      var outcome := RunConfiguration(setup, ga, sqrt, configs[c], c);
      if outcome.Aborted? {
        var t := outcome.repetition;
        assert t < |configs| * TrialsPerConfig && !setup(t).Ready?;
        assert ReadyRange(setup, 0, t) by {
          assert ReadyRange(setup, 0, TrialNumber(c, 0)) && ReadyRange(setup, TrialNumber(c, 0), t);
        }
        return Aborted(t);
      }
      var experiment := outcome.value;
      SweepStep(setup, ga, sqrt, configs, c, experiments,
                bestIndex, bestConfiguration, bestOverallValue, totalImprovement, totalExecutionTime, experiment);
      var averageImprovement := Mean(experiment.improvements);
      totalImprovement := totalImprovement + averageImprovement;
      totalExecutionTime := totalExecutionTime + experiment.executionTime;
      if Above(experiment.averageValue, bestOverallValue) {
        bestOverallValue := Fin(experiment.averageValue);
        bestConfiguration := experiment.config;
        bestIndex := c;
      }
      experiments := experiments + [experiment];
    }
    SweepFinishedRecords(setup, ga, sqrt, configs, experiments,
                         bestIndex, bestConfiguration, bestOverallValue, totalImprovement, totalExecutionTime);
    SweepFinishedFigures(setup, ga, sqrt, configs, experiments,
                         bestIndex, bestConfiguration, bestOverallValue, totalImprovement, totalExecutionTime);
    var analysis := ComparisonAnalysis(
      AnalyzePopulationImpact(experiments), AnalyzeGenerationImpact(experiments),
      AnalyzeCrossoverImpact(experiments), AnalyzeMutationImpact(experiments),
      AnalyzeEliteImpact(experiments));
    var summary := GASummary(
      |configs|, bestOverallValue, totalImprovement / |configs| as real,
      totalExecutionTime, totalExecutionTime / (|configs| * TrialsPerConfig) as real);
    run := Completed(GAReport(experiments, bestConfiguration, summary, analysis));
  }

  /**
   * runGeneticAlgorithmExperiments: the sweep over the fifteen built-in
   * configurations, 300 trials in all; unless a setup fails, the report of
   * `SweepReport`, whose generation verdict is always
   * 'Dados insuficientes para análise de gerações'.
   */
  method RunGeneticAlgorithmExperiments(setup: nat -> Setup, ga: (nat, GARequest) -> GAReply, sqrt: real -> real)
    returns (run: RunOutcome<GAReport>)
    ensures run.Completed? <==> forall t :: 0 <= t < 300 ==> setup(t).Ready?
    ensures run.Aborted? ==>
      && run.repetition < 300 && setup(run.repetition).SetupFailed?
      && forall t :: 0 <= t < run.repetition ==> setup(t).Ready?
    ensures run.Completed? ==>
      && SweepReport(setup, ga, sqrt, GAConfigurations, run.value)
      && run.value.summary.totalExperiments == 15
      && run.value.comparisonAnalysis.generationImpact == GenerationsInsufficient
  {
    run := RunSweep(GAConfigurations, setup, ga, sqrt);
    if run.Completed? {
      BuiltInGenerationVerdict(run.value.experiments);
    }
  }
}
