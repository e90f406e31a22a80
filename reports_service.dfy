/**
 * The experiment runners of `ReportsService`
 * (frontend/src/pages/Reports/service/index.tsx) for the basic methods:
 * twenty repetitions, each on a fresh instance, collecting one value per
 * method and repetition.
 *
 * The awaited calls are inputs indexed by the repetition: `setup(i)` is the
 * instance of repetition `i` (a rejected setup rejects the whole run, since
 * it is awaited outside any `try`), and `solve(i, c, request)` is the
 * backend's reply to `request` at call `c` of that repetition, so two calls
 * with equal requests may get different replies.
 */
module ReportsService {

  import opened Basics
  import opened Stats
  import opened ReportTypes
  import AllMethods

  /** The solver calls of one repetition, in the order they are made; annealing variant `j` is call `AnnealingCall + j`. */
  const HillClimbCall: nat := 0
  const NAttemptsCall: nat := 1
  const TwoNAttemptsCall: nat := 2
  const AnnealingCall: nat := 3

  /** The number of repetitions of every experiment. */
  const Repetitions: nat := 20

  /** The reply of one basic-method request: thrown, without `current_values`, or with them. */
  datatype Reply = Failed | Missing | Values(values: seq<real>)

  /** The three basic-method requests. */
  datatype SolverRequest =
    | HillClimb(base: Payload)
    | HillClimbTry(base: Payload, tmax: int)
    | Annealing(base: Payload, finalTemperature: real, initialTemperature: real, reducerFactor: real)

  /** One simulated-annealing variant of the individual experiment. */
  datatype AnnealingConfig = AnnealingConfig(key: string, finalTemp: real, initialTemp: real, reducer: real)

  const AnnealingConfigs: seq<AnnealingConfig> := [
    AnnealingConfig("annealing01", 0.1, 1000.0, 0.8),
    AnnealingConfig("annealing02", 0.1, 1000.0, 0.9),
    AnnealingConfig("annealing03", 0.01, 1000.0, 0.8),
    AnnealingConfig("annealing04", 0.1, 500.0, 0.8),
    AnnealingConfig("annealing05", 0.1, 500.0, 0.9),
    AnnealingConfig("annealing06", 0.01, 500.0, 0.8),
    AnnealingConfig("annealing07", 0.1, 0.0, 0.8),
    AnnealingConfig("annealing08", 0.1, 0.0, 0.9),
    AnnealingConfig("annealing09", 0.01, 0.0, 0.8)
  ]

  /** The value a basic method contributes: the sum of the returned values, or the repetition's initial value. */
  function TrialValue(reply: Reply, initialValue: real): (v: real)
    ensures reply.Values? ==> v == Sum(reply.values)
    ensures !reply.Values? ==> v == initialValue
  {
    if reply.Values? then Sum(reply.values) else initialValue
  }

  /** processHillClimbing: plain hill climbing on the instance, falling back to the initial value. */
  function ProcessHillClimbing(base: Payload, initialValue: real, solve: SolverRequest -> Reply): (v: real)
    ensures solve(HillClimb(base)).Values? ==> v == Sum(solve(HillClimb(base)).values)
    ensures !solve(HillClimb(base)).Values? ==> v == initialValue
  {
    TrialValue(solve(HillClimb(base)), initialValue)
  }

  /** processHillClimbingTry: hill climbing with up to `tmax` retries, falling back to the initial value. */
  function ProcessHillClimbingTry(base: Payload, tmax: int, initialValue: real, solve: SolverRequest -> Reply): (v: real)
    ensures solve(HillClimbTry(base, tmax)).Values? ==> v == Sum(solve(HillClimbTry(base, tmax)).values)
    ensures !solve(HillClimbTry(base, tmax)).Values? ==> v == initialValue
  {
    TrialValue(solve(HillClimbTry(base, tmax)), initialValue)
  }

  /** The request of one annealing variant: its schedule on the instance. */
  function AnnealingRequest(base: Payload, config: AnnealingConfig): SolverRequest
  {
    Annealing(base, config.finalTemp, config.initialTemp, config.reducer)
  }

  /** processSimulatedAnnealing: one annealing schedule on the instance, falling back to the initial value. */
  function ProcessSimulatedAnnealing(base: Payload, config: AnnealingConfig, initialValue: real,
                                     solve: SolverRequest -> Reply): (v: real)
    ensures solve(AnnealingRequest(base, config)).Values? ==> v == Sum(solve(AnnealingRequest(base, config)).values)
    ensures !solve(AnnealingRequest(base, config)).Values? ==> v == initialValue
  {
    TrialValue(solve(AnnealingRequest(base, config)), initialValue)
  }

  /** The sum of the initial knapsack values of repetition `i`. */
  function InitialValue(setup: nat -> Setup, i: nat): real
    requires setup(i).Ready?
  {
    Sum(setup(i).payload.currentValues)
  }

  /**
   * The annealing loop of one repetition: variant j's value in repetition `i`
   * is appended to the series of its key, in key order, and no key changes.
   */
  method RunAnnealingVariants(i: nat, base: Payload, initialValue: real, solve: (nat, nat, SolverRequest) -> Reply,
                              series: seq<(string, seq<real>)>)
    returns (next: seq<(string, seq<real>)>)
    requires |series| == |AnnealingConfigs|
    ensures |next| == |AnnealingConfigs|
    ensures forall m :: 0 <= m < |AnnealingConfigs| ==> next[m].0 == series[m].0
    ensures forall m :: 0 <= m < |AnnealingConfigs| ==>
      next[m].1 == series[m].1 + [TrialValue(solve(i, AnnealingCall + m, AnnealingRequest(base, AnnealingConfigs[m])), initialValue)]
  {
    next := series;
    for j := 0 to |AnnealingConfigs|
      invariant |next| == |AnnealingConfigs|
      invariant forall m :: 0 <= m < |AnnealingConfigs| ==> next[m].0 == series[m].0
      invariant forall m :: j <= m < |AnnealingConfigs| ==> next[m] == series[m]
      invariant forall m :: 0 <= m < j ==>
        next[m].1 == series[m].1 + [TrialValue(solve(i, AnnealingCall + m, AnnealingRequest(base, AnnealingConfigs[m])), initialValue)]
    {
      var annealingValue := ProcessSimulatedAnnealing(base, AnnealingConfigs[j], initialValue,
        (request: SolverRequest) => solve(i, AnnealingCall + j, request));
      next := next[j := (next[j].0, next[j].1 + [annealingValue])];
    }
  }

  /**
   * runIndividualExperiments: unless a setup fails, every series has exactly
   * 20 entries; entry i of each method series is that method's value in
   * repetition i (N and 2N retries use `Tmax` = problemSize and
   * 2 * problemSize); the annealing series come in key order annealing01 ...
   * annealing09; and temperaResults is empty. A failing setup aborts the run
   * at the first failing repetition.
   */
  method RunIndividualExperiments(problemSize: int, setup: nat -> Setup, solve: (nat, nat, SolverRequest) -> Reply)
    returns (run: RunOutcome<ExperimentResults>)
    ensures run.Completed? <==> forall i :: 0 <= i < Repetitions ==> setup(i).Ready?
    ensures run.Aborted? ==>
      && run.repetition < Repetitions && setup(run.repetition).SetupFailed?
      && forall i :: 0 <= i < run.repetition ==> setup(i).Ready?
    ensures run.Completed? ==>
      var r := run.value;
      && |r.initialSolutions| == Repetitions && |r.hillClimbing| == Repetitions
      && |r.hillClimbingNAttempts| == Repetitions && |r.hillClimbing2NAttempts| == Repetitions
      && r.temperaResults == []
      && |r.simulatedAnnealing| == |AnnealingConfigs|
      && (forall j :: 0 <= j < |AnnealingConfigs| ==>
            r.simulatedAnnealing[j].0 == AnnealingConfigs[j].key && |r.simulatedAnnealing[j].1| == Repetitions)
    ensures run.Completed? ==>
      var r := run.value;
      forall i :: 0 <= i < Repetitions ==>
        var base := setup(i).payload;
        var init := InitialValue(setup, i);
        && r.initialSolutions[i] == init
        && r.hillClimbing[i] == TrialValue(solve(i, HillClimbCall, HillClimb(base)), init)
        && r.hillClimbingNAttempts[i] == TrialValue(solve(i, NAttemptsCall, HillClimbTry(base, problemSize)), init)
        && r.hillClimbing2NAttempts[i] == TrialValue(solve(i, TwoNAttemptsCall, HillClimbTry(base, problemSize * 2)), init)
        && forall j :: 0 <= j < |AnnealingConfigs| ==>
             r.simulatedAnnealing[j].1[i] == TrialValue(solve(i, AnnealingCall + j, AnnealingRequest(base, AnnealingConfigs[j])), init)
  {
    var initialSolutionResults: seq<real> := [];
    var hillClimbingResults: seq<real> := [];
    var hillClimbingNAttemptsResults: seq<real> := [];
    var hillClimbing2NAttemptsResults: seq<real> := [];
    var annealingResults: seq<(string, seq<real>)> :=
      seq(|AnnealingConfigs|, j requires 0 <= j < |AnnealingConfigs| => (AnnealingConfigs[j].key, []));

    for i := 0 to Repetitions
      invariant forall k :: 0 <= k < i ==> setup(k).Ready?
      invariant |initialSolutionResults| == i && |hillClimbingResults| == i
      invariant |hillClimbingNAttemptsResults| == i && |hillClimbing2NAttemptsResults| == i
      invariant |annealingResults| == |AnnealingConfigs|
      invariant forall j :: 0 <= j < |AnnealingConfigs| ==>
        annealingResults[j].0 == AnnealingConfigs[j].key && |annealingResults[j].1| == i
      invariant forall k :: 0 <= k < i ==>
        var base := setup(k).payload;
        var init := InitialValue(setup, k);
        && initialSolutionResults[k] == init
        && hillClimbingResults[k] == TrialValue(solve(k, HillClimbCall, HillClimb(base)), init)
        && hillClimbingNAttemptsResults[k] == TrialValue(solve(k, NAttemptsCall, HillClimbTry(base, problemSize)), init)
        && hillClimbing2NAttemptsResults[k] == TrialValue(solve(k, TwoNAttemptsCall, HillClimbTry(base, problemSize * 2)), init)
        && forall j :: 0 <= j < |AnnealingConfigs| ==>
             annealingResults[j].1[k] == TrialValue(solve(k, AnnealingCall + j, AnnealingRequest(base, AnnealingConfigs[j])), init)
    {
      var ready := setup(i);
      if ready.SetupFailed? {
        return Aborted(i);
      }
      var payloadBase := ready.payload;
      var initialValue := Sum(payloadBase.currentValues);
      initialSolutionResults := initialSolutionResults + [initialValue];

      var hillClimbingValue :=
        ProcessHillClimbing(payloadBase, initialValue, (request: SolverRequest) => solve(i, HillClimbCall, request));
      hillClimbingResults := hillClimbingResults + [hillClimbingValue];
      var hillClimbingTryValue := ProcessHillClimbingTry(payloadBase, problemSize, initialValue,
        (request: SolverRequest) => solve(i, NAttemptsCall, request));
      hillClimbingNAttemptsResults := hillClimbingNAttemptsResults + [hillClimbingTryValue];
      var hillClimbing2NValue := ProcessHillClimbingTry(payloadBase, problemSize * 2, initialValue,
        (request: SolverRequest) => solve(i, TwoNAttemptsCall, request));
      hillClimbing2NAttemptsResults := hillClimbing2NAttemptsResults + [hillClimbing2NValue];

      annealingResults := RunAnnealingVariants(i, payloadBase, initialValue, solve, annealingResults);
    }

    run := Completed(ExperimentResults(
      initialSolutionResults,
      hillClimbingResults,
      hillClimbingNAttemptsResults,
      hillClimbing2NAttemptsResults,
      [],
      annealingResults));
  }

  // ---------------------------------------------------------------------------
  // processAllMethodsResponse and runAllMethodsExperiment

  /** `val || 0`: a missing entry counts as 0. */
  function OrZero(v: Option<real>): real
  {
    if v.Some? then v.value else 0.0
  }

  /** `Σ (val || 0)` over an array of values, folded from the left. */
  function SumOrZero(entries: seq<Option<real>>): real
  {
    if |entries| == 0 then 0.0 else SumOrZero(entries[..|entries| - 1]) + OrZero(entries[|entries| - 1])
  }

  /** The value a method result contributes, if any: an array its sum, a number itself, anything else nothing. */
  function MethodValue(cv: CurrentValues): (v: Option<real>)
    ensures cv.Numbers? ==> v == Some(SumOrZero(cv.entries))
    ensures cv.Scalar? ==> v == Some(cv.x)
    ensures (cv.Absent? || cv.Other?) ==> v == None
  {
    match cv
    case Numbers(entries) => Some(SumOrZero(entries))
    case Scalar(x) => Some(x)
    case _ => None
  }

  /** A method's array entries summed with missing entries as 0 equal the plain sum of the present ones. */
  lemma {:induction false} SumOrZeroOfPresent(values: seq<real>)
    ensures SumOrZero(seq(|values|, k requires 0 <= k < |values| => Some(values[k]))) == Sum(values)
  {
    if |values| > 0 {
      var n := |values| - 1;
      var entries := seq(|values|, k requires 0 <= k < |values| => Some(values[k]));
      assert entries[..n] == seq(n, k requires 0 <= k < n => Some(values[..n][k]));
      SumOrZeroOfPresent(values[..n]);
    }
  }

  /** The method series the all-methods experiment fills, one per known tag. */
  datatype MethodSeries = MethodSeries(
    hillClimbing: seq<real>, nAttempts: seq<real>, twoNAttempts: seq<real>, tempera: seq<real>)

  /** The series a known tag appends to. */
  function SeriesOf(series: MethodSeries, tag: string): seq<real>
  {
    if tag == SlopeClimbingTag then series.hillClimbing
    else if tag == SlopeClimbingTryAgainTag then series.nAttempts
    else if tag == SlopeClimbingTryAgain2NTag then series.twoNAttempts
    else if tag == TemperaTag then series.tempera
    else []
  }

  /** The total number of recorded values. */
  function Recorded(series: MethodSeries): nat
  {
    |series.hillClimbing| + |series.nAttempts| + |series.twoNAttempts| + |series.tempera|
  }

  /**
   * processAllMethodsResponse: when the result has a value and a known tag,
   * exactly that tag's series grows by that value and the others stay as they
   * are; otherwise nothing changes.
   */
  function ProcessAllMethodsResponse(res: MethodItem, series: MethodSeries): (next: MethodSeries)
    ensures MethodValue(res.currentValues).None? || res.tag !in MethodTags ==> next == series
    ensures MethodValue(res.currentValues).Some? && res.tag in MethodTags ==>
      && SeriesOf(next, res.tag) == SeriesOf(series, res.tag) + [MethodValue(res.currentValues).value]
      && forall t :: t in MethodTags && t != res.tag ==> SeriesOf(next, t) == SeriesOf(series, t)
    ensures Recorded(next) == Recorded(series) + (if MethodValue(res.currentValues).Some? && res.tag in MethodTags then 1 else 0)
  {
    var value := MethodValue(res.currentValues);
    if value.None? then series
    else if res.tag == SlopeClimbingTag then series.(hillClimbing := series.hillClimbing + [value.value])
    else if res.tag == SlopeClimbingTryAgainTag then series.(nAttempts := series.nAttempts + [value.value])
    else if res.tag == SlopeClimbingTryAgain2NTag then series.(twoNAttempts := series.twoNAttempts + [value.value])
    else if res.tag == TemperaTag then series.(tempera := series.tempera + [value.value])
    else series
  }

  /** The all-methods request of a repetition: `Tmax` = problemSize and the schedule 0.95 / 0.1 / 10. */
  function AllMethodsRequest(base: Payload, problemSize: int): AllMethodsParams
  {
    AllMethodsParams(base, problemSize, 0.95, 0.1, 10.0)
  }

  /** The record `allResults` keeps of one method result. */
  function RecordOf(res: MethodItem, base: Payload): AllResult
  {
    AllResult(res.tag, res.currentValues, res.solutions, base.currentValues, base.solutions, base.weights, base.costs)
  }

  /** The records kept of one repetition's results: those whose `current_values` is present. */
  function ValidRecords(items: seq<MethodItem>, base: Payload): (records: seq<AllResult>)
    ensures |records| <= |items|
    ensures forall k :: 0 <= k < |records| ==> !records[k].newValue.Absent?
  {
    if |items| == 0 then []
    else
      var rest := ValidRecords(items[..|items| - 1], base);
      if items[|items| - 1].currentValues.Absent? then rest else rest + [RecordOf(items[|items| - 1], base)]
  }

  /** Each tag of the list appears at most once. */
  ghost predicate DistinctTags(items: seq<MethodItem>)
  {
    forall i, j :: 0 <= i < j < |items| ==> items[i].tag != items[j].tag
  }

  /** The values the items carrying `tag` contribute, in list order. */
  function TagValues(items: seq<MethodItem>, tag: string): seq<real>
  {
    if |items| == 0 then []
    else
      var last := items[|items| - 1];
      var value := MethodValue(last.currentValues);
      TagValues(items[..|items| - 1], tag) + (if last.tag == tag && value.Some? then [value.value] else [])
  }

  /** A tag no item carries contributes nothing. */
  lemma {:induction false} TagValuesAbsent(items: seq<MethodItem>, tag: string)
    requires forall k :: 0 <= k < |items| ==> items[k].tag != tag
    ensures TagValues(items, tag) == []
  {
    if |items| > 0 {
      TagValuesAbsent(items[..|items| - 1], tag);
    }
  }

  /** With distinct tags, a tag contributes at most one value. */
  lemma {:induction false} TagValuesAtMostOne(items: seq<MethodItem>, tag: string)
    requires DistinctTags(items)
    ensures |TagValues(items, tag)| <= 1
  {
    if |items| > 0 {
      var init := items[..|items| - 1];
      if items[|items| - 1].tag == tag {
        assert forall k :: 0 <= k < |init| ==> init[k].tag != items[|items| - 1].tag;
        TagValuesAbsent(init, tag);
      } else {
        TagValuesAtMostOne(init, tag);
      }
    }
  }

  /**
   * The `forEach` over one repetition's results: every known series grows by
   * exactly the values of the results carrying its tag, in list order.
   */
  method ProcessAll(items: seq<MethodItem>, start: MethodSeries) returns (series: MethodSeries)
    ensures forall t :: t in MethodTags ==> SeriesOf(series, t) == SeriesOf(start, t) + TagValues(items, t)
  {
    series := start;
    for k := 0 to |items|
      invariant forall t :: t in MethodTags ==> SeriesOf(series, t) == SeriesOf(start, t) + TagValues(items[..k], t)
    {
      assert items[..k + 1][..k] == items[..k];
      series := ProcessAllMethodsResponse(items[k], series);
    }
    assert items[..|items|] == items;
  }

  /** `individualResults` of the all-methods experiment: no annealing variants. */
  datatype AllMethodsExperiment = AllMethodsExperiment(individualResults: ExperimentResults, allResults: seq<AllResult>)

  /** What handleAllMethods returns in repetition `i`. */
  function RepetitionItems(setup: nat -> Setup, sendAll: (nat, AllMethodsParams) -> Call<AllResponse>,
                           sendTry: (nat, SlopeTryParams) -> Call<Option<MethodResponse>>, problemSize: int, i: nat)
    : seq<MethodItem>
    requires setup(i).Ready?
  {
    var p := AllMethodsRequest(setup(i).payload, problemSize);
    if sendAll(i, p).Threw? || sendTry(i, AllMethods.SecondRequest(p)).Threw? then []
    else AllMethods.Items(sendAll(i, p).value, sendTry(i, AllMethods.SecondRequest(p)).value)
  }

  /** One repetition's instance and the items handleAllMethods returned for it. */
  datatype RepetitionReply = RepetitionReply(base: Payload, items: seq<MethodItem>)

  /** The replies of the first `n` repetitions, in order. */
  function Replies(setup: nat -> Setup, sendAll: (nat, AllMethodsParams) -> Call<AllResponse>,
                   sendTry: (nat, SlopeTryParams) -> Call<Option<MethodResponse>>, problemSize: int, n: nat)
    : (r: seq<RepetitionReply>)
    requires forall k :: 0 <= k < n ==> setup(k).Ready?
    ensures |r| == n
  {
    if n == 0 then [] else
      Replies(setup, sendAll, sendTry, problemSize, n - 1)
      + [RepetitionReply(setup(n - 1).payload, RepetitionItems(setup, sendAll, sendTry, problemSize, n - 1))]
  }

  /** The values of `tag` collected over the replies, repetition by repetition. */
  function Collected(replies: seq<RepetitionReply>, tag: string): seq<real>
  {
    if |replies| == 0 then [] else
      Collected(replies[..|replies| - 1], tag) + TagValues(replies[|replies| - 1].items, tag)
  }

  /** The records `allResults` keeps over the replies. */
  function CollectedRecords(replies: seq<RepetitionReply>): seq<AllResult>
  {
    if |replies| == 0 then [] else
      CollectedRecords(replies[..|replies| - 1])
      + ValidRecords(replies[|replies| - 1].items, replies[|replies| - 1].base)
  }

  /** The items of one repetition carry distinct tags, at most four of them. */
  lemma RepetitionItemsDistinct(setup: nat -> Setup, sendAll: (nat, AllMethodsParams) -> Call<AllResponse>,
                                sendTry: (nat, SlopeTryParams) -> Call<Option<MethodResponse>>, problemSize: int, i: nat)
    requires setup(i).Ready?
    ensures var items := RepetitionItems(setup, sendAll, sendTry, problemSize, i);
      |items| <= 4 && DistinctTags(items)
  {
    var p := AllMethodsRequest(setup(i).payload, problemSize);
    if !(sendAll(i, p).Threw? || sendTry(i, AllMethods.SecondRequest(p)).Threw?) {
      AllMethods.ItemsOrderedDistinct(sendAll(i, p).value, sendTry(i, AllMethods.SecondRequest(p)).value);
    }
  }

  /** When every repetition's tags are distinct, each repetition adds at most one value per tag. */
  lemma {:induction false} CollectedBound(replies: seq<RepetitionReply>, tag: string)
    requires forall k :: 0 <= k < |replies| ==> DistinctTags(replies[k].items)
    ensures |Collected(replies, tag)| <= |replies|
  {
    if |replies| > 0 {
      CollectedBound(replies[..|replies| - 1], tag);
      TagValuesAtMostOne(replies[|replies| - 1].items, tag);
    }
  }

  /** When every repetition returns at most four items, at most four records each, none without `current_values`. */
  lemma {:induction false} CollectedRecordsBound(replies: seq<RepetitionReply>)
    requires forall k :: 0 <= k < |replies| ==> |replies[k].items| <= 4
    ensures var records := CollectedRecords(replies);
      |records| <= 4 * |replies| && forall k :: 0 <= k < |records| ==> !records[k].newValue.Absent?
  {
    if |replies| > 0 {
      CollectedRecordsBound(replies[..|replies| - 1]);
    }
  }

  /** What the all-methods loop holds after `i` repetitions. */
  ghost predicate AllMethodsState(setup: nat -> Setup, sendAll: (nat, AllMethodsParams) -> Call<AllResponse>,
                                  sendTry: (nat, SlopeTryParams) -> Call<Option<MethodResponse>>, problemSize: int,
                                  i: nat, initialSolutionResults: seq<real>, series: MethodSeries,
                                  allResults: seq<AllResult>, replies: seq<RepetitionReply>)
  {
    && (forall k :: 0 <= k < i ==> setup(k).Ready?)
    && |initialSolutionResults| == i
    && (forall k :: 0 <= k < i ==> initialSolutionResults[k] == InitialValue(setup, k))
    && replies == Replies(setup, sendAll, sendTry, problemSize, i)
    && (forall k :: 0 <= k < i ==> |replies[k].items| <= 4 && DistinctTags(replies[k].items))
    && (forall t :: t in MethodTags ==> SeriesOf(series, t) == Collected(replies, t))
    && allResults == CollectedRecords(replies)
  }

  /** One more repetition, whose setup succeeded, keeps the loop's state. */
  lemma AllMethodsStep(setup: nat -> Setup, sendAll: (nat, AllMethodsParams) -> Call<AllResponse>,
                       sendTry: (nat, SlopeTryParams) -> Call<Option<MethodResponse>>, problemSize: int,
                       i: nat, initialSolutionResults: seq<real>, series: MethodSeries,
                       allResults: seq<AllResult>, replies: seq<RepetitionReply>,
                       items: seq<MethodItem>, next: MethodSeries)
    requires AllMethodsState(setup, sendAll, sendTry, problemSize, i, initialSolutionResults, series, allResults, replies)
    requires setup(i).Ready? && items == RepetitionItems(setup, sendAll, sendTry, problemSize, i)
    requires forall t :: t in MethodTags ==> SeriesOf(next, t) == SeriesOf(series, t) + TagValues(items, t)
    ensures AllMethodsState(setup, sendAll, sendTry, problemSize, i + 1,
                            initialSolutionResults + [Sum(setup(i).payload.currentValues)], next,
                            allResults + ValidRecords(items, setup(i).payload),
                            replies + [RepetitionReply(setup(i).payload, items)])
  {
    RepetitionItemsDistinct(setup, sendAll, sendTry, problemSize, i);
    var reply := RepetitionReply(setup(i).payload, items);
    assert (replies + [reply])[..i] == replies;
  }

  /**
   * runAllMethodsExperiment: unless a setup fails, 20 initial values (one per
   * repetition, with no fallback substitution), each method series holding the
   * values its tag received, repetition by repetition, no annealing series, and
   * `allResults` the records whose `current_values` is present; so each series
   * has at most 20 entries and `allResults` at most four per repetition.
   */
  method RunAllMethodsExperiment(problemSize: int, setup: nat -> Setup,
                                 sendAll: (nat, AllMethodsParams) -> Call<AllResponse>,
                                 sendTry: (nat, SlopeTryParams) -> Call<Option<MethodResponse>>)
    returns (run: RunOutcome<AllMethodsExperiment>)
    ensures run.Completed? <==> forall i :: 0 <= i < Repetitions ==> setup(i).Ready?
    ensures run.Aborted? ==>
      && run.repetition < Repetitions && setup(run.repetition).SetupFailed?
      && forall i :: 0 <= i < run.repetition ==> setup(i).Ready?
    ensures run.Completed? ==>
      var r := run.value.individualResults;
      && |r.initialSolutions| == Repetitions
      && (forall i :: 0 <= i < Repetitions ==> r.initialSolutions[i] == InitialValue(setup, i))
      && r.hillClimbing == Collected(Replies(setup, sendAll, sendTry, problemSize, Repetitions), SlopeClimbingTag)
      && r.hillClimbingNAttempts
        == Collected(Replies(setup, sendAll, sendTry, problemSize, Repetitions), SlopeClimbingTryAgainTag)
      && r.hillClimbing2NAttempts
        == Collected(Replies(setup, sendAll, sendTry, problemSize, Repetitions), SlopeClimbingTryAgain2NTag)
      && r.temperaResults == Collected(Replies(setup, sendAll, sendTry, problemSize, Repetitions), TemperaTag)
      && r.simulatedAnnealing == []
    ensures run.Completed? ==>
      run.value.allResults == CollectedRecords(Replies(setup, sendAll, sendTry, problemSize, Repetitions))
    ensures run.Completed? ==>
      var r := run.value.individualResults;
      && |r.hillClimbing| <= Repetitions && |r.hillClimbingNAttempts| <= Repetitions
      && |r.hillClimbing2NAttempts| <= Repetitions && |r.temperaResults| <= Repetitions
      && |run.value.allResults| <= 4 * Repetitions
      && forall k :: 0 <= k < |run.value.allResults| ==> !run.value.allResults[k].newValue.Absent?
  {
    var allResults: seq<AllResult> := [];
    var initialSolutionResults: seq<real> := [];
    var series := MethodSeries([], [], [], []);
    ghost var replies: seq<RepetitionReply> := [];

    for i := 0 to Repetitions
      invariant AllMethodsState(setup, sendAll, sendTry, problemSize, i, initialSolutionResults, series,
                                allResults, replies)
    {
      var ready := setup(i);
      if ready.SetupFailed? {
        return Aborted(i);
      }
      var payloadBase := ready.payload;
      var fallbackValue := Sum(payloadBase.currentValues);

      var allMethodsResponse := AllMethods.HandleAllMethods(
        AllMethodsParams(payloadBase, problemSize, 0.95, 0.1, 10.0),
        (p: AllMethodsParams) => sendAll(i, p),
        (p: SlopeTryParams) => sendTry(i, p));
      assert allMethodsResponse == RepetitionItems(setup, sendAll, sendTry, problemSize, i);

      var next := ProcessAll(allMethodsResponse, series);
      AllMethodsStep(setup, sendAll, sendTry, problemSize, i, initialSolutionResults, series, allResults, replies,
                     allMethodsResponse, next);
      series := next;
      initialSolutionResults := initialSolutionResults + [fallbackValue];

      var validResults := ValidRecords(allMethodsResponse, payloadBase);
      allResults := allResults + validResults;
      replies := replies + [RepetitionReply(payloadBase, allMethodsResponse)];
    }

    assert SeriesOf(series, SlopeClimbingTag) == series.hillClimbing;
    assert SeriesOf(series, SlopeClimbingTryAgainTag) == series.nAttempts;
    assert SeriesOf(series, SlopeClimbingTryAgain2NTag) == series.twoNAttempts;
    assert SeriesOf(series, TemperaTag) == series.tempera;
    CollectedBound(replies, SlopeClimbingTag);
    CollectedBound(replies, SlopeClimbingTryAgainTag);
    CollectedBound(replies, SlopeClimbingTryAgain2NTag);
    CollectedBound(replies, TemperaTag);
    CollectedRecordsBound(replies);
    run := Completed(AllMethodsExperiment(
      ExperimentResults(initialSolutionResults, series.hillClimbing, series.nAttempts, series.twoNAttempts,
                        series.tempera, []),
      allResults));
  }
}
