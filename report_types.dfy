/**
 * The data the reports page exchanges with the optimisation backend
 * (frontend/src/pages/Reports/types.ts and frontend/src/service/types.ts),
 * reduced to the fields the report logic reads.
 */
module ReportTypes {

  import opened Basics

  /** `PayloadBase`: one generated instance, its initial packing and the value of each knapsack. */
  datatype Payload = Payload(
    costs: seq<seq<int>>,
    weights: seq<seq<int>>,
    solutions: seq<seq<int>>,
    currentValues: seq<real>,
    maximumWeights: seq<int>)

  /** What one awaited `setupKnapsacks` call gives: a rejected promise, or an instance. */
  datatype Setup = SetupFailed | Ready(payload: Payload)

  /** An awaited request: it throws, or it returns a value. */
  datatype Call<T> = Threw | Returned(value: T)

  /**
   * The `current_values` field of a method response as seen at run time:
   * missing (`undefined` or `null`), an array whose entries may be missing
   * (`None`), a number, or anything else.
   */
  datatype CurrentValues = Absent | Numbers(entries: seq<Option<real>>) | Scalar(x: real) | Other

  /** One method's part of a backend response: `{ solutions, current_values }`. */
  datatype MethodResponse = MethodResponse(solutions: seq<seq<int>>, currentValues: CurrentValues)

  /** `AllResponseData`: the combined endpoint's answer; a field may be missing. */
  datatype AllResponse = AllResponse(
    slopeClimbing: Option<MethodResponse>,
    slopeClimbingTry: Option<MethodResponse>,
    temperature: Option<MethodResponse>)

  /** `AllMethodsParams`: the instance plus the iteration bound and the annealing schedule. */
  datatype AllMethodsParams = AllMethodsParams(
    base: Payload, tmax: int, reducerFactor: real, finalTemperature: real, initialTemperature: real)

  /** `SlopeClimbingTryParams`: the instance plus the retry bound `Tmax`. */
  datatype SlopeTryParams = SlopeTryParams(base: Payload, tmax: int)

  /** `ResultAllMethodsItem`: one tagged method result. */
  datatype MethodItem = MethodItem(tag: string, solutions: seq<seq<int>>, currentValues: CurrentValues)

  const SlopeClimbingTag := "slope_climbing"
  const SlopeClimbingTryAgainTag := "slope_climbing_try_again"
  const TemperaTag := "tempera"
  const SlopeClimbingTryAgain2NTag := "slope_climbing_try_again_2n"

  /** The four method tags, in the order the combined adapter lists them. */
  const MethodTags: seq<string> := [SlopeClimbingTag, SlopeClimbingTryAgainTag, TemperaTag, SlopeClimbingTryAgain2NTag]

  /** `ExperimentResults`: one series per method; the annealing series as `(key, series)` pairs in key order. */
  datatype ExperimentResults = ExperimentResults(
    initialSolutions: seq<real>,
    hillClimbing: seq<real>,
    hillClimbingNAttempts: seq<real>,
    hillClimbing2NAttempts: seq<real>,
    temperaResults: seq<real>,
    simulatedAnnealing: seq<(string, seq<real>)>)

  /** `AllResults`: one method result of the all-methods experiment with the instance it came from. */
  datatype AllResult = AllResult(
    tag: string,
    newValue: CurrentValues,
    newSolution: seq<seq<int>>,
    currentValues: seq<real>,
    initialSolution: seq<seq<int>>,
    weights: seq<seq<int>>,
    costs: seq<seq<int>>)

  /** An experiment run: every setup succeeded, or the first failing setup rejected the whole run. */
  datatype RunOutcome<T> = Completed(value: T) | Aborted(repetition: nat)
}
