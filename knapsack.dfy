/**
 * The instance helpers of the knapsack backend (backend/service.py): building a
 * random multiple-knapsack instance, a random initial packing, the cost and
 * weight of a packing, and the bit-flip neighbourhoods used by hill climbing
 * and simulated annealing.
 *
 * Every `random.randint` draw is an input. A loop that keeps drawing until a
 * condition holds consumes a finite list of draws; when the list runs out
 * first, the model reports that the call did not return.
 */
module KnapsackService {

  import opened Basics

  /** `sum(s[i] * v[i] for i in range(len(s)))`. */
  function Dot(s: seq<int>, v: seq<int>): int
    requires |s| <= |v|
  {
    if |s| == 0 then 0 else Dot(s[..|s| - 1], v) + s[|s| - 1] * v[|s| - 1]
  }

  /** A packing: every entry is 0 (left out) or 1 (taken). */
  ghost predicate Binary(s: seq<int>)
  {
    forall i :: 0 <= i < |s| ==> s[i] == 0 || s[i] == 1
  }

  ghost predicate NonNegative(v: seq<int>)
  {
    forall i :: 0 <= i < |v| ==> v[i] >= 0
  }

  /** `[0] * n`. */
  function Zeros(n: nat): (z: seq<int>)
    ensures |z| == n && Binary(z)
  {
    seq(n, _ => 0)
  }

  /** Changing entry `p` to `x` changes the sum by `(x - s[p]) * v[p]` and nothing else. */
  lemma {:induction false} DotUpdate(s: seq<int>, v: seq<int>, p: int, x: int)
    requires |s| <= |v| && 0 <= p < |s|
    ensures Dot(s[p := x], v) == Dot(s, v) + (x - s[p]) * v[p]
  {
    var t := s[p := x];
    if p == |s| - 1 {
      assert t[..|t| - 1] == s[..|s| - 1];
      assert (x - s[p]) * v[p] == x * v[p] - s[p] * v[p];
    } else {
      assert t[..|t| - 1] == s[..|s| - 1][p := x];
      DotUpdate(s[..|s| - 1], v, p, x);
    }
  }

  lemma {:induction false} DotOfZeros(s: seq<int>, v: seq<int>)
    requires |s| <= |v| && forall i :: 0 <= i < |s| ==> s[i] == 0
    ensures Dot(s, v) == 0
  {
    if |s| > 0 {
      DotOfZeros(s[..|s| - 1], v);
    }
  }

  /** A packing of non-negative values weighs between 0 and the sum of all values. */
  lemma {:induction false} DotBounds(s: seq<int>, v: seq<int>)
    requires |s| <= |v| && Binary(s) && NonNegative(v[..|s|])
    ensures 0 <= Dot(s, v) <= Total(v[..|s|])
  {
    if |s| > 0 {
      var k := |s| - 1;
      assert v[..|s|][..k] == v[..k];
      DotBounds(s[..k], v);
      assert v[..|s|][k] == v[k];
    }
  }

  lemma DotFacts(s: seq<int>, v: seq<int>)
    requires |s| <= |v|
    ensures (forall i :: 0 <= i < |s| ==> s[i] == 0) ==> Dot(s, v) == 0
    ensures Binary(s) && NonNegative(v[..|s|]) ==> 0 <= Dot(s, v) <= Total(v[..|s|])
  {
    if forall i :: 0 <= i < |s| ==> s[i] == 0 {
      DotOfZeros(s, v);
    }
    if Binary(s) && NonNegative(v[..|s|]) {
      DotBounds(s, v);
    }
  }

  /**
   * evaluate_solution: the total cost and the total weight of the taken items.
   * With a 0/1 packing and non-negative values both lie between 0 and the sum
   * over all items.
   */
  function EvaluateSolution(solution: seq<int>, weights: seq<int>, costs: seq<int>): (r: (int, int))
    requires |solution| <= |weights| && |solution| <= |costs|
    ensures (forall i :: 0 <= i < |solution| ==> solution[i] == 0) ==> r == (0, 0)
    ensures Binary(solution) && NonNegative(costs[..|solution|]) ==> 0 <= r.0 <= Total(costs[..|solution|])
    ensures Binary(solution) && NonNegative(weights[..|solution|]) ==> 0 <= r.1 <= Total(weights[..|solution|])
  {
    DotFacts(solution, costs);
    DotFacts(solution, weights);
    (Dot(solution, costs), Dot(solution, weights))
  }

  /** The instance of the backend's own test: taking items 0 and 2 costs 25 and weighs 10. */
  lemma EvaluateExample()
    ensures EvaluateSolution([1, 0, 1], [2, 5, 8], [10, 20, 15]) == (25, 10)
  {
    var s := [1, 0, 1];
    var costs := [10, 20, 15];
    var weights := [2, 5, 8];
    assert s[..2] == [1, 0] && s[..2][..1] == [1] && s[..2][..1][..0] == [];
    assert Dot([1], costs) == 10 && Dot([1], weights) == 2;
    assert Dot([1, 0], costs) == 10 && Dot([1, 0], weights) == 2;
    assert Dot(s, costs) == 25 && Dot(s, weights) == 10;
  }

  /** Flipping item `p` moves cost and weight by exactly that item's cost and weight. */
  lemma EvaluateFlip(solution: seq<int>, weights: seq<int>, costs: seq<int>, p: int)
    requires |solution| <= |weights| && |solution| <= |costs| && 0 <= p < |solution|
    ensures var before := EvaluateSolution(solution, weights, costs);
      var after := EvaluateSolution(solution[p := 1 - solution[p]], weights, costs);
      after == (before.0 + (1 - 2 * solution[p]) * costs[p], before.1 + (1 - 2 * solution[p]) * weights[p])
  {
    DotUpdate(solution, costs, p, 1 - solution[p]);
    DotUpdate(solution, weights, p, 1 - solution[p]);
  }

  // ---------------------------------------------------------------------------
  // generate_knapsack_problem

  /** The weight stored for a drawn item `w` when `total` is already packed into capacity `cap`. */
  function Clamp(total: int, w: int, cap: int): int
  {
    if total + w <= cap then w
    else if cap - total > 0 then cap - total
    else 0
  }

  /** The weights one knapsack receives from its draws, each clamped against the running total. */
  function ClampAll(draws: seq<int>, cap: int): (ws: seq<int>)
    ensures |ws| == |draws|
  {
    if |draws| == 0 then []
    else
      var prev := ClampAll(draws[..|draws| - 1], cap);
      prev + [Clamp(Total(prev), draws[|draws| - 1], cap)]
  }

  /** The running total never passes a non-negative capacity. */
  lemma {:induction false} ClampAllWithinCapacity(draws: seq<int>, cap: int)
    requires cap >= 0
    ensures Total(ClampAll(draws, cap)) <= cap
  {
    if |draws| > 0 {
      var init := draws[..|draws| - 1];
      var prev := ClampAll(init, cap);
      var total := Total(prev);
      ClampAllWithinCapacity(init, cap);
      var stored := Clamp(total, draws[|draws| - 1], cap);
      assert stored <= cap - total;
      assert ClampAll(draws, cap) == prev + [stored];
      TotalSnoc(prev, stored);
    }
  }

  /** With draws in [lo, hi] and lo >= 0, every stored weight lies in [0, hi]. */
  lemma {:induction false} ClampAllBounds(draws: seq<int>, cap: int, lo: int, hi: int)
    requires 0 <= lo && forall j :: 0 <= j < |draws| ==> lo <= draws[j] <= hi
    ensures forall j :: 0 <= j < |draws| ==> 0 <= ClampAll(draws, cap)[j] <= hi
  {
    if |draws| > 0 {
      ClampAllBounds(draws[..|draws| - 1], cap, lo, hi);
    }
  }

  /** When every draw is non-negative and they all fit, no weight is clamped. */
  lemma {:induction false} ClampAllKeepsFittingDraws(draws: seq<int>, cap: int)
    requires NonNegative(draws) && Total(draws) <= cap
    ensures ClampAll(draws, cap) == draws
  {
    if |draws| > 0 {
      var k := |draws| - 1;
      assert Total(draws[..k]) <= Total(draws) - draws[k];
      ClampAllKeepsFittingDraws(draws[..k], cap);
      assert draws[..k] + [draws[k]] == draws;
    }
  }

  /**
   * The items of one knapsack in generate_knapsack_problem: each weight draw
   * clamped against the running total and the capacity `cap`, and the cost
   * draws as drawn.
   */
  method GenerateKnapsack(weightDraws: seq<int>, costDraws: seq<int>, cap: int)
    returns (knapsackWeights: seq<int>, knapsackCosts: seq<int>)
    requires |costDraws| == |weightDraws|
    ensures knapsackWeights == ClampAll(weightDraws, cap) && knapsackCosts == costDraws
  {
    knapsackWeights := [];
    knapsackCosts := [];
    var totalWeight := 0;
    for j := 0 to |weightDraws|
      invariant knapsackWeights == ClampAll(weightDraws[..j], cap)
      invariant totalWeight == Total(knapsackWeights)
      invariant knapsackCosts == costDraws[..j]
    {
      assert weightDraws[..j + 1][..j] == weightDraws[..j];
      var itemWeight := weightDraws[j];
      var stored;
      if totalWeight + itemWeight <= cap {
        stored := itemWeight;
      } else {
        var remainingWeight := cap - totalWeight;
        if remainingWeight > 0 {
          stored := remainingWeight;
        } else {
          stored := 0;
        }
      }
      TotalSnoc(knapsackWeights, stored);
      knapsackWeights := knapsackWeights + [stored];
      totalWeight := totalWeight + stored;
      knapsackCosts := knapsackCosts + [costDraws[j]];
    }
    assert weightDraws[..|weightDraws|] == weightDraws;
    assert costDraws[..|costDraws|] == costDraws;
  }

  /**
   * The result of generate_knapsack_problem: the weight and cost lists, or the
   * knapsack at whose first item `random.randint(min_weight, max_weight)`
   * raised because the range is empty.
   */
  datatype ProblemOutcome = Problem(weights: seq<seq<int>>, costs: seq<seq<int>>) | EmptyWeightRange(knapsack: nat)

  /**
   * generate_knapsack_problem: one weight list and one cost list per knapsack,
   * list i of length n[i]; the weights are the draws clamped against the
   * running total, so a knapsack with a non-negative capacity never holds more
   * than its capacity, and with a non-negative minimum every weight lies in
   * [0, max_weight]; every cost is its draw from [1, 100]. With
   * min_weight > max_weight the first knapsack holding an item raises.
   */
  method GenerateKnapsackProblem(n: seq<nat>, minWeight: int, maxWeight: int, maxWeights: seq<int>,
                                 weightDraws: seq<seq<int>>, costDraws: seq<seq<int>>)
    returns (outcome: ProblemOutcome)
    requires |maxWeights| >= |n| && |weightDraws| == |n| && |costDraws| == |n|
    requires forall i :: 0 <= i < |n| ==> |weightDraws[i]| == n[i] && |costDraws[i]| == n[i]
    requires minWeight <= maxWeight ==>
               forall i, j :: 0 <= i < |n| && 0 <= j < n[i] ==> minWeight <= weightDraws[i][j] <= maxWeight
    requires forall i, j :: 0 <= i < |n| && 0 <= j < n[i] ==> 1 <= costDraws[i][j] <= 100
    ensures outcome.EmptyWeightRange? <==> minWeight > maxWeight && exists i :: 0 <= i < |n| && n[i] > 0
    ensures outcome.EmptyWeightRange? ==>
              outcome.knapsack < |n| && n[outcome.knapsack] > 0 && forall i :: 0 <= i < outcome.knapsack ==> n[i] == 0
    ensures outcome.Problem? ==> |outcome.weights| == |n| && |outcome.costs| == |n|
    ensures outcome.Problem? ==> forall i :: 0 <= i < |n| ==>
              outcome.weights[i] == ClampAll(weightDraws[i], maxWeights[i]) && outcome.costs[i] == costDraws[i]
    ensures outcome.Problem? ==> forall i :: 0 <= i < |n| ==> |outcome.weights[i]| == n[i] && |outcome.costs[i]| == n[i]
    ensures outcome.Problem? ==> forall i :: 0 <= i < |n| && maxWeights[i] >= 0 ==> Total(outcome.weights[i]) <= maxWeights[i]
    ensures outcome.Problem? && minWeight >= 0 ==>
              forall i, j :: 0 <= i < |n| && 0 <= j < n[i] ==> 0 <= outcome.weights[i][j] <= maxWeight
    ensures outcome.Problem? ==> forall i, j :: 0 <= i < |n| && 0 <= j < n[i] ==> 1 <= outcome.costs[i][j] <= 100
  {
    var weights: seq<seq<int>> := [];
    var costs: seq<seq<int>> := [];
    for i := 0 to |n|
      invariant |weights| == i && |costs| == i
      invariant forall k :: 0 <= k < i ==> weights[k] == ClampAll(weightDraws[k], maxWeights[k]) && costs[k] == costDraws[k]
      invariant minWeight > maxWeight ==> forall k :: 0 <= k < i ==> n[k] == 0
    {
      if n[i] > 0 && minWeight > maxWeight {
        // the first random.randint(min_weight, max_weight) of this knapsack
        return EmptyWeightRange(i);
      }
      var knapsackWeights, knapsackCosts := GenerateKnapsack(weightDraws[i], costDraws[i], maxWeights[i]);
      weights := weights + [knapsackWeights];
      costs := costs + [knapsackCosts];
    }
    forall i | 0 <= i < |n| && maxWeights[i] >= 0
      ensures Total(weights[i]) <= maxWeights[i]
    {
      ClampAllWithinCapacity(weightDraws[i], maxWeights[i]);
    }
    if 0 <= minWeight <= maxWeight {
      forall i | 0 <= i < |n|
        ensures forall j :: 0 <= j < n[i] ==> 0 <= weights[i][j] <= maxWeight
      {
        ClampAllBounds(weightDraws[i], maxWeights[i], minWeight, maxWeight);
      }
    }
    outcome := Problem(weights, costs);
  }

  // ---------------------------------------------------------------------------
  // generate_initial_solution

  /**
   * The filling loop of one knapsack: while the bag weighs no more than `cap`,
   * take the next drawn item unless it is already in the bag. `None` when the
   * draws run out first (the source would keep drawing).
   */
  function Fill(bag: seq<int>, total: int, picks: seq<int>, w: seq<int>, cap: int): Option<seq<int>>
    requires |bag| <= |w|
    requires forall j :: 0 <= j < |picks| ==> 0 <= picks[j] < |bag|
    decreases |picks|
  {
    if total > cap then Some(bag)
    else if |picks| == 0 then None
    else if bag[picks[0]] == 0 then Fill(bag[picks[0] := 1], total + w[picks[0]], picks[1..], w, cap)
    else Fill(bag, total, picks[1..], w, cap)
  }

  /** A filled bag keeps its length, stays 0/1 and weighs more than the capacity. */
  lemma {:induction false} FillOverCapacity(bag: seq<int>, total: int, picks: seq<int>, w: seq<int>, cap: int)
    requires |bag| <= |w|
    requires forall j :: 0 <= j < |picks| ==> 0 <= picks[j] < |bag|
    requires Binary(bag) && total == Dot(bag, w)
    requires Fill(bag, total, picks, w, cap).Some?
    ensures var b := Fill(bag, total, picks, w, cap).value;
      |b| == |bag| && Binary(b) && Dot(b, w) > cap
    decreases |picks|
  {
    if total <= cap {
      var p := picks[0];
      if bag[p] == 0 {
        DotUpdate(bag, w, p, 1);
        FillOverCapacity(bag[p := 1], total + w[p], picks[1..], w, cap);
      } else {
        FillOverCapacity(bag, total, picks[1..], w, cap);
      }
    }
  }

  /**
   * How generate_initial_solution ends: every bag filled, or the random
   * choice among zero items raised (knapsack `knapsack` has no items but room),
   * or the draws for knapsack `knapsack` ran out.
   */
  datatype InitialOutcome = Solutions(bags: seq<seq<int>>) | EmptyKnapsack(knapsack: nat) | DrawsExhausted(knapsack: nat)

  /** The filled bag of knapsack `k`, starting from the empty bag. */
  function InitialBag(n: seq<nat>, maxWeights: seq<int>, weights: seq<seq<int>>, picks: seq<seq<int>>, k: nat): Option<seq<int>>
    requires k < |n| && k < |maxWeights| && k < |weights| && k < |picks|
    requires |weights[k]| >= n[k]
    requires forall j :: 0 <= j < |picks[k]| ==> 0 <= picks[k][j] < n[k]
  {
    Fill(Zeros(n[k]), 0, picks[k], weights[k], maxWeights[k])
  }

  ghost predicate InitialInputs(n: seq<nat>, maxWeights: seq<int>, weights: seq<seq<int>>, picks: seq<seq<int>>)
  {
    && |maxWeights| >= |n| && |weights| >= |n| && |picks| == |n|
    && (forall k :: 0 <= k < |n| ==> |weights[k]| >= n[k])
    && (forall k, j :: 0 <= k < |n| && 0 <= j < |picks[k]| ==> 0 <= picks[k][j] < n[k])
  }

  /**
   * generate_initial_solution: for every knapsack a bag of n[k] entries, all 0
   * or 1, whose weight is greater than max_weights[k] (the loop leaves only
   * once the capacity is passed); it fails at the first knapsack whose bag
   * cannot be filled.
   */
  method GenerateInitialSolution(n: seq<nat>, maxWeights: seq<int>, weights: seq<seq<int>>, picks: seq<seq<int>>)
    returns (outcome: InitialOutcome)
    requires InitialInputs(n, maxWeights, weights, picks)
    ensures outcome.Solutions? <==> forall k :: 0 <= k < |n| ==> InitialBag(n, maxWeights, weights, picks, k).Some?
    ensures outcome.Solutions? ==> |outcome.bags| == |n|
    ensures outcome.Solutions? ==> forall k :: 0 <= k < |n| ==>
      outcome.bags[k] == InitialBag(n, maxWeights, weights, picks, k).value
    ensures outcome.Solutions? ==> forall k :: 0 <= k < |n| ==>
      |outcome.bags[k]| == n[k] && Binary(outcome.bags[k]) && Dot(outcome.bags[k], weights[k]) > maxWeights[k]
    ensures outcome.EmptyKnapsack? ==>
      outcome.knapsack < |n| && n[outcome.knapsack] == 0 && maxWeights[outcome.knapsack] >= 0
    ensures outcome.DrawsExhausted? ==>
      outcome.knapsack < |n| && n[outcome.knapsack] > 0 && InitialBag(n, maxWeights, weights, picks, outcome.knapsack).None?
    ensures !outcome.Solutions? ==>
      outcome.knapsack < |n| && forall i :: 0 <= i < outcome.knapsack ==> InitialBag(n, maxWeights, weights, picks, i).Some?
  {
    var solutions: seq<seq<int>> := [];
    for k := 0 to |n|
      invariant |solutions| == k
      invariant forall i :: 0 <= i < k ==> InitialBag(n, maxWeights, weights, picks, i) == Some(solutions[i])
    {
      var bag := new int[n[k]](_ => 0);
      assert bag[..] == Zeros(n[k]);
      var totalWeight := 0;
      var j := 0;
      while totalWeight <= maxWeights[k]
        invariant 0 <= j <= |picks[k]| && bag.Length == n[k]
        invariant InitialBag(n, maxWeights, weights, picks, k) == Fill(bag[..], totalWeight, picks[k][j..], weights[k], maxWeights[k])
        decreases |picks[k]| - j
      {
        if n[k] == 0 {
          return EmptyKnapsack(k);
        }
        if j == |picks[k]| {
          return DrawsExhausted(k);
        }
        assert picks[k][j..][1..] == picks[k][j + 1..];
        var item := picks[k][j];
        j := j + 1;
        if bag[item] == 0 {
          bag[item] := 1;
          totalWeight := totalWeight + weights[k][item];
        }
      }
      solutions := solutions + [bag[..]];
    }
    outcome := Solutions(solutions);
    forall k | 0 <= k < |n|
      ensures |solutions[k]| == n[k] && Binary(solutions[k]) && Dot(solutions[k], weights[k]) > maxWeights[k]
    {
      assert InitialBag(n, maxWeights, weights, picks, k) == Some(solutions[k]);
      assert forall j :: 0 <= j < |picks[k]| ==> 0 <= picks[k][j] < |Zeros(n[k])|;
      DotOfZeros(Zeros(n[k]), weights[k]);
      FillOverCapacity(Zeros(n[k]), 0, picks[k], weights[k], maxWeights[k]);
    }
  }

  // ---------------------------------------------------------------------------
  // successors

  /** One entry `{'solution', 'cost', 'weight'}` of the list `successors` returns. */
  datatype Candidate = Candidate(solution: seq<int>, cost: int, weight: int)

  /**
   * The `while True` loop for one candidate: flip the drawn bit of the running
   * copy, re-evaluate cost and weight over the first `n` items, and stop at the
   * first copy that fits and costs more than `actualCost`. `None` when the draws
   * run out first.
   */
  function Walk(aux: seq<int>, flips: seq<int>, actualCost: int, maxWeight: int, n: nat,
                weights: seq<int>, costs: seq<int>): Option<Candidate>
    requires n <= |aux| && n <= |weights| && n <= |costs|
    requires forall j :: 0 <= j < |flips| ==> 0 <= flips[j] < |aux|
    decreases |flips|
  {
    if |flips| == 0 then None
    else
      var next := aux[flips[0] := 1 - aux[flips[0]]];
      var newWeight := Dot(next[..n], weights);
      var newCost := Dot(next[..n], costs);
      if newWeight <= maxWeight && newCost > actualCost then Some(Candidate(next, newCost, newWeight))
      else Walk(next, flips[1..], actualCost, maxWeight, n, weights, costs)
  }

  /** What a candidate promises: same length, feasible, strictly better, and its recorded figures are its own. */
  ghost predicate BetterCandidate(c: Candidate, len: nat, actualCost: int, maxWeight: int, n: nat,
                                  weights: seq<int>, costs: seq<int>)
    requires n <= |weights| && n <= |costs|
  {
    && |c.solution| == len && n <= len
    && c.weight <= maxWeight && c.cost > actualCost
    && c.weight == Dot(c.solution[..n], weights) && c.cost == Dot(c.solution[..n], costs)
  }

  lemma {:induction false} WalkFindsBetter(aux: seq<int>, flips: seq<int>, actualCost: int, maxWeight: int, n: nat,
                                           weights: seq<int>, costs: seq<int>)
    requires n <= |aux| && n <= |weights| && n <= |costs|
    requires forall j :: 0 <= j < |flips| ==> 0 <= flips[j] < |aux|
    requires Walk(aux, flips, actualCost, maxWeight, n, weights, costs).Some?
    ensures var c := Walk(aux, flips, actualCost, maxWeight, n, weights, costs).value;
      BetterCandidate(c, |aux|, actualCost, maxWeight, n, weights, costs) && (Binary(aux) ==> Binary(c.solution))
    decreases |flips|
  {
    var next := aux[flips[0] := 1 - aux[flips[0]]];
    var newWeight := Dot(next[..n], weights);
    var newCost := Dot(next[..n], costs);
    if !(newWeight <= maxWeight && newCost > actualCost) {
      WalkFindsBetter(next, flips[1..], actualCost, maxWeight, n, weights, costs);
    }
  }

  /**
   * The `while True` loop of one candidate on a fresh copy `aux` of the
   * input: the first copy that fits and costs more, or `None` when the draws
   * run out first.
   */
  method WalkFromCopy(actualSolution: seq<int>, flips: seq<int>, actualCost: int, maxWeight: int, n: nat,
                      weights: seq<int>, costs: seq<int>)
    returns (found: Option<Candidate>)
    requires n <= |actualSolution| && n <= |weights| && n <= |costs|
    requires forall j :: 0 <= j < |flips| ==> 0 <= flips[j] < |actualSolution|
    ensures found == Walk(actualSolution, flips, actualCost, maxWeight, n, weights, costs)
  {
    var aux := actualSolution;
    var j := 0;
    while true
      invariant 0 <= j <= |flips| && |aux| == |actualSolution|
      invariant Walk(actualSolution, flips, actualCost, maxWeight, n, weights, costs)
             == Walk(aux, flips[j..], actualCost, maxWeight, n, weights, costs)
      decreases |flips| - j
    {
      if j == |flips| {
        return None;
      }
      assert flips[j..][1..] == flips[j + 1..];
      var p := flips[j];
      aux := aux[p := 1 - aux[p]];
      j := j + 1;
      var newWeight := Dot(aux[..n], weights);
      var newCost := Dot(aux[..n], costs);
      if newWeight <= maxWeight && newCost > actualCost {
        return Some(Candidate(aux, newCost, newWeight));
      }
    }
  }

  ghost predicate SuccessorInputs(actualSolution: seq<int>, n: nat, weights: seq<int>, costs: seq<int>, flips: seq<seq<int>>)
  {
    && n <= |actualSolution| && n <= |weights| && n <= |costs|
    && |flips| == 2 * |actualSolution|
    && forall c, j :: 0 <= c < |flips| && 0 <= j < |flips[c]| ==> 0 <= flips[c][j] < |actualSolution|
  }

  /**
   * successors: when it returns, 2 * len(actual_solution) candidates, candidate
   * c being the walk from a fresh copy of the input with draws `flips[c]`; each
   * has the input's length, fits, costs strictly more than `actualCost`, and
   * records its own cost and weight over the first `n` items.
   */
  method Successors(actualSolution: seq<int>, actualCost: int, maxWeight: int, n: nat,
                    weights: seq<int>, costs: seq<int>, flips: seq<seq<int>>)
    returns (result: Option<seq<Candidate>>)
    requires SuccessorInputs(actualSolution, n, weights, costs, flips)
    ensures result.Some? <==>
      forall c :: 0 <= c < |flips| ==> Walk(actualSolution, flips[c], actualCost, maxWeight, n, weights, costs).Some?
    ensures result.Some? ==> |result.value| == 2 * |actualSolution|
    ensures result.Some? ==> forall c :: 0 <= c < |flips| ==>
      result.value[c] == Walk(actualSolution, flips[c], actualCost, maxWeight, n, weights, costs).value
    ensures result.Some? ==> forall c :: 0 <= c < |flips| ==>
      BetterCandidate(result.value[c], |actualSolution|, actualCost, maxWeight, n, weights, costs)
  {
    var qs := 2 * |actualSolution|;
    var better: seq<Candidate> := [];
    for c := 0 to qs
      invariant |better| == c
      invariant forall d :: 0 <= d < c ==>
        Walk(actualSolution, flips[d], actualCost, maxWeight, n, weights, costs) == Some(better[d])
    {
      var found := WalkFromCopy(actualSolution, flips[c], actualCost, maxWeight, n, weights, costs);
      if found.None? {
        return None;
      }
      better := better + [found.value];
    }
    result := Some(better);
    forall c | 0 <= c < |flips|
      ensures BetterCandidate(better[c], |actualSolution|, actualCost, maxWeight, n, weights, costs)
    {
      WalkFindsBetter(actualSolution, flips[c], actualCost, maxWeight, n, weights, costs);
    }
  }

  // ---------------------------------------------------------------------------
  // successor

  /** The costs `items[i][1]` of a list of `(weight, cost)` pairs. */
  function Costs(items: seq<(int, int)>): (cs: seq<int>)
    ensures |cs| == |items| && forall i :: 0 <= i < |items| ==> cs[i] == items[i].1
  {
    seq(|items|, i requires 0 <= i < |items| => items[i].1)
  }

  /**
   * The result of successor: the flipped copy and its cost, or the ValueError
   * `random.randint(0, n - 1)` raises when there are no items.
   */
  datatype SuccessorOutcome = Flipped(novo: seq<int>, vn: int) | NoItems

  /**
   * successor: a copy of `atual` with exactly bit `p` (the draw from [0, n - 1])
   * flipped, and its cost over the first `n` items, which differs from the
   * cost of `atual` by exactly the flipped item's cost; with n = 0 the draw
   * raises.
   */
  method Successor(n: nat, atual: seq<int>, items: seq<(int, int)>, p: int) returns (outcome: SuccessorOutcome)
    requires n <= |atual| && n <= |items| && (n > 0 ==> 0 <= p < n)
    ensures outcome.NoItems? <==> n == 0
    ensures outcome.Flipped? ==> |outcome.novo| == |atual| && outcome.novo[p] == 1 - atual[p]
    ensures outcome.Flipped? ==> forall i :: 0 <= i < |atual| && i != p ==> outcome.novo[i] == atual[i]
    ensures outcome.Flipped? ==> outcome.vn == Dot(outcome.novo[..n], Costs(items))
    ensures outcome.Flipped? ==> outcome.vn == Dot(atual[..n], Costs(items)) + (1 - 2 * atual[p]) * items[p].1
  {
    if n == 0 {
      return NoItems;
    }
    var copy := new int[|atual|](i requires 0 <= i < |atual| => atual[i]);
    copy[p] := 1 - copy[p];
    var novo := copy[..];
    var vn := Dot(novo[..n], Costs(items));
    assert novo[..n] == atual[..n][p := 1 - atual[p]];
    DotUpdate(atual[..n], Costs(items), p, 1 - atual[p]);
    outcome := Flipped(novo, vn);
  }
}
