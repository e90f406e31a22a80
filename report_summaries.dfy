/**
 * The summary helpers of the report export in `ReportsService`
 * (frontend/src/pages/Reports/service/index.tsx): `generateBasicMethodsSummary`,
 * `generateComparisonSummary`, `findBestMethod` and
 * `calculateStandardDeviation`.
 *
 * They walk JavaScript objects with `Object.entries`, so their input is an
 * association list in property order whose values are typed as JavaScript
 * sees them at run time: an array of values that may be numbers, `NaN` or
 * something else, or a value that is no array at all (the
 * `simulatedAnnealing` object of an experiment).
 */
module ReportSummaries {

  import opened Basics
  import opened Stats
  import opened ReportTypes
  import GeneticSweep

  /** An array element: a number, `NaN` (also `typeof 'number'`), or anything else. */
  datatype JsValue = Num(x: real) | NaN | NonNumber

  /** The value of one property: an array, or anything `Array.isArray` rejects. */
  datatype Field = Series(items: seq<JsValue>) | NotArray

  /** `Object.entries(obj)`: property names with their values, in property order. */
  type Entries = seq<(string, Field)>

  ghost predicate DistinctKeys<T>(s: seq<(string, T)>)
  {
    forall i, j :: 0 <= i < j < |s| ==> s[i].0 != s[j].0
  }

  /** A series of the model as the array of numbers it is at run time. */
  function Nums(s: seq<real>): (r: seq<JsValue>)
    ensures |r| == |s| && forall i :: 0 <= i < |s| ==> r[i] == Num(s[i])
  {
    seq(|s|, i requires 0 <= i < |s| => Num(s[i]))
  }

  /** `Object.entries` of an `ExperimentResults` object, in the order its properties are written. */
  function EntriesOf(results: ExperimentResults): Entries
  {
    [ ("initialSolutions", Series(Nums(results.initialSolutions))),
      ("hillClimbing", Series(Nums(results.hillClimbing))),
      ("hillClimbingNAttempts", Series(Nums(results.hillClimbingNAttempts))),
      ("hillClimbing2NAttempts", Series(Nums(results.hillClimbing2NAttempts))),
      ("temperaResults", Series(Nums(results.temperaResults))),
      ("simulatedAnnealing", NotArray) ]
  }

  // ---------------------------------------------------------------------------
  // calculateStandardDeviation and one method's summary

  /** calculateStandardDeviation: 0 for no values, else the non-negative root of the population variance. */
  function CalculateStandardDeviation(values: seq<real>, sqrt: real -> real): (r: real)
    requires IsSqrt(sqrt)
    ensures |values| == 0 ==> r == 0.0
    ensures |values| > 0 ==> r >= 0.0 && r * r == Variance(values)
  {
    if |values| == 0 then 0.0
    else
      VarianceNonNegative(values);
      sqrt(Variance(values))
  }

  /** The object `{ count, min, max, average, standardDeviation }` written for one method. */
  datatype MethodSummary = MethodSummary(count: nat, min: real, max: real, average: real, standardDeviation: real)

  /** A method's summary: its count, and the same figures `calculateStats` gives for the series. */
  function SummaryOf(values: seq<real>, sqrt: real -> real): (s: MethodSummary)
    requires IsSqrt(sqrt) && |values| > 0
    ensures s.count == |values|
    ensures s.min == CalculateStats(values, sqrt).min && s.max == CalculateStats(values, sqrt).max
    ensures s.average == CalculateStats(values, sqrt).avg
    ensures s.standardDeviation == CalculateStats(values, sqrt).std
  {
    var std := CalculateStandardDeviation(values, sqrt);
    SquareRootUnique(std, CalculateStats(values, sqrt).std);
    MethodSummary(|values|, MinOf(values), MaxOf(values), Sum(values) / |values| as real, std)
  }

  // ---------------------------------------------------------------------------
  // generateBasicMethodsSummary

  /** `results.filter(val => typeof val === 'number' && !isNaN(val))`. */
  function Finite(items: seq<JsValue>): (r: seq<real>)
    ensures |r| <= |items|
    decreases |items|
  {
    if |items| == 0 then []
    else
      var init := items[..|items| - 1];
      var last := items[|items| - 1];
      assert items == init + [last];
      Finite(init) + (if last.Num? then [last.x] else [])
  }

  /** An array of numbers is kept whole by the filter. */
  lemma {:induction false} FiniteOfNums(s: seq<real>)
    ensures Finite(Nums(s)) == s
  {
    if |s| > 0 {
      assert Nums(s)[..|s| - 1] == Nums(s[..|s| - 1]);
      FiniteOfNums(s[..|s| - 1]);
    }
  }

  /** The properties summarised: arrays holding at least one number that is not `NaN`. */
  predicate Summarised(f: Field)
  {
    f.Series? && |Finite(f.items)| > 0
  }

  function SummaryEntry(e: (string, Field), sqrt: real -> real): (p: (string, MethodSummary))
    requires IsSqrt(sqrt) && Summarised(e.1)
    ensures p.0 == e.0 && p.1.count == |Finite(e.1.items)|
  {
    (e.0, SummaryOf(Finite(e.1.items), sqrt))
  }

  /** The summary object, as `(name, summary)` pairs in property order. */
  function BasicSummary(entries: Entries, sqrt: real -> real): seq<(string, MethodSummary)>
    requires IsSqrt(sqrt)
    decreases |entries|
  {
    if |entries| == 0 then []
    else
      var rest := BasicSummary(entries[..|entries| - 1], sqrt);
      var e := entries[|entries| - 1];
      if Summarised(e.1) then rest + [SummaryEntry(e, sqrt)] else rest
  }

  /** A summary entry exists exactly for each property that is an array with a finite number. */
  lemma {:induction false} BasicSummaryMembers(entries: Entries, sqrt: real -> real)
    requires IsSqrt(sqrt)
    ensures forall p :: p in BasicSummary(entries, sqrt) <==>
      exists i :: 0 <= i < |entries| && Summarised(entries[i].1) && p == SummaryEntry(entries[i], sqrt)
    decreases |entries|
  {
    if |entries| > 0 {
      var init := entries[..|entries| - 1];
      var e := entries[|entries| - 1];
      BasicSummaryMembers(init, sqrt);
      forall p
        ensures p in BasicSummary(entries, sqrt) <==>
          exists i :: 0 <= i < |entries| && Summarised(entries[i].1) && p == SummaryEntry(entries[i], sqrt)
      {
        if p in BasicSummary(init, sqrt) {
          var i :| 0 <= i < |init| && Summarised(init[i].1) && p == SummaryEntry(init[i], sqrt);
          assert entries[i] == init[i];
        }
        if exists i :: 0 <= i < |entries| && Summarised(entries[i].1) && p == SummaryEntry(entries[i], sqrt) {
          var i :| 0 <= i < |entries| && Summarised(entries[i].1) && p == SummaryEntry(entries[i], sqrt);
          if i < |init| {
            assert entries[i] == init[i];
          }
        }
      }
    }
  }

  /** Summary entries keep the property order, so distinct property names stay distinct. */
  lemma {:induction false} BasicSummaryDistinct(entries: Entries, sqrt: real -> real)
    requires IsSqrt(sqrt) && DistinctKeys(entries)
    ensures DistinctKeys(BasicSummary(entries, sqrt))
    decreases |entries|
  {
    if |entries| > 0 {
      var init := entries[..|entries| - 1];
      var e := entries[|entries| - 1];
      assert DistinctKeys(init);
      BasicSummaryDistinct(init, sqrt);
      BasicSummaryMembers(init, sqrt);
      if Summarised(e.1) {
        var rest := BasicSummary(init, sqrt);
        forall k | 0 <= k < |rest|
          ensures rest[k].0 != e.0
        {
          assert rest[k] in rest;
          var i :| 0 <= i < |init| && Summarised(init[i].1) && rest[k] == SummaryEntry(init[i], sqrt);
          assert init[i] == entries[i];
        }
      }
    }
  }

  /**
   * generateBasicMethodsSummary: `null` (here `None`) for a missing input,
   * otherwise one summary per summarised property, in property order.
   */
  method GenerateBasicMethodsSummary(individualResults: Option<Entries>, sqrt: real -> real)
    returns (summary: Option<seq<(string, MethodSummary)>>)
    requires IsSqrt(sqrt)
    ensures individualResults.None? ==> summary.None?
    ensures individualResults.Some? ==> summary == Some(BasicSummary(individualResults.value, sqrt))
  {
    if individualResults.None? {
      return None;
    }
    var entries := individualResults.value;
    var acc: seq<(string, MethodSummary)> := [];
    for i := 0 to |entries|
      invariant acc == BasicSummary(entries[..i], sqrt)
    {
      assert entries[..i + 1][..i] == entries[..i];
      var (methodName, results) := entries[i];
      if results.Series? && |results.items| > 0 {
        var values := Finite(results.items);
        if |values| > 0 {
          acc := acc + [(methodName, SummaryOf(values, sqrt))];
        }
      }
    }
    assert entries[..|entries|] == entries;
    return Some(acc);
  }

  /** The names of the summarised properties, in property order. */
  function SummarisedKeys(entries: Entries): seq<string>
    decreases |entries|
  {
    if |entries| == 0 then []
    else
      var rest := SummarisedKeys(entries[..|entries| - 1]);
      var e := entries[|entries| - 1];
      if Summarised(e.1) then rest + [e.0] else rest
  }

  /** The summary's names are the summarised properties' names, in property order. */
  lemma {:induction false} BasicSummaryKeys(entries: Entries, sqrt: real -> real)
    requires IsSqrt(sqrt)
    ensures |BasicSummary(entries, sqrt)| == |SummarisedKeys(entries)|
    ensures forall k :: 0 <= k < |SummarisedKeys(entries)| ==> BasicSummary(entries, sqrt)[k].0 == SummarisedKeys(entries)[k]
    decreases |entries|
  {
    if |entries| > 0 {
      BasicSummaryKeys(entries[..|entries| - 1], sqrt);
    }
  }

  /**
   * The summary of an experiment whose four basic series are non-empty and
   * whose tempera series is empty (as runIndividualExperiments returns it)
   * names those four series in order, and neither `temperaResults` nor the
   * `simulatedAnnealing` object.
   */
  lemma ExperimentSummaryKeys(results: ExperimentResults)
    requires |results.initialSolutions| > 0 && |results.hillClimbing| > 0
    requires |results.hillClimbingNAttempts| > 0 && |results.hillClimbing2NAttempts| > 0
    requires results.temperaResults == []
    ensures SummarisedKeys(EntriesOf(results)) == ["initialSolutions", "hillClimbing", "hillClimbingNAttempts", "hillClimbing2NAttempts"]
  {
    SixPropertyKeys("initialSolutions", "hillClimbing", "hillClimbingNAttempts", "hillClimbing2NAttempts",
      "temperaResults", "simulatedAnnealing",
      results.initialSolutions, results.hillClimbing, results.hillClimbingNAttempts, results.hillClimbing2NAttempts);
  }

  /** Four non-empty arrays of numbers, an empty array and a non-array: only the four are summarised. */
  lemma SixPropertyKeys(k0: string, k1: string, k2: string, k3: string, k4: string, k5: string,
                        a0: seq<real>, a1: seq<real>, a2: seq<real>, a3: seq<real>)
    requires |a0| > 0 && |a1| > 0 && |a2| > 0 && |a3| > 0
    ensures SummarisedKeys([(k0, Series(Nums(a0))), (k1, Series(Nums(a1))), (k2, Series(Nums(a2))),
                            (k3, Series(Nums(a3))), (k4, Series(Nums([]))), (k5, NotArray)])
         == [k0, k1, k2, k3]
  {
    var e0: Entries := [];
    var r0: seq<string> := [];
    var e1, r1 := e0 + [(k0, Series(Nums(a0)))], r0 + [k0];
    ExtendKeys(e0, r0, k0, a0);
    var e2, r2 := e1 + [(k1, Series(Nums(a1)))], r1 + [k1];
    ExtendKeys(e1, r1, k1, a1);
    var e3, r3 := e2 + [(k2, Series(Nums(a2)))], r2 + [k2];
    ExtendKeys(e2, r2, k2, a2);
    var e4, r4 := e3 + [(k3, Series(Nums(a3)))], r3 + [k3];
    ExtendKeys(e3, r3, k3, a3);
    var e5 := e4 + [(k4, Series(Nums([])))];
    SkipKeys(e4, r4, (k4, Series(Nums([]))));
    var e6 := e5 + [(k5, NotArray)];
    SkipKeys(e5, r4, (k5, NotArray));
    assert e6 == [(k0, Series(Nums(a0))), (k1, Series(Nums(a1))), (k2, Series(Nums(a2))),
                  (k3, Series(Nums(a3))), (k4, Series(Nums([]))), (k5, NotArray)];
  }

  lemma ExtendKeys(entries: Entries, r: seq<string>, k: string, a: seq<real>)
    requires |a| > 0 && SummarisedKeys(entries) == r
    ensures SummarisedKeys(entries + [(k, Series(Nums(a)))]) == r + [k]
  {
    FiniteOfNums(a);
    assert (entries + [(k, Series(Nums(a)))])[..|entries|] == entries;
  }

  lemma SkipKeys(entries: Entries, r: seq<string>, e: (string, Field))
    requires SummarisedKeys(entries) == r && (e.1.NotArray? || e.1.items == [])
    ensures SummarisedKeys(entries + [e]) == r
  {
    assert (entries + [e])[..|entries|] == entries;
  }

  // ---------------------------------------------------------------------------
  // generateComparisonSummary

  /** The keys of `methodGroups`: the method tags of `allResults` in order of first appearance. */
  function FirstTags(allResults: seq<AllResult>): (tags: seq<string>)
    ensures forall t :: t in tags <==> exists i :: 0 <= i < |allResults| && allResults[i].tag == t
    ensures forall i, j :: 0 <= i < j < |tags| ==> tags[i] != tags[j]
    decreases |allResults|
  {
    if |allResults| == 0 then []
    else
      var init := allResults[..|allResults| - 1];
      var last := allResults[|allResults| - 1];
      assert forall i :: 0 <= i < |init| ==> init[i] == allResults[i];
      var rest := FirstTags(init);
      if last.tag in rest then rest else rest + [last.tag]
  }

  /** `methodGroups[tag]`: the `newValue`s under `tag` that are numbers, in order. */
  function Scalars(allResults: seq<AllResult>, tag: string): (r: seq<real>)
    ensures |r| <= |allResults|
    decreases |allResults|
  {
    if |allResults| == 0 then []
    else
      var last := allResults[|allResults| - 1];
      Scalars(allResults[..|allResults| - 1], tag) + (if last.tag == tag && last.newValue.Scalar? then [last.newValue.x] else [])
  }

  /** The second pass: one summary per group with at least one value, in key order. */
  function GroupSummaries(tags: seq<string>, allResults: seq<AllResult>, sqrt: real -> real): seq<(string, MethodSummary)>
    requires IsSqrt(sqrt)
    decreases |tags|
  {
    if |tags| == 0 then []
    else
      var rest := GroupSummaries(tags[..|tags| - 1], allResults, sqrt);
      var t := tags[|tags| - 1];
      var values := Scalars(allResults, t);
      if |values| > 0 then rest + [(t, SummaryOf(values, sqrt))] else rest
  }

  function ComparisonSummary(allResults: seq<AllResult>, sqrt: real -> real): seq<(string, MethodSummary)>
    requires IsSqrt(sqrt)
  {
    GroupSummaries(FirstTags(allResults), allResults, sqrt)
  }

  lemma {:induction false} GroupSummariesMembers(tags: seq<string>, allResults: seq<AllResult>, sqrt: real -> real)
    requires IsSqrt(sqrt)
    ensures forall p :: p in GroupSummaries(tags, allResults, sqrt) <==>
      p.0 in tags && |Scalars(allResults, p.0)| > 0 && p.1 == SummaryOf(Scalars(allResults, p.0), sqrt)
    decreases |tags|
  {
    if |tags| > 0 {
      var init := tags[..|tags| - 1];
      GroupSummariesMembers(init, allResults, sqrt);
      assert tags == init + [tags[|tags| - 1]];
    }
  }

  /** Distinct group keys give summary entries with distinct keys. */
  lemma {:induction false} GroupSummariesDistinct(tags: seq<string>, allResults: seq<AllResult>, sqrt: real -> real)
    requires IsSqrt(sqrt)
    requires forall i, j :: 0 <= i < j < |tags| ==> tags[i] != tags[j]
    ensures DistinctKeys(GroupSummaries(tags, allResults, sqrt))
    decreases |tags|
  {
    if |tags| > 0 {
      var init := tags[..|tags| - 1];
      var t := tags[|tags| - 1];
      GroupSummariesDistinct(init, allResults, sqrt);
      GroupSummariesMembers(init, allResults, sqrt);
      var rest := GroupSummaries(init, allResults, sqrt);
      forall k | 0 <= k < |rest|
        ensures rest[k].0 != t
      {
        assert rest[k] in rest;
        assert rest[k].0 in init;
      }
    }
  }

  /**
   * A comparison summary entry exists exactly for each method tag of
   * `allResults` with at least one numeric `newValue`, and summarises those
   * values; no tag is summarised twice.
   */
  lemma ComparisonSummaryMembers(allResults: seq<AllResult>, sqrt: real -> real)
    requires IsSqrt(sqrt)
    ensures forall p :: p in ComparisonSummary(allResults, sqrt) <==>
      (exists i :: 0 <= i < |allResults| && allResults[i].tag == p.0)
      && |Scalars(allResults, p.0)| > 0 && p.1 == SummaryOf(Scalars(allResults, p.0), sqrt)
    ensures DistinctKeys(ComparisonSummary(allResults, sqrt))
  {
    GroupSummariesMembers(FirstTags(allResults), allResults, sqrt);
    GroupSummariesDistinct(FirstTags(allResults), allResults, sqrt);
  }

  lemma {:induction false} ScalarsNone(allResults: seq<AllResult>, tag: string)
    requires forall i :: 0 <= i < |allResults| ==> !allResults[i].newValue.Scalar?
    ensures Scalars(allResults, tag) == []
    decreases |allResults|
  {
    if |allResults| > 0 {
      ScalarsNone(allResults[..|allResults| - 1], tag);
    }
  }

  lemma {:induction false} GroupSummariesNone(tags: seq<string>, allResults: seq<AllResult>, sqrt: real -> real)
    requires IsSqrt(sqrt)
    requires forall i :: 0 <= i < |allResults| ==> !allResults[i].newValue.Scalar?
    ensures GroupSummaries(tags, allResults, sqrt) == []
    decreases |tags|
  {
    if |tags| > 0 {
      GroupSummariesNone(tags[..|tags| - 1], allResults, sqrt);
      ScalarsNone(allResults, tags[|tags| - 1]);
    }
  }

  /**
   * Only `newValue`s of type number are grouped: when every recorded
   * `current_values` is an array (or anything but a number), the comparison
   * summary is empty.
   */
  lemma NoNumbersNoComparison(allResults: seq<AllResult>, sqrt: real -> real)
    requires IsSqrt(sqrt)
    requires forall i :: 0 <= i < |allResults| ==> !allResults[i].newValue.Scalar?
    ensures ComparisonSummary(allResults, sqrt) == []
  {
    GroupSummariesNone(FirstTags(allResults), allResults, sqrt);
  }

  /** The value `methodGroups[t]` holds for `t` (no property is `[]` for this purpose). */
  function GroupOf(groups: map<string, seq<real>>, t: string): seq<real>
  {
    if t in groups then groups[t] else []
  }

  /** After the first `i` records: `keys` are their tags in order and `groups` their numeric values per tag. */
  ghost predicate Grouped(allResults: seq<AllResult>, i: nat, keys: seq<string>, groups: map<string, seq<real>>)
  {
    && i <= |allResults| && keys == FirstTags(allResults[..i])
    && (forall t :: t in groups <==> t in keys)
    && (forall t :: GroupOf(groups, t) == Scalars(allResults[..i], t))
  }

  /** One more record: its tag is added when new, and its value when it is a number. */
  lemma GroupedStep(allResults: seq<AllResult>, i: nat, keys: seq<string>, groups: map<string, seq<real>>)
    requires i < |allResults| && Grouped(allResults, i, keys, groups)
    ensures var r := allResults[i];
      var keys' := if r.tag in groups then keys else keys + [r.tag];
      var added := if r.tag in groups then groups else groups[r.tag := []];
      var pushed := if r.newValue.Scalar? then added[r.tag := added[r.tag] + [r.newValue.x]] else added;
      Grouped(allResults, i + 1, keys', pushed)
  {
    var r := allResults[i];
    assert allResults[..i + 1][..i] == allResults[..i];
    var added := if r.tag in groups then groups else groups[r.tag := []];
    var pushed := if r.newValue.Scalar? then added[r.tag := added[r.tag] + [r.newValue.x]] else added;
    forall t
      ensures GroupOf(pushed, t) == Scalars(allResults[..i + 1], t)
    {
      assert Scalars(allResults[..i + 1], t) == Scalars(allResults[..i], t) +
        (if r.tag == t && r.newValue.Scalar? then [r.newValue.x] else []);
    }
  }

  /** One more key: its summary is added when its group has a value. */
  lemma GroupSummariesStep(tags: seq<string>, j: nat, allResults: seq<AllResult>, sqrt: real -> real)
    requires IsSqrt(sqrt) && j < |tags|
    ensures GroupSummaries(tags[..j + 1], allResults, sqrt) ==
      if |Scalars(allResults, tags[j])| > 0 then GroupSummaries(tags[..j], allResults, sqrt) + [(tags[j], SummaryOf(Scalars(allResults, tags[j]), sqrt))]
      else GroupSummaries(tags[..j], allResults, sqrt)
  {
    assert tags[..j + 1][..j] == tags[..j];
  }

  /**
   * generateComparisonSummary: group the numeric `newValue`s by method tag in
   * order of first appearance, then summarise each non-empty group.
   */
  method GenerateComparisonSummary(allResults: seq<AllResult>, sqrt: real -> real)
    returns (summary: seq<(string, MethodSummary)>)
    requires IsSqrt(sqrt)
    ensures summary == ComparisonSummary(allResults, sqrt)
  {
    var keys: seq<string> := [];
    var methodGroups: map<string, seq<real>> := map[];
    for i := 0 to |allResults|
      invariant Grouped(allResults, i, keys, methodGroups)
    {
      GroupedStep(allResults, i, keys, methodGroups);
      var result := allResults[i];
      if result.tag !in methodGroups {
        keys := keys + [result.tag];
        methodGroups := methodGroups[result.tag := []];
      }
      if result.newValue.Scalar? {
        methodGroups := methodGroups[result.tag := methodGroups[result.tag] + [result.newValue.x]];
      }
    }
    assert allResults[..|allResults|] == allResults;
    summary := [];
    for j := 0 to |keys|
      invariant summary == GroupSummaries(keys[..j], allResults, sqrt)
    {
      GroupSummariesStep(keys, j, allResults, sqrt);
      assert GroupOf(methodGroups, keys[j]) == Scalars(allResults, keys[j]);
      var values := methodGroups[keys[j]];
      if |values| > 0 {
        summary := summary + [(keys[j], SummaryOf(values, sqrt))];
      }
    }
    assert keys[..|keys|] == keys;
  }

  // ---------------------------------------------------------------------------
  // findBestMethod

  /** `type` of the best method, with the genetic configuration when the genetic algorithm wins. */
  datatype MethodKind = UnknownKind | BasicKind | GeneticKind(config: GeneticSweep.GAConfig)

  /** `{ name, value, type }` (and `config`). */
  datatype BestMethod = BestMethod(name: string, value: ExtReal, kind: MethodKind)

  const Unknown := BestMethod("Unknown", NegInf, UnknownKind)
  const GeneticName := "Genetic Algorithm"

  /** `a > b`, false when `a` is −∞. */
  predicate Greater(a: ExtReal, b: ExtReal)
  {
    a.Fin? && Above(a.r, b)
  }

  /**
   * `Math.max(...results.filter(val => typeof val === 'number'))`: `None`
   * stands for `NaN`, which a single `NaN` among the numbers yields; −∞ when
   * no element is a number; otherwise the largest number.
   */
  function JsMax(items: seq<JsValue>): (m: Option<ExtReal>)
    ensures m.None? <==> NaN in items
    ensures m == Some(NegInf) <==> forall i :: 0 <= i < |items| ==> items[i].NonNumber?
    ensures m.Some? && m.value.Fin? ==> Num(m.value.r) in items
    ensures m.Some? && m.value.Fin? ==> forall i :: 0 <= i < |items| && items[i].Num? ==> items[i].x <= m.value.r
    decreases |items|
  {
    if |items| == 0 then Some(NegInf)
    else
      var init := items[..|items| - 1];
      var last := items[|items| - 1];
      assert items == init + [last];
      var rest := JsMax(init);
      match last
      case NonNumber => rest
      case NaN => None
      case Num(x) =>
        if rest.None? then None
        else if Above(x, rest.value) then Some(Fin(x))
        else rest
  }

  /** `Math.max` over an array of numbers is the largest of them. */
  lemma {:induction false} JsMaxOfNums(s: seq<real>)
    requires |s| > 0
    ensures JsMax(Nums(s)) == Some(Fin(MaxOf(s)))
  {
    var items := Nums(s);
    assert items[..|s| - 1] == Nums(s[..|s| - 1]);
    if |s| > 1 {
      JsMaxOfNums(s[..|s| - 1]);
    }
  }

  /** The value a property competes with: the finite maximum of a non-empty array, if there is one. */
  function Peak(f: Field): Option<real>
  {
    if f.Series? && |f.items| > 0 && JsMax(f.items).Some? && JsMax(f.items).value.Fin? then Some(JsMax(f.items).value.r)
    else None
  }

  /** One `forEach` step over the basic methods. */
  function BasicStep(best: BestMethod, e: (string, Field)): BestMethod
  {
    if e.1.Series? && |e.1.items| > 0 then
      var maxValue := JsMax(e.1.items);
      if maxValue.Some? && Greater(maxValue.value, best.value) then BestMethod(e.0, maxValue.value, BasicKind) else best
    else best
  }

  function BestBasic(entries: Entries): BestMethod
    decreases |entries|
  {
    if |entries| == 0 then Unknown
    else BasicStep(BestBasic(entries[..|entries| - 1]), entries[|entries| - 1])
  }

  function BestOverall(individualResults: Option<Entries>, gaReportData: Option<GeneticSweep.GAReport>): BestMethod
  {
    var basic := if individualResults.Some? then BestBasic(individualResults.value) else Unknown;
    if gaReportData.Some? && Greater(gaReportData.value.summary.bestOverallValue, basic.value) then
      BestMethod(GeneticName, gaReportData.value.summary.bestOverallValue, GeneticKind(gaReportData.value.bestConfiguration))
    else basic
  }

  /** Property `i` holds the first largest peak. */
  ghost predicate BasicLeader(entries: Entries, i: nat)
  {
    && i < |entries| && Peak(entries[i].1).Some?
    && (forall j :: 0 <= j < |entries| && Peak(entries[j].1).Some? ==> Peak(entries[j].1).value <= Peak(entries[i].1).value)
    && (forall j :: 0 <= j < i && Peak(entries[j].1).Some? ==> Peak(entries[j].1).value < Peak(entries[i].1).value)
  }

  /** What the basic pass leaves in `bestMethod`: 'Unknown' when no property has a peak, else the first largest. */
  ghost predicate Leads(entries: Entries, best: BestMethod)
  {
    || (best == Unknown && forall j :: 0 <= j < |entries| ==> Peak(entries[j].1).None?)
    || (exists i: nat :: BasicLeader(entries, i)
          && best == BestMethod(entries[i].0, Fin(Peak(entries[i].1).value), BasicKind))
  }

  lemma BasicStepByPeak(best: BestMethod, e: (string, Field))
    requires best.value.NegInf? || best.kind.BasicKind?
    ensures BasicStep(best, e) ==
      if Peak(e.1).Some? && Above(Peak(e.1).value, best.value) then BestMethod(e.0, Fin(Peak(e.1).value), BasicKind) else best
  {
  }

  lemma LeadsStep(entries: Entries, best: BestMethod, e: (string, Field))
    requires Leads(entries, best)
    ensures Leads(entries + [e], BasicStep(best, e))
  {
    var all := entries + [e];
    assert forall j :: 0 <= j < |entries| ==> all[j] == entries[j];
    assert all[|entries|] == e;
    if best == Unknown && forall j :: 0 <= j < |entries| ==> Peak(entries[j].1).None? {
      BasicStepByPeak(best, e);
      if Peak(e.1).Some? {
        assert BasicLeader(all, |entries|);
      }
    } else {
      var i: nat :| BasicLeader(entries, i) && best == BestMethod(entries[i].0, Fin(Peak(entries[i].1).value), BasicKind);
      BasicStepByPeak(best, e);
      if Peak(e.1).Some? && Above(Peak(e.1).value, best.value) {
        assert BasicLeader(all, |entries|);
      } else {
        assert BasicLeader(all, i);
      }
    }
  }

  lemma {:induction false} BestBasicLeads(entries: Entries)
    ensures Leads(entries, BestBasic(entries))
    decreases |entries|
  {
    if |entries| > 0 {
      var init := entries[..|entries| - 1];
      BestBasicLeads(init);
      LeadsStep(init, BestBasic(init), entries[|entries| - 1]);
      assert init + [entries[|entries| - 1]] == entries;
    }
  }

  /**
   * findBestMethod over the basic methods: 'Unknown' with −∞ exactly when no
   * non-empty array holds a finite maximum (an array with `NaN` never
   * competes); otherwise the first property, in property order, whose maximum
   * is the largest, with that maximum.
   */
  lemma BestBasicIsFirstLargest(entries: Entries)
    ensures BestBasic(entries) == Unknown <==> forall j :: 0 <= j < |entries| ==> Peak(entries[j].1).None?
    ensures BestBasic(entries) != Unknown ==>
      exists i: nat ::
        && BasicLeader(entries, i)
        && BestBasic(entries) == BestMethod(entries[i].0, Fin(Peak(entries[i].1).value), BasicKind)
  {
    BestBasicLeads(entries);
  }

  /**
   * findBestMethod with both inputs present: the genetic algorithm is chosen
   * exactly when its best overall value is finite and strictly above every
   * basic method's maximum, and it is then reported with its value and best
   * configuration.
   */
  lemma GeneticChoice(entries: Entries, ga: GeneticSweep.GAReport)
    ensures BestOverall(Some(entries), Some(ga)).kind.GeneticKind? <==>
      ga.summary.bestOverallValue.Fin?
      && forall j :: 0 <= j < |entries| && Peak(entries[j].1).Some? ==> Peak(entries[j].1).value < ga.summary.bestOverallValue.r
    ensures BestOverall(Some(entries), Some(ga)).kind.GeneticKind? ==>
      BestOverall(Some(entries), Some(ga)) == BestMethod(GeneticName, ga.summary.bestOverallValue, GeneticKind(ga.bestConfiguration))
  {
    BestBasicLeads(entries);
    var basic := BestBasic(entries);
    if basic != Unknown {
      var i: nat :| BasicLeader(entries, i) && basic == BestMethod(entries[i].0, Fin(Peak(entries[i].1).value), BasicKind);
      if ga.summary.bestOverallValue.Fin? && !Above(ga.summary.bestOverallValue.r, basic.value) {
        assert Peak(entries[i].1).Some?;
      }
    }
  }

  /** Only arrays compete, so an experiment's best basic method is never its `simulatedAnnealing` object. */
  lemma ExperimentBestIsSeries(results: ExperimentResults)
    ensures BestBasic(EntriesOf(results)).name != "simulatedAnnealing"
  {
    var entries := EntriesOf(results);
    BestBasicLeads(entries);
    if BestBasic(entries) != Unknown {
      var i: nat :| BasicLeader(entries, i) && BestBasic(entries) == BestMethod(entries[i].0, Fin(Peak(entries[i].1).value), BasicKind);
      assert i != 5;
    }
  }

  /** findBestMethod: the running best over the basic methods, then the genetic algorithm's check. */
  method FindBestMethod(individualResults: Option<Entries>, gaReportData: Option<GeneticSweep.GAReport>)
    returns (bestMethod: BestMethod)
    ensures bestMethod == BestOverall(individualResults, gaReportData)
  {
    bestMethod := Unknown;
    if individualResults.Some? {
      var entries := individualResults.value;
      for i := 0 to |entries|
        invariant bestMethod == BestBasic(entries[..i])
      {
        assert entries[..i + 1][..i] == entries[..i];
        var (methodName, results) := entries[i];
        if results.Series? && |results.items| > 0 {
          var maxValue := JsMax(results.items);
          if maxValue.Some? && Greater(maxValue.value, bestMethod.value) {
            bestMethod := BestMethod(methodName, maxValue.value, BasicKind);
          }
        }
      }
      assert entries[..|entries|] == entries;
    }
    if gaReportData.Some? {
      var gaMaxValue := gaReportData.value.summary.bestOverallValue;
      if Greater(gaMaxValue, bestMethod.value) {
        bestMethod := BestMethod(GeneticName, gaMaxValue, GeneticKind(gaReportData.value.bestConfiguration));
      }
    }
  }
}
