/**
 * `prepareMethodResults` (frontend/src/pages/Reports/utils/prepareMethodResults.ts):
 * the display list of an individual experiment, five fixed series followed by
 * one series per annealing variant, each with its `calculateStats` figures.
 */
module MethodResults {

  import opened Stats
  import opened ReportTypes
  import ReportsService

  /** `MethodResult`: a display name, the raw series and its statistics. */
  datatype MethodResult = MethodResult(name: string, data: seq<real>, stats: StatResult)

  // ---------------------------------------------------------------------------
  // `String.prototype.replace` with a string pattern

  /** `pat` occurs in `s` starting at position `i`. */
  predicate OccursAt(s: string, pat: string, i: nat)
  {
    i + |pat| <= |s| && s[i..i + |pat|] == pat
  }

  /** `s.replace(pat, '')`: the first occurrence of `pat` removed, `s` itself when there is none. */
  function RemoveFirst(s: string, pat: string): (r: string)
    ensures |r| <= |s|
    decreases |s|
  {
    if |pat| <= |s| && s[..|pat|] == pat then s[|pat|..]
    else if |s| == 0 then s
    else [s[0]] + RemoveFirst(s[1..], pat)
  }

  /** Without an occurrence of the pattern, the string is left unchanged. */
  lemma {:induction false} RemoveFirstAbsent(s: string, pat: string)
    requires forall i :: 0 <= i <= |s| ==> !OccursAt(s, pat, i)
    ensures RemoveFirst(s, pat) == s
    decreases |s|
  {
    assert !OccursAt(s, pat, 0);
    if |s| > 0 {
      forall i | 0 <= i <= |s[1..]|
        ensures !OccursAt(s[1..], pat, i)
      {
        assert !OccursAt(s, pat, i + 1);
        if i + |pat| <= |s[1..]| {
          assert s[1..][i..i + |pat|] == s[i + 1..i + 1 + |pat|];
        }
      }
      RemoveFirstAbsent(s[1..], pat);
    }
  }

  /** Only the first occurrence is removed: `p + pat + q` with no earlier start in `p` becomes `p + q`. */
  lemma {:induction false} RemoveFirstOccurrence(p: string, pat: string, q: string)
    requires forall i :: 0 <= i < |p| ==> !OccursAt(p + pat + q, pat, i)
    ensures RemoveFirst(p + pat + q, pat) == p + q
    decreases |p|
  {
    var s := p + pat + q;
    if |p| == 0 {
      assert s == pat + q;
      assert s[..|pat|] == pat;
      assert s[|pat|..] == q;
    } else {
      assert !OccursAt(s, pat, 0);
      assert s[1..] == p[1..] + pat + q;
      forall i | 0 <= i < |p[1..]|
        ensures !OccursAt(p[1..] + pat + q, pat, i)
      {
        assert !OccursAt(s, pat, i + 1);
        if i + |pat| <= |s[1..]| {
          assert s[1..][i..i + |pat|] == s[i + 1..i + 1 + |pat|];
        }
      }
      RemoveFirstOccurrence(p[1..], pat, q);
      assert [s[0]] + (p[1..] + q) == p + q;
    }
  }

  /** `'annealing03'.replace('annealing', '')` is `'03'`. */
  lemma AnnealingKeySuffix()
    ensures RemoveFirst("annealing03", "annealing") == "03"
  {
    assert "annealing03" == [] + "annealing" + "03";
    RemoveFirstOccurrence([], "annealing", "03");
  }

  // ---------------------------------------------------------------------------
  // The display list

  const InitialName := "Soluções Iniciais"
  const HillClimbingName := "Subida de Encosta"
  const HillClimbingNName := "Subida de Encosta N Tentativas"
  const HillClimbing2NName := "Subida de Encosta 2N Tentativas"
  const TemperaName := "Tempera Simulada"

  /** The name of an annealing series: `Tempera Simulada ${key.replace('annealing', '')}`. */
  function AnnealingName(key: string): string
  {
    TemperaName + " " + RemoveFirst(key, "annealing")
  }

  /** A series with its display name and the statistics of `calculateStats`. */
  function WithStats(name: string, data: seq<real>, sqrt: real -> real): (m: MethodResult)
    requires IsSqrt(sqrt)
    ensures m.name == name && m.data == data && m.stats == CalculateStats(data, sqrt)
  {
    MethodResult(name, data, CalculateStats(data, sqrt))
  }

  /**
   * prepareMethodResults: the five fixed series in the order initial
   * solutions, hill climbing, N attempts, 2N attempts, annealing, then one
   * entry per `simulatedAnnealing` key in key order; every entry carries its
   * series unchanged and that series' statistics.
   */
  function PrepareMethodResults(results: ExperimentResults, sqrt: real -> real): (r: seq<MethodResult>)
    requires IsSqrt(sqrt)
    ensures |r| == 5 + |results.simulatedAnnealing|
    ensures r[..5] == BaseResults(results, sqrt)
    ensures forall k :: 0 <= k < |results.simulatedAnnealing| ==>
      r[5 + k] == WithStats(AnnealingName(results.simulatedAnnealing[k].0), results.simulatedAnnealing[k].1, sqrt)
  {
    var base := BaseResults(results, sqrt);
    var annealing := AnnealingResults(results.simulatedAnnealing, sqrt);
    assert (base + annealing)[..5] == base;
    assert forall k :: 0 <= k < |annealing| ==> (base + annealing)[5 + k] == annealing[k];
    base + annealing
  }

  /** `baseResults`: the five fixed series in their fixed order, each with its statistics. */
  function BaseResults(results: ExperimentResults, sqrt: real -> real): (r: seq<MethodResult>)
    requires IsSqrt(sqrt)
    ensures |r| == 5
    ensures r[0] == WithStats(InitialName, results.initialSolutions, sqrt)
    ensures r[1] == WithStats(HillClimbingName, results.hillClimbing, sqrt)
    ensures r[2] == WithStats(HillClimbingNName, results.hillClimbingNAttempts, sqrt)
    ensures r[3] == WithStats(HillClimbing2NName, results.hillClimbing2NAttempts, sqrt)
    ensures r[4] == WithStats(TemperaName, results.temperaResults, sqrt)
  {
    [ WithStats(InitialName, results.initialSolutions, sqrt),
      WithStats(HillClimbingName, results.hillClimbing, sqrt),
      WithStats(HillClimbingNName, results.hillClimbingNAttempts, sqrt),
      WithStats(HillClimbing2NName, results.hillClimbing2NAttempts, sqrt),
      WithStats(TemperaName, results.temperaResults, sqrt) ]
  }

  /** `annealingResults`: one named series per key, in key order. */
  function AnnealingResults(annealing: seq<(string, seq<real>)>, sqrt: real -> real): (r: seq<MethodResult>)
    requires IsSqrt(sqrt)
    ensures |r| == |annealing|
    ensures forall k :: 0 <= k < |r| ==> r[k] == WithStats(AnnealingName(annealing[k].0), annealing[k].1, sqrt)
  {
    seq(|annealing|, k requires 0 <= k < |annealing| => WithStats(AnnealingName(annealing[k].0), annealing[k].1, sqrt))
  }

  /** An experiment of runIndividualExperiments has no tempera series, so its 'Tempera Simulada' entry shows zeros. */
  lemma EmptyTemperaStats(results: ExperimentResults, sqrt: real -> real)
    requires IsSqrt(sqrt) && results.temperaResults == []
    ensures PrepareMethodResults(results, sqrt)[4] == MethodResult(TemperaName, [], StatResult(0.0, 0.0, 0.0, 0.0))
  {
    var r := PrepareMethodResults(results, sqrt);
    assert r[4] == r[..5][4] == WithStats(TemperaName, [], sqrt);
  }

  /** The names the nine annealing variants of runIndividualExperiments are shown under. */
  const AnnealingNames: seq<string> := [
    "Tempera Simulada 01", "Tempera Simulada 02", "Tempera Simulada 03",
    "Tempera Simulada 04", "Tempera Simulada 05", "Tempera Simulada 06",
    "Tempera Simulada 07", "Tempera Simulada 08", "Tempera Simulada 09"
  ]

  /** A key that starts with 'annealing' is shown as 'Tempera Simulada ' followed by the rest of the key. */
  lemma AnnealingPrefixName(key: string)
    requires |key| >= 9 && key[..9] == "annealing"
    ensures AnnealingName(key) == TemperaName + " " + key[9..]
  {
    assert key == [] + "annealing" + key[9..];
    RemoveFirstOccurrence([], "annealing", key[9..]);
  }

  /** The nine annealing variants of runIndividualExperiments are shown as 'Tempera Simulada 01' ... '09'. */
  lemma AnnealingConfigNames()
    ensures forall j :: 0 <= j < |ReportsService.AnnealingConfigs| ==>
      AnnealingName(ReportsService.AnnealingConfigs[j].key) == AnnealingNames[j]
  {
    forall j | 0 <= j < |ReportsService.AnnealingConfigs|
      ensures AnnealingName(ReportsService.AnnealingConfigs[j].key) == AnnealingNames[j]
    {
      var key := ReportsService.AnnealingConfigs[j].key;
      assert key == "annealing0" + [['1', '2', '3', '4', '5', '6', '7', '8', '9'][j]];
      AnnealingPrefixName(key);
    }
  }

  /**
   * The experiment assembled by runIndividualExperiments, whose annealing keys
   * are those of its nine variants in order, shows fourteen entries, the
   * annealing ones named 'Tempera Simulada 01' ... 'Tempera Simulada 09'.
   */
  lemma IndividualExperimentNames(results: ExperimentResults, sqrt: real -> real)
    requires IsSqrt(sqrt)
    requires |results.simulatedAnnealing| == |ReportsService.AnnealingConfigs|
    requires forall j :: 0 <= j < |results.simulatedAnnealing| ==>
      results.simulatedAnnealing[j].0 == ReportsService.AnnealingConfigs[j].key
    ensures |PrepareMethodResults(results, sqrt)| == 14
    ensures forall j :: 0 <= j < 9 ==> PrepareMethodResults(results, sqrt)[5 + j].name == AnnealingNames[j]
  {
    AnnealingConfigNames();
  }
}
