/**
 * `handleAllMethods` (frontend/src/pages/Reports/utils/handleAllMethods.ts):
 * one call to the combined endpoint, one extra "try again" call with twice
 * the iteration bound, and a list of tagged results built from whichever
 * fields came back. Any exception yields the empty list.
 *
 * The two HTTP requests are the inputs `sendAll` and `sendTry`.
 */
module AllMethods {

  import opened Basics
  import opened ReportTypes

  /** The request for the 2N variant: the same instance with `Tmax` doubled. */
  function SecondRequest(payload: AllMethodsParams): (r: SlopeTryParams)
    ensures r.tmax == 2 * payload.tmax
    ensures r.base == payload.base
  {
    SlopeTryParams(payload.base, payload.tmax * 2)
  }

  /** The tagged item for a response field, or nothing when the field is missing. */
  function Present(tag: string, field: Option<MethodResponse>): seq<MethodItem>
  {
    if field.Some? then [MethodItem(tag, field.value.solutions, field.value.currentValues)] else []
  }

  /** The items of two successful calls: the present fields in the fixed tag order. */
  function Items(response: AllResponse, second: Option<MethodResponse>): seq<MethodItem>
  {
    Present(SlopeClimbingTag, response.slopeClimbing)
      + Present(SlopeClimbingTryAgainTag, response.slopeClimbingTry)
      + Present(TemperaTag, response.temperature)
      + Present(SlopeClimbingTryAgain2NTag, second)
  }

  /** The field of the two responses that a tag reads. */
  function FieldFor(tag: string, response: AllResponse, second: Option<MethodResponse>): Option<MethodResponse>
  {
    if tag == SlopeClimbingTag then response.slopeClimbing
    else if tag == SlopeClimbingTryAgainTag then response.slopeClimbingTry
    else if tag == TemperaTag then response.temperature
    else if tag == SlopeClimbingTryAgain2NTag then second
    else None
  }

  /** An item is present for a tag exactly when its field is, and it carries that field's values unchanged. */
  lemma ItemsPresentIff(response: AllResponse, second: Option<MethodResponse>, tag: string)
    requires tag in MethodTags
    ensures (exists k :: 0 <= k < |Items(response, second)| && Items(response, second)[k].tag == tag)
        <==> FieldFor(tag, response, second).Some?
    ensures forall k :: 0 <= k < |Items(response, second)| && Items(response, second)[k].tag == tag ==>
        var f := FieldFor(tag, response, second).value;
        Items(response, second)[k] == MethodItem(tag, f.solutions, f.currentValues)
  {
    var items := Items(response, second);
    if FieldFor(tag, response, second).Some? {
      var k := IndexOfTag(tag, response, second);
    }
  }

  /** Where the item of a present field sits: after the present fields of earlier tags. */
  lemma IndexOfTag(tag: string, response: AllResponse, second: Option<MethodResponse>) returns (k: nat)
    requires tag in MethodTags && FieldFor(tag, response, second).Some?
    ensures k < |Items(response, second)| && Items(response, second)[k].tag == tag
  {
    var a := Present(SlopeClimbingTag, response.slopeClimbing);
    var b := Present(SlopeClimbingTryAgainTag, response.slopeClimbingTry);
    var c := Present(TemperaTag, response.temperature);
    var d := Present(SlopeClimbingTryAgain2NTag, second);
    assert Items(response, second) == a + b + c + d;
    if tag == SlopeClimbingTag {
      k := 0;
    } else if tag == SlopeClimbingTryAgainTag {
      k := |a|;
    } else if tag == TemperaTag {
      k := |a| + |b|;
    } else {
      k := |a| + |b| + |c|;
    }
  }

  /** Every tag is one of the four, each tag appears at most once, and they keep the fixed order. */
  lemma ItemsOrderedDistinct(response: AllResponse, second: Option<MethodResponse>)
    ensures |Items(response, second)| <= 4
    ensures forall k :: 0 <= k < |Items(response, second)| ==> Items(response, second)[k].tag in MethodTags
    ensures forall i, j :: 0 <= i < j < |Items(response, second)| ==>
      TagRank(Items(response, second)[i].tag) < TagRank(Items(response, second)[j].tag)
    ensures forall i, j :: 0 <= i < j < |Items(response, second)| ==>
      Items(response, second)[i].tag != Items(response, second)[j].tag
  {
    var a := Present(SlopeClimbingTag, response.slopeClimbing);
    var b := Present(SlopeClimbingTryAgainTag, response.slopeClimbingTry);
    var c := Present(TemperaTag, response.temperature);
    var d := Present(SlopeClimbingTryAgain2NTag, second);
    var items := a + b + c + d;
    assert Items(response, second) == items;
    forall k | 0 <= k < |items|
      ensures TagRank(items[k].tag) == RankOfPosition(|a|, |b|, |c|, k)
    {
    }
  }

  /** The position of a tag in the fixed order. */
  function TagRank(tag: string): nat
  {
    if tag == SlopeClimbingTag then 0
    else if tag == SlopeClimbingTryAgainTag then 1
    else if tag == TemperaTag then 2
    else 3
  }

  /** The rank of the item at position `k` of `a + b + c + d`, where each part has at most one item. */
  function RankOfPosition(la: nat, lb: nat, lc: nat, k: nat): nat
  {
    if k < la then 0 else if k < la + lb then 1 else if k < la + lb + lc then 2 else 3
  }

  /**
   * handleAllMethods: the empty list when either call throws; otherwise the
   * items of the present fields in the order slope_climbing,
   * slope_climbing_try_again, tempera, slope_climbing_try_again_2n, the last
   * one coming from the second call, made with `Tmax` doubled.
   */
  method HandleAllMethods(payload: AllMethodsParams,
                          sendAll: AllMethodsParams -> Call<AllResponse>,
                          sendTry: SlopeTryParams -> Call<Option<MethodResponse>>)
    returns (results: seq<MethodItem>)
    ensures sendAll(payload).Threw? || sendTry(SecondRequest(payload)).Threw? ==> results == []
    ensures sendAll(payload).Returned? && sendTry(SecondRequest(payload)).Returned? ==>
      results == Items(sendAll(payload).value, sendTry(SecondRequest(payload)).value)
    ensures |results| <= 4
    ensures forall k :: 0 <= k < |results| ==> results[k].tag in MethodTags
    ensures forall i, j :: 0 <= i < j < |results| ==> results[i].tag != results[j].tag
  {
    var reply := sendAll(payload);
    if reply.Threw? {
      return [];
    }
    var response := reply.value;
    var secondReply := sendTry(SlopeTryParams(payload.base, payload.tmax * 2));
    if secondReply.Threw? {
      return [];
    }
    var slope2NResponse := secondReply.value;
    results := [];
    if response.slopeClimbing.Some? {
      results := results + [MethodItem(SlopeClimbingTag, response.slopeClimbing.value.solutions,
                                       response.slopeClimbing.value.currentValues)];
    }
    if response.slopeClimbingTry.Some? {
      results := results + [MethodItem(SlopeClimbingTryAgainTag, response.slopeClimbingTry.value.solutions,
                                       response.slopeClimbingTry.value.currentValues)];
    }
    if response.temperature.Some? {
      results := results + [MethodItem(TemperaTag, response.temperature.value.solutions,
                                       response.temperature.value.currentValues)];
    }
    if slope2NResponse.Some? {
      results := results + [MethodItem(SlopeClimbingTryAgain2NTag, slope2NResponse.value.solutions,
                                       slope2NResponse.value.currentValues)];
    }
    assert results == Items(response, slope2NResponse);
    ItemsOrderedDistinct(response, slope2NResponse);
  }
}
