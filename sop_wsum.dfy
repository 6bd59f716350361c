/** QrySopWeightedSum: the #wsum operator of Indri, a weighted arithmetic mean.  Its
    docIteratorHasMatch is Sop.WeightedHasMatch, its toString Sop.WeightedToString, its addWeight
    QueryTree.AddWeight.  Argument i contributes (weights[i] / sumOfWeights) times its score or
    default score. */
module SopWSum {
  import opened Common
  import opened QueryTree
  import opened RetrievalModels
  import opened Sop

  /** The sum over i of coefficients[i] * values[i], accumulated left to right. */
  function Dot(coefficients: seq<real>, values: seq<real>): real
    requires |coefficients| == |values|
  {
    if |values| == 0 then 0.0
    else
      var n := |values| - 1;
      Dot(coefficients[..n], values[..n]) + coefficients[n] * values[n]
  }

  lemma DotAppend(coefficients: seq<real>, values: seq<real>, c: real, v: real)
    requires |coefficients| == |values|
    ensures Dot(coefficients + [c], values + [v]) == Dot(coefficients, values) + c * v
  {
    assert (coefficients + [c])[..|values|] == coefficients;
    assert (values + [v])[..|values|] == values;
  }

  /** getScoreIndri, as a definition: 0 without a cached match; a failure when an argument has no
      weight; otherwise the weighted mean of the arguments' scores or default scores. */
  function IndriWSum(cached: Option<int>, args: seq<ArgView>, weights: seq<real>, sumOfWeights: real): Result<real>
    requires cached.Some? && |args| > 0 ==> sumOfWeights != 0.0
  {
    if cached.None? || |args| == 0 then Ok(0.0)
    else if |weights| < |args| then Err(IndexOutOfBounds)
    else Ok(Dot(Normalized(weights[..|args|], sumOfWeights), Contributions(args, cached.value)))
  }

  method GetScoreIndri(cached: Option<int>, args: seq<ArgView>, weights: seq<real>, sumOfWeights: real)
    returns (r: Result<real>)
    requires cached.Some? && |args| > 0 ==> sumOfWeights != 0.0
    ensures r == IndriWSum(cached, args, weights, sumOfWeights)
  {
    var score := 0.0;
    if cached.Some? && |args| > 0 {
      var docId := cached.value;
      ghost var values := Contributions(args, docId);
      for i := 0 to |args|
        invariant i <= |weights|
        invariant score == Dot(Normalized(weights[..i], sumOfWeights), values[..i])
      {
        if i >= |weights| {
          return Err(IndexOutOfBounds);
        }
        var weight := weights[i] / sumOfWeights;
        var value := if !args[i].hasMatch || docId != args[i].docid then args[i].defaultScore else args[i].score;
        assert values[..i + 1] == values[..i] + [value];
        NormalizedPrefix(weights, i, sumOfWeights);
        DotAppend(Normalized(weights[..i], sumOfWeights), values[..i], weight, value);
        score := score + weight * value;
      }
      assert values[..|args|] == values;
    }
    return Ok(score);
  }

  /** getDefaultScore: the weighted mean of the arguments' default scores. */
  function WSumDefault(args: seq<ArgView>, weights: seq<real>, sumOfWeights: real): Result<real>
    requires |args| > 0 ==> sumOfWeights != 0.0
  {
    if |args| == 0 then Ok(0.0)
    else if |weights| < |args| then Err(IndexOutOfBounds)
    else Ok(Dot(Normalized(weights[..|args|], sumOfWeights), Defaults(args)))
  }

  method GetDefaultScore(model: ModelKind, args: seq<ArgView>, weights: seq<real>, sumOfWeights: real)
    returns (r: Result<real>)
    requires model.Indri? && |args| > 0 ==> sumOfWeights != 0.0
    ensures model.Indri? ==> r == WSumDefault(args, weights, sumOfWeights)
    ensures !model.Indri? ==>
      r == Err(IllegalArgument(ClassName(model) + " doesn't support the default score for WSUM operator."))
  {
    if !model.Indri? {
      return Err(IllegalArgument(ClassName(model) + " doesn't support the default score for WSUM operator."));
    }
    var score := 0.0;
    ghost var values := Defaults(args);
    for i := 0 to |args|
      invariant i <= |weights|
      invariant score == Dot(Normalized(weights[..i], sumOfWeights), values[..i])
    {
      if i >= |weights| {
        return Err(IndexOutOfBounds);
      }
      var weight := weights[i] / sumOfWeights;
      assert values[..i + 1] == values[..i] + [args[i].defaultScore];
      NormalizedPrefix(weights, i, sumOfWeights);
      DotAppend(Normalized(weights[..i], sumOfWeights), values[..i], weight, args[i].defaultScore);
      score := score + weight * args[i].defaultScore;
    }
    assert values[..|args|] == values;
    return Ok(score);
  }

  /** getScore: only Indri is supported. */
  method GetScore(model: ModelKind, cached: Option<int>, args: seq<ArgView>, weights: seq<real>, sumOfWeights: real)
    returns (r: Result<real>)
    requires model.Indri? && cached.Some? && |args| > 0 ==> sumOfWeights != 0.0
    ensures model.Indri? ==> r == IndriWSum(cached, args, weights, sumOfWeights)
    ensures !model.Indri? ==> r == Err(IllegalArgument(ClassName(model) + " doesn't support the WSUM operator."))
  {
    if model.Indri? {
      r := GetScoreIndri(cached, args, weights, sumOfWeights);
    } else {
      r := Err(IllegalArgument(ClassName(model) + " doesn't support the WSUM operator."));
    }
  }

  /** d lies between lo and hi times total. */
  predicate ScaledBetween(lo: real, hi: real, total: real, d: real)
  {
    lo * total <= d <= hi * total
  }

  /** One more term of a combination keeps it between lo and hi times the coefficients' sum. */
  lemma BoundsStep(total: real, d: real, c: real, v: real, lo: real, hi: real, total': real, d': real)
    requires ScaledBetween(lo, hi, total, d)
    requires c >= 0.0 && lo <= v <= hi
    requires total' == total + c && d' == d + c * v
    ensures ScaledBetween(lo, hi, total', d')
  {
    assert c * (v - lo) >= 0.0;
    assert c * (hi - v) >= 0.0;
  }

  /** With non-negative coefficients, a combination of values in [lo, hi] lies between lo and hi
      times the sum of the coefficients. */
  lemma {:induction false} DotBounds(coefficients: seq<real>, values: seq<real>, lo: real, hi: real)
    requires |coefficients| == |values|
    requires forall i :: 0 <= i < |coefficients| ==> coefficients[i] >= 0.0
    requires forall i :: 0 <= i < |values| ==> lo <= values[i] <= hi
    ensures ScaledBetween(lo, hi, SumReals(coefficients), Dot(coefficients, values))
  {
    if |values| == 0 {
      assert SumReals(coefficients) == 0.0 && Dot(coefficients, values) == 0.0;
    } else {
      var n := |values| - 1;
      var cs, vs := coefficients[..n], values[..n];
      assert forall i :: 0 <= i < n ==> cs[i] == coefficients[i] && vs[i] == values[i];
      DotBounds(cs, vs, lo, hi);
      BoundsStep(SumReals(cs), Dot(cs, vs), coefficients[n], values[n], lo, hi,
                 SumReals(coefficients), Dot(coefficients, values));
    }
  }

  /** The #wsum score is a weighted mean: with non-negative weights in lock-step with the
      arguments and a positive sum, a score lies between the least and the greatest of the values
      the arguments contribute; when every argument contributes the same value, that is the score. */
  lemma WSumIsWeightedMean(q: Qry, docId: int, args: seq<ArgView>, lo: real, hi: real)
    requires IsWeighted(q) && NodeWeightsOk(q) && q.sumOfWeights > 0.0
    requires forall i :: 0 <= i < |q.weights| ==> q.weights[i] >= 0.0
    requires |args| == |q.args| > 0
    requires forall i :: 0 <= i < |args| ==> lo <= ScoreOrDefault(args[i], docId) <= hi
    ensures IndriWSum(Some(docId), args, q.weights, q.sumOfWeights).Ok?
    ensures lo <= IndriWSum(Some(docId), args, q.weights, q.sumOfWeights).value <= hi
  {
    assert q.weights[..|args|] == q.weights;
    var cs := Normalized(q.weights, q.sumOfWeights);
    forall i | 0 <= i < |cs| ensures cs[i] >= 0.0 {
      assert cs[i] == q.weights[i] / q.sumOfWeights;
    }
    NormalizedSumsToOne(q.weights, q.sumOfWeights);
    DotBounds(cs, Contributions(args, docId), lo, hi);
  }
}
