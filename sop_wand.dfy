/** QrySopWeightedAnd: the #wand operator of Indri.  Its docIteratorHasMatch is
    Sop.WeightedHasMatch, its toString Sop.WeightedToString, its addWeight QueryTree.AddWeight.
    Argument i contributes one factor pow(score or default score, weights[i] / sumOfWeights). */
module SopWAnd {
  import opened Common
  import opened QueryTree
  import opened RetrievalModels
  import opened Sop

  /** getScoreIndri, as a definition: 1 without a cached match; a failure when an argument has no
      weight; otherwise the product of the weighted factors. */
  function IndriWAnd(cached: Option<int>, args: seq<ArgView>, weights: seq<real>, sumOfWeights: real, pow: (real, real) -> real): Result<real>
    requires cached.Some? && |args| > 0 ==> sumOfWeights != 0.0
  {
    if cached.None? || |args| == 0 then Ok(1.0)
    else if |weights| < |args| then Err(IndexOutOfBounds)
    else Ok(PowerProduct(Contributions(args, cached.value), Normalized(weights[..|args|], sumOfWeights), pow))
  }

  method GetScoreIndri(cached: Option<int>, args: seq<ArgView>, weights: seq<real>, sumOfWeights: real, pow: (real, real) -> real)
    returns (r: Result<real>)
    requires cached.Some? && |args| > 0 ==> sumOfWeights != 0.0
    ensures r == IndriWAnd(cached, args, weights, sumOfWeights, pow)
  {
    var score := 1.0;
    if cached.Some? && |args| > 0 {
      var docId := cached.value;
      ghost var bases := Contributions(args, docId);
      for i := 0 to |args|
        invariant i <= |weights|
        invariant score == PowerProduct(bases[..i], Normalized(weights[..i], sumOfWeights), pow)
      {
        if i >= |weights| {
          return Err(IndexOutOfBounds);
        }
        var power := weights[i] / sumOfWeights;
        var base := if !args[i].hasMatch || docId != args[i].docid then args[i].defaultScore else args[i].score;
        assert bases[i] == base;
        NormalizedPowerPrefix(bases, weights, i, sumOfWeights, pow);
        score := score * pow(base, power);
      }
      assert bases[..|args|] == bases;
    }
    return Ok(score);
  }

  /** getDefaultScore without a document: the product of pow(default score, weights[i] / sum). */
  function WAndDefault(args: seq<ArgView>, weights: seq<real>, sumOfWeights: real, pow: (real, real) -> real): Result<real>
    requires |args| > 0 ==> sumOfWeights != 0.0
  {
    if |args| == 0 then Ok(1.0)
    else if |weights| < |args| then Err(IndexOutOfBounds)
    else Ok(PowerProduct(Defaults(args), Normalized(weights[..|args|], sumOfWeights), pow))
  }

  method GetDefaultScore(model: ModelKind, args: seq<ArgView>, weights: seq<real>, sumOfWeights: real, pow: (real, real) -> real)
    returns (r: Result<real>)
    requires model.Indri? && |args| > 0 ==> sumOfWeights != 0.0
    ensures model.Indri? ==> r == WAndDefault(args, weights, sumOfWeights, pow)
    ensures !model.Indri? ==>
      r == Err(IllegalArgument(ClassName(model) + " doesn't support the default score for AND operator."))
  {
    if !model.Indri? {
      return Err(IllegalArgument(ClassName(model) + " doesn't support the default score for AND operator."));
    }
    var score := 1.0;
    ghost var bases := Defaults(args);
    for i := 0 to |args|
      invariant i <= |weights|
      invariant score == PowerProduct(bases[..i], Normalized(weights[..i], sumOfWeights), pow)
    {
      if i >= |weights| {
        return Err(IndexOutOfBounds);
      }
      var power := weights[i] / sumOfWeights;
      assert bases[i] == args[i].defaultScore;
      NormalizedPowerPrefix(bases, weights, i, sumOfWeights, pow);
      score := score * pow(args[i].defaultScore, power);
    }
    assert bases[..|args|] == bases;
    return Ok(score);
  }

  /** getScore: only Indri is supported. */
  method GetScore(model: ModelKind, cached: Option<int>, args: seq<ArgView>, weights: seq<real>, sumOfWeights: real, pow: (real, real) -> real)
    returns (r: Result<real>)
    requires model.Indri? && cached.Some? && |args| > 0 ==> sumOfWeights != 0.0
    ensures model.Indri? ==> r == IndriWAnd(cached, args, weights, sumOfWeights, pow)
    ensures !model.Indri? ==> r == Err(IllegalArgument(ClassName(model) + " doesn't support the WAND operator."))
  {
    if model.Indri? {
      r := GetScoreIndri(cached, args, weights, sumOfWeights, pow);
    } else {
      r := Err(IllegalArgument(ClassName(model) + " doesn't support the WAND operator."));
    }
  }

  /** On a #wand whose weights are in lock-step with its arguments, scoring never fails, and the
      exponents of the factors add up to 1. */
  lemma LockStepWAndExponents(q: Qry, cached: Option<int>, args: seq<ArgView>, pow: (real, real) -> real)
    requires IsWeighted(q) && NodeWeightsOk(q) && q.sumOfWeights != 0.0
    requires |args| == |q.args|
    ensures IndriWAnd(cached, args, q.weights, q.sumOfWeights, pow).Ok?
    ensures WAndDefault(args, q.weights, q.sumOfWeights, pow).Ok?
    ensures SumReals(Normalized(q.weights[..|args|], q.sumOfWeights)) == 1.0
  {
    assert q.weights[..|args|] == q.weights;
    NormalizedSumsToOne(q.weights, q.sumOfWeights);
  }

  /** After the rewrite pass drops the argument-less first argument of
      `#wand(0.3 #syn() 0.7 dog)` as written, the surviving term is scored with exponent 0.3 (the
      dropped argument's weight over the old sum); with the weight dropped alongside it, the
      exponent is 1, as for a single-argument #wand. */
  lemma RemovalShiftsWAndExponent()
    ensures var q := Op(WAnd, "#wand", [NewOp(Syn, "#syn"), Term("dog", "body")], [0.3, 0.7], 1.0);
            var asWritten := RemoveArgAsWritten(q, 0);
            var corrected := RemoveArg(q, 0);
            Normalized(asWritten.weights[..1], asWritten.sumOfWeights) == [0.3]
            && Normalized(corrected.weights[..1], corrected.sumOfWeights) == [1.0]
  {
    var q := Op(WAnd, "#wand", [NewOp(Syn, "#syn"), Term("dog", "body")], [0.3, 0.7], 1.0);
    var corrected := RemoveArg(q, 0);
    assert corrected.weights == [0.7];
    assert corrected.sumOfWeights == 0.7;
  }
}
