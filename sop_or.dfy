/** QrySopOr: the #or operator under the boolean models, with an Indri default score.  Its
    docIteratorHasMatch is the min-policy under every model (Sop.MatchMin). */
module SopOr {
  import opened Common
  import opened RetrievalModels
  import opened Sop

  /** The largest score among the arguments that match the document, starting from 0. */
  function MaxMatching(args: seq<ArgView>, docId: int): (r: real)
    ensures r >= 0.0
    ensures forall i :: 0 <= i < |args| && MatchesDoc(args[i], docId) ==> args[i].score <= r
    ensures r > 0.0 ==> exists i :: 0 <= i < |args| && MatchesDoc(args[i], docId) && args[i].score == r
  {
    if |args| == 0 then 0.0
    else
      var n := |args| - 1;
      var m := MaxMatching(args[..n], docId);
      assert forall i :: 0 <= i < n ==> args[..n][i] == args[i];
      if MatchesDoc(args[n], docId) && args[n].score > m then args[n].score else m
  }

  /** The ranked-boolean #or score: 0 without a cached match, otherwise the largest score of an
      argument matching the cached document (0 when none does). */
  function RankedOr(cached: Option<int>, args: seq<ArgView>): real
  {
    if cached.None? then 0.0 else MaxMatching(args, cached.value)
  }

  /** getScoreRankedBoolean: the MAX loop over the arguments that match. */
  method GetScoreRankedBoolean(cached: Option<int>, args: seq<ArgView>) returns (score: real)
    ensures score == RankedOr(cached, args)
  {
    score := 0.0;
    if cached.Some? {
      var docId := cached.value;
      for i := 0 to |args|
        invariant score == MaxMatching(args[..i], docId)
      {
        assert args[..i + 1][..i] == args[..i];
        if args[i].hasMatch && docId == args[i].docid {
          if args[i].score > score {
            score := args[i].score;
          }
        }
      }
      assert args[..|args|] == args;
    }
  }

  /** getScoreUnrankedBoolean: the ranked score collapsed to 1 or 0. */
  method GetScoreUnrankedBoolean(cached: Option<int>, args: seq<ArgView>) returns (score: real)
    ensures score == Collapse(RankedOr(cached, args))
  {
    var ranked := GetScoreRankedBoolean(cached, args);
    score := if ranked > 0.0 then 1.0 else 0.0;
  }

  /** With a cached match, the unranked #or is a disjunction: 1 exactly when some argument
      matches the document with a positive score. */
  lemma UnrankedOrIsDisjunction(docId: int, args: seq<ArgView>)
    ensures Collapse(RankedOr(Some(docId), args)) == 1.0 <==>
      exists i :: 0 <= i < |args| && MatchesDoc(args[i], docId) && args[i].score > 0.0
  {
    if exists i :: 0 <= i < |args| && MatchesDoc(args[i], docId) && args[i].score > 0.0 {
      var i :| 0 <= i < |args| && MatchesDoc(args[i], docId) && args[i].score > 0.0;
      assert MaxMatching(args, docId) >= args[i].score;
    }
  }

  function Complements(args: seq<ArgView>): (r: seq<real>)
    ensures |r| == |args|
    ensures forall i :: 0 <= i < |args| ==> r[i] == 1.0 - args[i].defaultScore
  {
    seq(|args|, i requires 0 <= i < |args| => 1.0 - args[i].defaultScore)
  }

  /** The Indri default score of #or: 1 - the product of (1 - default score) over the arguments. */
  function OrDefault(args: seq<ArgView>): real
  {
    1.0 - ProductReals(Complements(args))
  }

  /** getDefaultScore: the product loop under Indri; every other model is refused (with the
      message the source uses, which names the AND operator). */
  method GetDefaultScore(model: ModelKind, args: seq<ArgView>) returns (r: Result<real>)
    ensures model.Indri? ==> r == Ok(OrDefault(args))
    ensures !model.Indri? ==>
      r == Err(IllegalArgument(ClassName(model) + " doesn't support the default score for AND operator."))
  {
    if model.Indri? {
      var score := 1.0;
      ghost var factors := Complements(args);
      for i := 0 to |args|
        invariant score == ProductReals(factors[..i])
      {
        assert factors[..i + 1] == factors[..i] + [1.0 - args[i].defaultScore];
        ProductRealsAppend(factors[..i], 1.0 - args[i].defaultScore);
        score := score * (1.0 - args[i].defaultScore);
      }
      assert factors[..|args|] == factors;
      score := 1.0 - score;
      return Ok(score);
    }
    return Err(IllegalArgument(ClassName(model) + " doesn't support the default score for AND operator."));
  }

  lemma {:induction false} ProductOfUnitInterval(s: seq<real>)
    requires forall i :: 0 <= i < |s| ==> 0.0 <= s[i] <= 1.0
    ensures 0.0 <= ProductReals(s) <= 1.0
  {
    if |s| > 0 {
      var p := s[..|s| - 1];
      assert forall i :: 0 <= i < |p| ==> p[i] == s[i];
      ProductOfUnitInterval(p);
      var a, x := ProductReals(p), s[|s| - 1];
      MulUnit(a, x);
    }
  }

  lemma MulUnit(a: real, x: real)
    requires 0.0 <= a <= 1.0 && 0.0 <= x <= 1.0
    ensures 0.0 <= a * x <= a
  {
    assert a * (1.0 - x) >= 0.0;
  }

  lemma {:induction false} ProductWithZero(s: seq<real>, j: nat)
    requires j < |s| && s[j] == 0.0
    ensures ProductReals(s) == 0.0
  {
    if j < |s| - 1 {
      assert s[..|s| - 1][j] == s[j];
      ProductWithZero(s[..|s| - 1], j);
    }
  }

  /** Default scores that are probabilities give a probability; an argument that is certain
      (default score 1) makes the #or certain; an #or without arguments has default score 0. */
  lemma OrDefaultIsProbability(args: seq<ArgView>)
    requires forall i :: 0 <= i < |args| ==> 0.0 <= args[i].defaultScore <= 1.0
    ensures 0.0 <= OrDefault(args) <= 1.0
    ensures (exists j :: 0 <= j < |args| && args[j].defaultScore == 1.0) ==> OrDefault(args) == 1.0
    ensures |args| == 0 ==> OrDefault(args) == 0.0
  {
    ProductOfUnitInterval(Complements(args));
    if exists j :: 0 <= j < |args| && args[j].defaultScore == 1.0 {
      var j :| 0 <= j < |args| && args[j].defaultScore == 1.0;
      ProductWithZero(Complements(args), j);
    }
  }

  /** getScore: only the two boolean models are supported. */
  method GetScore(model: ModelKind, cached: Option<int>, args: seq<ArgView>) returns (r: Result<real>)
    ensures model.UnrankedBoolean? ==> r == Ok(Collapse(RankedOr(cached, args)))
    ensures model.RankedBoolean? ==> r == Ok(RankedOr(cached, args))
    ensures !(model.UnrankedBoolean? || model.RankedBoolean?) ==>
      r == Err(IllegalArgument(ClassName(model) + " doesn't support the OR operator."))
  {
    if model.UnrankedBoolean? {
      var s := GetScoreUnrankedBoolean(cached, args);
      r := Ok(s);
    } else if model.RankedBoolean? {
      var s := GetScoreRankedBoolean(cached, args);
      r := Ok(s);
    } else {
      r := Err(IllegalArgument(ClassName(model) + " doesn't support the OR operator."));
    }
  }
}
