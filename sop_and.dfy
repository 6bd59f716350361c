/** QrySopAnd: the #and operator under the boolean models and Indri. */
module SopAnd {
  import opened Common
  import opened RetrievalModels
  import opened Sop

  /** docIteratorHasMatch: the all-policy under the two boolean models; under Indri always a match
      (and no document is cached for it); under any other model never. */
  function AndHasMatch(model: ModelKind, args: seq<ArgView>): (r: bool)
    ensures (model.UnrankedBoolean? || model.RankedBoolean?) ==> (r <==> MatchAll(args).Some?)
    ensures model.Indri? ==> r
    ensures (model.BM25? || model.Letor?) ==> !r
  {
    if model.UnrankedBoolean? || model.RankedBoolean? then MatchAll(args).Some?
    else model.Indri?
  }

  predicate AllMatch(args: seq<ArgView>, docId: int)
  {
    forall i :: 0 <= i < |args| ==> MatchesDoc(args[i], docId)
  }

  /** The smallest argument score, starting from Double.MAX_VALUE. */
  function MinScore(args: seq<ArgView>): (r: real)
    ensures r <= MAX_DOUBLE
    ensures forall i :: 0 <= i < |args| ==> r <= args[i].score
    ensures r == MAX_DOUBLE || exists i :: 0 <= i < |args| && r == args[i].score
  {
    if |args| == 0 then MAX_DOUBLE
    else
      var n := |args| - 1;
      var m := MinScore(args[..n]);
      assert forall i :: 0 <= i < n ==> args[..n][i] == args[i];
      if args[n].score < m then args[n].score else m
  }

  /** The ranked-boolean #and score: Double.MAX_VALUE when the operator has no cached match, 0 when
      some argument does not match the cached document, and otherwise the smallest argument score
      (capped at Double.MAX_VALUE). */
  function RankedAnd(cached: Option<int>, args: seq<ArgView>): real
  {
    if cached.None? then MAX_DOUBLE
    else if AllMatch(args, cached.value) then MinScore(args)
    else 0.0
  }

  /** getScoreRankedBoolean: the MIN loop, which stops with 0 at the first argument that does not
      match the operator's document. */
  method GetScoreRankedBoolean(cached: Option<int>, args: seq<ArgView>) returns (score: real)
    ensures score == RankedAnd(cached, args)
  {
    score := MAX_DOUBLE;
    if cached.Some? {
      var docId := cached.value;
      var i := 0;
      while i < |args|
        invariant 0 <= i <= |args|
        invariant AllMatch(args[..i], docId)
        invariant score == MinScore(args[..i])
      {
        if !args[i].hasMatch || docId != args[i].docid {
          score := 0.0;
          return;
        }
        assert args[..i + 1][..i] == args[..i];
        if args[i].score < score {
          score := args[i].score;
        }
        i := i + 1;
      }
      assert args[..|args|] == args;
    }
  }

  /** getScoreUnrankedBoolean: the ranked score collapsed to 1 or 0. */
  method GetScoreUnrankedBoolean(cached: Option<int>, args: seq<ArgView>) returns (score: real)
    ensures score == Collapse(RankedAnd(cached, args))
  {
    var ranked := GetScoreRankedBoolean(cached, args);
    score := if ranked > 0.0 then 1.0 else 0.0;
  }

  /** With a cached match, the unranked #and is a conjunction: 1 exactly when every argument
      matches the document with a positive score. */
  lemma UnrankedAndIsConjunction(docId: int, args: seq<ArgView>)
    ensures Collapse(RankedAnd(Some(docId), args)) == 1.0 <==>
      AllMatch(args, docId) && forall i :: 0 <= i < |args| ==> args[i].score > 0.0
  {
    if AllMatch(args, docId) && forall i :: 0 <= i < |args| ==> args[i].score > 0.0 {
      var m := MinScore(args);
      if m != MAX_DOUBLE {
        var i :| 0 <= i < |args| && m == args[i].score;
        assert m > 0.0;
      }
    }
  }

  /** The ranked #and score is never above an argument's score at a document every argument
      matches, and is 0 as soon as one argument misses it. */
  lemma RankedAndBounds(docId: int, args: seq<ArgView>)
    ensures AllMatch(args, docId) ==> forall i :: 0 <= i < |args| ==> RankedAnd(Some(docId), args) <= args[i].score
    ensures !AllMatch(args, docId) ==> RankedAnd(Some(docId), args) == 0.0
  {
  }

  /** getScoreIndri, as a definition: 1 without a cached match; otherwise the product over all
      arguments of pow(score or default score, 1/k). */
  function IndriAnd(cached: Option<int>, args: seq<ArgView>, pow: (real, real) -> real): real
  {
    if cached.None? then 1.0
    else PowerProduct(Contributions(args, cached.value), Uniform(|args|), pow)
  }

  method GetScoreIndri(cached: Option<int>, args: seq<ArgView>, pow: (real, real) -> real) returns (score: real)
    ensures score == IndriAnd(cached, args, pow)
  {
    score := 1.0;
    if cached.Some? {
      var docId := cached.value;
      ghost var bases := Contributions(args, docId);
      ghost var exponents := Uniform(|args|);
      for i := 0 to |args|
        invariant score == PowerProduct(bases[..i], exponents[..i], pow)
      {
        var power := 1.0 / (|args| as real);
        var base := if !args[i].hasMatch || docId != args[i].docid then args[i].defaultScore else args[i].score;
        PowerProductPrefix(bases, exponents, i, pow);
        score := score * pow(base, power);
      }
      assert bases[..|args|] == bases;
      assert exponents[..|args|] == exponents;
    }
  }

  /** getDefaultScore of #and without the cache: the product of pow(default score, 1/k). */
  function AndDefault(args: seq<ArgView>, pow: (real, real) -> real): real
  {
    PowerProduct(Defaults(args), Uniform(|args|), pow)
  }

  /** An #and none of whose arguments matches its document scores exactly its default score. */
  lemma IndriAndWithoutMatchesIsDefault(docId: int, args: seq<ArgView>, pow: (real, real) -> real)
    requires forall i :: 0 <= i < |args| ==> !MatchesDoc(args[i], docId)
    ensures IndriAnd(Some(docId), args, pow) == AndDefault(args, pow)
  {
    assert Contributions(args, docId) == Defaults(args);
  }

  /** getDefaultScore with its cache, as a definition: the answer and the new cache contents.  A
      cache that holds anything but Double.MIN_VALUE is answered as it is; otherwise Indri
      computes the default score and stores it, and any other model is refused. */
  function DefaultScoreStep(cache: real, model: ModelKind, args: seq<ArgView>, pow: (real, real) -> real): (Result<real>, real)
  {
    if cache != MIN_DOUBLE then (Ok(cache), cache)
    else if model.Indri? then (Ok(AndDefault(args, pow)), AndDefault(args, pow))
    else (Err(IllegalArgument(ClassName(model) + " doesn't support the default score for AND operator.")), cache)
  }

  /** Once a default score other than Double.MIN_VALUE has been stored, every later call answers
      it, whatever the model and whatever the arguments' default scores then are. */
  lemma DefaultScoreIsCached(cache: real, model: ModelKind, args: seq<ArgView>, model': ModelKind, args': seq<ArgView>, pow: (real, real) -> real)
    requires DefaultScoreStep(cache, model, args, pow).0.Ok?
    requires DefaultScoreStep(cache, model, args, pow).0.value != MIN_DOUBLE
    ensures DefaultScoreStep(DefaultScoreStep(cache, model, args, pow).1, model', args', pow).0
         == DefaultScoreStep(cache, model, args, pow).0
  {
  }

  /** The product loop of getDefaultScore: pow(default score, 1/k) over the arguments. */
  method DefaultProduct(args: seq<ArgView>, pow: (real, real) -> real) returns (score: real)
    ensures score == AndDefault(args, pow)
  {
    score := 1.0;
    ghost var bases := Defaults(args);
    ghost var exponents := Uniform(|args|);
    for i := 0 to |args|
      invariant score == PowerProduct(bases[..i], exponents[..i], pow)
    {
      var power := 1.0 / (|args| as real);
      PowerProductPrefix(bases, exponents, i, pow);
      score := score * pow(args[i].defaultScore, power);
    }
    assert bases[..|args|] == bases;
    assert exponents[..|args|] == exponents;
  }

  /** getDefaultScore: the cache is read and written through the operator's state. */
  method GetDefaultScore(st: QrySopState, model: ModelKind, args: seq<ArgView>, pow: (real, real) -> real)
    returns (r: Result<real>)
    modifies st
    ensures (r, st.defaultScore) == DefaultScoreStep(old(st.defaultScore), model, args, pow)
    ensures st.queryTermFrequencies == old(st.queryTermFrequencies)
  {
    if st.defaultScore != MIN_DOUBLE {
      return Ok(st.defaultScore);
    }
    if model.Indri? {
      var score := DefaultProduct(args, pow);
      st.defaultScore := score;
      return Ok(st.defaultScore);
    }
    return Err(IllegalArgument(ClassName(model) + " doesn't support the default score for AND operator."));
  }

  /** getScore: dispatch on the model; models other than the boolean ones and Indri are refused. */
  method GetScore(model: ModelKind, cached: Option<int>, args: seq<ArgView>, pow: (real, real) -> real)
    returns (r: Result<real>)
    ensures model.UnrankedBoolean? ==> r == Ok(Collapse(RankedAnd(cached, args)))
    ensures model.RankedBoolean? ==> r == Ok(RankedAnd(cached, args))
    ensures model.Indri? ==> r == Ok(IndriAnd(cached, args, pow))
    ensures (model.BM25? || model.Letor?) ==>
      r == Err(IllegalArgument(ClassName(model) + " doesn't support the AND operator."))
  {
    if model.UnrankedBoolean? {
      var s := GetScoreUnrankedBoolean(cached, args);
      r := Ok(s);
    } else if model.RankedBoolean? {
      var s := GetScoreRankedBoolean(cached, args);
      r := Ok(s);
    } else if model.Indri? {
      var s := GetScoreIndri(cached, args, pow);
      r := Ok(s);
    } else {
      r := Err(IllegalArgument(ClassName(model) + " doesn't support the AND operator."));
    }
  }
}
