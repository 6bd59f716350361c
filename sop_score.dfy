/** QrySopScore: the #score operator, which turns the postings of its single QryIop argument into
    scores.  Its argument is seen through an IopView; the BM25 formula (the RSJ weight, the tf
    weight and the user weight, built from index statistics with Math.log) is the parameter
    `formula`, which receives the argument, its query-term frequency in the model's tally and the
    model's three parameters. */
module SopScore {
  import opened Common
  import opened QueryTree
  import opened Tally
  import opened RetrievalModels
  import opened Sop

  /** The QryIop argument as #score sees it: the node, what its docIteratorHasMatch answers, the
      document it currently matches (INVALID_DOCID when it has none) and the tf of its current
      posting. */
  datatype IopView = IopView(node: Qry, hasMatch: bool, docid: int, tf: int)

  /** docIteratorHasMatchFirst: the operator matches when its first argument does, at that
      argument's document; an operator without arguments fails on args.get(0). */
  function MatchFirst(args: seq<IopView>): (r: Result<Option<int>>)
    ensures |args| == 0 <==> r == Err(IndexOutOfBounds)
    ensures |args| > 0 ==> (r == Ok(Some(args[0].docid)) <==> args[0].hasMatch)
    ensures |args| > 0 ==> (r == Ok(None) <==> !args[0].hasMatch)
  {
    if |args| == 0 then Err(IndexOutOfBounds)
    else if args[0].hasMatch then Ok(Some(args[0].docid))
    else Ok(None)
  }

  /** getScoreRankedBoolean: the tf of the argument's current posting. */
  function RankedScore(child: IopView): real
  {
    child.tf as real
  }

  /** getScoreUnrankedBoolean: 1 when the argument's current posting has a positive tf, else 0. */
  function UnrankedScore(child: IopView): (r: real)
    ensures r == 1.0 <==> child.tf > 0
    ensures r == 0.0 <==> child.tf <= 0
  {
    if child.tf as real > 0.0 then 1.0 else 0.0
  }

  /** The unranked-boolean score of #score is the ranked one collapsed to 1 or 0, as for the
      other boolean operators. */
  lemma UnrankedIsCollapsedRanked(child: IopView)
    ensures UnrankedScore(child) == Collapse(RankedScore(child))
  {
  }

  /** getScoreBM25: 0 when the argument has no current document; otherwise the BM25 formula with
      the argument's query-term frequency, which the model's tally answers (0 for a node it never
      counted). */
  function ScoreBM25(model: RetrievalModelBM25, child: IopView, formula: (IopView, real, real, real, real) -> real): (r: real)
    reads model
    ensures child.docid == INVALID_DOCID ==> r == 0.0
    ensures child.docid != INVALID_DOCID ==>
      r == formula(child, model.GetQueryFrequency(child.node) as real, model.k_1, model.b, model.k_3)
  {
    if child.docid == INVALID_DOCID then 0.0
    else
      var qtf := model.GetQueryFrequency(child.node) as real;
      formula(child, qtf, model.k_1, model.b, model.k_3)
  }

  /** A node the model's tally never counted is scored with query-term frequency 0: it is the
      frequency a freshly constructed model answers for every node. */
  lemma UncountedNodeHasZeroQtf(model: RetrievalModelBM25, child: IopView, formula: (IopView, real, real, real, real) -> real)
    requires KeyOf(child.node) !in model.queryFrequencies
    requires child.docid != INVALID_DOCID
    ensures ScoreBM25(model, child, formula) == formula(child, 0.0, model.k_1, model.b, model.k_3)
  {
  }

  /** getScore: the two boolean models and BM25 read the first argument (and fail on an operator
      without one); every other model is refused before any argument is read. */
  function GetScore(model: ModelKind, bm25: RetrievalModelBM25, args: seq<IopView>,
                    formula: (IopView, real, real, real, real) -> real): (r: Result<real>)
    reads bm25
    ensures (model.Indri? || model.Letor?) ==>
      r == Err(IllegalArgument(ClassName(model) + " doesn't support the SCORE operator."))
    ensures !(model.Indri? || model.Letor?) ==> (r == Err(IndexOutOfBounds) <==> |args| == 0)
    ensures model.UnrankedBoolean? && |args| > 0 ==> r == Ok(UnrankedScore(args[0]))
    ensures model.RankedBoolean? && |args| > 0 ==> r == Ok(RankedScore(args[0]))
    ensures model.BM25? && |args| > 0 ==> r == Ok(ScoreBM25(bm25, args[0], formula))
  {
    if model.Indri? || model.Letor? then
      Err(IllegalArgument(ClassName(model) + " doesn't support the SCORE operator."))
    else if |args| == 0 then Err(IndexOutOfBounds)
    else if model.UnrankedBoolean? then Ok(UnrankedScore(args[0]))
    else if model.RankedBoolean? then Ok(RankedScore(args[0]))
    else Ok(ScoreBM25(bm25, args[0], formula))
  }

  /** Under the boolean models the #score of a matching argument is positive exactly when its
      posting has a positive tf, and the ranked score is never below the unranked one for a
      posting with tf at least 1. */
  lemma BooleanScoresAgree(child: IopView)
    requires child.tf >= 0
    ensures RankedScore(child) > 0.0 <==> UnrankedScore(child) == 1.0
    ensures RankedScore(child) >= UnrankedScore(child)
  {
  }
}
