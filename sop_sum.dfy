/** QrySopSum: the #sum operator of BM25.  Its docIteratorHasMatch is the min-policy
    (Sop.MatchMin).  Scoring refills the operator's tally from its arguments and then walks the
    tally's key set, so an argument that occurs several times is scored once, with its count. */
module SopSum {
  import opened Common
  import opened QueryTree
  import opened Tally
  import opened RetrievalModels
  import opened Sop
  import SopAnd

  function Nodes(args: seq<ArgView>): (r: seq<Qry>)
    ensures |r| == |args|
    ensures forall i :: 0 <= i < |args| ==> r[i] == args[i].node
  {
    seq(|args|, i requires 0 <= i < |args| => args[i].node)
  }

  predicate IsScoreNode(q: Qry)
  {
    q.Op? && q.kind.Score?
  }

  /** What one tally entry adds to the score: nothing unless its node matches the operator's
      document; a #score node adds its user-weighted score for its count (getUserWeightedScore,
      a parameter here), any other node its own score. */
  function Contribution(v: ArgView, qtf: int, docId: int, userWeighted: (ArgView, real) -> real): real
  {
    if !MatchesDoc(v, docId) then 0.0
    else if IsScoreNode(v.node) then userWeighted(v, qtf as real)
    else v.score
  }

  /** The contribution of the tally entry for key k: the node the map keeps is the first argument
      with that key, and its count is the number of arguments with that key. */
  function KeyContribution(args: seq<ArgView>, k: QryKey, docId: int, userWeighted: (ArgView, real) -> real): real
    requires HasKey(Nodes(args), k)
  {
    Contribution(args[FirstIndex(Nodes(args), k)], Occurrences(Nodes(args), k), docId, userWeighted)
  }

  /** The sum of the contributions of a set of keys; the order a HashMap visits them in does not
      matter (KeySumPick). */
  ghost function KeySum(ks: set<QryKey>, args: seq<ArgView>, docId: int, userWeighted: (ArgView, real) -> real): real
    requires forall k :: k in ks ==> HasKey(Nodes(args), k)
    decreases ks
  {
    if ks == {} then 0.0
    else
      var k :| k in ks;
      KeyContribution(args, k, docId, userWeighted) + KeySum(ks - {k}, args, docId, userWeighted)
  }

  /** Any key can be taken out of the sum first. */
  lemma KeySumPick(ks: set<QryKey>, x: QryKey, args: seq<ArgView>, docId: int, userWeighted: (ArgView, real) -> real)
    requires forall k :: k in ks ==> HasKey(Nodes(args), k)
    requires x in ks
    ensures KeySum(ks, args, docId, userWeighted)
         == KeyContribution(args, x, docId, userWeighted) + KeySum(ks - {x}, args, docId, userWeighted)
    decreases ks
  {
    var y :| y in ks && KeySum(ks, args, docId, userWeighted)
                        == KeyContribution(args, y, docId, userWeighted) + KeySum(ks - {y}, args, docId, userWeighted);
    if y != x {
      KeySumPick(ks - {y}, x, args, docId, userWeighted);
      KeySumPick(ks - {x}, y, args, docId, userWeighted);
      assert ks - {y} - {x} == ks - {x} - {y};
    }
  }

  /** The score getScoreBM25 computes: the sum over the distinct arguments. */
  ghost function SumScore(args: seq<ArgView>, docId: int, userWeighted: (ArgView, real) -> real): real
  {
    var tally := TallyOf(Nodes(args));
    assert forall k :: k in tally.Keys ==> HasKey(Nodes(args), k) by {
      forall k | k in tally.Keys ensures HasKey(Nodes(args), k) {
        TallyOfCounts(Nodes(args), k);
      }
    }
    KeySum(tally.Keys, args, docId, userWeighted)
  }

  /** The first half of getScoreBM25: clear the tally and add every argument to it. */
  method RefillTally(st: QrySopState, args: seq<ArgView>)
    modifies st
    ensures st.queryTermFrequencies == TallyOf(Nodes(args))
    ensures st.defaultScore == old(st.defaultScore)
  {
    st.ClearQueries();
    ghost var nodes := Nodes(args);
    for i := 0 to |args|
      invariant st.queryTermFrequencies == TallyOf(nodes[..i])
      invariant st.defaultScore == old(st.defaultScore)
    {
      assert nodes[..i + 1][..i] == nodes[..i];
      st.AddQuery(args[i].node);
    }
    assert nodes[..|args|] == nodes;
  }

  /** The second half of getScoreBM25: walk the key set of the refilled tally, in whatever order,
      adding each entry's contribution. */
  method SumOverTally(tally: Counts, args: seq<ArgView>, docId: int, userWeighted: (ArgView, real) -> real)
    returns (score: real)
    requires tally == TallyOf(Nodes(args))
    ensures score == SumScore(args, docId, userWeighted)
  {
    score := 0.0;
    var querySet := tally.Keys;
    assert forall k :: k in querySet ==> HasKey(Nodes(args), k) by {
      forall k | k in querySet ensures HasKey(Nodes(args), k) {
        TallyOfCounts(Nodes(args), k);
      }
    }
    var remaining := querySet;
    while remaining != {}
      invariant remaining <= querySet
      invariant score + KeySum(remaining, args, docId, userWeighted) == KeySum(querySet, args, docId, userWeighted)
      decreases remaining
    {
      var k :| k in remaining;
      KeySumPick(remaining, k, args, docId, userWeighted);
      TallyOfCounts(Nodes(args), k);
      // the node the map keeps for k is the first argument with that key
      var v := args[FirstIndex(Nodes(args), k)];
      if v.hasMatch && docId == v.docid {
        if IsScoreNode(v.node) {
          var qtf := Frequency(tally, v.node, -1);
          score := score + userWeighted(v, qtf as real);
        } else {
          score := score + v.score;
        }
      }
      remaining := remaining - {k};
    }
  }

  /** getScoreBM25: the tally is left holding the counts of the arguments. */
  method GetScoreBM25(st: QrySopState, args: seq<ArgView>, docId: int, userWeighted: (ArgView, real) -> real)
    returns (score: real)
    modifies st
    ensures st.queryTermFrequencies == TallyOf(Nodes(args))
    ensures st.defaultScore == old(st.defaultScore)
    ensures score == SumScore(args, docId, userWeighted)
  {
    RefillTally(st, args);
    score := SumOverTally(st.queryTermFrequencies, args, docId, userWeighted);
  }

  lemma {:induction false} OccurrencesOfOnlyKey(s: seq<Qry>, k: QryKey)
    requires forall i :: 0 <= i < |s| ==> KeyOf(s[i]) == k
    ensures Occurrences(s, k) == |s|
  {
    if |s| > 0 {
      var p := s[..|s| - 1];
      assert forall i :: 0 <= i < |p| ==> p[i] == s[i];
      OccurrencesOfOnlyKey(p, k);
    }
  }

  /** Arguments that are all equal are scored once, with their number as the count: a #sum of n
      copies of one #score node adds that node's user-weighted score for qtf = n. */
  lemma RepeatedArgumentScoredOnce(args: seq<ArgView>, docId: int, userWeighted: (ArgView, real) -> real)
    requires |args| > 0
    requires forall i :: 0 <= i < |args| ==> KeyOf(args[i].node) == KeyOf(args[0].node)
    ensures SumScore(args, docId, userWeighted) == Contribution(args[0], |args|, docId, userWeighted)
  {
    var nodes := Nodes(args);
    var k := KeyOf(args[0].node);
    var tally := TallyOf(nodes);
    assert HasKey(nodes, k) by {
      assert KeyOf(nodes[0]) == k;
    }
    forall k' ensures k' in tally <==> k' == k {
      TallyOfCounts(nodes, k');
    }
    assert tally.Keys == {k};
    assert forall k' :: k' in tally.Keys ==> HasKey(nodes, k');
    KeySumPick(tally.Keys, k, args, docId, userWeighted);
    assert tally.Keys - {k} == {};
    OccurrencesOfOnlyKey(nodes, k);
    assert FirstIndex(nodes, k) == 0;
  }

  /** getDefaultScore: under Indri the same product as #and (without its cache); other models are
      refused. */
  method GetDefaultScore(model: ModelKind, args: seq<ArgView>, pow: (real, real) -> real) returns (r: Result<real>)
    ensures model.Indri? ==> r == Ok(SopAnd.AndDefault(args, pow))
    ensures !model.Indri? ==>
      r == Err(IllegalArgument(ClassName(model) + " doesn't support the default score for AND operator."))
  {
    if model.Indri? {
      var score := 1.0;
      ghost var bases := Defaults(args);
      ghost var exponents := Uniform(|args|);
      for i := 0 to |args|
        invariant score == PowerProduct(bases[..i], exponents[..i], pow)
      {
        var power := 1.0 / (|args| as real);
        PowerProductPrefix(bases, exponents, i, pow);
        score := score * pow(args[i].defaultScore, power);
      }
      assert bases[..|args|] == bases;
      assert exponents[..|args|] == exponents;
      return Ok(score);
    }
    return Err(IllegalArgument(ClassName(model) + " doesn't support the default score for AND operator."));
  }

  /** getScore: only BM25 is supported. */
  method GetScore(st: QrySopState, model: ModelKind, args: seq<ArgView>, docId: int, userWeighted: (ArgView, real) -> real)
    returns (r: Result<real>)
    modifies st
    ensures model.BM25? ==> r == Ok(SumScore(args, docId, userWeighted)) && st.queryTermFrequencies == TallyOf(Nodes(args))
    ensures !model.BM25? ==>
      r == Err(IllegalArgument(ClassName(model) + " doesn't support the SUM operator.")) && st.queryTermFrequencies == old(st.queryTermFrequencies)
    ensures st.defaultScore == old(st.defaultScore)
  {
    if model.BM25? {
      var s := GetScoreBM25(st, args, docId, userWeighted);
      r := Ok(s);
    } else {
      r := Err(IllegalArgument(ClassName(model) + " doesn't support the SUM operator."));
    }
  }
}
