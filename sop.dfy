/** What the scoring operators (QrySop and its subclasses) share: the view an operator has of its
    arguments while it scores a document, the match policies of the (unmodelled) Qry base class,
    the per-operator state (the query-term tally and the cached default score), and the
    arithmetic the Indri operators build their scores from.

    Math.pow is not modelled: the Indri operators take it as the parameter `pow`, so a score is
    stated as the product of the factors each argument contributes. */
module Sop {
  import opened Common
  import opened QueryTree
  import opened Tally

  /** One argument as its operator sees it while scoring: the argument node, what its
      docIteratorHasMatch answers and the document it then matches, the score it gives that
      document, and its Indri default score for the operator's document. */
  datatype ArgView = ArgView(node: Qry, hasMatch: bool, docid: int, score: real, defaultScore: real)

  /** The test every combinator makes: the argument has a match, and it is the operator's document. */
  predicate MatchesDoc(a: ArgView, docId: int)
  {
    a.hasMatch && a.docid == docId
  }

  /** The Indri substitution: the argument's score when it matches the operator's document,
      otherwise its default score for that document. */
  function ScoreOrDefault(a: ArgView, docId: int): real
  {
    if MatchesDoc(a, docId) then a.score else a.defaultScore
  }

  /** The value each argument contributes to an Indri score, in argument order. */
  function Contributions(args: seq<ArgView>, docId: int): (r: seq<real>)
    ensures |r| == |args|
    ensures forall i :: 0 <= i < |args| ==> r[i] == ScoreOrDefault(args[i], docId)
  {
    seq(|args|, i requires 0 <= i < |args| => ScoreOrDefault(args[i], docId))
  }

  function Defaults(args: seq<ArgView>): (r: seq<real>)
    ensures |r| == |args|
    ensures forall i :: 0 <= i < |args| ==> r[i] == args[i].defaultScore
  {
    seq(|args|, i requires 0 <= i < |args| => args[i].defaultScore)
  }

  /** docIteratorHasMatchMin: the smallest document matched by any argument, or no match when no
      argument has one. */
  function MatchMin(args: seq<ArgView>): (r: Option<int>)
    ensures r.None? <==> forall i :: 0 <= i < |args| ==> !args[i].hasMatch
    ensures r.Some? ==> exists i :: 0 <= i < |args| && MatchesDoc(args[i], r.value)
    ensures r.Some? ==> forall i :: 0 <= i < |args| && args[i].hasMatch ==> r.value <= args[i].docid
  {
    if |args| == 0 then None
    else
      var rest, a := MatchMin(args[..|args| - 1]), args[|args| - 1];
      assert forall i :: 0 <= i < |args| - 1 ==> args[..|args| - 1][i] == args[i];
      if !a.hasMatch then rest
      else if rest.None? || a.docid < rest.value then Some(a.docid)
      else rest
  }

  /** docIteratorHasMatchAll, once the arguments have stopped advancing: a match exactly when every
      argument matches one common document. */
  function MatchAll(args: seq<ArgView>): (r: Option<int>)
    ensures r.Some? <==> |args| > 0 && forall i :: 0 <= i < |args| ==> MatchesDoc(args[i], args[0].docid)
    ensures r.Some? ==> r.value == args[0].docid
  {
    if |args| > 0 && forall i :: 0 <= i < |args| ==> MatchesDoc(args[i], args[0].docid)
    then Some(args[0].docid) else None
  }

  /** A match found by the all-policy is a match of the min-policy at the same document. */
  lemma MatchAllIsMatchMin(args: seq<ArgView>)
    requires MatchAll(args).Some?
    ensures MatchMin(args) == MatchAll(args)
  {
    assert MatchesDoc(args[0], args[0].docid);
  }

  /** The unranked-boolean score built from the ranked-boolean one: 1.0 for a positive score,
      0.0 otherwise. */
  function Collapse(score: real): (r: real)
    ensures r == 1.0 <==> score > 0.0
    ensures r == 0.0 || r == 1.0
  {
    if score > 0.0 then 1.0 else 0.0
  }

  /** The state every scoring operator keeps: its query-term tally, and its cached default score,
      which holds Double.MIN_VALUE until a default score has been stored. */
  class QrySopState {
    var queryTermFrequencies: Counts
    var defaultScore: real

    constructor ()
      ensures queryTermFrequencies == map[]
      ensures defaultScore == MIN_DOUBLE
    {
      queryTermFrequencies := map[];
      defaultScore := MIN_DOUBLE;
    }

    /** addQuery: a new node is counted once, a node already present once more. */
    method AddQuery(q: Qry)
      modifies this
      ensures queryTermFrequencies == Bump(old(queryTermFrequencies), q)
      ensures defaultScore == old(defaultScore)
    {
      var k := KeyOf(q);
      if k in queryTermFrequencies {
        queryTermFrequencies := queryTermFrequencies[k := Entry(queryTermFrequencies[k].query, queryTermFrequencies[k].count + 1)];
      } else {
        queryTermFrequencies := queryTermFrequencies[k := Entry(q, 1)];
      }
    }

    /** getQueryFrequency: the count of q, or -1 for a node not in the tally. */
    function GetQueryFrequency(q: Qry): (r: int)
      reads this
      ensures KeyOf(q) !in queryTermFrequencies ==> r == -1
      ensures KeyOf(q) in queryTermFrequencies ==> r == queryTermFrequencies[KeyOf(q)].count
    {
      Frequency(queryTermFrequencies, q, -1)
    }

    function GetQueries(): set<Qry>
      reads this
    {
      Queries(queryTermFrequencies)
    }

    method ClearQueries()
      modifies this
      ensures queryTermFrequencies == map[]
      ensures defaultScore == old(defaultScore)
    {
      queryTermFrequencies := map[];
    }
  }

  /** The arguments initialize visits, in order: QrySop.initialize visits all of them, while
      QrySopScore.initialize visits only its first (and fails on an empty argument list). */
  function Initialized(q: Qry): (r: Result<seq<Qry>>)
    requires IsSop(q)
    ensures !q.kind.Score? ==> r == Ok(q.args)
    ensures q.kind.Score? && |q.args| == 0 ==> r == Err(IndexOutOfBounds)
    ensures q.kind.Score? && |q.args| > 0 ==> r == Ok([q.args[0]])
  {
    if !q.kind.Score? then Ok(q.args)
    else if |q.args| == 0 then Err(IndexOutOfBounds)
    else Ok([q.args[0]])
  }

  /** The product over i of pow(bases[i], exponents[i]), accumulated left to right. */
  function PowerProduct(bases: seq<real>, exponents: seq<real>, pow: (real, real) -> real): real
    requires |bases| == |exponents|
  {
    if |bases| == 0 then 1.0
    else PowerProduct(bases[..|bases| - 1], exponents[..|bases| - 1], pow) * pow(bases[|bases| - 1], exponents[|bases| - 1])
  }

  lemma {:induction false} PowerProductAppend(bases: seq<real>, exponents: seq<real>, x: real, e: real, pow: (real, real) -> real)
    requires |bases| == |exponents|
    ensures PowerProduct(bases + [x], exponents + [e], pow) == PowerProduct(bases, exponents, pow) * pow(x, e)
  {
    assert (bases + [x])[..|bases|] == bases;
    assert (exponents + [e])[..|bases|] == exponents;
  }

  /** The product over the first i + 1 factors is the product over the first i times factor i. */
  lemma PowerProductPrefix(bases: seq<real>, exponents: seq<real>, i: nat, pow: (real, real) -> real)
    requires |bases| == |exponents| && i < |bases|
    ensures PowerProduct(bases[..i + 1], exponents[..i + 1], pow) ==
            PowerProduct(bases[..i], exponents[..i], pow) * pow(bases[i], exponents[i])
  {
    assert bases[..i + 1] == bases[..i] + [bases[i]];
    assert exponents[..i + 1] == exponents[..i] + [exponents[i]];
    PowerProductAppend(bases[..i], exponents[..i], bases[i], exponents[i], pow);
  }

  /** The exponents of #and and #sum: 1/k for each of the k arguments. */
  function Uniform(k: nat): (r: seq<real>)
    ensures |r| == k
    ensures forall i :: 0 <= i < k ==> r[i] == 1.0 / (k as real)
  {
    seq(k, i requires 0 <= i < k => 1.0 / (k as real))
  }

  lemma {:induction false} ConstantSum(n: nat, c: real)
    ensures SumReals(seq(n, _ => c)) == (n as real) * c
  {
    if n > 0 {
      assert seq(n, _ => c)[..n - 1] == seq(n - 1, _ => c);
      ConstantSum(n - 1, c);
    }
  }

  /** The equal exponents of #and and #sum add up to 1. */
  lemma UniformSumsToOne(k: nat)
    requires k > 0
    ensures SumReals(Uniform(k)) == 1.0
  {
    var c := 1.0 / (k as real);
    assert Uniform(k) == seq(k, _ => c);
    ConstantSum(k, c);
  }

  /** The exponents and coefficients of #wand and #wsum: each weight divided by the weight sum. */
  function Normalized(weights: seq<real>, total: real): (r: seq<real>)
    requires |weights| > 0 ==> total != 0.0
    ensures |r| == |weights|
    ensures forall i :: 0 <= i < |weights| ==> r[i] == weights[i] / total
  {
    seq(|weights|, i requires 0 <= i < |weights| => weights[i] / total)
  }

  lemma NormalizedPrefix(weights: seq<real>, i: nat, total: real)
    requires i < |weights| && total != 0.0
    ensures Normalized(weights[..i + 1], total) == Normalized(weights[..i], total) + [weights[i] / total]
  {
  }

  /** The weighted product over the first i + 1 arguments is the one over the first i times
      pow(bases[i], weights[i] / total). */
  lemma NormalizedPowerPrefix(bases: seq<real>, weights: seq<real>, i: nat, total: real, pow: (real, real) -> real)
    requires i < |bases| && i < |weights| && total != 0.0
    ensures PowerProduct(bases[..i + 1], Normalized(weights[..i + 1], total), pow) ==
            PowerProduct(bases[..i], Normalized(weights[..i], total), pow) * pow(bases[i], weights[i] / total)
  {
    assert bases[..i + 1] == bases[..i] + [bases[i]];
    NormalizedPrefix(weights, i, total);
    PowerProductAppend(bases[..i], Normalized(weights[..i], total), bases[i], weights[i] / total, pow);
  }

  lemma {:induction false} NormalizedSum(weights: seq<real>, total: real)
    requires total != 0.0
    ensures SumReals(Normalized(weights, total)) == SumReals(weights) / total
  {
    if |weights| > 0 {
      var n := |weights|;
      assert Normalized(weights, total)[..n - 1] == Normalized(weights[..n - 1], total);
      NormalizedSum(weights[..n - 1], total);
    }
  }

  /** With sumOfWeights kept equal to the sum of the weights, the normalised weights add up to 1. */
  lemma NormalizedSumsToOne(weights: seq<real>, total: real)
    requires total == SumReals(weights) && total != 0.0
    ensures SumReals(Normalized(weights, total)) == 1.0
  {
    NormalizedSum(weights, total);
  }

  /** docIteratorHasMatch of #wand and #wsum: the min-policy under Indri, no match under any other
      model. */
  function WeightedHasMatch(indri: bool, args: seq<ArgView>): (r: Option<int>)
    ensures !indri ==> r.None?
    ensures indri ==> r == MatchMin(args)
  {
    if indri then MatchMin(args) else None
  }

  /** The argument list of a #wand or #wsum as toString writes it: each weight, a space, the
      argument, a space, in argument order. */
  function Listing(args: seq<Qry>, weights: seq<real>, showWeight: real -> string, show: Qry -> string): string
    requires |weights| >= |args|
  {
    if |args| == 0 then "" else
      var n := |args| - 1;
      Listing(args[..n], weights, showWeight, show) + showWeight(weights[n]) + " " + show(args[n]) + " "
  }

  /** toString of #wand and #wsum: `displayName( w1 a1 w2 a2 ... )`, failing when an argument has
      no weight.  Rendering a weight and an argument are parameters (Double.toString and
      Qry.toString are not part of this model). */
  method WeightedToString(displayName: string, args: seq<Qry>, weights: seq<real>, showWeight: real -> string, show: Qry -> string)
    returns (r: Result<string>)
    ensures |weights| < |args| <==> r == Err(IndexOutOfBounds)
    ensures |weights| >= |args| ==> r == Ok(displayName + "( " + Listing(args, weights, showWeight, show) + ")")
  {
    var result := "";
    for i := 0 to |args|
      invariant i <= |weights|
      invariant result == Listing(args[..i], weights, showWeight, show)
    {
      if i >= |weights| {
        return Err(IndexOutOfBounds);
      }
      assert args[..i + 1][..i] == args[..i];
      result := result + showWeight(weights[i]) + " " + show(args[i]) + " ";
    }
    assert args[..|args|] == args;
    return Ok(displayName + "( " + result + ")");
  }

  /** The rendering of one argument comes before the rendering of the arguments after it: the
      listing of a longer argument list extends the listing of any prefix. */
  lemma {:induction false} ListingExtends(args: seq<Qry>, weights: seq<real>, n: nat, showWeight: real -> string, show: Qry -> string)
    requires n <= |args| <= |weights|
    ensures Listing(args[..n], weights, showWeight, show) <= Listing(args, weights, showWeight, show)
    decreases |args|
  {
    if n < |args| {
      var p := args[..|args| - 1];
      assert p[..n] == args[..n];
      ListingExtends(p, weights, n, showWeight, show);
    } else {
      assert args[..n] == args;
    }
  }
}
