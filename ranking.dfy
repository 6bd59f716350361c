/** QryEval.TermScoreComparator: the order the query-expansion priority queue keeps its candidate
    terms in, highest score first. */
module Ranking {

  /** A candidate expansion term and its score. */
  datatype TermScorePair = TermScorePair(term: string, score: real)

  /** compare(arg0, arg1): the sign of arg1.score - arg0.score, so arg0 comes first exactly when
      its score is the larger. */
  function Compare(arg0: TermScorePair, arg1: TermScorePair): (r: int)
    ensures r == -1 <==> arg0.score > arg1.score
    ensures r == 1 <==> arg0.score < arg1.score
    ensures r == 0 <==> arg0.score == arg1.score
  {
    var difference := arg1.score - arg0.score;
    if difference < 0.0 then -1
    else if difference > 0.0 then 1
    else 0
  }

  /** The comparator contract of java.util.Comparator: sgn(compare(x, y)) == -sgn(compare(y, x)),
      transitivity, and pairs that compare equal compare alike with every third pair. */
  lemma CompareIsTotalPreorder(x: TermScorePair, y: TermScorePair, z: TermScorePair)
    ensures Compare(x, y) == -Compare(y, x)
    ensures Compare(x, y) < 0 && Compare(y, z) < 0 ==> Compare(x, z) < 0
    ensures Compare(x, y) <= 0 && Compare(y, z) <= 0 ==> Compare(x, z) <= 0
    ensures Compare(x, y) == 0 ==> Compare(x, z) == Compare(y, z)
    ensures Compare(x, x) == 0
  {
  }

  /** A sequence in the comparator's order: no pair is followed by one it compares above. */
  predicate InQueueOrder(s: seq<TermScorePair>)
  {
    forall i, j :: 0 <= i < j < |s| ==> Compare(s[i], s[j]) <= 0
  }

  /** The comparator's order is descending order of score: a sequence is in queue order exactly
      when its scores never increase from one pair to the next. */
  lemma {:induction false} QueueOrderIsDescendingScore(s: seq<TermScorePair>)
    ensures InQueueOrder(s) <==> forall i :: 0 <= i < |s| - 1 ==> s[i].score >= s[i + 1].score
  {
    if forall i :: 0 <= i < |s| - 1 ==> s[i].score >= s[i + 1].score {
      forall i, j | 0 <= i < j < |s| ensures s[i].score >= s[j].score {
        DescendingFrom(s, i, j);
      }
    }
  }

  lemma {:induction false} DescendingFrom(s: seq<TermScorePair>, i: int, j: int)
    requires forall k :: 0 <= k < |s| - 1 ==> s[k].score >= s[k + 1].score
    requires 0 <= i <= j < |s|
    ensures s[i].score >= s[j].score
    decreases j - i
  {
    if i < j {
      DescendingFrom(s, i + 1, j);
    }
  }
}
