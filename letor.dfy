/** RetrievalModelLetor: the feature-vector bookkeeping of the learning-to-rank model.

    A candidate document gets a vector of 18 slots: the spam score, the URL depth, a Wikipedia flag,
    the PageRank, three content features (a BM25 sum, an Indri product, a term-overlap ratio) for
    each of the fields body, title, url and inlink, and two reserved slots.  While the vectors of
    one query are built, every computed slot raises the slot's running maximum and lowers its
    running minimum; disabled features are then overwritten by a sentinel, Double.MIN_VALUE, which
    normalisation and printing skip.

    The index lookups (the spam attribute, the raw URL, the term vectors behind the content
    features), the PageRank file, the feature files and the external SVM-rank programs are inputs
    here: the content features of a field arrive as the parameter `content`, the PageRank file as
    the map `pageRanks`, the classifier's answers as a sequence of scores.  String.format("%.2f")
    is the parameter `format`. */
module Letor {
  import opened Common
  import opened RetrievalModels

  /** The missing-feature sentinel, Double.MIN_VALUE. */
  const SENTINEL: real := MIN_DOUBLE

  /** The number of slots buildFeatures fills. */
  const BUILT_SLOTS: nat := 18

  /** initialTestingDocs: classify reranks at most this many candidates. */
  const INITIAL_TESTING_DOCS: nat := 100

  /** The PageRank of a document the PageRank file does not list. */
  const MISSING_PAGE_RANK: real := -10.0

  /** The fields whose content features fill slots 4 to 15, three slots per field. */
  const FIELDS: seq<string> := ["body", "title", "url", "inlink"]

  /** What getContentFeatures leaves in its three-slot buffer for one field. */
  datatype ContentFeatures = ContentFeatures(bm25: real, indri: real, overlap: real)

  function CountChar(s: string, c: char): nat
  {
    if |s| == 0 then 0 else CountChar(s[..|s| - 1], c) + (if s[|s| - 1] == c then 1 else 0)
  }

  /** rawUrl.split("/", -1).length - 3: the split keeps empty pieces, so there is one piece more
      than there are slashes; "http://host" has depth 0. */
  function UrlDepth(rawUrl: string): int
  {
    CountChar(rawUrl, '/') + 1 - 3
  }

  /** One more path segment after a slash adds one to the depth. */
  lemma {:induction false} UrlDepthOfSegment(rawUrl: string, segment: string)
    requires '/' !in segment
    ensures UrlDepth(rawUrl + "/" + segment) == UrlDepth(rawUrl) + 1
  {
    CountCharConcat(rawUrl + "/", segment, '/');
    CountCharConcat(rawUrl, "/", '/');
    CountCharAbsent(segment, '/');
  }

  lemma {:induction false} CountCharConcat(a: string, b: string, c: char)
    ensures CountChar(a + b, c) == CountChar(a, c) + CountChar(b, c)
    decreases |b|
  {
    if |b| == 0 {
      assert a + b == a;
    } else {
      var b' := b[..|b| - 1];
      assert (a + b)[..|a + b| - 1] == a + b';
      CountCharConcat(a, b', c);
    }
  }

  lemma {:induction false} CountCharAbsent(s: string, c: char)
    requires c !in s
    ensures CountChar(s, c) == 0
  {
    if |s| > 0 {
      assert c !in s[..|s| - 1];
      CountCharAbsent(s[..|s| - 1], c);
    }
  }

  /** String.contains. */
  predicate Contains(s: string, t: string)
  {
    |t| <= |s| && (s[..|t|] == t || Contains(s[1..], t))
  }

  function FromWikipedia(rawUrl: string): real
  {
    if Contains(rawUrl, "wikipedia.org") then 1.0 else 0.0
  }

  function PageRankOf(pageRanks: map<string, real>, externalDocId: string): (r: real)
    ensures externalDocId !in pageRanks ==> r == MISSING_PAGE_RANK
    ensures externalDocId in pageRanks ==> r == pageRanks[externalDocId]
  {
    if externalDocId in pageRanks then pageRanks[externalDocId] else MISSING_PAGE_RANK
  }

  /** The value buildFeatures computes for slot i, before any feature is disabled. */
  function SlotValue(spamScore: int, rawUrl: string, pageRank: real, content: string -> ContentFeatures, i: int): real
    requires 0 <= i < BUILT_SLOTS
  {
    if i == 0 then spamScore as real
    else if i == 1 then UrlDepth(rawUrl) as real
    else if i == 2 then FromWikipedia(rawUrl)
    else if i == 3 then pageRank
    else if i < 16 then
      var c := content(FIELDS[(i - 4) / 3]);
      var k := (i - 4) % 3;
      if k == 0 then c.bm25 else if k == 1 then c.indri else c.overlap
    else 0.0
  }

  function SlotValues(spamScore: int, rawUrl: string, pageRank: real, content: string -> ContentFeatures): (r: seq<real>)
    ensures |r| == BUILT_SLOTS
    ensures forall i :: 0 <= i < BUILT_SLOTS ==> r[i] == SlotValue(spamScore, rawUrl, pageRank, content, i)
  {
    seq(BUILT_SLOTS, i requires 0 <= i < BUILT_SLOTS => SlotValue(spamScore, rawUrl, pageRank, content, i))
  }

  /** The slot layout: the content features of field i sit at 3i+4, 3i+5 and 3i+6, in the order
      BM25, Indri, overlap; the two reserved slots are 0. */
  lemma SlotLayout(spamScore: int, rawUrl: string, pageRank: real, content: string -> ContentFeatures, i: int)
    requires 0 <= i < |FIELDS|
    ensures SlotValue(spamScore, rawUrl, pageRank, content, 3 * i + 4) == content(FIELDS[i]).bm25
    ensures SlotValue(spamScore, rawUrl, pageRank, content, 3 * i + 5) == content(FIELDS[i]).indri
    ensures SlotValue(spamScore, rawUrl, pageRank, content, 3 * i + 6) == content(FIELDS[i]).overlap
    ensures SlotValue(spamScore, rawUrl, pageRank, content, 16) == 0.0
    ensures SlotValue(spamScore, rawUrl, pageRank, content, 17) == 0.0
  {
    assert (3 * i + 4 - 4) / 3 == i && (3 * i + 4 - 4) % 3 == 0;
    assert (3 * i + 5 - 4) / 3 == i && (3 * i + 5 - 4) % 3 == 1;
    assert (3 * i + 6 - 4) / 3 == i && (3 * i + 6 - 4) % 3 == 2;
  }

  /** Whether buildFeatures computes slot i: the four document features only when their feature
      number i+1 is not disabled, the content and reserved slots always (a disabled one is
      overwritten afterwards, but has already moved the running bounds). */
  predicate Computes(disabled: set<int>, i: int)
  {
    0 <= i < BUILT_SLOTS && (i >= 4 || i + 1 !in disabled)
  }

  /** The vector once the slots below k have been computed. */
  function VectorUpTo(prev: seq<real>, values: seq<real>, disabled: set<int>, k: int): (r: seq<real>)
    requires |values| == BUILT_SLOTS
    ensures |r| == |prev|
  {
    seq(|prev|, i requires 0 <= i < |prev| => if i < k && Computes(disabled, i) then values[i] else prev[i])
  }

  /** The running maxima once the slots below k have been computed: `if (f > max) max = f`. */
  function MaxUpTo(prev: seq<real>, values: seq<real>, disabled: set<int>, k: int): (r: seq<real>)
    requires |values| == BUILT_SLOTS
    ensures |r| == |prev|
  {
    seq(|prev|, i requires 0 <= i < |prev| =>
      if i < k && Computes(disabled, i) && values[i] > prev[i] then values[i] else prev[i])
  }

  /** The running minima once the slots below k have been computed: `if (f < min) min = f`. */
  function MinUpTo(prev: seq<real>, values: seq<real>, disabled: set<int>, k: int): (r: seq<real>)
    requires |values| == BUILT_SLOTS
    ensures |r| == |prev|
  {
    seq(|prev|, i requires 0 <= i < |prev| =>
      if i < k && Computes(disabled, i) && values[i] < prev[i] then values[i] else prev[i])
  }

  /** The finished vector: a disabled feature's slot holds the sentinel, every other slot its
      computed value. */
  function BuiltVector(values: seq<real>, disabled: set<int>): (r: seq<real>)
    requires |values| == BUILT_SLOTS
    ensures |r| == BUILT_SLOTS
  {
    seq(BUILT_SLOTS, i requires 0 <= i < BUILT_SLOTS => if i + 1 in disabled then SENTINEL else values[i])
  }

  /** Writing one slot and moving its two bounds. */
  method Record(featureVector: array<real>, featureMax: array<real>, featureMin: array<real>, slot: int, value: real)
    requires featureVector != featureMax && featureVector != featureMin && featureMax != featureMin
    requires featureVector.Length == featureMax.Length == featureMin.Length
    requires 0 <= slot < featureVector.Length
    modifies featureVector, featureMax, featureMin
    ensures featureVector[..] == old(featureVector[..])[slot := value]
    ensures featureMax[..] == old(featureMax[..])[slot := if value > old(featureMax[slot]) then value else old(featureMax[slot])]
    ensures featureMin[..] == old(featureMin[..])[slot := if value < old(featureMin[slot]) then value else old(featureMin[slot])]
  {
    featureVector[slot] := value;
    if featureVector[slot] > featureMax[slot] {
      featureMax[slot] := featureVector[slot];
    }
    if featureVector[slot] < featureMin[slot] {
      featureMin[slot] := featureVector[slot];
    }
  }

  /** Computing slot k takes the state from "below k" to "below k+1". */
  method ComputeSlot(featureVector: array<real>, featureMax: array<real>, featureMin: array<real>,
                     ghost vector0: seq<real>, ghost max0: seq<real>, ghost min0: seq<real>,
                     ghost values: seq<real>, ghost disabled: set<int>, k: int, value: real)
    requires featureVector != featureMax && featureVector != featureMin && featureMax != featureMin
    requires featureVector.Length == featureMax.Length == featureMin.Length == BUILT_SLOTS
    requires |values| == BUILT_SLOTS && Computes(disabled, k) && value == values[k]
    requires |vector0| == |max0| == |min0| == BUILT_SLOTS
    requires featureVector[..] == VectorUpTo(vector0, values, disabled, k)
    requires featureMax[..] == MaxUpTo(max0, values, disabled, k)
    requires featureMin[..] == MinUpTo(min0, values, disabled, k)
    modifies featureVector, featureMax, featureMin
    ensures featureVector[..] == VectorUpTo(vector0, values, disabled, k + 1)
    ensures featureMax[..] == MaxUpTo(max0, values, disabled, k + 1)
    ensures featureMin[..] == MinUpTo(min0, values, disabled, k + 1)
  {
    Record(featureVector, featureMax, featureMin, k, value);
  }

  /** A disabled document feature is not computed: the state below k is the state below k+1. */
  lemma SkipSlot(vector0: seq<real>, max0: seq<real>, min0: seq<real>, values: seq<real>, disabled: set<int>, k: int)
    requires |values| == BUILT_SLOTS && !Computes(disabled, k)
    ensures VectorUpTo(vector0, values, disabled, k + 1) == VectorUpTo(vector0, values, disabled, k)
    ensures MaxUpTo(max0, values, disabled, k + 1) == MaxUpTo(max0, values, disabled, k)
    ensures MinUpTo(min0, values, disabled, k + 1) == MinUpTo(min0, values, disabled, k)
  {
  }

  /** The running bounds of a slot can only widen. */
  predicate Widens(max0: seq<real>, min0: seq<real>, max1: seq<real>, min1: seq<real>)
  {
    |max0| == |min0| == |max1| == |min1|
    && forall i :: 0 <= i < |max0| ==> max0[i] <= max1[i] && min1[i] <= min0[i]
  }

  /** Every slot of a vector that is not the sentinel lies between the slot's running bounds. */
  predicate WithinBounds(vector: seq<real>, max: seq<real>, min: seq<real>)
  {
    |vector| == |max| == |min|
    && forall i :: 0 <= i < |vector| && vector[i] != SENTINEL ==> min[i] <= vector[i] <= max[i]
  }

  /** One build widens the bounds, the vector it builds lies within the new bounds, and so does
      every vector built earlier for the same query: after all candidates are built, each of them
      lies within the final bounds. */
  lemma BuildKeepsBounds(values: seq<real>, disabled: set<int>, max0: seq<real>, min0: seq<real>, earlier: seq<real>)
    requires |values| == BUILT_SLOTS && |max0| == |min0| == BUILT_SLOTS
    requires WithinBounds(earlier, max0, min0)
    ensures Widens(max0, min0, MaxUpTo(max0, values, disabled, BUILT_SLOTS), MinUpTo(min0, values, disabled, BUILT_SLOTS))
    ensures WithinBounds(BuiltVector(values, disabled), MaxUpTo(max0, values, disabled, BUILT_SLOTS), MinUpTo(min0, values, disabled, BUILT_SLOTS))
    ensures WithinBounds(earlier, MaxUpTo(max0, values, disabled, BUILT_SLOTS), MinUpTo(min0, values, disabled, BUILT_SLOTS))
  {
  }

  /** Before any slot is computed, the state is the state "below 0". */
  lemma StartBuild(vector0: seq<real>, max0: seq<real>, min0: seq<real>, values: seq<real>, disabled: set<int>)
    requires |values| == BUILT_SLOTS
    ensures VectorUpTo(vector0, values, disabled, 0) == vector0
    ensures MaxUpTo(max0, values, disabled, 0) == max0
    ensures MinUpTo(min0, values, disabled, 0) == min0
  {
  }

  /** The spam score, the URL depth, the Wikipedia flag and the PageRank, each unless disabled. */
  method DocumentSlots(featureVector: array<real>, featureMax: array<real>, featureMin: array<real>,
                       ghost vector0: seq<real>, ghost max0: seq<real>, ghost min0: seq<real>, disabled: set<int>,
                       spamScore: int, rawUrl: string, pageRank: real, content: string -> ContentFeatures)
    requires featureVector != featureMax && featureVector != featureMin && featureMax != featureMin
    requires featureVector.Length == featureMax.Length == featureMin.Length == BUILT_SLOTS
    requires |vector0| == |max0| == |min0| == BUILT_SLOTS
    requires featureVector[..] == VectorUpTo(vector0, SlotValues(spamScore, rawUrl, pageRank, content), disabled, 0)
    requires featureMax[..] == MaxUpTo(max0, SlotValues(spamScore, rawUrl, pageRank, content), disabled, 0)
    requires featureMin[..] == MinUpTo(min0, SlotValues(spamScore, rawUrl, pageRank, content), disabled, 0)
    modifies featureVector, featureMax, featureMin
    ensures featureVector[..] == VectorUpTo(vector0, SlotValues(spamScore, rawUrl, pageRank, content), disabled, 4)
    ensures featureMax[..] == MaxUpTo(max0, SlotValues(spamScore, rawUrl, pageRank, content), disabled, 4)
    ensures featureMin[..] == MinUpTo(min0, SlotValues(spamScore, rawUrl, pageRank, content), disabled, 4)
  {
    ghost var values := SlotValues(spamScore, rawUrl, pageRank, content);
    if 1 !in disabled {
      ComputeSlot(featureVector, featureMax, featureMin, vector0, max0, min0, values, disabled, 0, spamScore as real);
    } else {
      SkipSlot(vector0, max0, min0, values, disabled, 0);
    }
    if 2 !in disabled {
      ComputeSlot(featureVector, featureMax, featureMin, vector0, max0, min0, values, disabled, 1, UrlDepth(rawUrl) as real);
    } else {
      SkipSlot(vector0, max0, min0, values, disabled, 1);
    }
    if 3 !in disabled {
      ComputeSlot(featureVector, featureMax, featureMin, vector0, max0, min0, values, disabled, 2, FromWikipedia(rawUrl));
    } else {
      SkipSlot(vector0, max0, min0, values, disabled, 2);
    }
    if 4 !in disabled {
      ComputeSlot(featureVector, featureMax, featureMin, vector0, max0, min0, values, disabled, 3, pageRank);
    } else {
      SkipSlot(vector0, max0, min0, values, disabled, 3);
    }
  }

  /** Three content features for each field, at 3i+4, 3i+5 and 3i+6. */
  method ContentSlots(featureVector: array<real>, featureMax: array<real>, featureMin: array<real>,
                      ghost vector0: seq<real>, ghost max0: seq<real>, ghost min0: seq<real>, disabled: set<int>,
                      spamScore: int, rawUrl: string, pageRank: real, content: string -> ContentFeatures)
    requires featureVector != featureMax && featureVector != featureMin && featureMax != featureMin
    requires featureVector.Length == featureMax.Length == featureMin.Length == BUILT_SLOTS
    requires |vector0| == |max0| == |min0| == BUILT_SLOTS
    requires featureVector[..] == VectorUpTo(vector0, SlotValues(spamScore, rawUrl, pageRank, content), disabled, 4)
    requires featureMax[..] == MaxUpTo(max0, SlotValues(spamScore, rawUrl, pageRank, content), disabled, 4)
    requires featureMin[..] == MinUpTo(min0, SlotValues(spamScore, rawUrl, pageRank, content), disabled, 4)
    modifies featureVector, featureMax, featureMin
    ensures featureVector[..] == VectorUpTo(vector0, SlotValues(spamScore, rawUrl, pageRank, content), disabled, 16)
    ensures featureMax[..] == MaxUpTo(max0, SlotValues(spamScore, rawUrl, pageRank, content), disabled, 16)
    ensures featureMin[..] == MinUpTo(min0, SlotValues(spamScore, rawUrl, pageRank, content), disabled, 16)
  {
    ghost var values := SlotValues(spamScore, rawUrl, pageRank, content);
    for i := 0 to |FIELDS|
      invariant featureVector[..] == VectorUpTo(vector0, values, disabled, 3 * i + 4)
      invariant featureMax[..] == MaxUpTo(max0, values, disabled, 3 * i + 4)
      invariant featureMin[..] == MinUpTo(min0, values, disabled, 3 * i + 4)
    {
      var start := 3 * i + 4;
      var c := content(FIELDS[i]);
      SlotLayout(spamScore, rawUrl, pageRank, content, i);
      ComputeSlot(featureVector, featureMax, featureMin, vector0, max0, min0, values, disabled, start, c.bm25);
      ComputeSlot(featureVector, featureMax, featureMin, vector0, max0, min0, values, disabled, start + 1, c.indri);
      ComputeSlot(featureVector, featureMax, featureMin, vector0, max0, min0, values, disabled, start + 2, c.overlap);
    }
  }

  /** The two reserved slots, 16 and 17, both 0. */
  method ReservedSlots(featureVector: array<real>, featureMax: array<real>, featureMin: array<real>,
                       ghost vector0: seq<real>, ghost max0: seq<real>, ghost min0: seq<real>, disabled: set<int>,
                       spamScore: int, rawUrl: string, pageRank: real, content: string -> ContentFeatures)
    requires featureVector != featureMax && featureVector != featureMin && featureMax != featureMin
    requires featureVector.Length == featureMax.Length == featureMin.Length == BUILT_SLOTS
    requires |vector0| == |max0| == |min0| == BUILT_SLOTS
    requires featureVector[..] == VectorUpTo(vector0, SlotValues(spamScore, rawUrl, pageRank, content), disabled, 16)
    requires featureMax[..] == MaxUpTo(max0, SlotValues(spamScore, rawUrl, pageRank, content), disabled, 16)
    requires featureMin[..] == MinUpTo(min0, SlotValues(spamScore, rawUrl, pageRank, content), disabled, 16)
    modifies featureVector, featureMax, featureMin
    ensures featureVector[..] == VectorUpTo(vector0, SlotValues(spamScore, rawUrl, pageRank, content), disabled, BUILT_SLOTS)
    ensures featureMax[..] == MaxUpTo(max0, SlotValues(spamScore, rawUrl, pageRank, content), disabled, BUILT_SLOTS)
    ensures featureMin[..] == MinUpTo(min0, SlotValues(spamScore, rawUrl, pageRank, content), disabled, BUILT_SLOTS)
  {
    ghost var values := SlotValues(spamScore, rawUrl, pageRank, content);
    SlotLayout(spamScore, rawUrl, pageRank, content, 0);
    ComputeSlot(featureVector, featureMax, featureMin, vector0, max0, min0, values, disabled, 16, 0.0);
    ComputeSlot(featureVector, featureMax, featureMin, vector0, max0, min0, values, disabled, 17, 0.0);
  }

  /** The sentinel over the slot of every disabled feature, in whatever order the set is visited. */
  method DisableFeatures(featureVector: array<real>, disabled: set<int>)
    requires forall d :: d in disabled ==> 1 <= d <= featureVector.Length
    modifies featureVector
    ensures forall j :: 0 <= j < featureVector.Length ==>
      featureVector[j] == if j + 1 in disabled then SENTINEL else old(featureVector[j])
  {
    // the feature numbers as naturals (each is at least 1), the set the loop visits
    var remaining: set<nat> := set d | d in disabled && d >= 0 :: d as nat;
    while remaining != {}
      invariant forall d :: d in remaining ==> d in disabled
      invariant forall j :: 0 <= j < featureVector.Length ==>
        featureVector[j] == if j + 1 in disabled && j + 1 !in remaining then SENTINEL else old(featureVector[j])
      decreases remaining
    {
      var d :| d in remaining;
      featureVector[d - 1] := SENTINEL;
      remaining := remaining - {d};
    }
  }

  /** The computed slots with the sentinel over the disabled ones are the finished vector: a
      document feature that was not computed is one that is disabled. */
  lemma FinishBuild(vector0: seq<real>, values: seq<real>, disabled: set<int>, computed: seq<real>, finished: seq<real>)
    requires |values| == BUILT_SLOTS && |vector0| == BUILT_SLOTS
    requires computed == VectorUpTo(vector0, values, disabled, BUILT_SLOTS)
    requires |finished| == BUILT_SLOTS
    requires forall j :: 0 <= j < BUILT_SLOTS ==> finished[j] == if j + 1 in disabled then SENTINEL else computed[j]
    ensures finished == BuiltVector(values, disabled)
  {
  }

  /** A learning-to-rank model: the BM25 and Indri models whose formulas the content features use,
      the SVM-rank parameters, the disabled feature numbers, the PageRanks and the vector size. */
  class RetrievalModelLetor {
    var bm25model: RetrievalModelBM25
    var indrimodel: IndriParams
    var svmrankmodel: SvmRankParams
    var disabledFeatures: set<int>
    var pageRanks: map<string, real>
    var numBaseFeatures: int

    /** The parameters as given; the disabled features as a set; the PageRank file, read by
        buildPageRanks, arrives as its map. */
    constructor (bm25: RetrievalModelBM25, indrimodel: IndriParams, svmrankmodel: SvmRankParams,
                 dfeats: seq<int>, pageRanks: map<string, real>, numBaseFeatures: int)
      ensures bm25model == bm25 && this.indrimodel == indrimodel && this.svmrankmodel == svmrankmodel
      ensures disabledFeatures == set d | d in dfeats
      ensures this.pageRanks == pageRanks && this.numBaseFeatures == numBaseFeatures
    {
      bm25model := bm25;
      this.indrimodel := indrimodel;
      this.svmrankmodel := svmrankmodel;
      disabledFeatures := set d | d in dfeats;
      this.pageRanks := pageRanks;
      this.numBaseFeatures := numBaseFeatures;
    }

    function DefaultQrySopName(): string
    {
      "#and"
    }

    function GetBM25Model(): RetrievalModelBM25
      reads this
    {
      bm25model
    }

    /** buildFeatures: computes the enabled slots into the vector, moving their running bounds,
        then overwrites the slot of every disabled feature with the sentinel. */
    method BuildFeatures(featureVector: array<real>, externalDocId: string, spamScore: int, rawUrl: string,
                         content: string -> ContentFeatures, featureMax: array<real>, featureMin: array<real>)
      requires numBaseFeatures == BUILT_SLOTS
      requires featureVector.Length == featureMax.Length == featureMin.Length == numBaseFeatures
      requires featureVector != featureMax && featureVector != featureMin && featureMax != featureMin
      requires forall d :: d in disabledFeatures ==> 1 <= d <= numBaseFeatures
      modifies featureVector, featureMax, featureMin
      ensures featureVector[..] == BuiltVector(SlotValues(spamScore, rawUrl, PageRankOf(pageRanks, externalDocId), content), disabledFeatures)
      ensures featureMax[..] == MaxUpTo(old(featureMax[..]), SlotValues(spamScore, rawUrl, PageRankOf(pageRanks, externalDocId), content), disabledFeatures, BUILT_SLOTS)
      ensures featureMin[..] == MinUpTo(old(featureMin[..]), SlotValues(spamScore, rawUrl, PageRankOf(pageRanks, externalDocId), content), disabledFeatures, BUILT_SLOTS)
    {
      var pageRank := PageRankOf(pageRanks, externalDocId);
      ghost var values := SlotValues(spamScore, rawUrl, pageRank, content);
      ghost var vector0, max0, min0 := featureVector[..], featureMax[..], featureMin[..];
      StartBuild(vector0, max0, min0, values, disabledFeatures);
      DocumentSlots(featureVector, featureMax, featureMin, vector0, max0, min0, disabledFeatures,
                    spamScore, rawUrl, pageRank, content);
      ContentSlots(featureVector, featureMax, featureMin, vector0, max0, min0, disabledFeatures,
                   spamScore, rawUrl, pageRank, content);
      ReservedSlots(featureVector, featureMax, featureMin, vector0, max0, min0, disabledFeatures,
                    spamScore, rawUrl, pageRank, content);
      ghost var computed := featureVector[..];
      DisableFeatures(featureVector, disabledFeatures);
      FinishBuild(vector0, values, disabledFeatures, computed, featureVector[..]);
    }

    /** normalizeFeatures: every slot that is not the sentinel is rescaled to its query's range. */
    method NormalizeFeatures(featureVector: array<real>, featureMax: array<real>, featureMin: array<real>)
      requires featureVector.Length == featureMax.Length == featureMin.Length == numBaseFeatures
      requires featureVector != featureMax && featureVector != featureMin
      modifies featureVector
      ensures featureVector[..] == NormalizedVector(old(featureVector[..]), featureMax[..], featureMin[..])
    {
      ghost var vector0 := featureVector[..];
      for i := 0 to numBaseFeatures
        invariant forall j :: 0 <= j < i ==> featureVector[j] == NormalizedSlot(vector0[j], featureMax[j], featureMin[j])
        invariant forall j :: i <= j < numBaseFeatures ==> featureVector[j] == vector0[j]
      {
        var feature := featureVector[i];
        if feature == SENTINEL {
          continue;
        }
        var range := featureMax[i] - featureMin[i];
        if range == 0.0 {
          featureVector[i] := 0.0;
        } else {
          featureVector[i] := (feature - featureMin[i]) / range;
        }
      }
    }
  }

  /** One slot after normalisation: the sentinel stays; a slot whose range is empty becomes 0;
      any other value f becomes (f - min) / (max - min). */
  function NormalizedSlot(f: real, max: real, min: real): real
  {
    if f == SENTINEL then f
    else if max - min == 0.0 then 0.0
    else (f - min) / (max - min)
  }

  function NormalizedVector(vector: seq<real>, max: seq<real>, min: seq<real>): (r: seq<real>)
    requires |vector| == |max| == |min|
    ensures |r| == |vector|
  {
    seq(|vector|, i requires 0 <= i < |vector| => NormalizedSlot(vector[i], max[i], min[i]))
  }

  /** A value within its slot's bounds is normalised into [0, 1]: the minimum to 0, the maximum to
      1 unless the range is empty. */
  lemma NormalizedSlotInUnitInterval(f: real, max: real, min: real)
    requires f != SENTINEL && min <= f <= max
    ensures 0.0 <= NormalizedSlot(f, max, min) <= 1.0
    ensures f == min ==> NormalizedSlot(f, max, min) == 0.0
    ensures f == max && max != min ==> NormalizedSlot(f, max, min) == 1.0
  {
    if max - min != 0.0 {
      assert (f - min) / (max - min) <= 1.0 by {
        assert f - min <= max - min;
      }
    }
  }

  /** A vector within its bounds normalises into [0, 1], except for the sentinel slots, which
      stay the sentinel. */
  lemma NormalizedVectorInUnitInterval(vector: seq<real>, max: seq<real>, min: seq<real>)
    requires WithinBounds(vector, max, min)
    ensures forall i :: 0 <= i < |vector| && vector[i] != SENTINEL ==>
      0.0 <= NormalizedVector(vector, max, min)[i] <= 1.0
    ensures forall i :: 0 <= i < |vector| && vector[i] == SENTINEL ==>
      NormalizedVector(vector, max, min)[i] == SENTINEL
  {
    forall i | 0 <= i < |vector| && vector[i] != SENTINEL
      ensures 0.0 <= NormalizedVector(vector, max, min)[i] <= 1.0
    {
      NormalizedSlotInUnitInterval(vector[i], max[i], min[i]);
    }
  }

  /** Values 2, 4 and 6 of one slot normalise to 0, 0.5 and 1. */
  lemma NormalizationExample()
    ensures NormalizedSlot(2.0, 6.0, 2.0) == 0.0
    ensures NormalizedSlot(4.0, 6.0, 2.0) == 0.5
    ensures NormalizedSlot(6.0, 6.0, 2.0) == 1.0
  {
  }

  /** The starting bounds of a query, as written: every maximum at Double.MIN_VALUE, every minimum
      at Double.MAX_VALUE. */
  method InitialBoundsAsWritten(n: nat) returns (featureMax: array<real>, featureMin: array<real>)
    ensures fresh(featureMax) && fresh(featureMin) && featureMax != featureMin
    ensures featureMax.Length == n && featureMin.Length == n
    ensures forall i :: 0 <= i < n ==> featureMax[i] == MIN_DOUBLE && featureMin[i] == MAX_DOUBLE
  {
    featureMax := new real[n];
    featureMin := new real[n];
    for i := 0 to n
      invariant forall j :: 0 <= j < i ==> featureMax[j] == MIN_DOUBLE && featureMin[j] == MAX_DOUBLE
    {
      featureMax[i] := MIN_DOUBLE;
      featureMin[i] := MAX_DOUBLE;
    }
  }

  /** The starting bounds as evidently intended: every maximum at -Double.MAX_VALUE, below every
      feature value, so that the first computed value becomes the slot's maximum. */
  method InitialBounds(n: nat) returns (featureMax: array<real>, featureMin: array<real>)
    ensures fresh(featureMax) && fresh(featureMin) && featureMax != featureMin
    ensures featureMax.Length == n && featureMin.Length == n
    ensures forall i :: 0 <= i < n ==> featureMax[i] == -MAX_DOUBLE && featureMin[i] == MAX_DOUBLE
  {
    featureMax := new real[n];
    featureMin := new real[n];
    for i := 0 to n
      invariant forall j :: 0 <= j < i ==> featureMax[j] == -MAX_DOUBLE && featureMin[j] == MAX_DOUBLE
    {
      featureMax[i] := -MAX_DOUBLE;
      featureMin[i] := MAX_DOUBLE;
    }
  }

  /** One slot's running maximum over the values computed for it, from a starting value. */
  function RunningMax(start: real, values: seq<real>): (r: real)
    ensures r >= start
    ensures forall i :: 0 <= i < |values| ==> values[i] <= r
    ensures r == start || exists i :: 0 <= i < |values| && r == values[i]
  {
    if |values| == 0 then start
    else
      var m := RunningMax(start, values[..|values| - 1]);
      assert forall i :: 0 <= i < |values| - 1 ==> values[..|values| - 1][i] == values[i];
      if values[|values| - 1] > m then values[|values| - 1] else m
  }

  /** One slot's running minimum over the values computed for it, from a starting value. */
  function RunningMin(start: real, values: seq<real>): (r: real)
    ensures r <= start
    ensures forall i :: 0 <= i < |values| ==> r <= values[i]
    ensures r == start || exists i :: 0 <= i < |values| && r == values[i]
  {
    if |values| == 0 then start
    else
      var m := RunningMin(start, values[..|values| - 1]);
      assert forall i :: 0 <= i < |values| - 1 ==> values[..|values| - 1][i] == values[i];
      if values[|values| - 1] < m then values[|values| - 1] else m
  }

  /** Slot k of every document's computed values, in the order the documents were built. */
  function Column(docs: seq<seq<real>>, k: nat): (r: seq<real>)
    requires forall d :: 0 <= d < |docs| ==> |docs[d]| == BUILT_SLOTS
    requires k < BUILT_SLOTS
    ensures |r| == |docs| && forall d :: 0 <= d < |docs| ==> r[d] == docs[d][k]
  {
    seq(|docs|, d requires 0 <= d < |docs| => docs[d][k])
  }

  /** The bounds after one buildFeatures call per document, from the bounds `start`. */
  function MaxAfter(start: seq<real>, docs: seq<seq<real>>, disabled: set<int>): (r: seq<real>)
    requires forall d :: 0 <= d < |docs| ==> |docs[d]| == BUILT_SLOTS
    ensures |r| == |start|
  {
    if |docs| == 0 then start
    else MaxUpTo(MaxAfter(start, docs[..|docs| - 1], disabled), docs[|docs| - 1], disabled, BUILT_SLOTS)
  }

  function MinAfter(start: seq<real>, docs: seq<seq<real>>, disabled: set<int>): (r: seq<real>)
    requires forall d :: 0 <= d < |docs| ==> |docs[d]| == BUILT_SLOTS
    ensures |r| == |start|
  {
    if |docs| == 0 then start
    else MinUpTo(MinAfter(start, docs[..|docs| - 1], disabled), docs[|docs| - 1], disabled, BUILT_SLOTS)
  }

  /** Over the documents of one query, each computed slot's bounds are the running maximum and
      minimum of its values from the starting bounds; a slot never computed keeps them. */
  lemma {:induction false} BoundsAfterDocuments(start: seq<real>, docs: seq<seq<real>>, disabled: set<int>, k: nat)
    requires |start| == BUILT_SLOTS && k < BUILT_SLOTS
    requires forall d :: 0 <= d < |docs| ==> |docs[d]| == BUILT_SLOTS
    ensures Computes(disabled, k) ==>
      MaxAfter(start, docs, disabled)[k] == RunningMax(start[k], Column(docs, k)) &&
      MinAfter(start, docs, disabled)[k] == RunningMin(start[k], Column(docs, k))
    ensures !Computes(disabled, k) ==>
      MaxAfter(start, docs, disabled)[k] == start[k] && MinAfter(start, docs, disabled)[k] == start[k]
  {
    if |docs| > 0 {
      var front := docs[..|docs| - 1];
      BoundsAfterDocuments(start, front, disabled, k);
      assert Column(docs, k)[..|docs| - 1] == Column(front, k);
    }
  }

  /** As written, a slot whose values are all below Double.MIN_VALUE (a document without a
      PageRank, -10, and one listed with PageRank -5, say) keeps Double.MIN_VALUE as its maximum,
      so its largest value is not normalised to 1. */
  lemma FeatureMaxStartMisnormalizes()
    ensures RunningMax(MIN_DOUBLE, [-10.0, -5.0]) == MIN_DOUBLE
    ensures RunningMin(MAX_DOUBLE, [-10.0, -5.0]) == -10.0
    ensures NormalizedSlot(-5.0, RunningMax(MIN_DOUBLE, [-10.0, -5.0]), RunningMin(MAX_DOUBLE, [-10.0, -5.0])) < 1.0
  {
    assert [-10.0, -5.0][..1] == [-10.0];
  }

  /** From -Double.MAX_VALUE, the bounds of a slot are its least and greatest value, so its values
      normalise onto [0, 1] with the least at 0 and the greatest at 1 (unless all are equal). */
  lemma CorrectedBoundsNormalizeOntoUnitInterval(values: seq<real>)
    requires |values| > 0
    requires forall i :: 0 <= i < |values| ==> -MAX_DOUBLE <= values[i] <= MAX_DOUBLE && values[i] != SENTINEL
    ensures exists i :: 0 <= i < |values| && values[i] == RunningMax(-MAX_DOUBLE, values)
    ensures exists i :: 0 <= i < |values| && values[i] == RunningMin(MAX_DOUBLE, values)
    ensures forall i :: 0 <= i < |values| ==>
      0.0 <= NormalizedSlot(values[i], RunningMax(-MAX_DOUBLE, values), RunningMin(MAX_DOUBLE, values)) <= 1.0
    ensures RunningMax(-MAX_DOUBLE, values) != RunningMin(MAX_DOUBLE, values) ==>
      NormalizedSlot(RunningMax(-MAX_DOUBLE, values), RunningMax(-MAX_DOUBLE, values), RunningMin(MAX_DOUBLE, values)) == 1.0
  {
    var max, min := RunningMax(-MAX_DOUBLE, values), RunningMin(MAX_DOUBLE, values);
    if max == -MAX_DOUBLE {
      assert values[0] <= max;
    }
    if min == MAX_DOUBLE {
      assert min <= values[0];
    }
    var i :| 0 <= i < |values| && max == values[i];
    forall j | 0 <= j < |values|
      ensures 0.0 <= NormalizedSlot(values[j], max, min) <= 1.0
    {
      NormalizedSlotInUnitInterval(values[j], max, min);
    }
    NormalizedSlotInUnitInterval(values[i], max, min);
  }

  /** One numbered entry of a printed feature line. */
  datatype FeatureEntry = FeatureEntry(index: int, value: real)

  /** The entries printFeatures writes: the slots that are not the sentinel, in slot order,
      numbered from 1 on. */
  function Entries(vector: seq<real>): seq<FeatureEntry>
  {
    if |vector| == 0 then []
    else
      var e := Entries(vector[..|vector| - 1]);
      if vector[|vector| - 1] != SENTINEL then e + [FeatureEntry(|e| + 1, vector[|vector| - 1])] else e
  }

  /** The numbering is dense: entry j carries number j + 1, and no entry is the sentinel. */
  lemma {:induction false} EntriesNumberedDensely(vector: seq<real>)
    ensures forall j :: 0 <= j < |Entries(vector)| ==>
      Entries(vector)[j].index == j + 1 && Entries(vector)[j].value != SENTINEL
  {
    if |vector| > 0 {
      EntriesNumberedDensely(vector[..|vector| - 1]);
    }
  }

  /** Entries of a prefix are a prefix of the entries. */
  lemma {:induction false} EntriesOfPrefix(vector: seq<real>, m: nat)
    requires m <= |vector|
    ensures Entries(vector[..m]) <= Entries(vector)
    decreases |vector| - m
  {
    if m < |vector| {
      EntriesOfPrefix(vector, m + 1);
      var p := vector[..m + 1];
      assert p[..|p| - 1] == vector[..m];
    } else {
      assert vector[..m] == vector;
    }
  }

  /** Slot i, when it is not the sentinel, is printed as the entry numbered one more than the
      number of non-sentinel slots before it. */
  lemma SlotPrintedAt(vector: seq<real>, i: nat)
    requires i < |vector| && vector[i] != SENTINEL
    ensures |Entries(vector[..i])| < |Entries(vector)|
    ensures Entries(vector)[|Entries(vector[..i])|] == FeatureEntry(|Entries(vector[..i])| + 1, vector[i])
  {
    var p := vector[..i + 1];
    assert p[..|p| - 1] == vector[..i];
    EntriesOfPrefix(vector, i + 1);
  }

  function Digit(d: nat): char
    requires d < 10
  {
    "0123456789"[d]
  }

  /** Integer.toString for natural numbers. */
  function NatToString(n: nat): string
  {
    if n < 10 then [Digit(n)] else NatToString(n / 10) + [Digit(n % 10)]
  }

  function IntToString(i: int): string
  {
    if i < 0 then "-" + NatToString(-i) else NatToString(i)
  }

  /** One entry as the line shows it: "index:value ". */
  function Show(e: FeatureEntry, format: real -> string): string
  {
    IntToString(e.index) + ":" + format(e.value) + " "
  }

  /** The entries as the line shows them, in order. */
  function Render(entries: seq<FeatureEntry>, format: real -> string): string
  {
    if |entries| == 0 then ""
    else Render(entries[..|entries| - 1], format) + Show(entries[|entries| - 1], format)
  }

  lemma RenderAppend(entries: seq<FeatureEntry>, e: FeatureEntry, format: real -> string)
    ensures Render(entries + [e], format) == Render(entries, format) + Show(e, format)
  {
    assert (entries + [e])[..|entries|] == entries;
  }

  /** The line printFeatures writes for one candidate: "rel qid:Q ", the entries, "# docid". */
  function FeatureLine(relevance: int, qId: int, vector: seq<real>, doc: string, format: real -> string): string
  {
    IntToString(relevance) + " qid:" + IntToString(qId) + " " + Render(Entries(vector), format) + "# " + doc
  }

  /** Entries of one more slot: one more entry, unless the slot is the sentinel. */
  lemma EntriesStep(vector: seq<real>, i: nat)
    requires i < |vector|
    ensures Entries(vector[..i + 1]) == if vector[i] != SENTINEL
      then Entries(vector[..i]) + [FeatureEntry(|Entries(vector[..i])| + 1, vector[i])]
      else Entries(vector[..i])
  {
    assert vector[..i + 1][..i] == vector[..i];
  }

  /** The loop of printFeatures: the entries with their running feature number. */
  method RenderFeatures(fVec: array<real>, format: real -> string) returns (rendered: string)
    ensures rendered == Render(Entries(fVec[..]), format)
  {
    rendered := "";
    var featuresIndex := 1;
    for i := 0 to fVec.Length
      invariant featuresIndex == |Entries(fVec[..i])| + 1
      invariant rendered == Render(Entries(fVec[..i]), format)
    {
      EntriesStep(fVec[..], i);
      assert fVec[..][..i] == fVec[..i] && fVec[..][..i + 1] == fVec[..i + 1];
      if fVec[i] != SENTINEL {
        var entry := FeatureEntry(featuresIndex, fVec[i]);
        RenderAppend(Entries(fVec[..i]), entry, format);
        rendered := rendered + Show(entry, format);
        featuresIndex := featuresIndex + 1;
      }
    }
    assert fVec[..fVec.Length] == fVec[..];
  }

  /** printFeatures: "rel qid:Q ", the entries, "# docid" and a newline. */
  method PrintFeatures(relevance: int, qId: int, fVec: array<real>, doc: string, format: real -> string)
    returns (line: string)
    ensures line == FeatureLine(relevance, qId, fVec[..], doc, format) + "\n"
  {
    var result := IntToString(relevance) + " qid:" + IntToString(qId) + " ";
    var rendered := RenderFeatures(fVec, format);
    result := result + rendered;
    result := result + "# " + doc;
    line := result + "\n";
  }

  /** The number of candidates classify reranks: the whole ranking, but at most 100. */
  function NumDocs(rankingSize: nat): (r: nat)
    ensures r <= INITIAL_TESTING_DOCS && r <= rankingSize
    ensures r == rankingSize || r == INITIAL_TESTING_DOCS
  {
    if rankingSize < INITIAL_TESTING_DOCS then rankingSize else INITIAL_TESTING_DOCS
  }

  /** A document and the score the classifier gave it. */
  datatype ScoredDoc = ScoredDoc(docid: int, score: real)

  /** The read-back loop of classify: the i-th score line goes to the i-th candidate of the
      ranking; a scores file that ends early ends the result there (readLine answers null and
      parsing it fails). */
  method ReadBackScores(ranking: seq<int>, scoreLines: seq<real>) returns (result: seq<ScoredDoc>)
    ensures |result| == if |scoreLines| < NumDocs(|ranking|) then |scoreLines| else NumDocs(|ranking|)
    ensures forall i :: 0 <= i < |result| ==> result[i] == ScoredDoc(ranking[i], scoreLines[i])
  {
    var numDocs := NumDocs(|ranking|);
    result := [];
    for i := 0 to numDocs
      invariant |result| == i && i <= |scoreLines|
      invariant forall j :: 0 <= j < i ==> result[j] == ScoredDoc(ranking[j], scoreLines[j])
    {
      if i >= |scoreLines| {
        return;
      }
      result := result + [ScoredDoc(ranking[i], scoreLines[i])];
    }
  }

  /** The score lines as written: the test features are written in the order the HashMap of
      external ids is visited (`writeOrder`), and the classifier answers one score per line in
      that order. */
  function ScoreLinesAsWritten(writeOrder: seq<string>, svmScore: string -> real): (r: seq<real>)
    ensures |r| == |writeOrder|
    ensures forall j :: 0 <= j < |writeOrder| ==> r[j] == svmScore(writeOrder[j])
  {
    seq(|writeOrder|, j requires 0 <= j < |writeOrder| => svmScore(writeOrder[j]))
  }

  /** The score lines as evidently intended: the test features written in ranking order. */
  function ScoreLines(ranking: seq<int>, external: int -> string, svmScore: string -> real): (r: seq<real>)
    ensures |r| == NumDocs(|ranking|)
    ensures forall j :: 0 <= j < |r| ==> r[j] == svmScore(external(ranking[j]))
  {
    seq(NumDocs(|ranking|), j requires 0 <= j < NumDocs(|ranking|) => svmScore(external(ranking[j])))
  }

  /** As written, the candidate ranked first can receive another candidate's score: the ranking
      holds "b" before "a", a HashMap of 16 buckets visits "a" (bucket 1) before "b" (bucket 2),
      and the classifier scores "b" 1 and "a" 0. */
  lemma ClassifyMisassignsScores()
    ensures var ranking := [2, 1];
            var external := (d: int) => if d == 2 then "b" else "a";
            var svmScore := (s: string) => if s == "b" then 1.0 else 0.0;
            var lines := ScoreLinesAsWritten(["a", "b"], svmScore);
            lines[0] == 0.0 && svmScore(external(ranking[0])) == 1.0
  {
  }

  /** When the HashMap happens to visit the candidates in ranking order, the lines as written
      are those of the intended order. */
  lemma {:induction false} AsWrittenInRankingOrder(ranking: seq<int>, external: int -> string, svmScore: string -> real)
    ensures ScoreLinesAsWritten(seq(NumDocs(|ranking|), j requires 0 <= j < NumDocs(|ranking|) => external(ranking[j])), svmScore)
         == ScoreLines(ranking, external, svmScore)
  {
    var order := seq(NumDocs(|ranking|), j requires 0 <= j < NumDocs(|ranking|) => external(ranking[j]));
    assert forall j :: 0 <= j < |order| ==> ScoreLinesAsWritten(order, svmScore)[j] == ScoreLines(ranking, external, svmScore)[j];
  }

  /** Written in ranking order, every candidate read back receives the classifier's score for its
      own features. */
  lemma ClassifyKeepsScoresWithDocuments(ranking: seq<int>, external: int -> string, svmScore: string -> real,
                                         result: seq<ScoredDoc>)
    requires |result| <= NumDocs(|ranking|)
    requires forall i :: 0 <= i < |result| ==> result[i] == ScoredDoc(ranking[i], ScoreLines(ranking, external, svmScore)[i])
    ensures forall i :: 0 <= i < |result| ==> result[i].score == svmScore(external(result[i].docid))
  {
  }

  /** The read-back of classify as written: `scoreLines` answers the features in HashMap order
      `writeOrder`, and the i-th line is given to the i-th candidate of the ranking. */
  method ClassifyAsWritten(ranking: seq<int>, writeOrder: seq<string>, svmScore: string -> real)
    returns (result: seq<ScoredDoc>)
    ensures |result| == if |writeOrder| < NumDocs(|ranking|) then |writeOrder| else NumDocs(|ranking|)
    ensures forall i :: 0 <= i < |result| ==>
              result[i].docid == ranking[i] && result[i].score == svmScore(writeOrder[i])
  {
    result := ReadBackScores(ranking, ScoreLinesAsWritten(writeOrder, svmScore));
  }

  /** classify with the features written in ranking order: every one of the first NumDocs
      candidates is read back, in ranking order, with the classifier's score of its own features. */
  method Classify(ranking: seq<int>, external: int -> string, svmScore: string -> real)
    returns (result: seq<ScoredDoc>)
    ensures |result| == NumDocs(|ranking|)
    ensures forall i :: 0 <= i < |result| ==> result[i].docid == ranking[i]
    ensures forall i :: 0 <= i < |result| ==> result[i].score == svmScore(external(result[i].docid))
  {
    result := ReadBackScores(ranking, ScoreLines(ranking, external, svmScore));
    ClassifyKeepsScoresWithDocuments(ranking, external, svmScore, result);
  }
}
