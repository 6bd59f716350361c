/** The #WINDOW/n operator (QryIopWindow): a document matches where one position of every argument,
    in any order, fits in a window of n positions. Matching inside one document takes the next
    position of every argument; while the window they span is too wide, only the argument holding
    the smallest position (the first such argument) moves on; after a match all arguments move on.
    The position recorded for a match is the largest position of the window. */
module Window {
  import opened Common
  import opened Postings

  /** Collections.max on a non-empty list. */
  function MaxOf(s: seq<int>): (m: int)
    requires |s| > 0
    ensures m in s && forall k :: 0 <= k < |s| ==> s[k] <= m
  {
    if |s| == 1 then s[0]
    else
      var r := MaxOf(s[..|s| - 1]);
      assert r in s[..|s| - 1];
      if s[|s| - 1] > r then s[|s| - 1] else r
  }

  /** Collections.min on a non-empty list. */
  function MinOf(s: seq<int>): (m: int)
    requires |s| > 0
    ensures m in s && forall k :: 0 <= k < |s| ==> m <= s[k]
  {
    if |s| == 1 then s[0]
    else
      var r := MinOf(s[..|s| - 1]);
      assert r in s[..|s| - 1];
      if s[|s| - 1] < r then s[|s| - 1] else r
  }

  /** List.indexOf: the first index holding x. */
  function IndexOf(s: seq<int>, x: int): (r: nat)
    requires x in s
    ensures r < |s| && s[r] == x && forall k :: 0 <= k < r ==> s[k] != x
  {
    if s[0] == x then 0 else 1 + IndexOf(s[1..], x)
  }

  /** The window a choice of positions spans: maxLoc - minLoc + 1. */
  function Span(locs: seq<int>): int
    requires |locs| > 0
  {
    MaxOf(locs) - MinOf(locs) + 1
  }

  /** The argument the source moves on after a window that is too wide. */
  function MinIndex(locs: seq<int>): (m: nat)
    requires |locs| > 0
    ensures m < |locs| && locs[m] == MinOf(locs) && forall k :: 0 <= k < m ==> MinOf(locs) < locs[k]
  {
    IndexOf(locs, MinOf(locs))
  }

  /** The number of positions not yet taken, over all iterators (the loop's termination measure). */
  function RemainingUpTo(L: seq<seq<int>>, c: seq<nat>, k: nat): nat
    requires Fits(L, c) && k <= |L|
  {
    if k == 0 then 0 else RemainingUpTo(L, c, k - 1) + (|L[k - 1]| - c[k - 1])
  }

  function Remaining(L: seq<seq<int>>, c: seq<nat>): nat
    requires Fits(L, c)
  {
    RemainingUpTo(L, c, |L|)
  }

  lemma {:induction false} RemainingStep(L: seq<seq<int>>, c: seq<nat>, i: nat, k: nat)
    requires Fits(L, c) && i < |L| && c[i] < |L[i]| && k <= |L|
    ensures RemainingUpTo(L, c[i := c[i] + 1], k) == RemainingUpTo(L, c, k) - (if i < k then 1 else 0)
  {
    if k > 0 {
      RemainingStep(L, c, i, k - 1);
    }
  }

  /** Some iterator has no next position. */
  predicate AnyExhausted(L: seq<seq<int>>, c: seq<nat>)
    requires |c| == |L|
  {
    exists k :: 0 <= k < |L| && c[k] == |L[k]|
  }

  /** Every cursor one further on. */
  function Succ(c: seq<nat>): (r: seq<nat>)
    ensures |r| == |c| && forall k :: 0 <= k < |c| ==> r[k] == c[k] + 1
  {
    seq(|c|, k requires 0 <= k < |c| => c[k] + 1)
  }

  /** The position under every cursor. */
  function Heads(L: seq<seq<int>>, c: seq<nat>): (r: seq<int>)
    requires Fits(L, c) && !AnyExhausted(L, c)
    ensures |r| == |L| && forall k :: 0 <= k < |L| ==> r[k] == L[k][c[k]]
  {
    seq(|L|, k requires 0 <= k < |L| => L[k][c[k]])
  }

  lemma {:induction false} RemainingSucc(L: seq<seq<int>>, c: seq<nat>, k: nat)
    requires Fits(L, c) && !AnyExhausted(L, c) && k <= |L|
    ensures Fits(L, Succ(c)) && RemainingUpTo(L, Succ(c), k) == RemainingUpTo(L, c, k) - k
  {
    if k > 0 {
      RemainingSucc(L, c, k - 1);
    }
  }

  /** A fresh take: every iterator gives its next position, then the window is checked. */
  function WindowScan(L: seq<seq<int>>, c: seq<nat>, n: int): seq<int>
    requires 0 < |L| && Fits(L, c)
    decreases Remaining(L, c), 0
  {
    if AnyExhausted(L, c) then []
    else
      RemainingSucc(L, c, |L|);
      WindowCheck(L, Succ(c), Heads(L, c), n)
  }

  /** The window test on the chosen positions locs; c are the cursors after them. */
  function WindowCheck(L: seq<seq<int>>, c: seq<nat>, locs: seq<int>, n: int): seq<int>
    requires 0 < |L| && Fits(L, c) && |locs| == |L|
    decreases Remaining(L, c), 2
  {
    if Span(locs) <= n then [MaxOf(locs)] + WindowScan(L, c, n)
    else WindowReplace(L, c, locs, n)
  }

  /** After a window that is too wide: the first argument at the smallest position takes its next
      position, or the scan ends if it has none. */
  function WindowReplace(L: seq<seq<int>>, c: seq<nat>, locs: seq<int>, n: int): seq<int>
    requires 0 < |L| && Fits(L, c) && |locs| == |L|
    decreases Remaining(L, c), 1
  {
    var m := MinIndex(locs);
    if c[m] == |L[m]| then []
    else
      RemainingStep(L, c, m, |L|);
      WindowCheck(L, c[m := c[m] + 1], locs[m := L[m][c[m]]], n)
  }

  /** The positions getValidWindowPositions records for one document, every iterator at its start. */
  function WindowPositions(L: seq<seq<int>>, n: int): seq<int>
    requires 0 < |L|
  {
    WindowScan(L, Zeros(|L|), n)
  }

  /** The for loop of getValidWindowPositions: after a match (or at the start) every iterator gives
      its next position, appended to locations; otherwise only iterator minIndex does, and its
      position replaces locations[minIndex]. postingEmpty reports an iterator without a next one. */
  method AdvanceIterators(L: seq<seq<int>>, it: array<nat>, locations: seq<int>, matchFound: bool, minIndex: nat)
      returns (postingEmpty: bool, locations': seq<int>)
    requires 0 < |L| && it.Length == |L| && Fits(L, it[..])
    requires matchFound ==> locations == []
    requires !matchFound ==> |locations| == |L| && minIndex < |L|
    modifies it
    ensures Fits(L, it[..])
    ensures matchFound ==> (postingEmpty <==> AnyExhausted(L, old(it[..])))
    ensures matchFound && postingEmpty ==> |locations'| < |L|
    ensures matchFound && !postingEmpty ==>
      it[..] == Succ(old(it[..])) && locations' == Heads(L, old(it[..]))
    ensures !matchFound ==> |locations'| == |L| && (postingEmpty <==> old(it[minIndex]) == |L[minIndex]|)
    ensures !matchFound && postingEmpty ==> it[..] == old(it[..]) && locations' == locations
    ensures !matchFound && !postingEmpty ==>
      it[..] == old(it[..])[minIndex := old(it[minIndex]) + 1] &&
      locations' == locations[minIndex := L[minIndex][old(it[minIndex])]]
  {
    ghost var c0 := it[..];
    postingEmpty := false;
    locations' := locations;
    var i := 0;
    while i < |L|
      invariant 0 <= i <= |L| && Fits(L, it[..])
      invariant matchFound ==> |locations'| == i
      invariant matchFound ==> forall k :: 0 <= k < i ==>
        c0[k] < |L[k]| && it[k] == c0[k] + 1 && locations'[k] == L[k][c0[k]]
      invariant matchFound ==> forall k :: i <= k < |L| ==> it[k] == c0[k]
      invariant !matchFound && i <= minIndex ==> it[..] == c0 && locations' == locations
      invariant !matchFound && minIndex < i ==>
        c0[minIndex] < |L[minIndex]| && it[..] == c0[minIndex := c0[minIndex] + 1] && locations' == locations[minIndex := L[minIndex][c0[minIndex]]]
    {
      if !matchFound && i != minIndex {
        i := i + 1;
        continue;
      }
      if it[i] == |L[i]| {
        postingEmpty := true;
        break;
      }
      var position := L[i][it[i]];
      it[i] := it[i] + 1;
      if matchFound {
        locations' := locations' + [position];
      } else {
        locations' := locations'[minIndex := position];
      }
      i := i + 1;
    }
    if matchFound && !postingEmpty {
      assert !AnyExhausted(L, c0);
      assert it[..] == Succ(c0);
      assert locations' == Heads(L, c0);
    }
  }

  /** What remains to be recorded from a loop state: a fresh take after a match (or at the
      start), a replacement after a window that was too wide. */
  ghost function Pending(L: seq<seq<int>>, c: seq<nat>, locations: seq<int>, matchFound: bool, n: int): seq<int>
    requires 0 < |L| && Fits(L, c) && (!matchFound ==> |locations| == |L|)
  {
    if matchFound then WindowScan(L, c, n) else WindowReplace(L, c, locations, n)
  }

  /** A take that found every needed position leads to the window test on the new positions. */
  lemma PendingAfterTake(L: seq<seq<int>>, c0: seq<nat>, locs0: seq<int>, matchFound: bool, minIndex: nat,
                         c1: seq<nat>, locs1: seq<int>, n: int)
    requires 0 < |L| && Fits(L, c0) && Fits(L, c1) && |locs1| == |L|
    requires !matchFound ==> |locs0| == |L| && minIndex == MinIndex(locs0)
    requires matchFound ==> !AnyExhausted(L, c0) && c1 == Succ(c0) && locs1 == Heads(L, c0)
    requires !matchFound ==>
      c0[minIndex] < |L[minIndex]| && c1 == c0[minIndex := c0[minIndex] + 1] && locs1 == locs0[minIndex := L[minIndex][c0[minIndex]]]
    ensures Pending(L, c0, locs0, matchFound, n) == WindowCheck(L, c1, locs1, n)
    ensures Remaining(L, c1) < Remaining(L, c0)
  {
    if matchFound {
      RemainingSucc(L, c0, |L|);
    } else {
      RemainingStep(L, c0, minIndex, |L|);
    }
  }

  /** The window test on the new positions: a match records maxLoc and starts a fresh take, a
      window that is too wide leads to a replacement. */
  lemma PendingAfterCheck(L: seq<seq<int>>, c: seq<nat>, locs: seq<int>, n: int, positions: seq<int>, total: seq<int>)
    requires 0 < |L| && Fits(L, c) && |locs| == |L|
    requires positions + WindowCheck(L, c, locs, n) == total
    ensures Span(locs) <= n ==> (positions + [MaxOf(locs)]) + Pending(L, c, [], true, n) == total
    ensures Span(locs) > n ==> positions + Pending(L, c, locs, false, n) == total
  {
    if Span(locs) <= n {
      assert (positions + [MaxOf(locs)]) + WindowScan(L, c, n) == positions + ([MaxOf(locs)] + WindowScan(L, c, n));
    }
  }

  /** getValidWindowPositions: the take / check / replace loop, recording maxLoc for every match. */
  method GetValidWindowPositions(L: seq<seq<int>>, maxDistance: int) returns (positions: seq<int>)
    requires 0 < |L|
    ensures positions == WindowPositions(L, maxDistance)
  {
    var it := new nat[|L|](_ => 0);
    assert it[..] == Zeros(|L|);
    var minIndex: nat := 0;  // the initial value is not read before it is set
    var postingEmpty := false;
    var matchFound := true;
    var locations: seq<int> := [];
    positions := [];
    while !postingEmpty
      invariant it.Length == |L| && Fits(L, it[..])
      invariant matchFound ==> !postingEmpty && locations == []
      invariant !matchFound ==> |locations| == |L| && minIndex == MinIndex(locations) && Span(locations) > maxDistance
      invariant positions + (if postingEmpty then [] else Pending(L, it[..], locations, matchFound, maxDistance))
        == WindowPositions(L, maxDistance)
      decreases Remaining(L, it[..]), if postingEmpty then 0 else 1
    {
      ghost var c0 := it[..];
      ghost var locs0 := locations;
      ghost var matchFound0 := matchFound;
      postingEmpty, locations := AdvanceIterators(L, it, locations, matchFound, minIndex);
      if |locations| < |L| {
        assert WindowScan(L, c0, maxDistance) == [];
        break;
      }
      if postingEmpty {
        assert WindowReplace(L, c0, locs0, maxDistance) == [];
      } else {
        PendingAfterTake(L, c0, locs0, matchFound0, minIndex, it[..], locations, maxDistance);
        PendingAfterCheck(L, it[..], locations, maxDistance, positions, WindowPositions(L, maxDistance));
      }
      var maxLoc := MaxOf(locations);
      var minLoc := MinOf(locations);
      minIndex := IndexOf(locations, minLoc);
      var windowSize := maxLoc - minLoc + 1;
      matchFound := windowSize <= maxDistance;
      if matchFound {
        positions := positions + [maxLoc];
        locations := [];
      }
    }
  }

  /** The posting WINDOW produces for document d, or none when no window matched there. */
  function WindowPosting(args: seq<InvList>, d: nat, n: int): (p: Posting)
    requires 0 < |args|
    ensures p.docid == d && Sorted(p.positions)
  {
    Posting(d, SortAsc(WindowPositions(PositionsAt(args, d), n)))
  }

  /** Document d is in WINDOW's result: every argument contains it and some window matched. */
  ghost predicate Kept(args: seq<InvList>, d: nat, n: int)
    requires 0 < |args|
  {
    IsCommon(args, d) && |WindowPositions(PositionsAt(args, d), n)| > 0
  }

  ghost predicate BuiltSoFar(args: seq<InvList>, n: int, result: InvList, cs: seq<nat>)
    requires 0 < |args| && |cs| == |args|
  {
    DocsIncreasing(result) &&
    (forall d :: Kept(args, d, n) ==> HasDoc(result, d) || CommonFrom(args, cs, d)) &&
    (forall j :: 0 <= j < |result| ==> Kept(args, result[j].docid, n) && result[j] == WindowPosting(args, result[j].docid, n)) &&
    (|result| > 0 ==> forall d :: CommonFrom(args, cs, d) ==> result[|result| - 1].docid < d)
  }

  lemma WindowPostingLength(args: seq<InvList>, d: nat, n: int)
    requires 0 < |args|
    ensures |WindowPosting(args, d, n).positions| == |WindowPositions(PositionsAt(args, d), n)|
  {
    var s := WindowPositions(PositionsAt(args, d), n);
    assert |multiset(SortAsc(s))| == |multiset(s)|;
  }

  lemma BuiltSoFarKeep(args: seq<InvList>, n: int, result: InvList, cs: seq<nat>, cs': seq<nat>, docid: nat)
    requires 0 < |args| && |cs| == |args| == |cs'|
    requires BuiltSoFar(args, n, result, cs)
    requires IsCommon(args, docid) && CommonFrom(args, cs, docid)
    requires forall d :: CommonFrom(args, cs, d) && d != docid ==> CommonFrom(args, cs', d)
    requires forall d :: CommonFrom(args, cs', d) ==> docid < d
    requires |WindowPosting(args, docid, n).positions| > 0
    ensures BuiltSoFar(args, n, result + [WindowPosting(args, docid, n)], cs')
  {
    var posting := WindowPosting(args, docid, n);
    WindowPostingLength(args, docid, n);
    DocsIncreasingAppend(result, posting);
    forall d | Kept(args, d, n) ensures HasDoc(result + [posting], d) || CommonFrom(args, cs', d) {
      HasDocAppend(result, posting, d);
    }
  }

  lemma BuiltSoFarSkip(args: seq<InvList>, n: int, result: InvList, cs: seq<nat>, cs': seq<nat>, docid: nat)
    requires 0 < |args| && |cs| == |args| == |cs'|
    requires BuiltSoFar(args, n, result, cs)
    requires CommonFrom(args, cs, docid)
    requires forall d :: CommonFrom(args, cs, d) && d != docid ==> CommonFrom(args, cs', d)
    requires forall d :: CommonFrom(args, cs', d) ==> docid < d
    requires |WindowPosting(args, docid, n).positions| == 0
    ensures BuiltSoFar(args, n, result, cs')
  {
    WindowPostingLength(args, docid, n);
    assert !Kept(args, docid, n);
  }

  lemma BuiltSoFarDone(args: seq<InvList>, n: int, result: InvList, cs: seq<nat>)
    requires 0 < |args| && |cs| == |args|
    requires BuiltSoFar(args, n, result, cs)
    requires forall d :: !CommonFrom(args, cs, d)
    ensures forall d :: HasDoc(result, d) <==> Kept(args, d, n)
  {
    forall d | HasDoc(result, d) ensures Kept(args, d, n) {
      var j :| 0 <= j < |result| && result[j].docid == d;
    }
  }

  /** QryIopWindow.evaluate: one posting, in increasing id order, for every document that contains
      all arguments and has at least one matching window, carrying the sorted match positions.
      When the postings list their positions in order, the documents kept are exactly those
      where one position of every argument fits in a window of maxDistance positions. */
  method Evaluate(args: seq<InvList>, maxDistance: int) returns (result: InvList)
    requires forall i :: 0 <= i < |args| ==> DocsIncreasing(args[i])
    ensures |args| == 0 ==> result == []
    ensures DocsIncreasing(result)
    ensures forall d :: HasDoc(result, d) <==>
      0 < |args| && IsCommon(args, d) && |WindowPositions(PositionsAt(args, d), maxDistance)| > 0
    ensures forall j :: 0 <= j < |result| ==>
      0 < |args| && result[j].positions == SortAsc(WindowPositions(PositionsAt(args, result[j].docid), maxDistance))
    ensures (forall i :: 0 <= i < |args| ==> PositionsSorted(args[i])) ==>
      forall d :: HasDoc(result, d) <==> 0 < |args| && IsCommon(args, d) && HasWindow(PositionsAt(args, d), maxDistance)
  {
    result := [];
    if |args| == 0 {
      return;
    }
    var cur := new nat[|args|](_ => 0);
    while true
      invariant cur.Length == |args| && CursorsFit(args, cur[..])
      invariant BuiltSoFar(args, maxDistance, result, cur[..])
      decreases |args[0]| - cur[0]
    {
      ghost var before := cur[..];
      var docid, lists := NextMatch(args, cur);
      if docid == INVALID_DOCID {
        BuiltSoFarDone(args, maxDistance, result, before);
        break;
      }
      var positions := GetValidWindowPositions(lists, maxDistance);
      positions := SortAsc(positions);
      if |positions| > 0 {
        BuiltSoFarKeep(args, maxDistance, result, before, cur[..], docid);
        result := result + [Posting(docid, positions)];
      } else {
        BuiltSoFarSkip(args, maxDistance, result, before, cur[..], docid);
      }
    }
    WindowIffInDocuments(args, maxDistance);
  }

  /** The positions under indices idx, one per argument. */
  function PickAt(L: seq<seq<int>>, idx: seq<nat>): (r: seq<int>)
    requires |idx| == |L| && forall k :: 0 <= k < |L| ==> idx[k] < |L[k]|
    ensures |r| == |L| && forall k :: 0 <= k < |L| ==> r[k] == L[k][idx[k]]
  {
    seq(|L|, k requires 0 <= k < |L| => L[k][idx[k]])
  }

  /** p is the largest position of one position per argument spanning at most n positions. */
  ghost predicate IsWindowMatch(L: seq<seq<int>>, n: int, p: int)
  {
    0 < |L| &&
    exists idx :: (|idx| == |L| && (forall k :: 0 <= k < |L| ==> idx[k] < |L[k]|) &&
                   Span(PickAt(L, idx)) <= n && p == MaxOf(PickAt(L, idx)))
  }

  /** The chosen positions are those just before the cursors. */
  predicate LocsAt(L: seq<seq<int>>, c: seq<nat>, locs: seq<int>)
    requires Fits(L, c) && |locs| == |L|
  {
    forall k :: 0 <= k < |L| ==> 1 <= c[k] && locs[k] == L[k][c[k] - 1]
  }

  lemma LocsAtSucc(L: seq<seq<int>>, c: seq<nat>)
    requires 0 < |L| && Fits(L, c) && !AnyExhausted(L, c)
    ensures Fits(L, Succ(c)) && LocsAt(L, Succ(c), Heads(L, c))
  {
  }

  lemma LocsAtStep(L: seq<seq<int>>, c: seq<nat>, locs: seq<int>, m: nat)
    requires Fits(L, c) && |locs| == |L| && LocsAt(L, c, locs) && m < |L| && c[m] < |L[m]|
    ensures Fits(L, c[m := c[m] + 1]) && LocsAt(L, c[m := c[m] + 1], locs[m := L[m][c[m]]])
  {
  }

  lemma {:induction false} ScanSound(L: seq<seq<int>>, c: seq<nat>, n: int)
    requires 0 < |L| && Fits(L, c)
    ensures forall p :: p in WindowScan(L, c, n) ==> IsWindowMatch(L, n, p)
    decreases Remaining(L, c), 0
  {
    if !AnyExhausted(L, c) {
      RemainingSucc(L, c, |L|);
      LocsAtSucc(L, c);
      CheckSound(L, Succ(c), Heads(L, c), n);
    }
  }

  lemma {:induction false} CheckSound(L: seq<seq<int>>, c: seq<nat>, locs: seq<int>, n: int)
    requires 0 < |L| && Fits(L, c) && |locs| == |L| && LocsAt(L, c, locs)
    ensures forall p :: p in WindowCheck(L, c, locs, n) ==> IsWindowMatch(L, n, p)
    decreases Remaining(L, c), 2
  {
    if Span(locs) <= n {
      var idx := seq(|L|, k requires 0 <= k < |L| => (c[k] - 1) as nat);
      assert PickAt(L, idx) == locs;
      assert IsWindowMatch(L, n, MaxOf(locs));
      ScanSound(L, c, n);
    } else {
      ReplaceSound(L, c, locs, n);
    }
  }

  lemma {:induction false} ReplaceSound(L: seq<seq<int>>, c: seq<nat>, locs: seq<int>, n: int)
    requires 0 < |L| && Fits(L, c) && |locs| == |L| && LocsAt(L, c, locs)
    ensures forall p :: p in WindowReplace(L, c, locs, n) ==> IsWindowMatch(L, n, p)
    decreases Remaining(L, c), 1
  {
    var m := MinIndex(locs);
    if c[m] < |L[m]| {
      RemainingStep(L, c, m, |L|);
      LocsAtStep(L, c, locs, m);
      var c', locs' := c[m := c[m] + 1], locs[m := L[m][c[m]]];
      assert WindowReplace(L, c, locs, n) == WindowCheck(L, c', locs', n);
      CheckSound(L, c', locs', n);
    }
  }

  /** Soundness: every recorded position is the largest position of a window of at most n
      positions holding one position of every argument. */
  lemma WindowSound(L: seq<seq<int>>, n: int)
    requires 0 < |L|
    ensures forall p :: p in WindowPositions(L, n) ==> IsWindowMatch(L, n, p)
  {
    ScanSound(L, Zeros(|L|), n);
  }

  /** A window holds at least one position, so with n < 1 nothing is ever recorded. */
  lemma {:induction false} ScanNone(L: seq<seq<int>>, c: seq<nat>, n: int)
    requires 0 < |L| && Fits(L, c) && n < 1
    ensures WindowScan(L, c, n) == []
    decreases Remaining(L, c), 0
  {
    if !AnyExhausted(L, c) {
      RemainingSucc(L, c, |L|);
      CheckNone(L, Succ(c), Heads(L, c), n);
    }
  }

  lemma {:induction false} CheckNone(L: seq<seq<int>>, c: seq<nat>, locs: seq<int>, n: int)
    requires 0 < |L| && Fits(L, c) && |locs| == |L| && n < 1
    ensures WindowCheck(L, c, locs, n) == []
    decreases Remaining(L, c), 1
  {
    assert MinOf(locs) <= locs[0] <= MaxOf(locs);
    var m := MinIndex(locs);
    if c[m] < |L[m]| {
      RemainingStep(L, c, m, |L|);
      ReplaceMoves(L, c, locs, n);
      CheckNone(L, c[m := c[m] + 1], locs[m := L[m][c[m]]], n);
    }
  }

  lemma WindowNone(L: seq<seq<int>>, n: int)
    requires 0 < |L| && n < 1
    ensures WindowPositions(L, n) == []
  {
    ScanNone(L, Zeros(|L|), n);
  }

  /** With one argument and n >= 1 every window is a single position: all of them are recorded. */
  lemma {:induction false} ScanSingle(l: seq<int>, c: nat, n: int)
    requires c <= |l| && 1 <= n
    ensures WindowScan([l], [c], n) == l[c..]
    decreases |l| - c
  {
    if c < |l| {
      assert !AnyExhausted([l], [c]);
      assert Succ([c]) == [c + 1] && Heads([l], [c]) == [l[c]];
      assert Span([l[c]]) == 1;
      ScanSingle(l, c + 1, n);
      assert l[c..] == [l[c]] + l[c + 1..];
    } else {
      assert [c][0] == |[l][0]|;
    }
  }

  lemma WindowSingle(l: seq<int>, n: int)
    requires 1 <= n
    ensures WindowPositions([l], n) == l
  {
    assert Zeros(1) == [0];
    ScanSingle(l, 0, n);
  }

  /** Every position recorded from a state lies at or above every position chosen so far and
      every position still under a cursor, when each argument's positions are sorted. */
  lemma {:induction false} ScanAbove(L: seq<seq<int>>, c: seq<nat>, n: int)
    requires 0 < |L| && Fits(L, c) && forall k :: 0 <= k < |L| ==> Sorted(L[k])
    ensures forall q, k :: q in WindowScan(L, c, n) && 0 <= k < |L| ==> c[k] < |L[k]| && L[k][c[k]] <= q
    decreases Remaining(L, c), 0
  {
    if !AnyExhausted(L, c) {
      RemainingSucc(L, c, |L|);
      LocsAtSucc(L, c);
      CheckAbove(L, Succ(c), Heads(L, c), n);
    }
  }

  lemma {:induction false} CheckAbove(L: seq<seq<int>>, c: seq<nat>, locs: seq<int>, n: int)
    requires 0 < |L| && Fits(L, c) && |locs| == |L| && LocsAt(L, c, locs)
    requires forall k :: 0 <= k < |L| ==> Sorted(L[k])
    ensures forall q, k :: q in WindowCheck(L, c, locs, n) && 0 <= k < |L| ==> locs[k] <= q
    decreases Remaining(L, c), 2
  {
    if Span(locs) <= n {
      ScanAbove(L, c, n);
      forall q, k | q in WindowScan(L, c, n) && 0 <= k < |L| ensures locs[k] <= q {
        assert L[k][c[k] - 1] <= L[k][c[k]];
      }
    } else {
      ReplaceAbove(L, c, locs, n);
    }
  }

  lemma {:induction false} ReplaceAbove(L: seq<seq<int>>, c: seq<nat>, locs: seq<int>, n: int)
    requires 0 < |L| && Fits(L, c) && |locs| == |L| && LocsAt(L, c, locs)
    requires forall k :: 0 <= k < |L| ==> Sorted(L[k])
    ensures forall q, k :: q in WindowReplace(L, c, locs, n) && 0 <= k < |L| ==> locs[k] <= q
    decreases Remaining(L, c), 1
  {
    var m := MinIndex(locs);
    if c[m] < |L[m]| {
      var c', locs' := ReplaceNext(L, c, locs, n);
      assert L[m][c[m] - 1] <= L[m][c[m]];
      UpdateRaises(locs, m, L[m][c[m]]);
      CheckAbove(L, c', locs', n);
      AboveCarries(locs, locs', WindowCheck(L, c', locs', n));
    }
  }

  /** The state after a replacement whose smallest argument has a next position. */
  lemma ReplaceNext(L: seq<seq<int>>, c: seq<nat>, locs: seq<int>, n: int) returns (c': seq<nat>, locs': seq<int>)
    requires 0 < |L| && Fits(L, c) && |locs| == |L| && LocsAt(L, c, locs)
    requires c[MinIndex(locs)] < |L[MinIndex(locs)]|
    ensures c' == c[MinIndex(locs) := c[MinIndex(locs)] + 1]
    ensures locs' == locs[MinIndex(locs) := L[MinIndex(locs)][c[MinIndex(locs)]]]
    ensures Fits(L, c') && |locs'| == |L| && LocsAt(L, c', locs')
    ensures Remaining(L, c') < Remaining(L, c)
    ensures WindowReplace(L, c, locs, n) == WindowCheck(L, c', locs', n)
  {
    var m := MinIndex(locs);
    RemainingStep(L, c, m, |L|);
    LocsAtStep(L, c, locs, m);
    c', locs' := c[m := c[m] + 1], locs[m := L[m][c[m]]];
    ReplaceMoves(L, c, locs, n);
  }

  lemma UpdateRaises(locs: seq<int>, m: nat, v: int)
    requires m < |locs| && locs[m] <= v
    ensures forall k :: 0 <= k < |locs| ==> locs[k] <= locs[m := v][k]
  {
  }

  /** A bound below every recorded position carries over to smaller locations. */
  lemma AboveCarries(locs: seq<int>, locs': seq<int>, recorded: seq<int>)
    requires |locs| == |locs'| && forall k :: 0 <= k < |locs| ==> locs[k] <= locs'[k]
    requires forall q, k :: q in recorded && 0 <= k < |locs'| ==> locs'[k] <= q
    ensures forall q, k :: q in recorded && 0 <= k < |locs| ==> locs[k] <= q
  {
  }

  /** A value below every element of a strictly increasing sequence extends it. */
  lemma ConsIncreasing(x: int, rest: seq<int>)
    requires StrictlyIncreasing(rest) && forall q :: q in rest ==> x < q
    ensures StrictlyIncreasing([x] + rest)
  {
    var s := [x] + rest;
    forall a, b | 0 <= a < b < |s| ensures s[a] < s[b] {
      if a == 0 {
        assert s[b] in rest;
      } else {
        assert s[a] == rest[a - 1] && s[b] == rest[b - 1];
      }
    }
  }

  lemma {:induction false} ScanIncreasing(L: seq<seq<int>>, c: seq<nat>, n: int)
    requires 0 < |L| && Fits(L, c) && forall k :: 0 <= k < |L| ==> StrictlyIncreasing(L[k])
    ensures StrictlyIncreasing(WindowScan(L, c, n))
    decreases Remaining(L, c), 0
  {
    if !AnyExhausted(L, c) {
      RemainingSucc(L, c, |L|);
      LocsAtSucc(L, c);
      CheckIncreasing(L, Succ(c), Heads(L, c), n);
    }
  }

  lemma {:induction false} CheckIncreasing(L: seq<seq<int>>, c: seq<nat>, locs: seq<int>, n: int)
    requires 0 < |L| && Fits(L, c) && |locs| == |L| && LocsAt(L, c, locs)
    requires forall k :: 0 <= k < |L| ==> StrictlyIncreasing(L[k])
    ensures StrictlyIncreasing(WindowCheck(L, c, locs, n))
    decreases Remaining(L, c), 2
  {
    if Span(locs) <= n {
      var mx := MaxOf(locs);
      var rest := WindowScan(L, c, n);
      ScanIncreasing(L, c, n);
      ScanAbove(L, c, n);
      var km :| 0 <= km < |L| && locs[km] == mx;
      forall q | q in rest ensures mx < q {
        assert L[km][c[km] - 1] < L[km][c[km]];
      }
      ConsIncreasing(mx, rest);
    } else {
      ReplaceIncreasing(L, c, locs, n);
    }
  }

  lemma {:induction false} ReplaceIncreasing(L: seq<seq<int>>, c: seq<nat>, locs: seq<int>, n: int)
    requires 0 < |L| && Fits(L, c) && |locs| == |L| && LocsAt(L, c, locs)
    requires forall k :: 0 <= k < |L| ==> StrictlyIncreasing(L[k])
    ensures StrictlyIncreasing(WindowReplace(L, c, locs, n))
    decreases Remaining(L, c), 1
  {
    var m := MinIndex(locs);
    if c[m] < |L[m]| {
      RemainingStep(L, c, m, |L|);
      LocsAtStep(L, c, locs, m);
      CheckIncreasing(L, c[m := c[m] + 1], locs[m := L[m][c[m]]], n);
    }
  }

  /** When every argument's positions strictly increase (as positions in a posting do), the
      recorded positions strictly increase too, so the sort in evaluate changes nothing. */
  lemma WindowSortIsIdentity(L: seq<seq<int>>, n: int)
    requires 0 < |L| && forall k :: 0 <= k < |L| ==> StrictlyIncreasing(L[k])
    ensures SortAsc(WindowPositions(L, n)) == WindowPositions(L, n)
  {
    ScanIncreasing(L, Zeros(|L|), n);
    SortAscOfSorted(WindowPositions(L, n));
  }

  /** One position of every argument fits in a window of n positions. */
  ghost predicate HasWindow(L: seq<seq<int>>, n: int)
  {
    0 < |L| &&
    exists idx :: (|idx| == |L| && (forall k :: 0 <= k < |L| ==> idx[k] < |L[k]|) && Span(PickAt(L, idx)) <= n)
  }

  /** The witness idx of a window: every chosen position is at or after its cursor's last take. */
  ghost predicate Behind(L: seq<seq<int>>, c: seq<nat>, idx: seq<nat>, n: int)
  {
    0 < |L| && |idx| == |L| == |c| && (forall k :: 0 <= k < |L| ==> idx[k] < |L[k]| && c[k] <= idx[k] + 1) &&
    Span(PickAt(L, idx)) <= n
  }

  lemma {:induction false} ScanComplete(L: seq<seq<int>>, c: seq<nat>, n: int, idx: seq<nat>)
    requires 0 < |L| && Fits(L, c) && forall k :: 0 <= k < |L| ==> Sorted(L[k])
    requires Behind(L, c, idx, n) && forall k :: 0 <= k < |L| ==> c[k] <= idx[k]
    ensures |WindowScan(L, c, n)| > 0
    decreases Remaining(L, c), 0
  {
    assert !AnyExhausted(L, c);
    RemainingSucc(L, c, |L|);
    LocsAtSucc(L, c);
    CheckComplete(L, Succ(c), Heads(L, c), n, idx);
  }

  lemma {:induction false} CheckComplete(L: seq<seq<int>>, c: seq<nat>, locs: seq<int>, n: int, idx: seq<nat>)
    requires 0 < |L| && Fits(L, c) && |locs| == |L| && LocsAt(L, c, locs)
    requires forall k :: 0 <= k < |L| ==> Sorted(L[k])
    requires Behind(L, c, idx, n)
    ensures |WindowCheck(L, c, locs, n)| > 0
    decreases Remaining(L, c), 2
  {
    if Span(locs) > n {
      ReplaceComplete(L, c, locs, n, idx);
    }
  }

  /** A window too wide never has its smallest argument on the witness already: that argument
      can always move on. */
  lemma SmallestBelowWitness(locs: seq<int>, w: seq<int>, n: int)
    requires 0 < |locs| == |w| && forall k :: 0 <= k < |locs| ==> locs[k] <= w[k]
    requires Span(w) <= n < Span(locs)
    ensures locs[MinIndex(locs)] < w[MinIndex(locs)]
  {
    var m := MinIndex(locs);
    var km := IndexOf(locs, MaxOf(locs));
    assert locs[km] <= w[km] <= MaxOf(w);
    assert MinOf(w) <= w[m];
  }

  /** Moving on an argument still behind the witness keeps it behind. */
  lemma BehindStep(L: seq<seq<int>>, c: seq<nat>, idx: seq<nat>, n: int, m: nat)
    requires Behind(L, c, idx, n) && m < |L| && c[m] <= idx[m]
    ensures Behind(L, c[m := c[m] + 1], idx, n)
  {
  }

  /** Sorted positions: each position taken so far is at most the witness's position. */
  lemma TakenBelowWitness(L: seq<seq<int>>, c: seq<nat>, locs: seq<int>, n: int, idx: seq<nat>)
    requires 0 < |L| && Fits(L, c) && |locs| == |L| && LocsAt(L, c, locs)
    requires forall k :: 0 <= k < |L| ==> Sorted(L[k])
    requires Behind(L, c, idx, n)
    ensures forall k :: 0 <= k < |L| ==> locs[k] <= PickAt(L, idx)[k]
  {
    forall k | 0 <= k < |L| ensures locs[k] <= PickAt(L, idx)[k] {
      assert L[k][c[k] - 1] <= L[k][idx[k]];
    }
  }

  lemma {:induction false} ReplaceComplete(L: seq<seq<int>>, c: seq<nat>, locs: seq<int>, n: int, idx: seq<nat>)
    requires 0 < |L| && Fits(L, c) && |locs| == |L| && LocsAt(L, c, locs)
    requires forall k :: 0 <= k < |L| ==> Sorted(L[k])
    requires Behind(L, c, idx, n) && Span(locs) > n
    ensures |WindowReplace(L, c, locs, n)| > 0
    decreases Remaining(L, c), 1
  {
    TakenBelowWitness(L, c, locs, n, idx);
    var c', locs' := ReplaceStep(L, c, locs, n, idx);
    CheckComplete(L, c', locs', n, idx);
  }

  /** The state after a replacement when a window exists: the witness stays ahead of the
      cursors and the replacement is the window test on the new state. */
  lemma ReplaceStep(L: seq<seq<int>>, c: seq<nat>, locs: seq<int>, n: int, idx: seq<nat>)
      returns (c': seq<nat>, locs': seq<int>)
    requires 0 < |L| && Fits(L, c) && |locs| == |L| && LocsAt(L, c, locs)
    requires Behind(L, c, idx, n) && Span(locs) > n
    requires forall k :: 0 <= k < |L| ==> locs[k] <= PickAt(L, idx)[k]
    ensures Fits(L, c') && |locs'| == |L| && LocsAt(L, c', locs') && Behind(L, c', idx, n)
    ensures Remaining(L, c') < Remaining(L, c)
    ensures WindowReplace(L, c, locs, n) == WindowCheck(L, c', locs', n)
  {
    var m := MinIndex(locs);
    SmallestBelowWitness(locs, PickAt(L, idx), n);
    assert c[m] <= idx[m] by {
      assert c[m] - 1 != idx[m];
    }
    BehindStep(L, c, idx, n, m);
    c', locs' := ReplaceNext(L, c, locs, n);
  }

  /** A replacement whose smallest argument has a next position is the window test after it. */
  lemma ReplaceMoves(L: seq<seq<int>>, c: seq<nat>, locs: seq<int>, n: int)
    requires 0 < |L| && Fits(L, c) && |locs| == |L| && c[MinIndex(locs)] < |L[MinIndex(locs)]|
    ensures var m := MinIndex(locs);
            Fits(L, c[m := c[m] + 1]) &&
            WindowReplace(L, c, locs, n) == WindowCheck(L, c[m := c[m] + 1], locs[m := L[m][c[m]]], n)
  {
  }

  /** Completeness: when each argument's positions are sorted and one position of every argument
      fits in a window of n positions, a match is recorded. */
  lemma WindowComplete(L: seq<seq<int>>, n: int)
    requires 0 < |L| && forall k :: 0 <= k < |L| ==> Sorted(L[k])
    requires HasWindow(L, n)
    ensures |WindowPositions(L, n)| > 0
  {
    var idx :| |idx| == |L| && (forall k :: 0 <= k < |L| ==> idx[k] < |L[k]|) && Span(PickAt(L, idx)) <= n;
    var c := Zeros(|L|);
    assert Fits(L, c) && Behind(L, c, idx, n);
    ScanComplete(L, c, n, idx);
  }

  /** With sorted positions, a match is recorded exactly when some window of n positions holds
      one position of every argument. */
  lemma WindowMatchesIffWindowExists(L: seq<seq<int>>, n: int)
    requires 0 < |L| && forall k :: 0 <= k < |L| ==> Sorted(L[k])
    ensures |WindowPositions(L, n)| > 0 <==> HasWindow(L, n)
  {
    if |WindowPositions(L, n)| > 0 {
      WindowSound(L, n);
      assert IsWindowMatch(L, n, WindowPositions(L, n)[0]);
    }
    if HasWindow(L, n) {
      WindowComplete(L, n);
    }
  }

  lemma WindowIffInDocuments(args: seq<InvList>, n: int)
    ensures (forall i :: 0 <= i < |args| ==> PositionsSorted(args[i])) ==>
      forall d :: 0 < |args| ==> (|WindowPositions(PositionsAt(args, d), n)| > 0 <==> HasWindow(PositionsAt(args, d), n))
  {
    if 0 < |args| && forall i :: 0 <= i < |args| ==> PositionsSorted(args[i]) {
      forall d ensures |WindowPositions(PositionsAt(args, d), n)| > 0 <==> HasWindow(PositionsAt(args, d), n) {
        forall k | 0 <= k < |args| ensures Sorted(PositionsAt(args, d)[k]) {
          PositionsOfSorted(args[k], d);
        }
        WindowMatchesIffWindowExists(PositionsAt(args, d), n);
      }
    }
  }
}
