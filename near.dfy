/** The #NEAR/n operator (QryIopNear): a document matches when the arguments' terms appear in
    argument order, each at most n positions after the previous one. Matching inside one document
    is greedy: every attempt starts at the next unused position of argument 0, takes for each later
    argument its first position after the previous argument's, and on failure rewinds the later
    arguments to where the attempt started. */
module Near {
  import opened Common
  import opened Postings

  /** How one matching attempt ends: some iterator ran out (the scan stops), the order or distance
      test failed (the cursors to retry from), or all arguments matched (the cursors to continue
      from and the position recorded for the match, that of the last argument). */
  datatype Outcome = Exhausted | Failed(next: seq<nat>) | Matched(next: seq<nat>, position: int)

  /** The "order" loop: from index j, keep taking the next position while it is not after prev and
      another one remains. */
  function SkipTo(l: seq<int>, j: nat, prev: int): (r: nat)
    requires j < |l|
    ensures j <= r < |l|
    ensures forall k :: j <= k < r ==> l[k] <= prev
    ensures prev < l[r] || r == |l| - 1
    decreases |l| - j
  {
    if l[j] <= prev && j + 1 < |l| then SkipTo(l, j + 1, prev) else j
  }

  /** Arguments i.. of one attempt; c are the current cursors, prev the position chosen for
      argument i-1, start the cursors when the attempt began. */
  function Extend(L: seq<seq<int>>, c: seq<nat>, i: nat, prev: int, n: int, start: seq<nat>): (r: Outcome)
    requires Fits(L, c) && Fits(L, start) && 1 <= i <= |L|
    ensures r.Failed? ==> r.next == start[0 := c[0]]
    ensures r.Matched? ==> Fits(L, r.next) && r.next[0] == c[0]
    decreases |L| - i
  {
    if i == |L| then Matched(c, prev)
    else if c[i] == |L[i]| then Exhausted
    else
      var k := SkipTo(L[i], c[i], prev);
      var p := L[i][k];
      if p > prev && p - prev <= n then Extend(L, c[i := k + 1], i + 1, p, n, start)
      else Failed(start[0 := c[0]])
  }

  /** One step of Extend, unfolded: argument i either extends the chain from the cursors next,
      where its order loop stopped, or ends the attempt. */
  lemma ExtendStep(L: seq<seq<int>>, c: seq<nat>, i: nat, prev: int, n: int, start: seq<nat>,
                   next: seq<nat>, position: int)
    requires Fits(L, c) && Fits(L, start) && 1 <= i < |L| && c[i] < |L[i]|
    requires next == c[i := SkipTo(L[i], c[i], prev) + 1] && position == L[i][SkipTo(L[i], c[i], prev)]
    ensures position > prev && position - prev <= n ==>
      Extend(L, c, i, prev, n, start) == Extend(L, next, i + 1, position, n, start)
    ensures !(position > prev && position - prev <= n) ==> Extend(L, c, i, prev, n, start) == Failed(start[0 := c[0]])
  {
  }

  /** One pass of the attempt loop of getValidNearPositions, from cursors c. */
  function Attempt(L: seq<seq<int>>, c: seq<nat>, n: int): (r: Outcome)
    requires 0 < |L| && Fits(L, c)
    ensures !r.Exhausted? ==> Fits(L, r.next) && r.next[0] == c[0] + 1
  {
    if c[0] == |L[0]| then Exhausted
    else Extend(L, c[0 := c[0] + 1], 1, L[0][c[0]], n, c)
  }

  /** The positions recorded by the attempt loop from cursors c until some iterator runs out. */
  function NearScan(L: seq<seq<int>>, c: seq<nat>, n: int): seq<int>
    requires 0 < |L| && Fits(L, c)
    decreases |L[0]| - c[0]
  {
    match Attempt(L, c, n)
    case Exhausted => []
    case Failed(c') => NearScan(L, c', n)
    case Matched(c', p) => [p] + NearScan(L, c', n)
  }

  /** The positions getValidNearPositions records for one document, every iterator at its start. */
  function NearPositions(L: seq<seq<int>>, n: int): seq<int>
    requires 0 < |L|
  {
    NearScan(L, Zeros(|L|), n)
  }

  /** The rewind after a failed attempt: iterators 1..i step back by the counts in stepsMoved. */
  method Rewind(it: array<nat>, stepsMoved: array<int>, i: nat)
    requires i < it.Length == stepsMoved.Length
    requires forall j :: 1 <= j <= i ==> 0 <= stepsMoved[j] <= it[j]
    modifies it
    ensures forall j :: 0 <= j < it.Length ==>
      it[j] == if 1 <= j <= i then old(it[j]) - stepsMoved[j] else old(it[j])
  {
    for k := 1 to i + 1
      invariant forall j :: 0 <= j < it.Length ==>
        it[j] == if 1 <= j < k then old(it[j]) - stepsMoved[j] else old(it[j])
    {
      for m := 0 to stepsMoved[k]
        invariant it[k] == old(it[k]) - m
        invariant forall j :: 0 <= j < it.Length && j != k ==>
          it[j] == if 1 <= j < k then old(it[j]) - stepsMoved[j] else old(it[j])
      {
        it[k] := it[k] - 1;
      }
    }
  }

  /** The order loop of one argument's iterator: while the position just taken is not after prev
      and another remains, take the next one. cursor is the iterator's next index. */
  method SkipOrder(l: seq<int>, cursor: nat, position: int, prev: int)
      returns (position': int, cursor': nat, moved: nat)
    requires 0 < cursor <= |l| && position == l[cursor - 1]
    ensures cursor' == SkipTo(l, cursor - 1, prev) + 1 && position' == l[cursor' - 1]
    ensures moved == cursor' - cursor
  {
    position', cursor', moved := position, cursor, 0;
    while position' <= prev && cursor' < |l|
      invariant cursor <= cursor' <= |l| && position' == l[cursor' - 1]
      invariant SkipTo(l, cursor' - 1, prev) == SkipTo(l, cursor - 1, prev)
      invariant moved == cursor' - cursor
      decreases |l| - cursor'
    {
      position' := l[cursor'];
      cursor' := cursor' + 1;
      moved := moved + 1;
    }
  }

  /** Argument i's turn in an attempt: if its iterator has a next position it is taken (one step
      recorded in stepsMoved), and for i > 0 the order loop runs on. */
  method TakeNext(L: seq<seq<int>>, it: array<nat>, stepsMoved: array<int>, i: nat, prevPosition: int)
      returns (empty: bool, position: int)
    requires 0 < |L| && it.Length == |L| == stepsMoved.Length && Fits(L, it[..]) && i < |L|
    modifies it, stepsMoved
    ensures empty <==> old(it[i]) == |L[i]|
    ensures empty ==> it[..] == old(it[..]) && stepsMoved[..] == old(stepsMoved[..])
    ensures !empty ==> Fits(L, it[..]) && 1 <= it[i] && position == L[i][it[i] - 1]
    ensures !empty ==> it[..] == old(it[..])[i := it[i]] && stepsMoved[..] == old(stepsMoved[..])[i := (it[i] as int) - old(it[i])]
    ensures !empty && i == 0 ==> it[0] == old(it[0]) + 1
    ensures !empty && i > 0 ==> it[i] == SkipTo(L[i], old(it[i]), prevPosition) + 1
    ensures !empty && i > 0 ==>
      it[..] == old(it[..])[i := SkipTo(L[i], old(it[i]), prevPosition) + 1] &&
      position == L[i][SkipTo(L[i], old(it[i]), prevPosition)]
  {
    if it[i] == |L[i]| {
      return true, 0;
    }
    empty := false;
    position := L[i][it[i]];
    it[i] := it[i] + 1;
    stepsMoved[i] := 1;
    if i > 0 {
      var cursor, moved;
      position, cursor, moved := SkipOrder(L[i], it[i], position, prevPosition);
      it[i] := cursor;
      stepsMoved[i] := stepsMoved[i] + moved;
    }
  }

  /** The rewind of a failed attempt at argument i: iterators 1..i, each moved stepsMoved steps
      since the attempt began, go back, so only argument 0 has advanced. */
  method RewindAttempt(L: seq<seq<int>>, it: array<nat>, stepsMoved: array<int>, i: nat, ghost start: seq<nat>)
    requires it.Length == |L| == stepsMoved.Length == |start| && 1 <= i < |L|
    requires it[0] == start[0] + 1
    requires forall k :: i < k < |L| ==> it[k] == start[k]
    requires forall k :: 1 <= k <= i ==> it[k] == start[k] + stepsMoved[k] && 1 <= stepsMoved[k]
    modifies it
    ensures it[..] == start[0 := start[0] + 1]
  {
    ghost var before := it[..];
    Rewind(it, stepsMoved, i);
    forall j | 0 <= j < |L| ensures it[j] == start[0 := start[0] + 1][j] {
      assert 1 <= j <= i ==> before[j] == start[j] + stepsMoved[j];
    }
  }

  /** The state of an attempt before argument i's turn: arguments i.. are where the attempt
      started, each of 1..i-1 has moved stepsMoved steps, argument 0 has taken its next position,
      and what remains of the attempt is Extend from here. */
  ghost predicate AttemptState(L: seq<seq<int>>, c: seq<nat>, steps: seq<int>, i: nat, prev: int, n: int, start: seq<nat>)
  {
    && 0 < |L| && i <= |L| && |c| == |L| == |steps| && Fits(L, c) && Fits(L, start)
    && (forall k :: i <= k < |L| ==> c[k] == start[k])
    && (forall k :: 1 <= k < i ==> c[k] == start[k] + steps[k] && 1 <= steps[k])
    && (i >= 1 ==> start[0] < |L[0]| && c[0] == start[0] + 1 && Attempt(L, start, n) == Extend(L, c, i, prev, n, start))
  }

  /** Argument i's turn in an attempt: its iterator runs out (the attempt is exhausted), its
      position fails the order or distance test (the later iterators are rewound and the attempt
      has failed), or the attempt goes on to argument i + 1 from that position. */
  method AttemptTurn(L: seq<seq<int>>, it: array<nat>, stepsMoved: array<int>, i: nat, prevPosition: int,
                     maxDistance: int, ghost start: seq<nat>)
      returns (empty: bool, ok: bool, position: int)
    requires it.Length == |L| == stepsMoved.Length && i < |L|
    requires AttemptState(L, it[..], stepsMoved[..], i, prevPosition, maxDistance, start)
    modifies it, stepsMoved
    ensures Fits(L, it[..])
    ensures empty ==> Attempt(L, start, maxDistance) == Exhausted
    ensures !empty && !ok ==> Attempt(L, start, maxDistance) == Failed(it[..])
    ensures !empty && ok ==> AttemptState(L, it[..], stepsMoved[..], i + 1, position, maxDistance, start)
  {
    ghost var cAt := it[..];
    empty, position := TakeNext(L, it, stepsMoved, i, prevPosition);
    ok := false;
    if empty {
      return;
    }
    if i == 0 {
      ok := true;
      assert it[..] == start[0 := start[0] + 1];
      return;
    }
    ExtendStep(L, cAt, i, prevPosition, maxDistance, start, it[..], position);
    ok := position > prevPosition && position - prevPosition <= maxDistance;
    if !ok {
      RewindAttempt(L, it, stepsMoved, i, start);
    }
  }

  /** One pass of the attempt loop: returns whether some iterator ran out, whether all arguments
      matched, and the position of the last argument chosen. */
  method NearAttempt(L: seq<seq<int>>, it: array<nat>, maxDistance: int)
      returns (postingEmpty: bool, matchFound: bool, prevPosition: int)
    requires 0 < |L| && it.Length == |L| && Fits(L, it[..])
    modifies it
    ensures Fits(L, it[..])
    ensures postingEmpty ==> Attempt(L, old(it[..]), maxDistance) == Exhausted
    ensures !postingEmpty && matchFound ==> Attempt(L, old(it[..]), maxDistance) == Matched(it[..], prevPosition)
    ensures !postingEmpty && !matchFound ==> Attempt(L, old(it[..]), maxDistance) == Failed(it[..])
  {
    var numPostings := |L|;
    ghost var start := it[..];
    postingEmpty := false;
    matchFound := true;
    prevPosition := -1;  // overwritten by argument 0's position before it is read
    var stepsMoved := new int[numPostings](_ => 0);
    var i := 0;
    while i < numPostings
      invariant !postingEmpty && matchFound
      invariant AttemptState(L, it[..], stepsMoved[..], i, prevPosition, maxDistance, start)
    {
      var empty, ok, position := AttemptTurn(L, it, stepsMoved, i, prevPosition, maxDistance, start);
      if empty {
        postingEmpty := true;
        return;
      }
      if !ok {
        matchFound := false;
        return;
      }
      prevPosition := position;
      i := i + 1;
    }
  }

  /** getValidNearPositions: attempts until some iterator runs out, recording each match. */
  method GetValidNearPositions(L: seq<seq<int>>, maxDistance: int) returns (positions: seq<int>)
    requires 0 < |L|
    ensures positions == NearPositions(L, maxDistance)
  {
    var it := new nat[|L|](_ => 0);
    assert it[..] == Zeros(|L|);
    positions := [];
    while true
      invariant it.Length == |L| && Fits(L, it[..])
      invariant positions + NearScan(L, it[..], maxDistance) == NearPositions(L, maxDistance)
      decreases |L[0]| - it[0]
    {
      ghost var start := it[..];
      var postingEmpty, matchFound, prevPosition := NearAttempt(L, it, maxDistance);
      if postingEmpty {
        break;
      }
      if matchFound {
        positions := positions + [prevPosition];
      }
    }
  }

  /** The posting NEAR produces for document d. */
  function NearPosting(args: seq<InvList>, d: nat, n: int): (p: Posting)
    requires 0 < |args|
    ensures p.docid == d && Sorted(p.positions)
  {
    Posting(d, SortAsc(NearPositions(PositionsAt(args, d), n)))
  }

  /** What the document loop of evaluate keeps: the result so far holds, in increasing id order,
      the NEAR posting of every common document passed, and every common document not yet
      passed is still ahead of the cursors, beyond the last one in the result. */
  ghost predicate BuiltSoFar(args: seq<InvList>, n: int, result: InvList, cs: seq<nat>)
    requires 0 < |args| && |cs| == |args|
  {
    DocsIncreasing(result) &&
    (forall d :: IsCommon(args, d) ==> HasDoc(result, d) || CommonFrom(args, cs, d)) &&
    (forall j :: 0 <= j < |result| ==> IsCommon(args, result[j].docid) && result[j] == NearPosting(args, result[j].docid, n)) &&
    (|result| > 0 ==> forall d :: CommonFrom(args, cs, d) ==> result[|result| - 1].docid < d)
  }

  lemma BuiltSoFarStep(args: seq<InvList>, n: int, result: InvList, cs: seq<nat>, cs': seq<nat>, docid: nat)
    requires 0 < |args| && |cs| == |args| == |cs'|
    requires BuiltSoFar(args, n, result, cs)
    requires IsCommon(args, docid) && CommonFrom(args, cs, docid)
    requires forall d :: CommonFrom(args, cs, d) && d != docid ==> CommonFrom(args, cs', d)
    requires forall d :: CommonFrom(args, cs', d) ==> docid < d
    ensures BuiltSoFar(args, n, result + [NearPosting(args, docid, n)], cs')
  {
    var posting := NearPosting(args, docid, n);
    DocsIncreasingAppend(result, posting);
    forall d | IsCommon(args, d) ensures HasDoc(result + [posting], d) || CommonFrom(args, cs', d) {
      HasDocAppend(result, posting, d);
    }
  }

  lemma BuiltSoFarDone(args: seq<InvList>, n: int, result: InvList, cs: seq<nat>)
    requires 0 < |args| && |cs| == |args|
    requires BuiltSoFar(args, n, result, cs)
    requires forall d :: !CommonFrom(args, cs, d)
    ensures forall d :: HasDoc(result, d) <==> IsCommon(args, d)
  {
    forall d | HasDoc(result, d) ensures IsCommon(args, d) {
      var j :| 0 <= j < |result| && result[j].docid == d;
    }
  }

  /** QryIopNear.evaluate: the result list has one posting for every document that contains all
      arguments, in increasing id order, carrying the sorted NEAR match positions. */
  method Evaluate(args: seq<InvList>, maxDistance: int) returns (result: InvList)
    requires forall i :: 0 <= i < |args| ==> DocsIncreasing(args[i])
    ensures |args| == 0 ==> result == []
    ensures DocsIncreasing(result)
    ensures forall d :: HasDoc(result, d) <==> 0 < |args| && IsCommon(args, d)
    ensures forall j :: 0 <= j < |result| ==>
      0 < |args| && result[j].positions == SortAsc(NearPositions(PositionsAt(args, result[j].docid), maxDistance))
  {
    result := [];
    if |args| == 0 {
      return;
    }
    var cur := new nat[|args|](_ => 0);
    while true
      invariant cur.Length == |args| && CursorsFit(args, cur[..])
      invariant BuiltSoFar(args, maxDistance, result, cur[..])
      decreases |args[0]| - cur[0]
    {
      ghost var before := cur[..];
      var docid, lists := NextMatch(args, cur);
      if docid == INVALID_DOCID {
        BuiltSoFarDone(args, maxDistance, result, before);
        break;
      }
      var positions := GetValidNearPositions(lists, maxDistance);
      positions := SortAsc(positions);
      BuiltSoFarStep(args, maxDistance, result, before, cur[..], docid);
      result := result + [Posting(docid, positions)];
    }
  }

  /** A chain of positions, one per argument up to argument upto-1, each one after the previous
      argument's by between 1 and n. */
  predicate NearChain(L: seq<seq<int>>, n: int, idx: seq<nat>, upto: nat)
  {
    |idx| == |L| && upto <= |L| &&
    (forall k :: 0 <= k < upto ==> idx[k] < |L[k]|) &&
    (forall k :: 1 <= k < upto ==> L[k - 1][idx[k - 1]] < L[k][idx[k]] <= L[k - 1][idx[k - 1]] + n)
  }

  /** p is the last position of a chain over all arguments. */
  ghost predicate IsNearMatch(L: seq<seq<int>>, n: int, p: int)
  {
    0 < |L| && exists idx :: NearChain(L, n, idx, |L|) && p == L[|L| - 1][idx[|L| - 1]]
  }

  lemma {:induction false} ExtendSound(L: seq<seq<int>>, c: seq<nat>, i: nat, prev: int, n: int,
                                       start: seq<nat>, idx: seq<nat>)
    requires Fits(L, c) && Fits(L, start) && 1 <= i <= |L|
    requires NearChain(L, n, idx, i) && prev == L[i - 1][idx[i - 1]]
    ensures Extend(L, c, i, prev, n, start).Matched? ==>
      IsNearMatch(L, n, Extend(L, c, i, prev, n, start).position)
    decreases |L| - i
  {
    if i < |L| && c[i] < |L[i]| {
      var k := SkipTo(L[i], c[i], prev);
      var p := L[i][k];
      if p > prev && p - prev <= n {
        ExtendSound(L, c[i := k + 1], i + 1, p, n, start, idx[i := k]);
      }
    }
  }

  /** Soundness: every recorded position ends a chain of argument positions in order, each within
      n of the previous one. */
  lemma {:induction false} NearScanSound(L: seq<seq<int>>, c: seq<nat>, n: int)
    requires 0 < |L| && Fits(L, c)
    ensures forall p :: p in NearScan(L, c, n) ==> IsNearMatch(L, n, p)
    decreases |L[0]| - c[0]
  {
    if c[0] < |L[0]| {
      ExtendSound(L, c[0 := c[0] + 1], 1, L[0][c[0]], n, c, c);
    }
    match Attempt(L, c, n)
    case Exhausted =>
    case Failed(c') => NearScanSound(L, c', n);
    case Matched(c', p) => NearScanSound(L, c', n);
  }

  /** Where a match's recorded position lies in the last argument's list: under the index just
      consumed, never before the cursor the attempt started from. */
  lemma {:induction false} ExtendLast(L: seq<seq<int>>, c: seq<nat>, i: nat, prev: int, n: int, start: seq<nat>)
    requires Fits(L, c) && Fits(L, start) && 1 <= i <= |L|
    requires forall k :: i <= k < |L| ==> c[k] == start[k]
    requires 1 <= c[i - 1] && start[i - 1] <= c[i - 1] - 1 && prev == L[i - 1][c[i - 1] - 1]
    ensures var r := Extend(L, c, i, prev, n, start);
      r.Matched? ==> var last := |L| - 1;
        1 <= r.next[last] && start[last] <= r.next[last] - 1 && r.position == L[last][r.next[last] - 1]
    decreases |L| - i
  {
    if i < |L| && c[i] < |L[i]| {
      var k := SkipTo(L[i], c[i], prev);
      var p := L[i][k];
      if p > prev && p - prev <= n {
        ExtendLast(L, c[i := k + 1], i + 1, p, n, start);
      }
    }
  }

  /** Every recorded position is a position of the last argument at or after its cursor. */
  lemma {:induction false} NearScanFrom(L: seq<seq<int>>, c: seq<nat>, n: int)
    requires 0 < |L| && Fits(L, c)
    ensures var last := |L| - 1;
      forall q :: q in NearScan(L, c, n) ==> exists j :: c[last] <= j < |L[last]| && q == L[last][j]
    decreases |L[0]| - c[0]
  {
    var last := |L| - 1;
    if c[0] < |L[0]| {
      ExtendLast(L, c[0 := c[0] + 1], 1, L[0][c[0]], n, c);
    }
    match Attempt(L, c, n)
    case Exhausted =>
    case Failed(c') =>
      NearScanFrom(L, c', n);
      assert c[last] <= c'[last];
    case Matched(c', p) =>
      NearScanFrom(L, c', n);
      assert c[last] <= c'[last] - 1 && p == L[last][c'[last] - 1];
  }

  /** When the last argument's positions strictly increase (as positions in a posting do), the
      recorded positions strictly increase too, so the sort in evaluate changes nothing. */
  lemma {:induction false} NearScanIncreasing(L: seq<seq<int>>, c: seq<nat>, n: int)
    requires 0 < |L| && Fits(L, c) && StrictlyIncreasing(L[|L| - 1])
    ensures StrictlyIncreasing(NearScan(L, c, n))
    decreases |L[0]| - c[0]
  {
    var last := |L| - 1;
    if c[0] < |L[0]| {
      ExtendLast(L, c[0 := c[0] + 1], 1, L[0][c[0]], n, c);
    }
    match Attempt(L, c, n)
    case Exhausted =>
    case Failed(c') => NearScanIncreasing(L, c', n);
    case Matched(c', p) =>
      NearScanIncreasing(L, c', n);
      NearScanFrom(L, c', n);
      var rest := NearScan(L, c', n);
      forall q | q in rest ensures p < q {
        var j :| c'[last] <= j < |L[last]| && q == L[last][j];
        assert c'[last] - 1 < j;
      }
      var s := [p] + rest;
      assert NearScan(L, c, n) == s;
      forall a, b | 0 <= a < b < |s| ensures s[a] < s[b] {
        if a == 0 {
          assert s[b] in rest;
        } else {
          assert s[a] == rest[a - 1] && s[b] == rest[b - 1];
        }
      }
  }

  lemma NearSortIsIdentity(L: seq<seq<int>>, n: int)
    requires 0 < |L| && StrictlyIncreasing(L[|L| - 1])
    ensures SortAsc(NearPositions(L, n)) == NearPositions(L, n)
  {
    NearScanIncreasing(L, Zeros(|L|), n);
    SortAscOfSorted(NearPositions(L, n));
  }

  /** "a #NEAR/1 b" with a at 1 and b at 2 matches once, at b's position. */
  lemma NearExampleAdjacent()
    ensures NearPositions([[1], [2]], 1) == [2]
  {
    var L := [[1], [2]];
    assert Zeros(2) == [0, 0];
    assert SkipTo(L[1], 0, 1) == 0;
    assert Attempt(L, [0, 0], 1) == Matched([1, 1], 2);
    assert Attempt(L, [1, 1], 1) == Exhausted;
    assert NearScan(L, [1, 1], 1) == [];
  }

  /** The order test: b before a never matches "a #NEAR/5 b". */
  lemma NearExampleOrder()
    ensures NearPositions([[3], [2]], 5) == []
  {
    var L := [[3], [2]];
    assert Zeros(2) == [0, 0];
    assert SkipTo(L[1], 0, 3) == 0;
    assert Attempt(L, [0, 0], 5) == Failed([1, 0]);
    assert Attempt(L, [1, 0], 5) == Exhausted;
    assert NearScan(L, [1, 0], 5) == [];
  }

  /** The greedy choice can miss a match: for a at {0}, b at {1, 2}, c at {4} and n = 2 the chain
      0, 2, 4 exists, but each argument takes its first position after the previous one, b takes 1,
      c is then 3 away, and nothing is recorded. */
  lemma NearGreedyMisses()
    ensures IsNearMatch([[0], [1, 2], [4]], 2, 4)
    ensures NearPositions([[0], [1, 2], [4]], 2) == []
  {
    var L := [[0], [1, 2], [4]];
    assert NearChain(L, 2, [0, 1, 0], 3);
    assert Zeros(3) == [0, 0, 0];
    assert SkipTo(L[1], 0, 0) == 0;
    assert Extend(L, [1, 1, 0], 2, 1, 2, [0, 0, 0]) == Failed([1, 0, 0]);
    assert Attempt(L, [0, 0, 0], 2) == Failed([1, 0, 0]);
    assert Attempt(L, [1, 0, 0], 2) == Exhausted;
    assert NearScan(L, [1, 0, 0], 2) == [];
  }

  /** With one argument there is nothing to be near: every position is recorded, whatever n. */
  lemma {:induction false} NearScanSingle(l: seq<int>, c: nat, n: int)
    requires c <= |l|
    ensures NearScan([l], [c], n) == l[c..]
    decreases |l| - c
  {
    if c < |l| {
      assert [c][0 := c + 1] == [c + 1];
      assert Attempt([l], [c], n) == Matched([c + 1], l[c]);
      NearScanSingle(l, c + 1, n);
      assert l[c..] == [l[c]] + l[c + 1..];
    }
  }

  lemma NearSingle(l: seq<int>, n: int)
    ensures NearPositions([l], n) == l
  {
    assert Zeros(1) == [0];
    NearScanSingle(l, 0, n);
  }
}
