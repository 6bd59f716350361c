/** Inverted lists and the document iterator of an inverted-list operator (QryIop), as the NEAR and
    WINDOW operators consume them: a cursor into each argument's posting list that only moves
    forward, with docIteratorAdvanceTo / docIteratorAdvancePast, and the loop both operators use to
    find the next document that every argument contains. */
module Postings {
  import opened Common

  /** One posting: a document id and the positions of the term in that document. */
  datatype Posting = Posting(docid: nat, positions: seq<int>)

  type InvList = seq<Posting>

  /** The inverted-list invariant: document ids strictly increase along the list. */
  predicate DocsIncreasing(l: InvList)
  {
    forall i, j :: 0 <= i < j < |l| ==> l[i].docid < l[j].docid
  }

  /** Every list has one cursor and every cursor is at most the end of its list. */
  predicate CursorsFit(ls: seq<InvList>, cs: seq<nat>)
  {
    |cs| == |ls| && forall i :: 0 <= i < |ls| ==> cs[i] <= |ls[i]|
  }

  /** Document d is still ahead of (or under) cursor c in list l. */
  predicate HasDocFrom(l: InvList, c: nat, d: nat)
  {
    exists j :: c <= j < |l| && l[j].docid == d
  }

  /** Document d is still ahead of the cursor of every list. */
  predicate CommonFrom(ls: seq<InvList>, cs: seq<nat>, d: nat)
    requires |cs| == |ls|
  {
    forall i :: 0 <= i < |ls| ==> HasDocFrom(ls[i], cs[i], d)
  }

  /** Document d occurs in every list. */
  predicate IsCommon(ls: seq<InvList>, d: nat)
  {
    forall i :: 0 <= i < |ls| ==> HasDocFrom(ls[i], 0, d)
  }

  /** Document d has a posting in list l. */
  predicate HasDoc(l: InvList, d: nat)
  {
    HasDocFrom(l, 0, d)
  }

  /** docIteratorAdvanceTo(d): the cursor moves to the first remaining posting whose id is at least d. */
  function AdvanceTo(l: InvList, c: nat, d: int): (c': nat)
    requires c <= |l|
    ensures c <= c' <= |l|
    ensures forall j :: c <= j < c' ==> l[j].docid < d
    ensures c' < |l| ==> d <= l[c'].docid
    decreases |l| - c
  {
    if c < |l| && l[c].docid < d then AdvanceTo(l, c + 1, d) else c
  }

  /** docIteratorAdvancePast(d): the cursor moves to the first remaining posting whose id exceeds d. */
  function AdvancePast(l: InvList, c: nat, d: int): (c': nat)
    requires c <= |l|
    ensures c <= c' <= |l|
    ensures forall j :: c <= j < c' ==> l[j].docid <= d
    ensures c' < |l| ==> d < l[c'].docid
    decreases |l| - c
  {
    if c < |l| && l[c].docid <= d then AdvancePast(l, c + 1, d) else c
  }

  lemma HasDocAppend(l: InvList, p: Posting, d: nat)
    ensures HasDoc(l + [p], d) <==> HasDoc(l, d) || p.docid == d
  {
    if HasDoc(l, d) {
      var j :| 0 <= j < |l| && l[j].docid == d;
      assert (l + [p])[j].docid == d;
    }
    if p.docid == d {
      assert (l + [p])[|l|].docid == d;
    }
    if HasDoc(l + [p], d) {
      var j :| 0 <= j < |l + [p]| && (l + [p])[j].docid == d;
      if j < |l| { assert l[j].docid == d; }
    }
  }

  lemma DocsIncreasingAppend(l: InvList, p: Posting)
    requires DocsIncreasing(l) && (|l| > 0 ==> l[|l| - 1].docid < p.docid)
    ensures DocsIncreasing(l + [p])
  {
    forall i, j | 0 <= i < j < |l| + 1 ensures (l + [p])[i].docid < (l + [p])[j].docid {
      if j == |l| && i < |l| - 1 {
        assert l[i].docid < l[|l| - 1].docid;
      }
    }
  }

  /** The positions of document d in list l (those of its first posting for d; empty if none). */
  function PositionsOf(l: InvList, d: nat): seq<int>
  {
    if |l| == 0 then []
    else if l[0].docid == d then l[0].positions
    else PositionsOf(l[1..], d)
  }

  /** In a list with increasing doc ids, the posting found at any index is the one PositionsOf picks. */
  lemma {:induction false} PositionsOfAt(l: InvList, j: nat)
    requires DocsIncreasing(l) && j < |l|
    ensures PositionsOf(l, l[j].docid) == l[j].positions
  {
    if j > 0 {
      assert l[0].docid < l[j].docid;
      assert DocsIncreasing(l[1..]);
      PositionsOfAt(l[1..], j - 1);
    }
  }

  /** Every posting of l lists its positions in order, as the index stores them. */
  predicate PositionsSorted(l: InvList)
  {
    forall j :: 0 <= j < |l| ==> Sorted(l[j].positions)
  }

  lemma {:induction false} PositionsOfSorted(l: InvList, d: nat)
    requires PositionsSorted(l)
    ensures Sorted(PositionsOf(l, d))
  {
    if |l| > 0 && l[0].docid != d {
      assert forall j :: 0 <= j < |l[1..]| ==> l[1..][j] == l[j + 1];
      PositionsOfSorted(l[1..], d);
    }
  }

  /** Each argument's position list for document d, in argument order. */
  function PositionsAt(ls: seq<InvList>, d: nat): (r: seq<seq<int>>)
    ensures |r| == |ls|
  {
    seq(|ls|, i requires 0 <= i < |ls| => PositionsOf(ls[i], d))
  }

  /** Every position list has one cursor (the ListIterator's next index), at most its size. */
  predicate Fits(L: seq<seq<int>>, c: seq<nat>)
  {
    |c| == |L| && forall k :: 0 <= k < |L| ==> c[k] <= |L[k]|
  }

  /** Every cursor at the start of its list. */
  function Zeros(m: nat): (r: seq<nat>)
    ensures |r| == m && forall k :: 0 <= k < m ==> r[k] == 0
  {
    seq(m, _ => 0)
  }

  /** Moving cursor i forward to the current id of list 0 skips no document common to all lists. */
  lemma AdvanceToKeepsCommon(ls: seq<InvList>, cs: seq<nat>, i: nat)
    requires CursorsFit(ls, cs) && 0 < i < |ls|
    requires DocsIncreasing(ls[0]) && cs[0] < |ls[0]|
    ensures forall d :: CommonFrom(ls, cs, d) ==>
      CommonFrom(ls, cs[i := AdvanceTo(ls[i], cs[i], ls[0][cs[0]].docid)], d)
  {
    var m := ls[0][cs[0]].docid;
    var c' := AdvanceTo(ls[i], cs[i], m);
    forall d | CommonFrom(ls, cs, d)
      ensures CommonFrom(ls, cs[i := c'], d)
    {
      var j0 :| cs[0] <= j0 < |ls[0]| && ls[0][j0].docid == d;
      assert m <= d by {
        if j0 > cs[0] { assert ls[0][cs[0]].docid < ls[0][j0].docid; }
      }
      var j :| cs[i] <= j < |ls[i]| && ls[i][j].docid == d;
      assert c' <= j;
      forall k | 0 <= k < |ls| ensures HasDocFrom(ls[k], cs[i := c'][k], d) {
        if k == i { assert c' <= j < |ls[i]| && ls[i][j].docid == d; }
        else { assert HasDocFrom(ls[k], cs[k], d); }
      }
    }
  }

  /** Moving cursor 0 past its current id m skips no common document, once some other list's
      current id is larger than m. */
  lemma AdvancePastKeepsCommon(ls: seq<InvList>, cs: seq<nat>, i: nat)
    requires CursorsFit(ls, cs) && 0 < i < |ls|
    requires DocsIncreasing(ls[i]) && cs[0] < |ls[0]| && cs[i] < |ls[i]|
    requires ls[0][cs[0]].docid < ls[i][cs[i]].docid
    ensures forall d :: CommonFrom(ls, cs, d) ==>
      CommonFrom(ls, cs[0 := AdvancePast(ls[0], cs[0], ls[0][cs[0]].docid)], d)
  {
    var m := ls[0][cs[0]].docid;
    var c' := AdvancePast(ls[0], cs[0], m);
    forall d | CommonFrom(ls, cs, d)
      ensures CommonFrom(ls, cs[0 := c'], d)
    {
      var ji :| cs[i] <= ji < |ls[i]| && ls[i][ji].docid == d;
      assert m < d by {
        if ji > cs[i] { assert ls[i][cs[i]].docid < ls[i][ji].docid; }
      }
      var j :| cs[0] <= j < |ls[0]| && ls[0][j].docid == d;
      assert c' <= j;
      forall k | 0 <= k < |ls| ensures HasDocFrom(ls[k], cs[0 := c'][k], d) {
        if k == 0 { assert c' <= j < |ls[0]| && ls[0][j].docid == d; }
        else { assert HasDocFrom(ls[k], cs[k], d); }
      }
    }
  }

  /** Advancing every cursor past the current common id m keeps every common document above m. */
  lemma AdvanceAllPastKeepsCommon(ls: seq<InvList>, cs: seq<nat>, cs': seq<nat>, m: nat)
    requires CursorsFit(ls, cs) && |cs'| == |ls|
    requires forall i :: 0 <= i < |ls| ==> DocsIncreasing(ls[i])
    requires forall i :: 0 <= i < |ls| ==> cs[i] < |ls[i]| && ls[i][cs[i]].docid == m
    requires forall i :: 0 <= i < |ls| ==> cs'[i] == AdvancePast(ls[i], cs[i], m)
    ensures forall d :: CommonFrom(ls, cs, d) && d != m ==> CommonFrom(ls, cs', d)
  {
    forall d | CommonFrom(ls, cs, d) && d != m ensures CommonFrom(ls, cs', d) {
      forall k | 0 <= k < |ls| ensures HasDocFrom(ls[k], cs'[k], d) {
        var j :| cs[k] <= j < |ls[k]| && ls[k][j].docid == d;
        if j > cs[k] {
          assert m < ls[k][j].docid;
        }
        assert cs'[k] <= j;
      }
    }
  }

  /** The loop that NEAR and WINDOW both run first: child 0 proposes the id under its cursor, every
      other child advances to it, and on a mismatch child 0 advances past it; it stops with the id
      that every child's cursor now points at, or with INVALID_DOCID once some child is exhausted.
      No document that all children still contain is skipped. */
  method NextCommonDoc(ls: seq<InvList>, cur: array<nat>) returns (minDocid: int)
    requires 0 < |ls| && cur.Length == |ls|
    requires forall i :: 0 <= i < |ls| ==> DocsIncreasing(ls[i])
    requires CursorsFit(ls, cur[..])
    modifies cur
    ensures CursorsFit(ls, cur[..])
    ensures forall i :: 0 <= i < |ls| ==> old(cur[i]) <= cur[i]
    ensures forall d :: CommonFrom(ls, old(cur[..]), d) ==> CommonFrom(ls, cur[..], d)
    ensures minDocid != INVALID_DOCID ==>
      0 <= minDocid && forall i :: 0 <= i < |ls| ==> cur[i] < |ls[i]| && ls[i][cur[i]].docid == minDocid
    ensures minDocid == INVALID_DOCID ==> forall d :: !CommonFrom(ls, cur[..], d)
  {
    minDocid := INVALID_DOCID;
    var allMatch := false;
    while !allMatch
      invariant CursorsFit(ls, cur[..])
      invariant forall i :: 0 <= i < |ls| ==> old(cur[i]) <= cur[i]
      invariant forall d :: CommonFrom(ls, old(cur[..]), d) ==> CommonFrom(ls, cur[..], d)
      invariant allMatch ==>
        0 <= minDocid && forall i :: 0 <= i < |ls| ==> cur[i] < |ls[i]| && ls[i][cur[i]].docid == minDocid
      decreases |ls[0]| - cur[0], !allMatch
    {
      ghost var c0 := cur[0];
      allMatch := true;
      var i := 0;
      while i < |ls|
        invariant 0 <= i <= |ls|
        invariant allMatch
        invariant CursorsFit(ls, cur[..])
        invariant forall k :: 0 <= k < |ls| ==> old(cur[k]) <= cur[k]
        invariant forall d :: CommonFrom(ls, old(cur[..]), d) ==> CommonFrom(ls, cur[..], d)
        invariant i > 0 ==> cur[0] < |ls[0]| && minDocid == ls[0][cur[0]].docid
        invariant forall k :: 0 <= k < i ==> cur[k] < |ls[k]| && ls[k][cur[k]].docid == minDocid
        invariant cur[0] == c0
      {
        if i > 0 && minDocid != INVALID_DOCID {
          AdvanceToKeepsCommon(ls, cur[..], i);
          cur[i] := AdvanceTo(ls[i], cur[i], minDocid);
        }
        if cur[i] < |ls[i]| {
          var docid := ls[i][cur[i]].docid;
          if i == 0 {
            minDocid := docid;
          }
          if i > 0 && minDocid != docid {
            AdvancePastKeepsCommon(ls, cur[..], i);
            cur[0] := AdvancePast(ls[0], cur[0], minDocid);
            allMatch := false;
            break;
          }
        } else {
          allMatch := false;
          minDocid := INVALID_DOCID;
          break;
        }
        i := i + 1;
      }
      if minDocid == INVALID_DOCID {
        break;
      }
    }
  }
  /** The position lists of the document for the document under the
      cursors, which all point at a posting of that document. */
  method GatherPositions(args: seq<InvList>, cur: array<nat>, docid: nat) returns (lists: seq<seq<int>>)
    requires 0 < |args| && cur.Length == |args|
    requires forall i :: 0 <= i < |args| ==> DocsIncreasing(args[i])
    requires forall i :: 0 <= i < |args| ==> cur[i] < |args[i]| && args[i][cur[i]].docid == docid
    modifies cur
    ensures lists == PositionsAt(args, docid)
    ensures CursorsFit(args, cur[..])
    ensures forall i :: 0 <= i < |args| ==> cur[i] == AdvancePast(args[i], old(cur[i]), docid)
  {
    lists := [];
    for i := 0 to |args|
      invariant |lists| == i
      invariant forall k :: 0 <= k < i ==> lists[k] == PositionsOf(args[k], docid)
      invariant forall k :: 0 <= k < i ==> cur[k] == AdvancePast(args[k], old(cur[k]), docid)
      invariant forall k :: i <= k < |args| ==> cur[k] == old(cur[k])
    {
      PositionsOfAt(args[i], cur[i]);
      lists := lists + [args[i][cur[i]].positions];
      cur[i] := AdvancePast(args[i], cur[i], docid);
    }
  }

  /** Document d has a posting in l. */
  predicate InDocs(l: InvList, d: nat)
  {
    exists j :: 0 <= j < |l| && l[j].docid == d
  }

  /** The start of each pass of the document loop of NEAR and WINDOW: finds the next document all
      arguments contain, collects each argument's positions there and moves every argument past
      it; INVALID_DOCID once no common document remains. */
  method NextMatch(args: seq<InvList>, cur: array<nat>) returns (docid: int, lists: seq<seq<int>>)
    requires 0 < |args| && cur.Length == |args|
    requires forall i :: 0 <= i < |args| ==> DocsIncreasing(args[i])
    requires CursorsFit(args, cur[..])
    modifies cur
    ensures CursorsFit(args, cur[..])
    ensures docid == INVALID_DOCID ==> forall d :: !CommonFrom(args, old(cur[..]), d)
    ensures docid != INVALID_DOCID ==>
      0 <= docid && IsCommon(args, docid) && CommonFrom(args, old(cur[..]), docid) &&
      lists == PositionsAt(args, docid) && old(cur[0]) < cur[0] &&
      (forall d :: CommonFrom(args, old(cur[..]), d) && d != docid ==> CommonFrom(args, cur[..], d)) &&
      (forall d :: CommonFrom(args, cur[..], d) ==> docid < d)
  {
    ghost var before := cur[..];
    lists := [];
    docid := NextCommonDoc(args, cur);
    if docid == INVALID_DOCID {
      return;
    }
    var d: nat := docid;
    assert CommonFrom(args, cur[..], d) by {
      forall i | 0 <= i < |args| ensures HasDocFrom(args[i], cur[i], d) {
        assert args[i][cur[i]].docid == d;
      }
    }
    assert IsCommon(args, d) by {
      forall i | 0 <= i < |args| ensures HasDocFrom(args[i], 0, d) {
        assert args[i][cur[i]].docid == d;
      }
    }
    assert CommonFrom(args, before, d) by {
      forall i | 0 <= i < |args| ensures HasDocFrom(args[i], before[i], d) {
        assert before[i] <= cur[i] && args[i][cur[i]].docid == d;
      }
    }
    ghost var atDoc := cur[..];
    lists := GatherPositions(args, cur, d);
    AdvanceAllPastKeepsCommon(args, atDoc, cur[..], d);
    forall e | CommonFrom(args, cur[..], e) ensures d < e {
      var j :| cur[0] <= j < |args[0]| && args[0][j].docid == e;
    }
  }
}
