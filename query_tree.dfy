/** The query tree built by the parser, and the rewrite pass that prunes it before evaluation
    (QryEval.parseQueryCleanup and the fixpoint loop of QryEval.processQuery).

    A tree node is a value: `Term` is a QryIopTerm leaf, `Op` any other operator.  The weights
    and their running sum only mean something for #wand / #wsum; other operators keep them
    empty.  The source updates nodes in place; here an update returns the new node. */
module QueryTree {
  import opened Common

  /** The operator classes the parser can create, plus #score (which the rewrite pass treats
      specially).  NEAR and WINDOW carry their distance. */
  datatype OpKind = Or | And | WAnd | WSum | Sum | Score | Syn | Near(distance: int) | Window(distance: int)

  datatype Qry =
    | Term(term: string, field: string)
    | Op(kind: OpKind, displayName: string, args: seq<Qry>, weights: seq<real>, sumOfWeights: real)

  /** Operators that produce scores (subclasses of QrySop). */
  predicate IsSopKind(k: OpKind)
  {
    k.Or? || k.And? || k.WAnd? || k.WSum? || k.Sum? || k.Score?
  }

  predicate IsSop(q: Qry)
  {
    q.Op? && IsSopKind(q.kind)
  }

  /** Operators that produce inverted lists (subclasses of QryIop): terms, #syn, #near, #window. */
  predicate IsIop(q: Qry)
  {
    q.Term? || !IsSopKind(q.kind)
  }

  /** #wand and #wsum, the operators that keep one weight per argument. */
  predicate IsWeighted(q: Qry)
  {
    q.Op? && (q.kind.WAnd? || q.kind.WSum?)
  }

  predicate SameFamily(a: Qry, b: Qry)
  {
    (IsSop(a) && IsSop(b)) || (IsIop(a) && IsIop(b))
  }

  /** The argument list of a node; a term has none. */
  function Args(q: Qry): seq<Qry>
  {
    if q.Term? then [] else q.args
  }

  /** A freshly constructed operator with its display name set and no arguments yet. */
  function NewOp(kind: OpKind, displayName: string): Qry
  {
    Op(kind, displayName, [], [], 0.0)
  }

  /** Qry.appendArg: the argument goes at the end, nothing else changes. */
  function AppendArg(q: Qry, a: Qry): (r: Qry)
    requires q.Op?
    ensures r.Op? && r.kind == q.kind && r.displayName == q.displayName
    ensures r.weights == q.weights && r.sumOfWeights == q.sumOfWeights
    ensures |r.args| == |q.args| + 1 && r.args[..|q.args|] == q.args && r.args[|q.args|] == a
  {
    q.(args := q.args + [a])
  }

  /** addWeight of #wand / #wsum: appends the weight and adds it to the running sum. */
  function AddWeight(q: Qry, w: real): (r: Qry)
    requires IsWeighted(q)
    ensures IsWeighted(r) && r.kind == q.kind && r.displayName == q.displayName && r.args == q.args
    ensures |r.weights| == |q.weights| + 1 && r.weights[..|q.weights|] == q.weights
    ensures r.weights[|q.weights|] == w
    ensures q.sumOfWeights == SumReals(q.weights) ==> r.sumOfWeights == SumReals(r.weights)
  {
    SumRealsAppend(q.weights, w);
    q.(weights := q.weights + [w], sumOfWeights := q.sumOfWeights + w)
  }

  /** Replaces argument i (the effect of `q.args.set(i, x)`, or of cleaning argument i in place). */
  function SetArg(q: Qry, i: nat, x: Qry): (r: Qry)
    requires q.Op? && i < |q.args|
    ensures r.Op? && r.kind == q.kind && r.displayName == q.displayName
    ensures r.weights == q.weights && r.sumOfWeights == q.sumOfWeights
    ensures |r.args| == |q.args| && r.args[i] == x
    ensures forall j :: 0 <= j < |q.args| && j != i ==> r.args[j] == q.args[j]
  {
    q.(args := q.args[i := x])
  }

  /** The weights of one node are in lock-step with its arguments: a weighted operator has one
      weight per argument and `sumOfWeights` is their sum; any other operator has none. */
  predicate NodeWeightsOk(q: Qry)
  {
    q.Term? ||
    if IsWeighted(q) then |q.weights| == |q.args| && q.sumOfWeights == SumReals(q.weights)
    else q.weights == [] && q.sumOfWeights == 0.0
  }

  /** Every node of the tree keeps its weights in lock-step. */
  predicate WellWeighted(q: Qry)
    decreases q
  {
    NodeWeightsOk(q) && (q.Op? ==> forall i :: 0 <= i < |q.args| ==> WellWeighted(q.args[i]))
  }

  /** Appending an argument together with its weight keeps a weighted node in lock-step. */
  lemma AppendWithWeightKeepsLockStep(q: Qry, a: Qry, w: real)
    requires IsWeighted(q) && NodeWeightsOk(q)
    ensures NodeWeightsOk(AddWeight(AppendArg(q, a), w))
  {
  }

  /** Appending an argument to an unweighted operator keeps it in lock-step. */
  lemma AppendUnweightedKeepsLockStep(q: Qry, a: Qry)
    requires q.Op? && !IsWeighted(q) && NodeWeightsOk(q)
    ensures NodeWeightsOk(AppendArg(q, a))
  {
  }

  // ---------------------------------------------------------------------------------------
  // Removing an argument.

  /** Qry.removeArg as the rewrite pass invokes it: only the argument is dropped.  For #wand and
      #wsum, which keep a parallel weight list and do not override removeArg, the weights of the
      later arguments then shift onto the wrong arguments. */
  function RemoveArgAsWritten(q: Qry, i: nat): (r: Qry)
    requires q.Op? && i < |q.args|
    ensures r.Op? && r.kind == q.kind && r.weights == q.weights && r.sumOfWeights == q.sumOfWeights
    ensures |r.args| + 1 == |q.args|
    ensures forall j :: 0 <= j < |r.args| ==> r.args[j] == if j < i then q.args[j] else q.args[j + 1]
  {
    q.(args := q.args[..i] + q.args[i + 1..])
  }

  /** An argument-less #syn as the first argument of `#wand(0.3 #syn() 0.7 dog)`: removing it as
      written leaves one argument with two weights, and the surviving term's weight would be read
      as 0.3 instead of 0.7. */
  lemma RemoveArgAsWrittenBreaksLockStep()
    ensures var q := Op(WAnd, "#wand", [NewOp(Syn, "#syn"), Term("dog", "body")], [0.3, 0.7], 1.0);
            WellWeighted(q) && !NodeWeightsOk(RemoveArgAsWritten(q, 0))
            && RemoveArgAsWritten(q, 0).args == [Term("dog", "body")]
            && RemoveArgAsWritten(q, 0).weights[0] == 0.3
  {
    var q := Op(WAnd, "#wand", [NewOp(Syn, "#syn"), Term("dog", "body")], [0.3, 0.7], 1.0);
    assert SumReals([0.3]) == 0.3 by { assert [0.3][..0] == []; }
    assert SumReals([0.3, 0.7]) == 1.0 by { assert [0.3, 0.7][..1] == [0.3]; }
    assert WellWeighted(q.args[0]) && WellWeighted(q.args[1]);
  }

  /** Removing argument i of a weighted node together with its weight (the intended removeArg). */
  function RemoveArg(q: Qry, i: nat): (r: Qry)
    requires q.Op? && i < |q.args|
    ensures r.Op? && r.kind == q.kind && r.displayName == q.displayName
    ensures |r.args| + 1 == |q.args|
    ensures forall j :: 0 <= j < |r.args| ==> r.args[j] == if j < i then q.args[j] else q.args[j + 1]
    ensures IsWeighted(q) && i < |q.weights| ==>
              |r.weights| + 1 == |q.weights|
              && forall j :: 0 <= j < |r.weights| ==> r.weights[j] == if j < i then q.weights[j] else q.weights[j + 1]
    ensures NodeWeightsOk(q) ==> NodeWeightsOk(r)
    ensures WellWeighted(q) ==> WellWeighted(r)
  {
    var args := q.args[..i] + q.args[i + 1..];
    assert forall j :: 0 <= j < |args| ==> args[j] == if j < i then q.args[j] else q.args[j + 1];
    assert WellWeighted(q) ==> forall j :: 0 <= j < |args| ==> WellWeighted(args[j]);
    if IsWeighted(q) && i < |q.weights| then
      var ws := q.weights[..i] + q.weights[i + 1..];
      assert forall j :: 0 <= j < |ws| ==> ws[j] == if j < i then q.weights[j] else q.weights[j + 1];
      SumRealsRemove(q.weights, i);
      q.(args := args, weights := ws, sumOfWeights := q.sumOfWeights - q.weights[i])
    else
      q.(args := args)
  }

  // ---------------------------------------------------------------------------------------
  // Measures of a tree.

  /** The number of nodes. */
  function Size(q: Qry): nat
    decreases q
  {
    match q
    case Term(_, _) => 1
    case Op(_, _, args, _, _) => 1 + SizeOf(args)
  }

  function SizeOf(s: seq<Qry>): nat
    decreases s
  {
    if |s| == 0 then 0 else Size(s[0]) + SizeOf(s[1..])
  }

  /** The term leaves, left to right. */
  function Leaves(q: Qry): seq<Qry>
    decreases q
  {
    match q
    case Term(_, _) => [q]
    case Op(_, _, args, _, _) => LeavesOf(args)
  }

  function LeavesOf(s: seq<Qry>): seq<Qry>
    decreases s
  {
    if |s| == 0 then [] else Leaves(s[0]) + LeavesOf(s[1..])
  }

  lemma {:induction false} SizeOfConcat(a: seq<Qry>, b: seq<Qry>)
    ensures SizeOf(a + b) == SizeOf(a) + SizeOf(b)
    decreases |a|
  {
    if |a| > 0 {
      assert (a + b)[1..] == a[1..] + b;
      SizeOfConcat(a[1..], b);
    } else {
      assert a + b == b;
    }
  }

  lemma {:induction false} LeavesOfConcat(a: seq<Qry>, b: seq<Qry>)
    ensures LeavesOf(a + b) == LeavesOf(a) + LeavesOf(b)
    decreases |a|
  {
    if |a| > 0 {
      assert (a + b)[1..] == a[1..] + b;
      LeavesOfConcat(a[1..], b);
    } else {
      assert a + b == b;
    }
  }

  lemma SingletonMeasures(x: Qry)
    ensures SizeOf([x]) == Size(x) && LeavesOf([x]) == Leaves(x)
  {
    assert [x][1..] == [];
  }

  /** Splitting a list around index i, for the size and the leaves. */
  lemma SizeSplit(s: seq<Qry>, i: nat)
    requires i < |s|
    ensures SizeOf(s) == SizeOf(s[..i]) + Size(s[i]) + SizeOf(s[i + 1..])
  {
    assert s == s[..i] + s[i..];
    SizeOfConcat(s[..i], s[i..]);
    assert s[i..][0] == s[i] && s[i..][1..] == s[i + 1..];
  }

  lemma LeavesSplit(s: seq<Qry>, i: nat)
    requires i < |s|
    ensures LeavesOf(s) == LeavesOf(s[..i]) + Leaves(s[i]) + LeavesOf(s[i + 1..])
  {
    var tail := s[i..];
    assert s == s[..i] + tail;
    LeavesOfConcat(s[..i], tail);
    assert LeavesOf(tail) == Leaves(s[i]) + LeavesOf(s[i + 1..]) by {
      assert tail[0] == s[i] && tail[1..] == s[i + 1..];
    }
  }

  /** Dropping argument i takes away exactly its nodes ... */
  lemma RemoveSize(s: seq<Qry>, i: nat)
    requires i < |s|
    ensures SizeOf(s[..i] + s[i + 1..]) + Size(s[i]) == SizeOf(s)
  {
    SizeSplit(s, i);
    SizeOfConcat(s[..i], s[i + 1..]);
  }

  /** ... and no leaf when it has none. */
  lemma RemoveLeaves(s: seq<Qry>, i: nat)
    requires i < |s| && Leaves(s[i]) == []
    ensures LeavesOf(s[..i] + s[i + 1..]) == LeavesOf(s)
  {
    LeavesSplit(s, i);
    LeavesOfConcat(s[..i], s[i + 1..]);
  }

  /** Replacing argument i changes the size by the difference ... */
  lemma UpdateSize(s: seq<Qry>, i: nat, x: Qry)
    requires i < |s|
    ensures SizeOf(s[i := x]) + Size(s[i]) == SizeOf(s) + Size(x)
  {
    SizeSplit(s, i);
    SizeSplit(s[i := x], i);
    assert s[i := x][..i] == s[..i] && s[i := x][i + 1..] == s[i + 1..];
  }

  /** ... and keeps the leaves when the replacement has the same leaves. */
  lemma UpdateLeaves(s: seq<Qry>, i: nat, x: Qry)
    requires i < |s| && Leaves(x) == Leaves(s[i])
    ensures LeavesOf(s[i := x]) == LeavesOf(s)
  {
    LeavesSplit(s, i);
    LeavesSplit(s[i := x], i);
    assert s[i := x][..i] == s[..i] && s[i := x][i + 1..] == s[i + 1..];
  }

  // ---------------------------------------------------------------------------------------
  // The rewrite pass.

  /** What parseQueryCleanup accepts about argument c of a node without changing anything:
      an argument-less node must be a term; a single-argument node other than #score is left
      alone when its argument is of the other family (and its subtree is then not inspected);
      any other node must itself be settled. */
  predicate ChildSettled(c: Qry)
    decreases c, 1
  {
    if |Args(c)| == 0 then c.Term?
    else if |Args(c)| == 1 && !c.kind.Score? then !SameFamily(c, c.args[0])
    else Settled(c)
  }

  /** A tree on which parseQueryCleanup reports no change. */
  predicate Settled(q: Qry)
    decreases q, 0
  {
    q.Term? || forall i :: 0 <= i < |q.args| ==> ChildSettled(q.args[i])
  }

  /** The root of a tree (a term, or an operator's kind and name) survives the rewrite. */
  predicate SameRoot(a: Qry, b: Qry)
  {
    a.Term? == b.Term? && (a.Term? ==> a == b) && (a.Op? ==> a.kind == b.kind && a.displayName == b.displayName)
  }

  /** Every argument of a #wand / #wsum holds at least one term, throughout the tree.  The pass
      deletes only arguments without terms, so under this condition it never deletes an argument
      of a weighted operator. */
  predicate TermsUnderWeights(q: Qry)
    decreases q
  {
    q.Term? ||
    ((IsWeighted(q) ==> forall i :: 0 <= i < |q.args| ==> Leaves(q.args[i]) != [])
     && forall i :: 0 <= i < |q.args| ==> TermsUnderWeights(q.args[i]))
  }

  /** q.removeArg(i) as the pass calls it: as written it keeps the weights
      (RemoveArgAsWritten); the corrected removal drops the weight too (RemoveArg). */
  function Removal(q: Qry, i: nat, corrected: bool): (r: Qry)
    requires q.Op? && i < |q.args|
    ensures r.Op? && r.kind == q.kind && r.displayName == q.displayName
    ensures r.args == q.args[..i] + q.args[i + 1..]
    ensures !corrected ==> r.weights == q.weights && r.sumOfWeights == q.sumOfWeights
  {
    if corrected then
      var r := RemoveArg(q, i);
      assert r.args == q.args[..i] + q.args[i + 1..];
      r
    else RemoveArgAsWritten(q, i)
  }

  /** An argument the pass deletes: an operator without arguments. */
  predicate Removable(c: Qry)
  {
    |Args(c)| == 0 && !c.Term?
  }

  // The pass as a definition: CleanedChild is what becomes of a kept argument, CleanedFrom the
  // node once its arguments from i on have been handled (last to first), Cleaned the node
  // after the whole pass.

  function CleanedChild(c: Qry, corrected: bool): Qry
    decreases c, 2, 0
  {
    if Removable(c) then c
    else if |Args(c)| == 1 && !c.kind.Score? then (if SameFamily(c, c.args[0]) then c.args[0] else c)
    else Cleaned(c, corrected)
  }

  function Cleaned(q: Qry, corrected: bool): Qry
    decreases q, 1, |Args(q)| + 1
  {
    if q.Term? then q else CleanedFrom(q, 0, corrected)
  }

  function CleanedFrom(q: Qry, i: nat, corrected: bool): (r: Qry)
    requires q.Op? && i <= |q.args|
    ensures r.Op? && r.kind == q.kind && r.displayName == q.displayName
    ensures i <= |r.args| && r.args[..i] == q.args[..i]
    decreases q, 1, |q.args| - i
  {
    if i == |q.args| then q
    else
      var r := CleanedFrom(q, i + 1, corrected);
      assert r.args[..i] == r.args[..i + 1][..i];
      if Removable(q.args[i]) then Removal(r, i, corrected)
      else SetArg(r, i, CleanedChild(q.args[i], corrected))
  }

  /** The decision parseQueryCleanup takes for one argument c: delete it (`removed`), or keep
      it as c', which differs from c exactly when c was not settled. */
  method CleanArg(c: Qry, corrected: bool) returns (changed: bool, removed: bool, c': Qry)
    ensures changed <==> !ChildSettled(c)
    ensures removed <==> Removable(c)
    ensures !removed ==> c' == CleanedChild(c, corrected)
    ensures removed ==> changed && Leaves(c) == []
    ensures !changed ==> !removed && c' == c
    ensures !removed ==> Leaves(c') == Leaves(c) && Size(c') <= Size(c)
    ensures !removed && changed ==> Size(c') < Size(c)
    ensures !removed && TermsUnderWeights(c) ==> TermsUnderWeights(c')
    ensures !removed && WellWeighted(c) && (corrected || TermsUnderWeights(c)) ==> WellWeighted(c')
    decreases c, 2
  {
    removed := false;
    c' := c;
    if |Args(c)| == 0 && !c.Term? {
      removed := true;
      changed := true;
    } else if |Args(c)| == 1 && !c.kind.Score? {
      var c0 := c.args[0];
      changed := SameFamily(c, c0);
      if changed {
        SingletonMeasures(c0);
        assert c.args == [c0];
        c' := c0;
      }
    } else {
      changed, c' := CleanupPass(c, corrected);
    }
  }

  /** Deleting an argument without terms loses no term, shrinks the tree and keeps every
      weighted argument holding a term; it keeps the lock-step when the removal is the corrected
      one or the node is not weighted. */
  lemma RemovalMeasures(r: Qry, i: nat, corrected: bool)
    requires r.Op? && i < |r.args| && Leaves(r.args[i]) == []
    ensures Size(Removal(r, i, corrected)) < Size(r)
    ensures Leaves(Removal(r, i, corrected)) == Leaves(r)
    ensures TermsUnderWeights(r) ==> TermsUnderWeights(Removal(r, i, corrected))
    ensures WellWeighted(r) && (corrected || !IsWeighted(r)) ==> WellWeighted(Removal(r, i, corrected))
  {
    RemoveSize(r.args, i);
    RemoveLeaves(r.args, i);
    var r' := Removal(r, i, corrected);
    assert forall j :: 0 <= j < |r'.args| ==> r'.args[j] == if j < i then r.args[j] else r.args[j + 1];
    if corrected {
      assert r' == RemoveArg(r, i);
    } else {
      assert r' == RemoveArgAsWritten(r, i);
    }
  }

  /** Replacing an argument by one with the same terms keeps the terms, the lock-step and the
      terms under weighted operators. */
  lemma SetArgMeasures(r: Qry, i: nat, c': Qry)
    requires r.Op? && i < |r.args| && Leaves(c') == Leaves(r.args[i])
    ensures Size(SetArg(r, i, c')) + Size(r.args[i]) == Size(r) + Size(c')
    ensures Leaves(SetArg(r, i, c')) == Leaves(r)
    ensures TermsUnderWeights(r) && TermsUnderWeights(c') ==> TermsUnderWeights(SetArg(r, i, c'))
    ensures WellWeighted(r) && WellWeighted(c') ==> WellWeighted(SetArg(r, i, c'))
  {
    UpdateSize(r.args, i, c');
    UpdateLeaves(r.args, i, c');
    assert SetArg(r, i, c').args == r.args[i := c'];
  }

  /** Carries out the decision of CleanArg for argument i of r.  As written, deleting an
      argument of a weighted node breaks its lock-step, so lock-step is kept when the removal is
      the corrected one or the node is not weighted. */
  function ApplyToArg(r: Qry, i: nat, removed: bool, changed: bool, c': Qry, corrected: bool): (r': Qry)
    requires r.Op? && i < |r.args|
    requires removed ==> Leaves(r.args[i]) == []
    requires !removed ==> Leaves(c') == Leaves(r.args[i])
    requires !removed && !changed ==> c' == r.args[i]
    ensures r' == if removed then Removal(r, i, corrected) else SetArg(r, i, c')
    ensures r'.Op? && r'.kind == r.kind && r'.displayName == r.displayName
    ensures i <= |r'.args| && r'.args[..i] == r.args[..i]
    ensures !removed && !changed ==> r' == r
    ensures removed ==> Size(r') < Size(r)
    ensures !removed ==> Size(r') + Size(r.args[i]) == Size(r) + Size(c')
    ensures Leaves(r') == Leaves(r)
    ensures TermsUnderWeights(r) && (removed || TermsUnderWeights(c')) ==> TermsUnderWeights(r')
    ensures WellWeighted(r) && (removed || WellWeighted(c')) && (corrected || !removed || !IsWeighted(r)) ==>
              WellWeighted(r')
  {
    if removed then
      RemovalMeasures(r, i, corrected);
      Removal(r, i, corrected)
    else if changed then
      SetArgMeasures(r, i, c');
      SetArg(r, i, c')
    else
      assert r.args[i := c'] == r.args;
      r
  }

  /** parseQueryCleanup with the removal it uses: walks the arguments from last to first,
      deleting argument-less non-term arguments, collapsing single-argument non-#score arguments
      into their argument when both are of the same family, and otherwise cleaning the argument's
      own subtree.  The result is the Cleaned definition; a change is reported exactly when the
      tree was not settled; a change shrinks the tree and never loses a term.  The lock-step of
      the weights survives under the corrected removal, and under the removal as written when
      every argument of a weighted operator holds a term. */
  method CleanupPass(q: Qry, corrected: bool) returns (changed: bool, r: Qry)
    ensures r == Cleaned(q, corrected)
    ensures changed <==> !Settled(q)
    ensures !changed ==> r == q
    ensures changed ==> Size(r) < Size(q)
    ensures Leaves(r) == Leaves(q)
    ensures SameRoot(r, q)
    ensures TermsUnderWeights(q) ==> TermsUnderWeights(r)
    ensures WellWeighted(q) && (corrected || TermsUnderWeights(q)) ==> WellWeighted(r)
    decreases q, 1
  {
    changed := false;
    r := q;
    if q.Term? {
      return;
    }
    var i := |q.args|;
    while i > 0
      invariant 0 <= i <= |q.args|
      invariant CleanupState(q, r, i, changed, corrected)
    {
      r, changed := CleanupTurn(q, r, i, changed, corrected);
      i := i - 1;
    }
  }

  /** What parseQueryCleanup's loop keeps once it has handled the arguments from i on: the tree
      so far is CleanedFrom(q, i), a change was made exactly when one of the handled arguments
      was not settled, and the measures the pass promises hold of the tree so far. */
  ghost predicate CleanupState(q: Qry, r: Qry, i: nat, changed: bool, corrected: bool)
  {
    && q.Op? && i <= |q.args|
    && r == CleanedFrom(q, i, corrected)
    && (changed <==> exists j :: i <= j < |q.args| && !ChildSettled(q.args[j]))
    && (!changed ==> r == q)
    && (changed ==> Size(r) < Size(q))
    && Size(r) <= Size(q)
    && Leaves(r) == Leaves(q)
    && (TermsUnderWeights(q) ==> TermsUnderWeights(r))
    && (WellWeighted(q) && (corrected || TermsUnderWeights(q)) ==> WellWeighted(r))
  }

  /** One pass of parseQueryCleanup's loop: argument i - 1 is cleaned and put back. */
  method CleanupTurn(q: Qry, r: Qry, i: nat, changed: bool, corrected: bool) returns (r': Qry, changed': bool)
    requires 0 < i && CleanupState(q, r, i, changed, corrected)
    ensures CleanupState(q, r', i - 1, changed', corrected)
    decreases q, 0
  {
    var k := i - 1;
    assert r.args[k] == r.args[..k + 1][k] == q.args[k];
    ghost var c := q.args[k];
    assert TermsUnderWeights(q) ==> TermsUnderWeights(c) && (IsWeighted(q) ==> Leaves(c) != []);
    assert WellWeighted(q) ==> WellWeighted(c);
    var argChanged, removed, qi' := CleanArg(r.args[k], corrected);
    r' := ApplyToArg(r, k, removed, argChanged, qi', corrected);
    changed' := changed || argChanged;
  }

  /** parseQueryCleanup as QryEval calls it, with the weight-keeping removeArg. */
  method ParseQueryCleanup(q: Qry) returns (changed: bool, r: Qry)
    ensures r == Cleaned(q, false)
    ensures changed <==> !Settled(q)
    ensures !changed ==> r == q
    ensures changed ==> Size(r) < Size(q)
    ensures Leaves(r) == Leaves(q) && SameRoot(r, q)
    ensures TermsUnderWeights(q) ==> TermsUnderWeights(r)
    ensures WellWeighted(q) && TermsUnderWeights(q) ==> WellWeighted(r)
  {
    changed, r := CleanupPass(q, false);
  }

  /** The pass with the corrected removal: lock-step survives on every tree. */
  method CorrectedCleanup(q: Qry) returns (changed: bool, r: Qry)
    ensures r == Cleaned(q, true)
    ensures changed <==> !Settled(q)
    ensures !changed ==> r == q
    ensures changed ==> Size(r) < Size(q)
    ensures Leaves(r) == Leaves(q) && SameRoot(r, q)
    ensures WellWeighted(q) ==> WellWeighted(r)
  {
    changed, r := CleanupPass(q, true);
  }

  /** The root that processQuery keeps: a root with exactly one scoring argument is replaced by
      that argument. */
  function Unwrapped(q: Qry): (r: Qry)
    ensures Leaves(r) == Leaves(q)
    ensures WellWeighted(q) ==> WellWeighted(r)
    ensures TermsUnderWeights(q) ==> TermsUnderWeights(r)
  {
    if |Args(q)| == 1 && IsSop(q.args[0]) then
      SingletonMeasures(q.args[0]);
      assert q.args == [q.args[0]];
      q.args[0]
    else q
  }

  /** n passes of the cleanup from q. */
  function Iterate(q: Qry, corrected: bool, n: nat): Qry
    decreases n
  {
    if n == 0 then q else Iterate(Cleaned(q, corrected), corrected, n - 1)
  }

  /** One more pass is the pass applied to the n-th iterate. */
  lemma {:induction false} IterateStep(q: Qry, corrected: bool, n: nat)
    ensures Iterate(q, corrected, n + 1) == Cleaned(Iterate(q, corrected, n), corrected)
    decreases n
  {
    if n > 0 {
      IterateStep(Cleaned(q, corrected), corrected, n - 1);
    }
  }

  /** The tree processQuery evaluates: the first settled iterate of the pass from the unwrapped
      parse. */
  ghost predicate FirstSettledIterate(r: Qry, q: Qry, corrected: bool)
  {
    exists n: nat :: r == Iterate(q, corrected, n) && Settled(r)
                     && forall m :: 0 <= m < n ==> !Settled(Iterate(q, corrected, m))
  }

  /** The optimisation step of processQuery with the given removal: unwrap a single scoring
      argument of the root, then repeat the pass until it reports no change.  A parse that
      produced no tree (null) fails on the first access to its arguments. */
  method Optimize(parsed: Option<Qry>, corrected: bool) returns (r: Result<Qry>)
    ensures parsed.None? <==> r == Err(NullPointer)
    ensures r.Ok? ==> FirstSettledIterate(r.value, Unwrapped(parsed.value), corrected)
    ensures r.Ok? ==> Settled(r.value) && Cleaned(r.value, corrected) == r.value
    ensures r.Ok? ==> Leaves(r.value) == Leaves(parsed.value)
    ensures r.Ok? ==> SameRoot(r.value, Unwrapped(parsed.value))
    ensures r.Ok? && TermsUnderWeights(parsed.value) ==> TermsUnderWeights(r.value)
    ensures r.Ok? && WellWeighted(parsed.value) && (corrected || TermsUnderWeights(parsed.value)) ==>
              WellWeighted(r.value)
  {
    if parsed.None? {
      return Err(NullPointer);
    }
    var q := Unwrapped(parsed.value);
    ghost var n: nat := 0;
    while true
      invariant q == Iterate(Unwrapped(parsed.value), corrected, n)
      invariant forall m :: 0 <= m < n ==> !Settled(Iterate(Unwrapped(parsed.value), corrected, m))
      invariant Leaves(q) == Leaves(parsed.value)
      invariant SameRoot(q, Unwrapped(parsed.value))
      invariant TermsUnderWeights(parsed.value) ==> TermsUnderWeights(q)
      invariant WellWeighted(parsed.value) && (corrected || TermsUnderWeights(parsed.value)) ==> WellWeighted(q)
      decreases Size(q)
    {
      var changed, q' := CleanupPass(q, corrected);
      if !changed {
        break;
      }
      IterateStep(Unwrapped(parsed.value), corrected, n);
      q, n := q', n + 1;
    }
    return Ok(q);
  }

  /** processQuery's optimisation as written. */
  method OptimizeQuery(parsed: Option<Qry>) returns (r: Result<Qry>)
    ensures parsed.None? <==> r == Err(NullPointer)
    ensures r.Ok? ==> FirstSettledIterate(r.value, Unwrapped(parsed.value), false)
    ensures r.Ok? ==> Settled(r.value) && Cleaned(r.value, false) == r.value
    ensures r.Ok? ==> Leaves(r.value) == Leaves(parsed.value)
    ensures r.Ok? ==> SameRoot(r.value, Unwrapped(parsed.value))
    ensures r.Ok? && WellWeighted(parsed.value) && TermsUnderWeights(parsed.value) ==> WellWeighted(r.value)
  {
    r := Optimize(parsed, false);
  }

  /** The optimisation with the corrected removal: lock-step survives on every tree. */
  method CorrectedOptimizeQuery(parsed: Option<Qry>) returns (r: Result<Qry>)
    ensures parsed.None? <==> r == Err(NullPointer)
    ensures r.Ok? ==> FirstSettledIterate(r.value, Unwrapped(parsed.value), true)
    ensures r.Ok? ==> Settled(r.value) && Cleaned(r.value, true) == r.value
    ensures r.Ok? ==> Leaves(r.value) == Leaves(parsed.value)
    ensures r.Ok? ==> SameRoot(r.value, Unwrapped(parsed.value))
    ensures r.Ok? && WellWeighted(parsed.value) ==> WellWeighted(r.value)
  {
    r := Optimize(parsed, true);
  }

  /** The pass does not look below a single-argument node whose argument is of the other family:
      `#and(#syn(#or()))` counts as settled although it holds an argument-less #or. */
  lemma CrossFamilySubtreeNotCleaned()
    ensures var t := Op(And, "#and", [Op(Syn, "#syn", [NewOp(Or, "#or")], [], 0.0)], [], 0.0);
            Settled(t) && Args(t.args[0].args[0]) == [] && !t.args[0].args[0].Term?
  {
    var t := Op(And, "#and", [Op(Syn, "#syn", [NewOp(Or, "#or")], [], 0.0)], [], 0.0);
    assert ChildSettled(t.args[0]);
  }

  /** An argument-less operator below the root is deleted, and a single-argument node whose
      argument is of the same family is replaced by that argument: one pass turns
      `#and(#or() #and(#or(dog cat)))` into the settled `#and(#or(dog cat))`. */
  lemma CleanupExample()
    ensures var dog, cat := Term("dog", "body"), Term("cat", "body");
            var inner := Op(Or, "#or", [dog, cat], [], 0.0);
            var t := Op(And, "#and", [NewOp(Or, "#or"), Op(And, "#and", [inner], [], 0.0)], [], 0.0);
            var target := Op(And, "#and", [inner], [], 0.0);
            !Settled(t) && Cleaned(t, false) == target && Settled(target)
  {
    var dog, cat := Term("dog", "body"), Term("cat", "body");
    var inner := Op(Or, "#or", [dog, cat], [], 0.0);
    var t := Op(And, "#and", [NewOp(Or, "#or"), Op(And, "#and", [inner], [], 0.0)], [], 0.0);
    assert !ChildSettled(t.args[0]);
    assert CleanedChild(t.args[1], false) == inner;
    var r1 := CleanedFrom(t, 1, false);
    assert CleanedFrom(t, 2, false) == t;
    assert !Removable(t.args[1]);
    assert r1 == SetArg(t, 1, inner);
    assert r1.args == [NewOp(Or, "#or"), inner];
    assert Cleaned(t, false) == Removal(r1, 0, false);
    assert r1.args[1..] == [inner];
    assert ChildSettled(inner) by {
      assert ChildSettled(dog) && ChildSettled(cat);
    }
  }

  /** `#wand(0.3 #syn() 0.7 dog)`: a weighted node whose first argument holds no term. */
  function WAndWithEmptyArg(): Qry
  {
    Op(WAnd, "#wand", [NewOp(Syn, "#syn"), Term("dog", "body")], [0.3, 0.7], 1.0)
  }

  /** On WAndWithEmptyArg the pass keeps the term dog and deletes the #syn, with either removal. */
  lemma {:induction false} WAndWithEmptyArgPass(corrected: bool)
    ensures Cleaned(WAndWithEmptyArg(), corrected) == Removal(WAndWithEmptyArg(), 0, corrected)
  {
    var q := WAndWithEmptyArg();
    assert q.args[1 := q.args[1]] == q.args;
    assert Removable(q.args[0]) && !Removable(q.args[1]);
    assert CleanedFrom(q, 2, corrected) == q;
    assert CleanedChild(q.args[1], corrected) == q.args[1];
    assert CleanedFrom(q, 1, corrected) == q;
  }

  /** The pass as written breaks the lock-step: on `#wand(0.3 #syn() 0.7 dog)` the argument-less
      #syn is deleted but both weights stay, so dog is left with 0.3. */
  lemma CleanupAsWrittenBreaksLockStep()
    ensures var q := WAndWithEmptyArg();
            && WellWeighted(q) && !TermsUnderWeights(q)
            && Cleaned(q, false) == Op(WAnd, "#wand", [Term("dog", "body")], [0.3, 0.7], 1.0)
            && !WellWeighted(Cleaned(q, false))
  {
    var q := WAndWithEmptyArg();
    WAndWithEmptyArgPass(false);
    RemoveArgAsWrittenBreaksLockStep();
    assert Leaves(q.args[0]) == [];
    assert q.args[..0] + q.args[1..] == [Term("dog", "body")];
  }

  /** The corrected pass on the same tree keeps dog's weight 0.7 and the lock-step. */
  lemma CorrectedCleanupKeepsLockStep()
    ensures var q := WAndWithEmptyArg();
            && Cleaned(q, true) == Op(WAnd, "#wand", [Term("dog", "body")], [0.7], 0.7)
            && WellWeighted(Cleaned(q, true))
  {
    var q := WAndWithEmptyArg();
    WAndWithEmptyArgPass(true);
    RemoveArgAsWrittenBreaksLockStep();
    var r := RemoveArg(q, 0);
    assert r.args == [Term("dog", "body")];
    assert r.weights == [0.7];
    assert SumReals([0.7]) == 0.7 by { assert [0.7][..0] == []; }
  }
}
