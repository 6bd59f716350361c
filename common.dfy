/** Values shared by every part of the evaluator: the failure-carrying result types that stand in
    for Java's exceptions and null, the engine's sentinel constants, and the ordering predicates
    used for posting lists and position lists. */
module Common {

  datatype Option<+T> = None | Some(value: T)

  /** The Java exceptions the modelled code can raise, by kind. */
  datatype Error =
    | IllegalArgument(message: string)   // IllegalArgumentException (syntax errors, unsupported models)
    | NumberFormat(text: string)         // NumberFormatException from Integer.parseInt / Double.valueOf
    | EmptyStack                         // EmptyStackException from Stack.pop
    | NullPointer                        // NullPointerException
    | IndexOutOfBounds                   // ArrayIndexOutOfBoundsException / IndexOutOfBoundsException

  datatype Result<+T> = Ok(value: T) | Err(error: Error)

  /** Qry.INVALID_DOCID: real document ids are natural numbers, so -1 never clashes with one. */
  const INVALID_DOCID: int := -1

  /** Double.MIN_VALUE, the smallest positive double (used by the source as a "missing" sentinel). */
  const MIN_DOUBLE: real := 4.9e-324

  /** Double.MAX_VALUE. */
  const MAX_DOUBLE: real := 1.7976931348623157e308

  predicate Sorted(s: seq<int>)
  {
    forall i, j :: 0 <= i < j < |s| ==> s[i] <= s[j]
  }

  predicate StrictlyIncreasing(s: seq<int>)
  {
    forall i, j :: 0 <= i < j < |s| ==> s[i] < s[j]
  }

  /** Inserts x into a sorted sequence, before the first element not smaller than x. */
  function Insert(x: int, s: seq<int>): (r: seq<int>)
    requires Sorted(s)
    ensures Sorted(r)
    ensures multiset(r) == multiset(s) + multiset{x}
    ensures |r| == |s| + 1
  {
    if |s| == 0 || x <= s[0] then [x] + s
    else
      var tail := Insert(x, s[1..]);
      assert s == [s[0]] + s[1..];
      BoundOfInsert(s[0], x, s[1..], tail);
      [s[0]] + tail
  }

  /** A lower bound of x and of every element of rest bounds every element of a sequence holding
      exactly rest and x. */
  lemma BoundOfInsert(a: int, x: int, rest: seq<int>, t: seq<int>)
    requires multiset(t) == multiset(rest) + multiset{x}
    requires a <= x && forall k :: 0 <= k < |rest| ==> a <= rest[k]
    ensures forall k :: 0 <= k < |t| ==> a <= t[k]
  {
    forall k | 0 <= k < |t| ensures a <= t[k] {
      assert t[k] in multiset(t);
      assert t[k] == x || t[k] in rest;
    }
  }

  /** Collections.sort on a list of positions: an ascending permutation of its input. */
  function SortAsc(s: seq<int>): (r: seq<int>)
    ensures Sorted(r)
    ensures multiset(r) == multiset(s)
  {
    if |s| == 0 then []
    else
      assert s == [s[0]] + s[1..];
      Insert(s[0], SortAsc(s[1..]))
  }

  /** Sorting a list that is already in ascending order leaves it as it is. */
  lemma {:induction false} SortAscOfSorted(s: seq<int>)
    requires Sorted(s)
    ensures SortAsc(s) == s
  {
    if |s| > 0 {
      SortAscOfSorted(s[1..]);
      assert Sorted(s[1..]);
      assert s == [s[0]] + s[1..];
    }
  }

  /** The sum of a sequence of reals, left to right. */
  function SumReals(s: seq<real>): real
  {
    if |s| == 0 then 0.0 else SumReals(s[..|s| - 1]) + s[|s| - 1]
  }

  lemma SumRealsAppend(s: seq<real>, x: real)
    ensures SumReals(s + [x]) == SumReals(s) + x
  {
    assert (s + [x])[..|s + [x]| - 1] == s;
  }

  /** Summing a concatenation sums the two parts. */
  lemma {:induction false} SumRealsConcat(a: seq<real>, b: seq<real>)
    ensures SumReals(a + b) == SumReals(a) + SumReals(b)
    decreases |b|
  {
    if |b| > 0 {
      var b' := b[..|b| - 1];
      assert a + b == (a + b') + [b[|b| - 1]];
      SumRealsAppend(a + b', b[|b| - 1]);
      SumRealsConcat(a, b');
      SumRealsAppend(b', b[|b| - 1]);
      assert b == b' + [b[|b| - 1]];
    } else {
      assert a + b == a;
    }
  }

  /** Dropping element i takes it out of the sum. */
  lemma {:induction false} SumRealsRemove(s: seq<real>, i: nat)
    requires i < |s|
    ensures SumReals(s[..i] + s[i + 1..]) == SumReals(s) - s[i]
  {
    var before, after := s[..i], s[i + 1..];
    assert s == (before + [s[i]]) + after;
    SumRealsConcat(before + [s[i]], after);
    SumRealsAppend(before, s[i]);
    SumRealsConcat(before, after);
  }

  /** The product of a sequence of reals, left to right. */
  function ProductReals(s: seq<real>): real
  {
    if |s| == 0 then 1.0 else ProductReals(s[..|s| - 1]) * s[|s| - 1]
  }

  lemma ProductRealsAppend(s: seq<real>, x: real)
    ensures ProductReals(s + [x]) == ProductReals(s) * x
  {
    assert (s + [x])[..|s + [x]| - 1] == s;
  }
}
