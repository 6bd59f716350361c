/** The query-term tally that both QrySop and RetrievalModelBM25 keep: a HashMap from query nodes
    to the number of times each node was added.

    A HashMap identifies its keys by equals/hashCode.  Every scoring operator (QrySop) compares by
    its argument list alone, element by element and through QrySop.equals again for a nested
    scoring operator, so #and(a b) and #or(a b) are one key, and so are #and(#or(t)) and
    #and(#and(t)); the tally below stores each
    node under that identity, together with the node object the map keeps as the key (the first
    one added: putting an equal key again only replaces the value). */
module Tally {
  import opened QueryTree

  /** The identity a HashMap sees for a node: a scoring operator by the identities of its
      arguments (List.equals compares element by element, through QrySop.equals again for a
      nested scoring operator), any other node by its whole value. */
  datatype QryKey = SopKey(args: seq<QryKey>) | NodeKey(node: Qry)

  function KeyOf(q: Qry): QryKey
    decreases q
  {
    if IsSop(q) then SopKey(seq(|q.args|, i requires 0 <= i < |q.args| => KeyOf(q.args[i])))
    else NodeKey(q)
  }

  /** QrySop.equals, for a scoring operator `a`: `b` is a scoring operator and the argument lists
      are equal element by element (QrySop.hashCode hashes that list). */
  predicate SopEquals(a: Qry, b: Qry)
    requires IsSop(a)
    decreases a, 1
  {
    IsSop(b) && |a.args| == |b.args| && forall i :: 0 <= i < |a.args| ==> ElemEquals(a.args[i], b.args[i])
  }

  /** x.equals(y) for one list element: QrySop.equals for a scoring operator, the value of any
      other node. */
  predicate ElemEquals(x: Qry, y: Qry)
    decreases x, 2
  {
    if IsSop(x) then SopEquals(x, y) else x == y
  }

  /** The map keys agree with equals: a node is stored under the same key as exactly the nodes
      it equals. */
  lemma {:induction false} ElemEqualsIsKeyEquality(x: Qry, y: Qry)
    ensures ElemEquals(x, y) <==> KeyOf(x) == KeyOf(y)
    decreases x, 1
  {
    if IsSop(x) {
      SopEqualsIsKeyEquality(x, y);
    }
  }

  lemma {:induction false} SopEqualsIsKeyEquality(a: Qry, b: Qry)
    requires IsSop(a)
    ensures SopEquals(a, b) <==> KeyOf(a) == KeyOf(b)
    decreases a, 0
  {
    forall i | 0 <= i < |a.args| && i < |Args(b)|
      ensures ElemEquals(a.args[i], b.args[i]) <==> KeyOf(a.args[i]) == KeyOf(b.args[i])
    {
      ElemEqualsIsKeyEquality(a.args[i], b.args[i]);
    }
    if IsSop(b) && KeyOf(a) == KeyOf(b) {
      assert |a.args| == |KeyOf(a).args| == |KeyOf(b).args| == |b.args|;
      forall i | 0 <= i < |a.args| ensures KeyOf(a.args[i]) == KeyOf(b.args[i]) {
        assert KeyOf(a).args[i] == KeyOf(b).args[i];
      }
    }
  }

  /** equals is an equivalence on scoring operators, as a HashMap key needs. */
  lemma SopEqualsIsEquivalence(a: Qry, b: Qry, c: Qry)
    requires IsSop(a) && IsSop(b) && IsSop(c)
    ensures SopEquals(a, a)
    ensures SopEquals(a, b) ==> SopEquals(b, a)
    ensures SopEquals(a, b) && SopEquals(b, c) ==> SopEquals(a, c)
  {
    SopEqualsIsKeyEquality(a, a);
    SopEqualsIsKeyEquality(a, b);
    SopEqualsIsKeyEquality(b, a);
    SopEqualsIsKeyEquality(b, c);
    SopEqualsIsKeyEquality(a, c);
  }

  /** Operators of different kinds over the same arguments collapse into one tally entry. */
  lemma AndOrShareAKey(x: Qry, y: Qry)
    ensures KeyOf(Op(And, "#and", [x, y], [], 0.0)) == KeyOf(Op(Or, "#or", [x, y], [], 0.0))
    ensures Op(And, "#and", [x, y], [], 0.0) != Op(Or, "#or", [x, y], [], 0.0)
  {
  }

  /** Nested scoring operators are compared by their arguments too: #and(#or(t)) and
      #and(#and(t)) are one key, although the inner operators differ. */
  lemma NestedOperatorsShareAKey(t: Qry)
    requires t.Term?
    ensures KeyOf(Op(And, "#and", [Op(Or, "#or", [t], [], 0.0)], [], 0.0))
         == KeyOf(Op(And, "#and", [Op(And, "#and", [t], [], 0.0)], [], 0.0))
    ensures Op(Or, "#or", [t], [], 0.0) != Op(And, "#and", [t], [], 0.0)
  {
    var inner1, inner2 := Op(Or, "#or", [t], [], 0.0), Op(And, "#and", [t], [], 0.0);
    assert KeyOf(inner1) == SopKey([KeyOf(t)]) == KeyOf(inner2);
  }

  /** One map entry: the node kept as the key, and its count. */
  datatype Entry = Entry(query: Qry, count: int)

  type Counts = map<QryKey, Entry>

  /** addQuery: a new key is stored with count 1, an existing key has its count raised by 1;
      every other entry stays as it was. */
  function Bump(m: Counts, q: Qry): (r: Counts)
    ensures r.Keys == m.Keys + {KeyOf(q)}
    ensures KeyOf(q) in m ==> r[KeyOf(q)] == Entry(m[KeyOf(q)].query, m[KeyOf(q)].count + 1)
    ensures KeyOf(q) !in m ==> r[KeyOf(q)] == Entry(q, 1)
    ensures forall k :: k in m && k != KeyOf(q) ==> r[k] == m[k]
  {
    var k := KeyOf(q);
    if k in m then m[k := Entry(m[k].query, m[k].count + 1)] else m[k := Entry(q, 1)]
  }

  /** The tally after adding the nodes of s one by one to an empty map. */
  function TallyOf(s: seq<Qry>): Counts
  {
    if |s| == 0 then map[] else Bump(TallyOf(s[..|s| - 1]), s[|s| - 1])
  }

  /** getQueryFrequency: the stored count, or the given answer for an absent key (QrySop answers
      -1, RetrievalModelBM25 answers 0). */
  function Frequency(m: Counts, q: Qry, absent: int): (r: int)
    ensures KeyOf(q) !in m ==> r == absent
    ensures KeyOf(q) in m ==> r == m[KeyOf(q)].count
  {
    if KeyOf(q) in m then m[KeyOf(q)].count else absent
  }

  /** getQueries: the key set, as the node objects the map holds. */
  function Queries(m: Counts): set<Qry>
  {
    set k | k in m :: m[k].query
  }

  predicate HasKey(s: seq<Qry>, k: QryKey)
  {
    exists j :: 0 <= j < |s| && KeyOf(s[j]) == k
  }

  /** How many nodes of s are equal, as map keys, to k. */
  function Occurrences(s: seq<Qry>, k: QryKey): nat
  {
    if |s| == 0 then 0 else Occurrences(s[..|s| - 1], k) + (if KeyOf(s[|s| - 1]) == k then 1 else 0)
  }

  /** The position of the first node of s with key k. */
  function FirstIndex(s: seq<Qry>, k: QryKey): (i: nat)
    requires HasKey(s, k)
    ensures i < |s| && KeyOf(s[i]) == k
    ensures forall j :: 0 <= j < i ==> KeyOf(s[j]) != k
  {
    if KeyOf(s[0]) == k then 0
    else
      var j :| 0 <= j < |s| && KeyOf(s[j]) == k;
      assert KeyOf(s[1..][j - 1]) == k;
      1 + FirstIndex(s[1..], k)
  }

  lemma {:induction false} OccurrencesAbsent(s: seq<Qry>, k: QryKey)
    requires !HasKey(s, k)
    ensures Occurrences(s, k) == 0
  {
    if |s| > 0 {
      var p := s[..|s| - 1];
      assert !HasKey(p, k) by {
        forall j | 0 <= j < |p| ensures KeyOf(p[j]) != k {
          assert p[j] == s[j];
        }
      }
      OccurrencesAbsent(p, k);
    }
  }

  /** What the tally of a list holds: exactly the keys occurring in it, each with its number of
      occurrences and with the first node that has it. */
  lemma {:induction false} TallyOfCounts(s: seq<Qry>, k: QryKey)
    ensures k in TallyOf(s) <==> HasKey(s, k)
    ensures k in TallyOf(s) ==>
      TallyOf(s)[k].count == Occurrences(s, k) && TallyOf(s)[k].query == s[FirstIndex(s, k)]
  {
    if |s| > 0 {
      var p, x := s[..|s| - 1], s[|s| - 1];
      TallyOfCounts(p, k);
      assert forall j :: 0 <= j < |p| ==> p[j] == s[j];
      if HasKey(p, k) {
        var i := FirstIndex(p, k);
        assert KeyOf(s[i]) == k;
        assert FirstIndex(s, k) == i;
      } else if KeyOf(x) == k {
        OccurrencesAbsent(p, k);
        assert FirstIndex(s, k) == |s| - 1;
      } else {
        assert !HasKey(s, k) by {
          forall j | 0 <= j < |s| ensures KeyOf(s[j]) != k {
            if j < |p| {
              assert s[j] == p[j];
            }
          }
        }
      }
    }
  }

  /** Every count in a tally is positive. */
  lemma CountsPositive(s: seq<Qry>, k: QryKey)
    requires k in TallyOf(s)
    ensures TallyOf(s)[k].count >= 1
  {
    TallyOfCounts(s, k);
    var i := FirstIndex(s, k);
    OccurrencesAtLeastOne(s, k, i);
  }

  lemma {:induction false} OccurrencesAtLeastOne(s: seq<Qry>, k: QryKey, i: nat)
    requires i < |s| && KeyOf(s[i]) == k
    ensures Occurrences(s, k) >= 1
  {
    if i < |s| - 1 {
      assert s[..|s| - 1][i] == s[i];
      OccurrencesAtLeastOne(s[..|s| - 1], k, i);
    }
  }

  /** getQueries after adding the nodes of s to an empty map: only nodes of s, and for every
      node of s the node kept under its key, which is equal to it as a key. */
  lemma QueriesOfTally(s: seq<Qry>)
    ensures forall q :: q in Queries(TallyOf(s)) ==> q in s
    ensures forall j :: 0 <= j < |s| ==>
              KeyOf(s[j]) in TallyOf(s) && TallyOf(s)[KeyOf(s[j])].query in Queries(TallyOf(s))
              && KeyOf(TallyOf(s)[KeyOf(s[j])].query) == KeyOf(s[j])
  {
    forall q | q in Queries(TallyOf(s)) ensures q in s {
      var k :| k in TallyOf(s) && TallyOf(s)[k].query == q;
      TallyOfCounts(s, k);
    }
    forall j | 0 <= j < |s|
      ensures KeyOf(s[j]) in TallyOf(s) && TallyOf(s)[KeyOf(s[j])].query in Queries(TallyOf(s))
              && KeyOf(TallyOf(s)[KeyOf(s[j])].query) == KeyOf(s[j])
    {
      var k := KeyOf(s[j]);
      assert HasKey(s, k);
      TallyOfCounts(s, k);
      assert TallyOf(s)[k].query == s[FirstIndex(s, k)];
    }
  }
}
