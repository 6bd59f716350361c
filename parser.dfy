/** The structured-query parser of QryEval.parseQuery: the query text is wrapped in the
    retrieval model's default operator, split by a StringTokenizer that returns its delimiters,
    and fed token by token to a stack machine with a parallel stack of weights for #wand and
    #wsum.

    Lexical processing of a term (Lucene's analyzer: stop words, stemming) is the parameter
    `tokenizeQuery`; Double.valueOf is the parameter `parseDouble`, which yields None where Java
    throws NumberFormatException. */
module QueryParser {
  import opened Common
  import opened QueryTree

  // ---------------------------------------------------------------------------------------
  // Java string operations, on ASCII.

  /** Character.toLowerCase on ASCII letters. */
  function LowerChar(c: char): char
  {
    if 'A' <= c <= 'Z' then (c as int + 32) as char else c
  }

  /** String.toLowerCase: the same length, every letter lower-cased. */
  function Lower(s: string): (r: string)
    ensures |r| == |s| && forall i :: 0 <= i < |s| ==> r[i] == LowerChar(s[i])
  {
    seq(|s|, i requires 0 <= i < |s| => LowerChar(s[i]))
  }

  /** String.equalsIgnoreCase against a lower-case word. */
  predicate EqualsIgnoreCase(s: string, lowerWord: string)
  {
    Lower(s) == lowerWord
  }

  /** String.regionMatches(true, 0, lowerWord, 0, |lowerWord|): a case-insensitive prefix test. */
  predicate StartsWithIgnoreCase(s: string, lowerWord: string)
  {
    |lowerWord| <= |s| && Lower(s[..|lowerWord|]) == lowerWord
  }

  /** String.indexOf(c): the first position of c, or -1. */
  function IndexOf(s: string, c: char): (k: int)
    ensures -1 <= k < |s|
    ensures k == -1 <==> c !in s
    ensures k >= 0 ==> s[k] == c && c !in s[..k]
  {
    if |s| == 0 then -1
    else if s[0] == c then 0
    else
      var k := IndexOf(s[1..], c);
      assert forall j :: 0 <= j < |s| - 1 ==> s[1..][j] == s[j + 1];
      if k == -1 then -1
      else
        assert s[..k + 1] == [s[0]] + s[1..][..k];
        k + 1
  }

  /** The pieces of s between the occurrences of `sep`, empty pieces included. */
  function SplitAll(s: string, sep: char): (pieces: seq<string>)
    ensures |pieces| >= 1
    ensures forall i :: 0 <= i < |pieces| ==> sep !in pieces[i]
    decreases |s|
  {
    var k := IndexOf(s, sep);
    if k == -1 then [s] else [s[..k]] + SplitAll(s[k + 1..], sep)
  }

  /** String.split("/"): the pieces between slashes, with trailing empty pieces removed (if no
      slash occurs in a non-empty string the result is the whole string; for "" the model gives
      no piece where Java gives [""], which the operator tokens never reach). */
  function SplitSlash(s: string): (pieces: seq<string>)
    ensures forall i :: 0 <= i < |pieces| ==> '/' !in pieces[i]
  {
    DropTrailingEmpty(SplitAll(s, '/'))
  }

  function DropTrailingEmpty(pieces: seq<string>): (r: seq<string>)
    ensures |r| <= |pieces| && r == pieces[..|r|]
    ensures |r| > 0 ==> r[|r| - 1] != ""
    ensures forall i :: |r| <= i < |pieces| ==> pieces[i] == ""
    decreases |pieces|
  {
    if |pieces| == 0 then []
    else if pieces[|pieces| - 1] == "" then DropTrailingEmpty(pieces[..|pieces| - 1])
    else pieces
  }

  // ---------------------------------------------------------------------------------------
  // Integer.parseInt.

  predicate IsDigit(c: char)
  {
    '0' <= c <= '9'
  }

  /** The value of a string of decimal digits, read left to right. */
  function DigitsValue(ds: string): nat
    requires forall i :: 0 <= i < |ds| ==> IsDigit(ds[i])
  {
    if |ds| == 0 then 0
    else
      assert IsDigit(ds[|ds| - 1]);
      DigitsValue(ds[..|ds| - 1]) * 10 + (ds[|ds| - 1] as int - '0' as int)
  }

  const MIN_INT: int := -0x8000_0000
  const MAX_INT: int := 0x7FFF_FFFF

  /** Integer.parseInt(s): an optional sign followed by at least one decimal digit, whose value
      lies in the 32-bit range; anything else is a NumberFormatException. */
  function ParseInt(s: string): (r: Result<int>)
    ensures r.Ok? ==> MIN_INT <= r.value <= MAX_INT
    ensures r.Err? ==> r.error == NumberFormat(s)
    ensures |s| == 0 ==> r.Err?
  {
    if |s| == 0 then Err(NumberFormat(s))
    else
      var negative := s[0] == '-';
      var ds := if s[0] == '-' || s[0] == '+' then s[1..] else s;
      if |ds| == 0 || exists i :: 0 <= i < |ds| && !IsDigit(ds[i]) then Err(NumberFormat(s))
      else
        var v: int := if negative then -(DigitsValue(ds) as int) else DigitsValue(ds);
        if MIN_INT <= v <= MAX_INT then Ok(v) else Err(NumberFormat(s))
  }

  /** The decimal digits of a natural number (Integer.toString for n >= 0). */
  function NatDigits(n: nat): (ds: string)
    ensures |ds| > 0 && forall i :: 0 <= i < |ds| ==> IsDigit(ds[i])
  {
    if n < 10 then [('0' as int + n) as char]
    else NatDigits(n / 10) + [('0' as int + n % 10) as char]
  }

  lemma {:induction false} NatDigitsValue(n: nat)
    ensures DigitsValue(NatDigits(n)) == n
  {
    if n >= 10 {
      NatDigitsValue(n / 10);
      var ds := NatDigits(n);
      assert ds[..|ds| - 1] == NatDigits(n / 10);
    }
  }

  /** Integer.toString. */
  function Decimal(n: int): string
  {
    if n < 0 then "-" + NatDigits(-n) else NatDigits(n)
  }

  /** parseInt reads back every 32-bit integer written in decimal. */
  lemma ParseIntDecimal(n: int)
    requires MIN_INT <= n <= MAX_INT
    ensures ParseInt(Decimal(n)) == Ok(n)
  {
    var s := Decimal(n);
    if n < 0 {
      NatDigitsValue(-n);
      assert s[1..] == NatDigits(-n);
    } else {
      NatDigitsValue(n);
      assert IsDigit(s[0]);
    }
  }

  /** The distance of `#near/n` or `#window/n`: Integer.parseInt(token.split("/")[1]); a token
      without a second piece fails with an index out of bounds. */
  function Distance(token: string): (r: Result<int>)
    ensures |SplitSlash(token)| < 2 <==> r == Err(IndexOutOfBounds)
    ensures |SplitSlash(token)| >= 2 ==> r == ParseInt(SplitSlash(token)[1])
  {
    var pieces := SplitSlash(token);
    if |pieces| < 2 then Err(IndexOutOfBounds) else ParseInt(pieces[1])
  }

  // ---------------------------------------------------------------------------------------
  // Tokenisation: StringTokenizer(qString, "\t\n\r ,()", true).

  predicate IsDelimiter(c: char)
  {
    c == '\t' || c == '\n' || c == '\r' || c == ' ' || c == ',' || c == '(' || c == ')'
  }

  /** The length of the run of non-delimiters that starts s. */
  function RunLength(s: string): (k: nat)
    ensures k <= |s|
    ensures forall j :: 0 <= j < k ==> !IsDelimiter(s[j])
    ensures k < |s| ==> IsDelimiter(s[k])
  {
    if |s| == 0 || IsDelimiter(s[0]) then 0 else 1 + RunLength(s[1..])
  }

  /** The tokens: every delimiter on its own, and every maximal run of other characters. */
  function Tokenize(s: string): (tokens: seq<string>)
    decreases |s|
  {
    if |s| == 0 then []
    else if IsDelimiter(s[0]) then [[s[0]]] + Tokenize(s[1..])
    else
      var k := RunLength(s);
      [s[..k]] + Tokenize(s[k..])
  }

  function Concat(tokens: seq<string>): string
  {
    if |tokens| == 0 then "" else tokens[0] + Concat(tokens[1..])
  }

  /** A token is a single delimiter or a non-empty run without delimiters. */
  predicate WellFormedToken(t: string)
  {
    (|t| == 1 && IsDelimiter(t[0])) || (|t| > 0 && forall j :: 0 <= j < |t| ==> !IsDelimiter(t[j]))
  }

  /** Tokenising loses nothing: the tokens put back together are the input, and each is
      well formed. */
  lemma {:induction false} TokenizeSound(s: string)
    ensures Concat(Tokenize(s)) == s
    ensures forall i :: 0 <= i < |Tokenize(s)| ==> WellFormedToken(Tokenize(s)[i])
  {
    TokenizeConcat(s);
    TokenizeWellFormed(s);
  }

  /** The first token of a non-empty string and the tokens of what follows it. */
  lemma TokenizeHead(s: string) returns (k: nat)
    requires |s| > 0
    ensures 0 < k <= |s| && WellFormedToken(s[..k])
    ensures Tokenize(s) == [s[..k]] + Tokenize(s[k..])
  {
    k := if IsDelimiter(s[0]) then 1 else RunLength(s);
    if IsDelimiter(s[0]) {
      assert [s[0]] == s[..1];
    }
  }

  lemma {:induction false} TokenizeConcat(s: string)
    ensures Concat(Tokenize(s)) == s
    decreases |s|
  {
    if |s| > 0 {
      var k := TokenizeHead(s);
      var head, tail := s[..k], s[k..];
      calc {
        Concat(Tokenize(s));
        Concat([head] + Tokenize(tail));
        { ConcatCons(head, Tokenize(tail)); }
        head + Concat(Tokenize(tail));
        { TokenizeConcat(tail); }
        head + tail;
        { assert s == head + tail; }
        s;
      }
    }
  }

  lemma ConcatCons(t: string, ts: seq<string>)
    ensures Concat([t] + ts) == t + Concat(ts)
  {
    assert ([t] + ts)[1..] == ts;
  }

  lemma {:induction false} TokenizeWellFormed(s: string)
    ensures forall i :: 0 <= i < |Tokenize(s)| ==> WellFormedToken(Tokenize(s)[i])
    decreases |s|
  {
    if |s| > 0 {
      var k := TokenizeHead(s);
      TokenizeWellFormed(s[k..]);
      var ts, rest := Tokenize(s), Tokenize(s[k..]);
      assert forall i :: 1 <= i < |ts| ==> ts[i] == rest[i - 1];
    }
  }

  /** A run that ends before a delimiter ends there. */
  lemma {:induction false} RunLengthBeforeDelimiter(a: string, b: string)
    requires |b| > 0 && IsDelimiter(b[0])
    ensures RunLength(a + b) == RunLength(a)
    decreases |a|
  {
    if |a| > 0 && !IsDelimiter(a[0]) {
      assert (a + b)[1..] == a[1..] + b;
      RunLengthBeforeDelimiter(a[1..], b);
    } else if |a| == 0 {
      assert a + b == b;
    }
  }

  /** A delimiter always separates: what comes before it and what comes after it tokenise
      independently. */
  lemma {:induction false} TokenizeAtDelimiter(a: string, d: char, b: string)
    requires IsDelimiter(d)
    ensures Tokenize(a + [d] + b) == Tokenize(a) + [[d]] + Tokenize(b)
    decreases |a|
  {
    var s := a + [d] + b;
    if |a| == 0 {
      assert s == [d] + b;
      assert s[1..] == b;
    } else if IsDelimiter(a[0]) {
      assert s[1..] == a[1..] + [d] + b;
      TokenizeAtDelimiter(a[1..], d, b);
      assert Tokenize(s) == [[a[0]]] + Tokenize(s[1..]);
      assert Tokenize(a) == [[a[0]]] + Tokenize(a[1..]);
    } else {
      var k := RunLength(a);
      TokenizeAtDelimiter(a[k..], d, b);
      TokenizeRunBeforeDelimiter(a, d, b);
    }
  }

  /** The run that starts a text ends before a delimiter placed after it. */
  lemma RunBeforeDelimiter(a: string, d: char, b: string)
    requires IsDelimiter(d)
    ensures var s, k := a + [d] + b, RunLength(a);
      RunLength(s) == k && s[..k] == a[..k] && s[k..] == a[k..] + [d] + b
  {
    var s := a + [d] + b;
    RunLengthBeforeDelimiter(a, [d] + b);
    assert s == a + ([d] + b);
    var k := RunLength(a);
    assert s[..k] == a[..k];
    assert s[k..] == a[k..] + [d] + b;
  }

  /** The step of TokenizeAtDelimiter for a text that starts with a run: the run is the first
      token on both sides. */
  lemma TokenizeRunBeforeDelimiter(a: string, d: char, b: string)
    requires IsDelimiter(d) && |a| > 0 && !IsDelimiter(a[0])
    requires Tokenize(a[RunLength(a)..] + [d] + b) == Tokenize(a[RunLength(a)..]) + [[d]] + Tokenize(b)
    ensures Tokenize(a + [d] + b) == Tokenize(a) + [[d]] + Tokenize(b)
  {
    var s := a + [d] + b;
    var k := RunLength(a);
    RunBeforeDelimiter(a, d, b);
    assert s[0] == a[0];
    var rest := Tokenize(a[k..]);
    assert Tokenize(s) == [a[..k]] + (rest + [[d]] + Tokenize(b));
    assert Tokenize(a) == [a[..k]] + rest;
  }

  /** A non-empty word without delimiters is one token. */
  lemma TokenizeWord(w: string)
    requires |w| > 0 && forall j :: 0 <= j < |w| ==> !IsDelimiter(w[j])
    ensures Tokenize(w) == [w]
  {
    var k := RunLength(w);
    assert k == |w|;
    assert !IsDelimiter(w[0]);
    assert w[..k] == w && w[k..] == [];
    assert Tokenize(w) == [w[..k]] + Tokenize(w[k..]);
  }

  /** The query as parseQuery sees it: the default operator applied to the user's query. */
  function Wrap(defaultOp: string, queryString: string): string
  {
    defaultOp + "(" + queryString + ")"
  }

  /** Wrapping adds the tokens of the default operator, "(" and ")" around the user's tokens. */
  lemma WrapTokens(defaultOp: string, queryString: string)
    ensures Tokenize(Wrap(defaultOp, queryString)) == Tokenize(defaultOp) + ["("] + Tokenize(queryString) + [")"]
  {
    var inner := queryString + ")";
    assert Wrap(defaultOp, queryString) == defaultOp + ['('] + inner;
    TokenizeAtDelimiter(defaultOp, '(', inner);
    assert inner == queryString + [')'] + "";
    TokenizeAtDelimiter(queryString, ')', "");
    assert Tokenize("") == [];
  }

  // ---------------------------------------------------------------------------------------
  // The stack machine.

  /** The parser's state between tokens: the operators under construction (innermost last; the
      top is `currentOp`), whether the next plain token is a weight, and the pending weights. */
  datatype ParseState = ParseState(opStack: seq<Qry>, weightExpected: bool, weightStack: seq<real>)

  /** The effect of one token: go on, stop at the outermost ')', or raise. */
  datatype StepResult = Continue(state: ParseState) | Finished(root: Qry) | Failed(error: Error)

  const Initial: ParseState := ParseState([], false, [])

  /** Only operators are ever pushed. */
  predicate OpsOnly(st: ParseState)
  {
    forall k :: 0 <= k < |st.opStack| ==> st.opStack[k].Op?
  }

  /** currentOp: the top of the operator stack, or null before the first operator. */
  function CurrentOp(opStack: seq<Qry>): Option<Qry>
  {
    if |opStack| == 0 then None else Some(opStack[|opStack| - 1])
  }

  /** The fields a term may name. */
  predicate ValidField(field: string)
  {
    field in {"url", "keywords", "title", "body", "inlink"}
  }

  /** A term without '.' is searched in the body; otherwise the term is what precedes the first
      '.' and the field is the rest, lower-cased. Result: (term, field). */
  function SplitField(token: string): (r: (string, string))
    ensures '.' !in token ==> r == (token, "body")
    ensures '.' in token ==>
              |r.0| < |token| && r.0 == token[..|r.0|] && '.' !in r.0 && token[|r.0|] == '.'
              && r.1 == Lower(token[|r.0| + 1..])
  {
    var delimiter := IndexOf(token, '.');
    if delimiter < 0 then (token, "body")
    else (token[..delimiter], Lower(token[delimiter + 1..]))
  }

  /** The operator a token opens, if any (in the order parseQuery tests them): None for a
      token that is not an operator name, Some(Err(_)) for a malformed #near/#window distance. */
  function OperatorFor(token: string): Option<Result<OpKind>>
  {
    if EqualsIgnoreCase(token, "#or") then Some(Ok(Or))
    else if EqualsIgnoreCase(token, "#and") then Some(Ok(And))
    else if EqualsIgnoreCase(token, "#wand") then Some(Ok(WAnd))
    else if EqualsIgnoreCase(token, "#wsum") then Some(Ok(WSum))
    else if EqualsIgnoreCase(token, "#sum") then Some(Ok(Sum))
    else if EqualsIgnoreCase(token, "#syn") then Some(Ok(Syn))
    else if StartsWithIgnoreCase(token, "#near") then
      match Distance(token)
      case Ok(d) => Some(Ok(Near(d)))
      case Err(e) => Some(Err(e))
    else if StartsWithIgnoreCase(token, "#window") then
      match Distance(token)
      case Ok(d) => Some(Ok(Window(d)))
      case Err(e) => Some(Err(e))
    else None
  }

  /** Whether a token is skipped: one of the delimiters other than ')'. */
  predicate Skipped(token: string)
  {
    |token| == 1 && token[0] in " ,(\t\n\r"
  }

  /** A token that reaches the last branch of the loop: not skipped, not ')' and not an
      operator name. */
  predicate PlainToken(token: string)
  {
    |token| > 0 && token[0] != '#' && !Skipped(token) && token != ")"
  }

  /** The inner loop over the output of tokenizeQuery: each piece becomes a term argument, and a
      weighted operator receives the same weight w with each one. */
  function AppendTerms(q: Qry, pieces: seq<string>, field: string, w: real): (r: Qry)
    requires q.Op?
    ensures r.Op? && r.kind == q.kind && r.displayName == q.displayName
    ensures |r.args| == |q.args| + |pieces| && r.args[..|q.args|] == q.args
    ensures forall j :: 0 <= j < |pieces| ==> r.args[|q.args| + j] == Term(pieces[j], field)
    ensures IsWeighted(q) ==>
              |r.weights| == |q.weights| + |pieces| && r.weights[..|q.weights|] == q.weights
              && forall j :: |q.weights| <= j < |r.weights| ==> r.weights[j] == w
    ensures !IsWeighted(q) ==> r.weights == q.weights && r.sumOfWeights == q.sumOfWeights
    ensures NodeWeightsOk(q) ==> NodeWeightsOk(r)
    decreases |pieces|
  {
    if |pieces| == 0 then q
    else
      var q' := AppendTerms(q, pieces[..|pieces| - 1], field, w);
      var withArg := AppendArg(q', Term(pieces[|pieces| - 1], field));
      if IsWeighted(q) then AddWeight(withArg, w) else withArg
  }

  /** The arguments AppendTerms leaves: the old ones followed by one term per piece. */
  lemma AppendTermsArgs(q: Qry, pieces: seq<string>, field: string, w: real)
    requires q.Op?
    ensures AppendTerms(q, pieces, field, w).args == q.args + seq(|pieces|, j requires 0 <= j < |pieces| => Term(pieces[j], field))
  {
    var r := AppendTerms(q, pieces, field, w);
    assert r.args[..|q.args|] == q.args;
  }

  /** ')' : pop the current operator; if it was the outermost one parsing is finished, otherwise
      it becomes the last argument of its parent, and a weighted parent takes the top weight
      with it and expects another weight next. */
  function CloseOperator(st: ParseState): (r: StepResult)
    requires OpsOnly(st)
    ensures r.Continue? ==> OpsOnly(r.state) && |r.state.opStack| + 1 == |st.opStack|
    ensures |st.opStack| == 0 ==> r == Failed(EmptyStack)
    ensures |st.opStack| == 1 ==> r == Finished(st.opStack[0])
    ensures r.Continue? ==>
              var n := |st.opStack|;
              var parent := r.state.opStack[n - 2];
              && r.state.opStack[..n - 2] == st.opStack[..n - 2]
              && parent.kind == st.opStack[n - 2].kind
              && parent.args == st.opStack[n - 2].args + [st.opStack[n - 1]]
              && (IsWeighted(parent) ==>
                    && r.state.weightExpected
                    && |st.weightStack| > 0
                    && r.state.weightStack == st.weightStack[..|st.weightStack| - 1]
                    && parent.weights == st.opStack[n - 2].weights + [st.weightStack[|st.weightStack| - 1]])
              && (!IsWeighted(parent) ==> r.state.weightStack == st.weightStack && parent.weights == st.opStack[n - 2].weights)
    ensures |st.opStack| >= 2 && IsWeighted(st.opStack[|st.opStack| - 2]) && |st.weightStack| == 0 ==> r == Failed(EmptyStack)
  {
    if |st.opStack| == 0 then Failed(EmptyStack)
    else
      var arg := st.opStack[|st.opStack| - 1];
      var rest := st.opStack[..|st.opStack| - 1];
      if |rest| == 0 then Finished(arg)
      else
        var parent := AppendArg(rest[|rest| - 1], arg);
        var popped := ParseState(rest, st.weightExpected, st.weightStack);
        assert OpsOnly(popped) && rest[..|rest| - 1] == st.opStack[..|st.opStack| - 2];
        if IsWeighted(parent) then
          if |st.weightStack| == 0 then Failed(EmptyStack)
          else
            var w := st.weightStack[|st.weightStack| - 1];
            ReplaceCurrent(popped, AddWeight(parent, w), true, st.weightStack[..|st.weightStack| - 1])
        else ReplaceCurrent(popped, parent, st.weightExpected, st.weightStack)
  }

  /** A plain token while no weight is expected: a field-qualified term whose lexical pieces
      are appended to the current operator. */
  function AddTermToken(st: ParseState, token: string, tokenizeQuery: string -> seq<string>): (r: StepResult)
    requires OpsOnly(st)
    ensures r.Continue? ==> OpsOnly(r.state) && |r.state.opStack| == |st.opStack|
    ensures !ValidField(SplitField(token).1) <==> r.Failed? && r.error.IllegalArgument?
    ensures r.Continue? && |st.opStack| > 0 ==>
              var n := |st.opStack|;
              var current := st.opStack[n - 1];
              var node := r.state.opStack[n - 1];
              var pieces := tokenizeQuery(SplitField(token).0);
              && r.state.opStack[..n - 1] == st.opStack[..n - 1]
              && node.args == current.args + seq(|pieces|, j requires 0 <= j < |pieces| => Term(pieces[j], SplitField(token).1))
              && (IsWeighted(current) ==>
                    && r.state.weightExpected
                    && |st.weightStack| > 0
                    && r.state.weightStack == st.weightStack[..|st.weightStack| - 1]
                    && |node.weights| == |current.weights| + |pieces|
                    && forall j :: |current.weights| <= j < |node.weights| ==> node.weights[j] == st.weightStack[|st.weightStack| - 1])
  {
    var current := CurrentOp(st.opStack);
    var weighted := current.Some? && IsWeighted(current.value);
    var (term, field) := SplitField(token);
    if !ValidField(field) then Failed(IllegalArgument("Error: Unknown field " + token))
    else
      var pieces := tokenizeQuery(term);
      if weighted && |st.weightStack| == 0 then Failed(EmptyStack)
      else
        var weight := if weighted then st.weightStack[|st.weightStack| - 1] else 0.0;
        var weights := if weighted then st.weightStack[..|st.weightStack| - 1] else st.weightStack;
        if current.None? then
          if |pieces| > 0 then Failed(NullPointer) else Continue(ParseState(st.opStack, st.weightExpected, weights))
        else
          AppendTermsArgs(current.value, pieces, field, weight);
          ReplaceCurrent(st, AppendTerms(current.value, pieces, field, weight), weighted || st.weightExpected, weights)
  }

  /** The state with the current operator replaced by node: the frames below it are kept. */
  function ReplaceCurrent(st: ParseState, node: Qry, weightExpected: bool, weightStack: seq<real>): (r: StepResult)
    requires OpsOnly(st) && |st.opStack| > 0 && node.Op?
    ensures r.Continue? && OpsOnly(r.state) && |r.state.opStack| == |st.opStack|
    ensures r.state.opStack[..|st.opStack| - 1] == st.opStack[..|st.opStack| - 1]
    ensures r.state.opStack[|st.opStack| - 1] == node
    ensures r.state.weightExpected == weightExpected && r.state.weightStack == weightStack
  {
    var below := st.opStack[..|st.opStack| - 1];
    assert (below + [node])[..|below|] == below;
    Continue(ParseState(below + [node], weightExpected, weightStack))
  }

  /** One pass of parseQuery's loop. */
  function Step(st: ParseState, token: string, tokenizeQuery: string -> seq<string>,
                parseDouble: string -> Option<real>): (r: StepResult)
    requires OpsOnly(st)
    ensures r.Continue? ==> OpsOnly(r.state)
  {
    if Skipped(token) then Continue(st)
    else if token == ")" then CloseOperator(st)
    else match OperatorFor(token)
      case Some(Ok(kind)) =>
        Continue(ParseState(st.opStack + [NewOp(kind, token)], kind.WAnd? || kind.WSum? || st.weightExpected, st.weightStack))
      case Some(Err(e)) => Failed(e)
      case None =>
        if st.weightExpected then
          match parseDouble(token)
          case Some(w) => Continue(ParseState(st.opStack, false, st.weightStack + [w]))
          case None => Failed(NumberFormat(token))
        else AddTermToken(st, token, tokenizeQuery)
  }

  /** The rest of the loop from token i on, then the check for tokens left after the outermost
      ')'.  When the tokens run out first, the result is whatever operator is current. */
  function RunFrom(qString: string, tokens: seq<string>, i: nat, st: ParseState,
                   tokenizeQuery: string -> seq<string>, parseDouble: string -> Option<real>): Result<Option<Qry>>
    requires i <= |tokens| && OpsOnly(st)
    decreases |tokens| - i
  {
    if i == |tokens| then Ok(CurrentOp(st.opStack))
    else match Step(st, tokens[i], tokenizeQuery, parseDouble)
      case Continue(st') => RunFrom(qString, tokens, i + 1, st', tokenizeQuery, parseDouble)
      case Finished(root) =>
        if i + 1 < |tokens| then Err(IllegalArgument("Error:  Query syntax is incorrect.  " + qString))
        else Ok(Some(root))
      case Failed(e) => Err(e)
  }

  /** What parseQuery returns for a query under a retrieval model whose default operator is
      `defaultOp` (without query expansion). */
  function Parse(queryString: string, defaultOp: string, tokenizeQuery: string -> seq<string>,
                 parseDouble: string -> Option<real>): Result<Option<Qry>>
  {
    var qString := Wrap(defaultOp, queryString);
    RunFrom(qString, Tokenize(qString), 0, Initial, tokenizeQuery, parseDouble)
  }

  // ---------------------------------------------------------------------------------------
  // What every parse produces.

  /** Every term names one of the accepted fields. */
  predicate FieldsValid(q: Qry)
    decreases q
  {
    if q.Term? then ValidField(q.field) else forall i :: 0 <= i < |q.args| ==> FieldsValid(q.args[i])
  }

  /** A finished subtree: weights in lock-step everywhere and only accepted fields. */
  predicate TreeOk(q: Qry)
  {
    WellWeighted(q) && FieldsValid(q)
  }

  /** Every operator under construction keeps its own weights in lock-step, and its arguments
      so far are finished subtrees. */
  predicate StateOk(st: ParseState)
  {
    forall k :: 0 <= k < |st.opStack| ==> FrameOk(st.opStack[k])
  }

  /** An operator under construction: its own weights in lock-step, its arguments finished. */
  predicate FrameOk(q: Qry)
  {
    q.Op? && NodeWeightsOk(q) && forall j :: 0 <= j < |q.args| ==> TreeOk(q.args[j])
  }

  /** A node under construction whose arguments are finished is itself finished once closed. */
  lemma ClosedNodeOk(q: Qry)
    requires FrameOk(q)
    ensures TreeOk(q)
  {
  }

  /** Appending terms of an accepted field keeps an operator under construction in order. */
  lemma AppendTermsFrameOk(q: Qry, pieces: seq<string>, field: string, w: real)
    requires FrameOk(q) && ValidField(field)
    ensures FrameOk(AppendTerms(q, pieces, field, w))
  {
    var r := AppendTerms(q, pieces, field, w);
    forall j | 0 <= j < |r.args| ensures TreeOk(r.args[j]) {
      if j >= |q.args| {
        assert r.args[|q.args| + (j - |q.args|)] == Term(pieces[j - |q.args|], field);
      } else {
        assert r.args[j] == r.args[..|q.args|][j];
      }
    }
  }

  lemma CloseOperatorKeepsOk(st: ParseState)
    requires OpsOnly(st) && StateOk(st)
    ensures CloseOperator(st).Continue? ==> StateOk(CloseOperator(st).state)
    ensures CloseOperator(st).Finished? ==> TreeOk(CloseOperator(st).root)
  {
    var n := |st.opStack|;
    if n >= 1 {
      ClosedNodeOk(st.opStack[n - 1]);
    }
    if n >= 2 {
      var arg := st.opStack[n - 1];
      var top := st.opStack[n - 2];
      var withArg := AppendArg(top, arg);
      var below := st.opStack[..n - 2];
      assert st.opStack[..n - 1][..n - 2] == below;
      var parent := withArg;
      if IsWeighted(withArg) && |st.weightStack| > 0 {
        parent := AddWeight(withArg, st.weightStack[|st.weightStack| - 1]);
        AppendWithWeightKeepsLockStep(top, arg, st.weightStack[|st.weightStack| - 1]);
      } else if !IsWeighted(withArg) {
        AppendUnweightedKeepsLockStep(top, arg);
      }
      if CloseOperator(st).Continue? {
        assert CloseOperator(st).state.opStack == below + [parent];
        assert forall j :: 0 <= j < |parent.args| ==> parent.args[j] == if j < |top.args| then top.args[j] else arg;
      }
    }
  }

  /** The state after a term that was accepted: an accepted field, and the pieces appended to the
      current operator with the weight it takes. */
  lemma AddTermTokenShape(st: ParseState, token: string, tokenizeQuery: string -> seq<string>)
    requires OpsOnly(st) && |st.opStack| > 0 && AddTermToken(st, token, tokenizeQuery).Continue?
    ensures var n, current := |st.opStack|, st.opStack[|st.opStack| - 1];
      && ValidField(SplitField(token).1)
      && (IsWeighted(current) ==> |st.weightStack| > 0)
      && AddTermToken(st, token, tokenizeQuery).state.opStack ==
           st.opStack[..n - 1] + [AppendTerms(current, tokenizeQuery(SplitField(token).0), SplitField(token).1,
                                             if IsWeighted(current) then st.weightStack[|st.weightStack| - 1] else 0.0)]
  {
  }

  lemma AddTermTokenKeepsOk(st: ParseState, token: string, tokenizeQuery: string -> seq<string>)
    requires OpsOnly(st) && StateOk(st)
    ensures AddTermToken(st, token, tokenizeQuery).Continue? ==> StateOk(AddTermToken(st, token, tokenizeQuery).state)
  {
    var n := |st.opStack|;
    if AddTermToken(st, token, tokenizeQuery).Continue? && n > 0 {
      AddTermTokenShape(st, token, tokenizeQuery);
      var current := st.opStack[n - 1];
      var weight := if IsWeighted(current) then st.weightStack[|st.weightStack| - 1] else 0.0;
      AppendTermsFrameOk(current, tokenizeQuery(SplitField(token).0), SplitField(token).1, weight);
    }
  }

  lemma StepKeepsOk(st: ParseState, token: string, tokenizeQuery: string -> seq<string>,
                    parseDouble: string -> Option<real>)
    requires OpsOnly(st) && StateOk(st)
    ensures var r := Step(st, token, tokenizeQuery, parseDouble);
            && (r.Continue? ==> StateOk(r.state))
            && (r.Finished? ==> TreeOk(r.root))
  {
    if Skipped(token) {
    } else if token == ")" {
      CloseOperatorKeepsOk(st);
    } else {
      var op := OperatorFor(token);
      if op.Some? && op.value.Ok? {
        var pushed := st.opStack + [NewOp(op.value.value, token)];
        assert forall k :: 0 <= k < |st.opStack| ==> pushed[k] == st.opStack[k];
      } else if op.None? && !st.weightExpected {
        AddTermTokenKeepsOk(st, token, tokenizeQuery);
      }
    }
  }

  lemma {:induction false} RunFromOk(qString: string, tokens: seq<string>, i: nat, st: ParseState,
                                     tokenizeQuery: string -> seq<string>, parseDouble: string -> Option<real>)
    requires i <= |tokens| && OpsOnly(st) && StateOk(st)
    ensures var r := RunFrom(qString, tokens, i, st, tokenizeQuery, parseDouble);
            r.Ok? && r.value.Some? ==> TreeOk(r.value.value)
    decreases |tokens| - i
  {
    if i == |tokens| {
      if |st.opStack| > 0 {
        ClosedNodeOk(st.opStack[|st.opStack| - 1]);
      }
    } else {
      StepKeepsOk(st, tokens[i], tokenizeQuery, parseDouble);
      var r := Step(st, tokens[i], tokenizeQuery, parseDouble);
      if r.Continue? {
        RunFromOk(qString, tokens, i + 1, r.state, tokenizeQuery, parseDouble);
      }
    }
  }

  /** Whatever query is parsed, each #wand / #wsum node ends with exactly one weight per
      argument and the sum of them, and every term names an accepted field. */
  lemma ParseOk(queryString: string, defaultOp: string, tokenizeQuery: string -> seq<string>,
                parseDouble: string -> Option<real>)
    ensures var r := Parse(queryString, defaultOp, tokenizeQuery, parseDouble);
            r.Ok? && r.value.Some? ==> WellWeighted(r.value.value) && FieldsValid(r.value.value)
  {
    var qString := Wrap(defaultOp, queryString);
    RunFromOk(qString, Tokenize(qString), 0, Initial, tokenizeQuery, parseDouble);
  }

  /** A token that does not start with '#' opens no operator. */
  lemma OperatorForPlain(token: string)
    requires |token| > 0 && token[0] != '#'
    ensures OperatorFor(token) == None
  {
    assert Lower(token)[0] != '#';
    assert |token| >= 5 ==> Lower(token[..5])[0] != '#';
    assert |token| >= 7 ==> Lower(token[..7])[0] != '#';
  }

  /** A lower-case word is its own toLowerCase. */
  lemma LowerOfLowerCase(s: string)
    requires forall i :: 0 <= i < |s| ==> !('A' <= s[i] <= 'Z')
    ensures Lower(s) == s
  {
  }

  // One token of the loop at a time, for any token list: these carry the worked parse below.

  /** A skipped delimiter leaves the state as it is. */
  lemma RunFromSkip(qString: string, tokens: seq<string>, i: nat, st: ParseState,
                    tokenizeQuery: string -> seq<string>, parseDouble: string -> Option<real>)
    requires i < |tokens| && OpsOnly(st) && Skipped(tokens[i])
    ensures RunFrom(qString, tokens, i, st, tokenizeQuery, parseDouble)
         == RunFrom(qString, tokens, i + 1, st, tokenizeQuery, parseDouble)
  {
  }

  /** An operator name pushes a new operator, and a weighted one expects a weight next. */
  lemma RunFromOpen(qString: string, tokens: seq<string>, i: nat, st: ParseState, kind: OpKind,
                    tokenizeQuery: string -> seq<string>, parseDouble: string -> Option<real>)
    requires i < |tokens| && OpsOnly(st) && OperatorFor(tokens[i]) == Some(Ok(kind))
    requires !Skipped(tokens[i]) && tokens[i] != ")"
    ensures RunFrom(qString, tokens, i, st, tokenizeQuery, parseDouble)
         == RunFrom(qString, tokens, i + 1,
                    ParseState(st.opStack + [NewOp(kind, tokens[i])], kind.WAnd? || kind.WSum? || st.weightExpected, st.weightStack),
                    tokenizeQuery, parseDouble)
  {
  }

  /** A number where a weight is expected is pushed on the weight stack. */
  lemma RunFromWeight(qString: string, tokens: seq<string>, i: nat, st: ParseState, w: real,
                      tokenizeQuery: string -> seq<string>, parseDouble: string -> Option<real>)
    requires i < |tokens| && OpsOnly(st) && st.weightExpected && parseDouble(tokens[i]) == Some(w)
    requires PlainToken(tokens[i])
    ensures RunFrom(qString, tokens, i, st, tokenizeQuery, parseDouble)
         == RunFrom(qString, tokens, i + 1, ParseState(st.opStack, false, st.weightStack + [w]), tokenizeQuery, parseDouble)
  {
    OperatorForPlain(tokens[i]);
  }

  /** A term under a weighted operator with one pending weight, when the analyzer keeps the term
      whole: the term is appended with that weight, and a weight is expected next. */
  lemma RunFromWeightedTerm(qString: string, tokens: seq<string>, i: nat, below: seq<Qry>, current: Qry, w: real,
                            term: string, field: string,
                            tokenizeQuery: string -> seq<string>, parseDouble: string -> Option<real>)
    requires i < |tokens| && IsWeighted(current) && forall k :: 0 <= k < |below| ==> below[k].Op?
    requires PlainToken(tokens[i])
    requires SplitField(tokens[i]) == (term, field) && ValidField(field) && tokenizeQuery(term) == [term]
    ensures RunFrom(qString, tokens, i, ParseState(below + [current], false, [w]), tokenizeQuery, parseDouble)
         == RunFrom(qString, tokens, i + 1, ParseState(below + [AddWeight(AppendArg(current, Term(term, field)), w)], true, []),
                    tokenizeQuery, parseDouble)
  {
    var token := tokens[i];
    OperatorForPlain(token);
    var st := ParseState(below + [current], false, [w]);
    assert OpsOnly(st);
    assert CurrentOp(st.opStack) == Some(current);
    assert [w][..0] == [];
    assert AppendTerms(current, [term], field, w) == AddWeight(AppendArg(current, Term(term, field)), w) by {
      assert [term][..0] == [];
    }
    assert (below + [current])[..|below|] == below;
  }

  /** ')' below the outermost operator attaches the current operator to an unweighted parent. */
  lemma RunFromClose(qString: string, tokens: seq<string>, i: nat, below: seq<Qry>, parent: Qry, child: Qry,
                     weightExpected: bool, weightStack: seq<real>,
                     tokenizeQuery: string -> seq<string>, parseDouble: string -> Option<real>)
    requires i < |tokens| && tokens[i] == ")" && parent.Op? && child.Op? && !IsWeighted(parent)
    requires forall k :: 0 <= k < |below| ==> below[k].Op?
    ensures RunFrom(qString, tokens, i, ParseState(below + [parent, child], weightExpected, weightStack), tokenizeQuery, parseDouble)
         == RunFrom(qString, tokens, i + 1, ParseState(below + [AppendArg(parent, child)], weightExpected, weightStack),
                    tokenizeQuery, parseDouble)
  {
    var st := ParseState(below + [parent, child], weightExpected, weightStack);
    assert OpsOnly(st);
    assert st.opStack[..|st.opStack| - 1] == below + [parent];
    assert (below + [parent])[..|below|] == below;
  }

  /** The outermost ')' as the last token finishes the parse with the outermost operator. */
  lemma RunFromFinish(qString: string, tokens: seq<string>, i: nat, root: Qry, weightExpected: bool, weightStack: seq<real>,
                      tokenizeQuery: string -> seq<string>, parseDouble: string -> Option<real>)
    requires i + 1 == |tokens| && tokens[i] == ")" && root.Op?
    ensures RunFrom(qString, tokens, i, ParseState([root], weightExpected, weightStack), tokenizeQuery, parseDouble)
         == Ok(Some(root))
  {
  }

  /** The two operator names of the worked parse. */
  lemma OperatorForExample()
    ensures OperatorFor("#and") == Some(Ok(And)) && OperatorFor("#wand") == Some(Ok(WAnd))
  {
    LowerOfLowerCase("#and");
    LowerOfLowerCase("#wand");
  }

  /** `b.title` names the term b in the title field. */
  lemma SplitFieldExample()
    ensures SplitField("a") == ("a", "body") && SplitField("b.title") == ("b", "title")
  {
    var t := "b.title";
    assert t[1] == '.' && t[0] != '.';
    assert IndexOf(t, '.') == 1;
    assert t[..1] == "b";
    assert t[2..] == "title";
    LowerOfLowerCase("title");
  }

  /** The query of the worked parse, and the tokens of it wrapped in #and. */
  const ExampleQuery: string := "#wand(0.3 a 0.7 b.title)"
  const ExampleTokens: seq<string> := ["#and", "(", "#wand", "(", "0.3", " ", "a", " ", "0.7", " ", "b.title", ")", ")"]

  /** A word: a non-empty text without delimiters. */
  predicate IsWord(w: string)
  {
    |w| > 0 && forall j :: 0 <= j < |w| ==> !IsDelimiter(w[j])
  }

  /** A word followed by a delimiter: the word and the delimiter are the first two tokens. */
  lemma TokenizeWordThen(w: string, d: char, rest: string)
    requires IsWord(w) && IsDelimiter(d)
    ensures Tokenize(w + [d] + rest) == [w, [d]] + Tokenize(rest)
  {
    TokenizeAtDelimiter(w, d, rest);
    TokenizeWord(w);
  }

  /** The same, with the text grouped to the right. */
  lemma TokenizeWordBefore(w: string, d: char, rest: string)
    requires IsWord(w) && IsDelimiter(d)
    ensures Tokenize(w + ([d] + rest)) == [w, [d]] + Tokenize(rest)
  {
    assert w + ([d] + rest) == w + [d] + rest;
    TokenizeWordThen(w, d, rest);
  }

  /** Words, each followed by its delimiter, written one after the other. */
  function Spelled(pairs: seq<(string, char)>): string
  {
    if |pairs| == 0 then "" else pairs[0].0 + ([pairs[0].1] + Spelled(pairs[1..]))
  }

  /** The tokens of such a text: word, delimiter, word, delimiter, ... */
  function SpelledTokens(pairs: seq<(string, char)>): seq<string>
  {
    if |pairs| == 0 then [] else [pairs[0].0, [pairs[0].1]] + SpelledTokens(pairs[1..])
  }

  /** Words each followed by a delimiter tokenise as the words and the delimiters in turn. */
  lemma {:induction false} TokenizeSpelled(pairs: seq<(string, char)>)
    requires forall i :: 0 <= i < |pairs| ==> IsWord(pairs[i].0) && IsDelimiter(pairs[i].1)
    ensures Tokenize(Spelled(pairs)) == SpelledTokens(pairs)
    decreases |pairs|
  {
    if |pairs| == 0 {
      assert Tokenize("") == [];
    } else {
      TokenizeWordBefore(pairs[0].0, pairs[0].1, Spelled(pairs[1..]));
      TokenizeSpelled(pairs[1..]);
    }
  }

  /** The words of the worked query. */
  lemma ExampleWords()
    ensures IsWord("#and") && IsWord("#wand") && IsWord("0.3") && IsWord("a") && IsWord("0.7") && IsWord("b.title")
  {
  }

  /** The worked query as words and the delimiters after them. */
  const ExamplePairs: seq<(string, char)> := [("#wand", '('), ("0.3", ' '), ("a", ' '), ("0.7", ' '), ("b.title", ')')]

  /** The worked query is ExamplePairs written out. */
  lemma ExampleQuerySpelled()
    ensures ExampleQuery == Spelled(ExamplePairs)
  {
    var p := ExamplePairs;
    assert Spelled(p[5..]) == "";
    assert Spelled(p[4..]) == "b.title" + ([')'] + "");
    assert Spelled(p[3..]) == "0.7" + ([' '] + ("b.title" + ([')'] + "")));
    assert Spelled(p[2..]) == "a" + ([' '] + ("0.7" + ([' '] + ("b.title" + ([')'] + "")))));
    assert Spelled(p[1..]) == "0.3" + ([' '] + ("a" + ([' '] + ("0.7" + ([' '] + ("b.title" + ([')'] + "")))))));
    assert Spelled(p) == "#wand" + (['('] + ("0.3" + ([' '] + ("a" + ([' '] + ("0.7" + ([' '] + ("b.title" + ([')'] + "")))))))));
  }

  /** The tokens of ExamplePairs. */
  lemma ExamplePairTokens()
    ensures SpelledTokens(ExamplePairs) == ["#wand", "(", "0.3", " ", "a", " ", "0.7", " ", "b.title", ")"]
  {
    var p := ExamplePairs;
    assert SpelledTokens(p[4..]) == ["b.title", ")"] by { assert SpelledTokens(p[5..]) == []; }
    assert SpelledTokens(p[3..]) == ["0.7", " ", "b.title", ")"];
    assert SpelledTokens(p[2..]) == ["a", " ", "0.7", " ", "b.title", ")"];
    assert SpelledTokens(p[1..]) == ["0.3", " ", "a", " ", "0.7", " ", "b.title", ")"];
  }

  /** The worked query splits into the operator, its '(' and the weighted arguments. */
  lemma ExampleQueryTokens()
    ensures Tokenize(ExampleQuery) == ["#wand", "(", "0.3", " ", "a", " ", "0.7", " ", "b.title", ")"]
  {
    calc {
      Tokenize(ExampleQuery);
      { ExampleQuerySpelled(); }
      Tokenize(Spelled(ExamplePairs));
      { ExampleWords(); TokenizeSpelled(ExamplePairs); }
      SpelledTokens(ExamplePairs);
      { ExamplePairTokens(); }
      ["#wand", "(", "0.3", " ", "a", " ", "0.7", " ", "b.title", ")"];
    }
  }

  /** Wrapping the worked query in #and and splitting it gives ExampleTokens. */
  lemma ExampleTokenize()
    ensures Tokenize(Wrap("#and", ExampleQuery)) == ExampleTokens
  {
    calc {
      Tokenize(Wrap("#and", ExampleQuery));
      { WrapTokens("#and", ExampleQuery); }
      Tokenize("#and") + ["("] + Tokenize(ExampleQuery) + [")"];
      { ExampleWords(); TokenizeWord("#and"); ExampleQueryTokens(); }
      ["#and"] + ["("] + ["#wand", "(", "0.3", " ", "a", " ", "0.7", " ", "b.title", ")"] + [")"];
      ExampleTokens;
    }
  }

  /** The nodes of the worked parse: #wand after its first and after its second argument. */
  const ExampleWAnd1: Qry := AddWeight(AppendArg(NewOp(WAnd, "#wand"), Term("a", "body")), 0.3)
  const ExampleWAnd2: Qry := AddWeight(AppendArg(ExampleWAnd1, Term("b", "title")), 0.7)

  /** The thirteen tokens of the worked parse, one by one. */
  lemma ExampleTokenValues()
    ensures |ExampleTokens| == 13
    ensures ExampleTokens[0] == "#and" && ExampleTokens[1] == "(" && ExampleTokens[2] == "#wand" && ExampleTokens[3] == "("
    ensures ExampleTokens[4] == "0.3" && ExampleTokens[5] == " " && ExampleTokens[6] == "a" && ExampleTokens[7] == " "
    ensures ExampleTokens[8] == "0.7" && ExampleTokens[9] == " " && ExampleTokens[10] == "b.title"
    ensures ExampleTokens[11] == ")" && ExampleTokens[12] == ")"
  {
  }

  // The stages of the worked parse, each over any token list that holds the worked parse's
  // tokens at the positions it reads.

  /** Tokens 0-3, `#and ( #wand (`: both operators are pushed and a weight is expected. */
  lemma ExampleOpen(qString: string, tokens: seq<string>, tokenizeQuery: string -> seq<string>, parseDouble: string -> Option<real>)
    requires 4 <= |tokens| && tokens[0] == "#and" && tokens[1] == "(" && tokens[2] == "#wand" && tokens[3] == "("
    ensures RunFrom(qString, tokens, 0, Initial, tokenizeQuery, parseDouble)
         == RunFrom(qString, tokens, 4, ParseState([NewOp(And, "#and")] + [NewOp(WAnd, "#wand")], true, []),
                    tokenizeQuery, parseDouble)
  {
    var and0, wand0 := NewOp(And, "#and"), NewOp(WAnd, "#wand");
    var s1, s2 := ParseState([and0], false, []), ParseState([and0] + [wand0], true, []);
    OperatorForExample();
    calc {
      RunFrom(qString, tokens, 0, Initial, tokenizeQuery, parseDouble);
      { RunFromOpen(qString, tokens, 0, Initial, And, tokenizeQuery, parseDouble);
        assert ParseState(Initial.opStack + [NewOp(And, tokens[0])], false, Initial.weightStack) == s1; }
      RunFrom(qString, tokens, 1, s1, tokenizeQuery, parseDouble);
      { RunFromSkip(qString, tokens, 1, s1, tokenizeQuery, parseDouble); }
      RunFrom(qString, tokens, 2, s1, tokenizeQuery, parseDouble);
      { RunFromOpen(qString, tokens, 2, s1, WAnd, tokenizeQuery, parseDouble); }
      RunFrom(qString, tokens, 3, s2, tokenizeQuery, parseDouble);
      { RunFromSkip(qString, tokens, 3, s2, tokenizeQuery, parseDouble); }
      RunFrom(qString, tokens, 4, s2, tokenizeQuery, parseDouble);
    }
  }

  /** The two term tokens of the worked query: plain words, each naming a term and a known field. */
  lemma ExampleTermTokens()
    ensures PlainToken("a") && SplitField("a") == ("a", "body")
    ensures PlainToken("b.title") && SplitField("b.title") == ("b", "title")
  {
    SplitFieldExample();
  }

  /** Tokens 4-5, `0.3 `: the first weight is pushed. */
  lemma ExampleFirstWeight(qString: string, tokens: seq<string>, tokenizeQuery: string -> seq<string>, parseDouble: string -> Option<real>)
    requires 6 <= |tokens| && tokens[4] == "0.3" && tokens[5] == " " && parseDouble("0.3") == Some(0.3)
    ensures RunFrom(qString, tokens, 4, ParseState([NewOp(And, "#and")] + [NewOp(WAnd, "#wand")], true, []),
                    tokenizeQuery, parseDouble)
         == RunFrom(qString, tokens, 6, ParseState([NewOp(And, "#and")] + [NewOp(WAnd, "#wand")], false, [0.3]),
                    tokenizeQuery, parseDouble)
  {
    var s0, s1 := ParseState([NewOp(And, "#and")] + [NewOp(WAnd, "#wand")], true, []),
                  ParseState([NewOp(And, "#and")] + [NewOp(WAnd, "#wand")], false, [0.3]);
    calc {
      RunFrom(qString, tokens, 4, s0, tokenizeQuery, parseDouble);
      { RunFromWeight(qString, tokens, 4, s0, 0.3, tokenizeQuery, parseDouble);
        assert [] + [0.3] == [0.3]; }
      RunFrom(qString, tokens, 5, s1, tokenizeQuery, parseDouble);
      { RunFromSkip(qString, tokens, 5, s1, tokenizeQuery, parseDouble); }
      RunFrom(qString, tokens, 6, s1, tokenizeQuery, parseDouble);
    }
  }

  /** Token 6, a plain token naming the term a in body (`a`): the term goes to #wand with the
      pending weight. */
  lemma ExampleFirstTerm(qString: string, tokens: seq<string>, tokenizeQuery: string -> seq<string>, parseDouble: string -> Option<real>)
    requires 7 <= |tokens| && PlainToken(tokens[6]) && SplitField(tokens[6]) == ("a", "body")
    requires tokenizeQuery("a") == ["a"]
    ensures RunFrom(qString, tokens, 6, ParseState([NewOp(And, "#and")] + [NewOp(WAnd, "#wand")], false, [0.3]),
                    tokenizeQuery, parseDouble)
         == RunFrom(qString, tokens, 7, ParseState([NewOp(And, "#and")] + [ExampleWAnd1], true, []),
                    tokenizeQuery, parseDouble)
  {
    assert ValidField("body");
    RunFromWeightedTerm(qString, tokens, 6, [NewOp(And, "#and")], NewOp(WAnd, "#wand"), 0.3, "a", "body",
                        tokenizeQuery, parseDouble);
  }

  /** Tokens 7-9, ` 0.7 `: the second weight is pushed. */
  lemma ExampleSecondWeight(qString: string, tokens: seq<string>, tokenizeQuery: string -> seq<string>, parseDouble: string -> Option<real>)
    requires 10 <= |tokens| && tokens[7] == " " && tokens[8] == "0.7" && tokens[9] == " "
    requires parseDouble("0.7") == Some(0.7)
    ensures RunFrom(qString, tokens, 7, ParseState([NewOp(And, "#and")] + [ExampleWAnd1], true, []),
                    tokenizeQuery, parseDouble)
         == RunFrom(qString, tokens, 10, ParseState([NewOp(And, "#and")] + [ExampleWAnd1], false, [0.7]),
                    tokenizeQuery, parseDouble)
  {
    var s0, s1 := ParseState([NewOp(And, "#and")] + [ExampleWAnd1], true, []),
                  ParseState([NewOp(And, "#and")] + [ExampleWAnd1], false, [0.7]);
    calc {
      RunFrom(qString, tokens, 7, s0, tokenizeQuery, parseDouble);
      { RunFromSkip(qString, tokens, 7, s0, tokenizeQuery, parseDouble); }
      RunFrom(qString, tokens, 8, s0, tokenizeQuery, parseDouble);
      { RunFromWeight(qString, tokens, 8, s0, 0.7, tokenizeQuery, parseDouble);
        assert [] + [0.7] == [0.7]; }
      RunFrom(qString, tokens, 9, s1, tokenizeQuery, parseDouble);
      { RunFromSkip(qString, tokens, 9, s1, tokenizeQuery, parseDouble); }
      RunFrom(qString, tokens, 10, s1, tokenizeQuery, parseDouble);
    }
  }

  /** Token 10, a plain token naming the term b in title (`b.title`): the term goes to #wand with
      the second weight. */
  lemma ExampleSecondTerm(qString: string, tokens: seq<string>, tokenizeQuery: string -> seq<string>, parseDouble: string -> Option<real>)
    requires 11 <= |tokens| && PlainToken(tokens[10]) && SplitField(tokens[10]) == ("b", "title")
    requires tokenizeQuery("b") == ["b"]
    ensures RunFrom(qString, tokens, 10, ParseState([NewOp(And, "#and")] + [ExampleWAnd1], false, [0.7]),
                    tokenizeQuery, parseDouble)
         == RunFrom(qString, tokens, 11, ParseState([NewOp(And, "#and")] + [ExampleWAnd2], true, []),
                    tokenizeQuery, parseDouble)
  {
    assert ValidField("title");
    RunFromWeightedTerm(qString, tokens, 10, [NewOp(And, "#and")], ExampleWAnd1, 0.7, "b", "title",
                        tokenizeQuery, parseDouble);
  }

  /** Tokens 11-12, `) )`, the last two: #wand becomes the argument of #and, which is the parse's result. */
  lemma ExampleClose(qString: string, tokens: seq<string>, tokenizeQuery: string -> seq<string>, parseDouble: string -> Option<real>)
    requires |tokens| == 13 && tokens[11] == ")" && tokens[12] == ")"
    ensures RunFrom(qString, tokens, 11, ParseState([NewOp(And, "#and")] + [ExampleWAnd2], true, []),
                    tokenizeQuery, parseDouble)
         == Ok(Some(AppendArg(NewOp(And, "#and"), ExampleWAnd2)))
  {
    var and0 := NewOp(And, "#and");
    var root := AppendArg(and0, ExampleWAnd2);
    calc {
      RunFrom(qString, tokens, 11, ParseState([and0] + [ExampleWAnd2], true, []), tokenizeQuery, parseDouble);
      { assert [] + [and0, ExampleWAnd2] == [and0] + [ExampleWAnd2];
        RunFromClose(qString, tokens, 11, [], and0, ExampleWAnd2, true, [], tokenizeQuery, parseDouble);
        assert [] + [root] == [root]; }
      RunFrom(qString, tokens, 12, ParseState([root], true, []), tokenizeQuery, parseDouble);
      { RunFromFinish(qString, tokens, 12, root, true, [], tokenizeQuery, parseDouble); }
      Ok(Some(root));
    }
  }

  /** The tree the worked parse builds, written out. */
  lemma ExampleTree()
    ensures AppendArg(NewOp(And, "#and"), ExampleWAnd2)
         == Op(And, "#and", [Op(WAnd, "#wand", [Term("a", "body"), Term("b", "title")], [0.3, 0.7], 1.0)], [], 0.0)
  {
    var a, b := Term("a", "body"), Term("b", "title");
    assert AppendArg(NewOp(WAnd, "#wand"), a) == Op(WAnd, "#wand", [a], [], 0.0);
    assert ExampleWAnd1 == Op(WAnd, "#wand", [a], [0.3], 0.3);
    assert AppendArg(ExampleWAnd1, b) == Op(WAnd, "#wand", [a, b], [0.3], 0.3);
    assert ExampleWAnd2 == Op(WAnd, "#wand", [a, b], [0.3, 0.7], 1.0);
  }

  /** A worked parse by the stack machine: with an analyzer that keeps "a" and "b" whole and a
      number reader for 0.3 and 0.7, `#wand(0.3 a 0.7 b.title)` under the default operator #and
      parses to `#and(#wand(0.3 a 0.7 b.title))`, one weight per term and their sum. */
  lemma ParseExample(tokenizeQuery: string -> seq<string>, parseDouble: string -> Option<real>)
    requires tokenizeQuery("a") == ["a"] && tokenizeQuery("b") == ["b"]
    requires parseDouble("0.3") == Some(0.3) && parseDouble("0.7") == Some(0.7)
    ensures Parse(ExampleQuery, "#and", tokenizeQuery, parseDouble)
         == Ok(Some(Op(And, "#and", [Op(WAnd, "#wand", [Term("a", "body"), Term("b", "title")], [0.3, 0.7], 1.0)], [], 0.0)))
  {
    var qString := Wrap("#and", ExampleQuery);
    var tokens := ExampleTokens;
    ExampleTokenize();
    ExampleTokenValues();
    ExampleTermTokens();
    ExampleOpen(qString, tokens, tokenizeQuery, parseDouble);
    ExampleFirstWeight(qString, tokens, tokenizeQuery, parseDouble);
    ExampleFirstTerm(qString, tokens, tokenizeQuery, parseDouble);
    ExampleSecondWeight(qString, tokens, tokenizeQuery, parseDouble);
    ExampleSecondTerm(qString, tokens, tokenizeQuery, parseDouble);
    ExampleClose(qString, tokens, tokenizeQuery, parseDouble);
    ExampleTree();
  }

  /** The loop that appends the pieces of one term (QryEval.java, the `for` over `t`). */
  method AppendPieces(current: Qry, pieces: seq<string>, field: string, weight: real) returns (node: Qry)
    requires current.Op?
    ensures node == AppendTerms(current, pieces, field, weight)
  {
    node := current;
    for j := 0 to |pieces|
      invariant node == AppendTerms(current, pieces[..j], field, weight)
    {
      assert pieces[..j + 1][..j] == pieces[..j];
      node := AppendArg(node, Term(pieces[j], field));
      if IsWeighted(node) {
        node := AddWeight(node, weight);
      }
    }
    assert pieces[..|pieces|] == pieces;
  }

  /** The ')' branch of parseQuery on the parser's variables; `finished` reports the break at
      the outermost ')', after which `currentOp` is the popped root. */
  method CloseFrame(opStack: seq<Qry>, weightExpected: bool, weightStack: seq<real>)
    returns (failure: Option<Error>, finished: bool, opStack': seq<Qry>, weightExpected': bool,
             weightStack': seq<real>)
    requires OpsOnly(ParseState(opStack, weightExpected, weightStack))
    ensures var r := CloseOperator(ParseState(opStack, weightExpected, weightStack));
            && (failure.Some? <==> r.Failed?)
            && (failure.Some? ==> failure.value == r.error)
            && (finished <==> r.Finished?)
            && (finished ==> r.root == opStack[|opStack| - 1])
            && (r.Continue? ==> r.state == ParseState(opStack', weightExpected', weightStack'))
  {
    failure, finished := None, false;
    opStack', weightExpected', weightStack' := opStack, weightExpected, weightStack;
    if |opStack'| == 0 {
      failure := Some(EmptyStack);
      return;
    }
    var arg := opStack'[|opStack'| - 1];
    opStack' := opStack'[..|opStack'| - 1];
    if |opStack'| == 0 {
      finished := true;
      return;
    }
    var parent := AppendArg(opStack'[|opStack'| - 1], arg);
    if IsWeighted(parent) {
      if |weightStack'| == 0 {
        failure := Some(EmptyStack);
        return;
      }
      parent := AddWeight(parent, weightStack'[|weightStack'| - 1]);
      weightStack' := weightStack'[..|weightStack'| - 1];
      weightExpected' := true;
    }
    opStack' := opStack'[..|opStack'| - 1] + [parent];
  }

  /** The term branch of parseQuery (a plain token while no weight is expected). */
  method TermToken(opStack: seq<Qry>, weightExpected: bool, weightStack: seq<real>, token: string,
                   tokenizeQuery: string -> seq<string>)
    returns (failure: Option<Error>, opStack': seq<Qry>, weightExpected': bool, weightStack': seq<real>)
    requires OpsOnly(ParseState(opStack, weightExpected, weightStack))
    ensures var r := AddTermToken(ParseState(opStack, weightExpected, weightStack), token, tokenizeQuery);
            && (failure.Some? <==> r.Failed?)
            && (failure.Some? ==> failure.value == r.error)
            && (r.Continue? ==> r.state == ParseState(opStack', weightExpected', weightStack'))
  {
    failure := None;
    opStack', weightExpected', weightStack' := opStack, weightExpected, weightStack;
    var currentOp := CurrentOp(opStack);
    var weighted := currentOp.Some? && IsWeighted(currentOp.value);
    if weighted {
      weightExpected' := true;
    }
    var termAndField := SplitField(token);
    var term, field := termAndField.0, termAndField.1;
    if !ValidField(field) {
      failure := Some(IllegalArgument("Error: Unknown field " + token));
      return;
    }
    var pieces := tokenizeQuery(term);
    var weight := 0.0;
    if weighted {
      if |weightStack'| == 0 {
        failure := Some(EmptyStack);
        return;
      }
      weight := weightStack'[|weightStack'| - 1];
      weightStack' := weightStack'[..|weightStack'| - 1];
    }
    if currentOp.None? {
      if |pieces| > 0 {
        failure := Some(NullPointer);
      }
    } else {
      var node := AppendPieces(currentOp.value, pieces, field, weight);
      opStack' := opStack'[..|opStack'| - 1] + [node];
    }
  }

  /** parseQuery (without query expansion), as the loop over the tokens that it is. */
  method ParseQuery(queryString: string, defaultOp: string, tokenizeQuery: string -> seq<string>,
                    parseDouble: string -> Option<real>) returns (result: Result<Option<Qry>>)
    ensures result == Parse(queryString, defaultOp, tokenizeQuery, parseDouble)
  {
    var qString := Wrap(defaultOp, queryString);
    var tokens := Tokenize(qString);
    ghost var goal := RunFrom(qString, tokens, 0, Initial, tokenizeQuery, parseDouble);
    var currentOp: Option<Qry> := None;
    var opStack: seq<Qry> := [];
    var weightExpected := false;
    var weightStack: seq<real> := [];
    var i := 0;
    while i < |tokens|
      invariant 0 <= i <= |tokens|
      invariant OpsOnly(ParseState(opStack, weightExpected, weightStack))
      invariant currentOp == CurrentOp(opStack)
      invariant RunFrom(qString, tokens, i, ParseState(opStack, weightExpected, weightStack), tokenizeQuery, parseDouble) == goal
    {
      var token := tokens[i];
      i := i + 1;
      if Skipped(token) {
        continue;
      } else if token == ")" {
        var failure, finished;
        failure, finished, opStack, weightExpected, weightStack := CloseFrame(opStack, weightExpected, weightStack);
        if failure.Some? {
          return Err(failure.value);
        }
        if finished {
          break;
        }
        currentOp := CurrentOp(opStack);
      } else {
        var op := OperatorFor(token);
        if op.Some? {
          if op.value.Err? {
            return Err(op.value.error);
          }
          var kind := op.value.value;
          currentOp := Some(NewOp(kind, token));
          opStack := opStack + [currentOp.value];
          if kind.WAnd? || kind.WSum? {
            weightExpected := true;
          }
        } else if weightExpected {
          var w := parseDouble(token);
          if w.None? {
            return Err(NumberFormat(token));
          }
          weightStack := weightStack + [w.value];
          weightExpected := false;
          continue;
        } else {
          var failure;
          failure, opStack, weightExpected, weightStack := TermToken(opStack, weightExpected, weightStack, token, tokenizeQuery);
          if failure.Some? {
            return Err(failure.value);
          }
          currentOp := CurrentOp(opStack);
        }
      }
    }
    if i < |tokens| {
      return Err(IllegalArgument("Error:  Query syntax is incorrect.  " + qString));
    }
    return Ok(currentOp);
  }
}
