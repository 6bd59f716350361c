# Boolean-Retrieval query evaluator, modelled in Dafny

This project models the core of a small structured-query search engine. The engine has five parts.

- **Parser.** `QryEval.parseQuery` wraps the user's query in the retrieval model's default operator. It tokenises the query and builds a query tree with a stack machine. `#wand` and `#wsum` nodes also get one weight per argument.
- **Cleanup pass.** `QryEval.parseQueryCleanup` rewrites the tree until it stops changing. `processQuery` runs this fixpoint after unwrapping the root.
- **Inverted-list operators.** `#NEAR/n` (QryIopNear) and `#WINDOW/n` (QryIopWindow) intersect their arguments' posting lists. They then match positions inside each common document.
- **Score operators.** These are `#and`, `#or`, `#sum`, `#wand`, `#wsum` and `#score` (QrySop and its subclasses). They are modelled under the unranked-boolean, ranked-boolean, BM25 and Indri retrieval models. Their shared state is a query-term tally and a cached default score. Models that an operator does not support raise errors.
- **Learning-to-rank bookkeeping** (RetrievalModelLetor):
  - the 18-slot feature vector;
  - the per-query running minima and maxima;
  - normalisation onto [0, 1];
  - feature-line printing;
  - reading classifier scores back into a ranking.

Files, one module each:

| file | module | models |
|---|---|---|
| `common.dfy` | `Common` | errors as `Result`, sentinel constants, sorting |
| `inv_list.dfy` | `Postings` | postings, forward-only document cursors, the common-document loop |
| `near.dfy` | `Near` | QryIopNear |
| `window.dfy` | `Window` | QryIopWindow |
| `query_tree.dfy` | `QueryTree` | the query tree, `appendArg`/`addWeight`/`removeArg`, the cleanup pass |
| `parser.dfy` | `QueryParser` | the tokenizer and `parseQuery` |
| `tally.dfy` | `Tally` | the HashMap query-term tally and `QrySop.equals` |
| `models.dfy` | `RetrievalModels` | model kinds, RetrievalModelBM25 and the parameter records |
| `sop.dfy` | `Sop` | the state shared by QrySop, match policies, Indri arithmetic |
| `sop_and.dfy` … `sop_score.dfy` | `SopAnd` … `SopScore` | one per operator class |
| `ranking.dfy` | `Ranking` | the TermScoreComparator |
| `letor.dfy` | `Letor` | RetrievalModelLetor |

How the Java code maps onto Dafny:

- **Loops** become methods with loop invariants. Each method is proved equal to a specification function, and the properties are proved about that function.
- **Mutable objects** become classes: the tally of `QrySop` and of `RetrievalModelBM25`, and the Letor model. Their methods say what they change.
- **Arrays** the source updates in place stay arrays: the Letor feature vector and its bounds, and the cursor arrays of NEAR and WINDOW.
- **Values from outside the core** are parameters:
  - the index;
  - Lucene's analyzer;
  - `Math.pow`, `Math.log` and the BM25 formula;
  - `Double.valueOf` and `String.format`;
  - the PageRank file;
  - the SVM-rank classifier's output.

## Model

| member | source | states |
|---|---|---|
| Common.SortAsc | QryIopNear.java:91 | Collections.sort of a position list: the result is in ascending order and is a permutation of the input (same multiset) |
| Common.SortAscOfSorted | QryIopWindow.java:92 | sorting a list that is already ascending leaves it unchanged |
| Postings.AdvanceTo | QryIopNear.java:50-51 | docIteratorAdvanceTo(d): the cursor only moves forward; it skips exactly the postings with id below d and stops at the first id at least d, or at the end |
| Postings.AdvancePast | QryIopNear.java:58 | docIteratorAdvancePast(d): the cursor only moves forward; it skips exactly the postings with id at most d and stops at the first id above d, or at the end |
| Postings.AdvanceToKeepsCommon | QryIopNear.java:50-51 | advancing a later argument to argument 0's current id skips no document that every argument still contains |
| Postings.AdvancePastKeepsCommon | QryIopNear.java:57-60 | once another argument is already past argument 0's id, moving argument 0 past that id skips no common document |
| Postings.AdvanceAllPastKeepsCommon | QryIopNear.java:80-89 | moving every argument past the common id m keeps every other common document reachable |
| Postings.NextCommonDoc | QryIopNear.java:42-75 | the allMatch loop: cursors only move forward and no common document is skipped; on success every cursor points at the returned id; INVALID_DOCID only when no common document remains |
| Postings.GatherPositions | QryIopNear.java:80-89 | collects each argument's position list for the document, in argument order, and moves every cursor past it |
| Postings.NextMatch | QryIopWindow.java:42-90 | one pass of the document loop: the returned id is the smallest common document not yet consumed and the lists are its positions; INVALID_DOCID exactly when none is left; no other common document is lost |
| Postings.PositionsOfAt | QryIopNear.java:85-86 | in a list with increasing ids, the posting under the cursor carries the positions of its document |
| Postings.PositionsOfSorted | QryIopWindow.java:86-88 | the positions of a document in a list whose postings are sorted are sorted |
| Near.SkipTo | QryIopNear.java:121-124 | the order loop stops at the first position after prev, or at the last position when there is none |
| Near.Extend | QryIopNear.java:109-140 | an attempt over arguments i.. either matches or fails; after a failure every later iterator is back where the attempt started and argument 0 has advanced one step |
| Near.Attempt | QryIopNear.java:104-140 | every pass that does not exhaust an iterator advances argument 0 by exactly one position |
| Near.Rewind | QryIopNear.java:129-136 | after a failed order or distance test, iterators 1..i step back by their stepsMoved counts and no other iterator moves |
| Near.SkipOrder | QryIopNear.java:121-124 | the order loop on a list iterator ends where SkipTo says, and stepsMoved counts exactly the extra steps |
| Near.TakeNext | QryIopNear.java:110-124 | argument i's turn: it reports an exhausted iterator exactly when none is left; otherwise it takes one position (argument 0) or runs the order loop (later arguments), changes only iterator i and records the steps moved |
| Near.RewindAttempt | QryIopNear.java:129-136 | after a failed test at argument i, the rewind puts iterators 1..i back where the attempt began, so only argument 0 has advanced |
| Near.AttemptTurn | QryIopNear.java:110-138 | one argument's turn either exhausts the attempt, fails it with the iterators rewound, or moves on to the next argument with the attempt's remaining outcome unchanged |
| Near.NearAttempt | QryIopNear.java:105-140 | one pass of the attempt loop on arrays agrees with the Attempt definition: exhausted, failed with the rewound iterators, or matched at the last argument's position |
| Near.GetValidNearPositions | QryIopNear.java:96-144 | the whole matching loop returns exactly the positions of the NearPositions definition |
| Near.NearPosting | QryIopNear.java:90-92 | the posting for document d carries d and sorted positions |
| Near.BuiltSoFarStep | QryIopNear.java:90-92 | appending the posting of the next common document keeps the result in increasing id order and complete below the cursors |
| Near.BuiltSoFarDone | QryIopNear.java:74-75 | when no common document remains, the result has a posting for exactly the common documents |
| Near.Evaluate | QryIopNear.java:30-94 | no arguments give an empty list; otherwise one posting per document common to all arguments (with or without matches), in strictly increasing id order, each with the sorted NEAR positions of that document |
| Near.ExtendSound | QryIopNear.java:117-128 | an attempt that matches extends a chain in which each argument's position is after the previous one by at most n |
| Near.NearScanSound | QryIopNear.java:142 | every recorded position ends a chain over all arguments, in argument order, each step between 1 and n |
| Near.ExtendLast | QryIopNear.java:126-128 | the position recorded for a match is the last argument's, under its cursor |
| Near.NearScanFrom | QryIopNear.java:142 | every recorded position is a position of the last argument at or after its cursor |
| Near.NearScanIncreasing | QryIopNear.java:142 | when the last argument's positions increase, the recorded positions strictly increase |
| Near.NearSortIsIdentity | QryIopNear.java:91 | the Collections.sort after matching leaves the recorded positions unchanged |
| Near.NearExampleAdjacent | QryIopNear.java:126 | `a #NEAR/1 b` with a at 1 and b at 2 records 2 |
| Near.NearExampleOrder | QryIopNear.java:126 | b before a never matches `a #NEAR/5 b` |
| Near.NearGreedyMisses | QryIopNear.java:121-128 | the greedy choice of the first position after the previous one can miss a chain that exists |
| Near.NearScanSingle | QryIopNear.java:115-118 | with one argument, every remaining position is recorded |
| Near.NearSingle | QryIopNear.java:104-143 | with one argument, NEAR records that argument's whole position list, whatever n |
| Window.MaxOf | QryIopWindow.java:132 | Collections.max: an element of the list, not below any element |
| Window.MinOf | QryIopWindow.java:133 | Collections.min: an element of the list, not above any element |
| Window.IndexOf | QryIopWindow.java:134 | List.indexOf: the first index holding the value |
| Window.MinIndex | QryIopWindow.java:134 | the argument moved on after a too-wide window is the first one holding the smallest position |
| Window.AdvanceIterators | QryIopWindow.java:113-128 | after a match every iterator gives its next position (reporting exhaustion exactly when some iterator has none); otherwise only the minIndex iterator moves and replaces its location |
| Window.PendingAfterTake | QryIopWindow.java:111-141 | every complete take leads to the window test on the new locations and strictly decreases the positions left |
| Window.GetValidWindowPositions | QryIopWindow.java:97-143 | the take/check/replace loop returns exactly the positions of the WindowPositions definition |
| Window.WindowPosting | QryIopWindow.java:91-93 | the posting for document d carries d and sorted positions |
| Window.WindowPostingLength | QryIopWindow.java:93 | a posting is appended exactly when the match loop recorded a position |
| Window.BuiltSoFarKeep | QryIopWindow.java:93 | appending the posting of a common document with matches keeps the result ordered and complete below the cursors |
| Window.BuiltSoFarSkip | QryIopWindow.java:93 | a common document without a matching window is left out, and the invariant still holds |
| Window.BuiltSoFarDone | QryIopWindow.java:75-76 | when no common document remains, the result has a posting for exactly the common documents with a match |
| Window.Evaluate | QryIopWindow.java:30-95 | no arguments give an empty list; otherwise one posting, in increasing id order, for exactly the common documents where the match loop records a position, each with its sorted positions; when the postings list their positions in order, these are exactly the common documents where one position of every argument fits in a window of n positions |
| Window.ScanSound | QryIopWindow.java:135-139 | every position recorded after a fresh take is the largest of one position per argument spanning at most n |
| Window.CheckSound | QryIopWindow.java:132-141 | the same holds for the window test on the current locations |
| Window.ReplaceSound | QryIopWindow.java:115-126 | the same holds after replacing the smallest location |
| Window.WindowSound | QryIopWindow.java:97-143 | every recorded position is the maximum of a window of at most n positions, one per argument, in any order |
| Window.ScanNone | QryIopWindow.java:135-136 | with n < 1 a fresh take records nothing |
| Window.CheckNone | QryIopWindow.java:135-136 | with n < 1 the window test records nothing |
| Window.WindowNone | QryIopWindow.java:135-136 | a window spans at least one position, so #WINDOW/n with n < 1 matches nowhere |
| Window.ScanSingle | QryIopWindow.java:113-141 | with one argument and n at least 1, every remaining position is recorded |
| Window.WindowSingle | QryIopWindow.java:97-143 | with one argument and n at least 1, WINDOW records that argument's whole position list |
| Window.ScanAbove | QryIopWindow.java:121-139 | every position recorded from a state is at or above every position still to be taken |
| Window.CheckAbove | QryIopWindow.java:132-139 | every position recorded from the window test is at or above every current location |
| Window.ReplaceAbove | QryIopWindow.java:121-126 | every position recorded after a replacement is at or above every current location |
| Window.ScanIncreasing | QryIopWindow.java:139 | when every argument's positions increase, the recorded positions strictly increase |
| Window.CheckIncreasing | QryIopWindow.java:139 | the same holds from the window test |
| Window.SmallestBelowWitness | QryIopWindow.java:132-135 | when every current location is at most the witness's position and the current window is wider than the witness's, the smallest location is below its witness position |
| Window.TakenBelowWitness | QryIopWindow.java:113-126 | with sorted positions, every location taken is at most the position of a witness not yet passed |
| Window.BehindStep | QryIopWindow.java:121-126 | moving on an iterator that has not passed its witness position keeps every iterator at or before the witness |
| Window.ReplaceStep | QryIopWindow.java:121-141 | when a window exists, a too-wide window always has a next position for its smallest argument, and the replacement is the window test on a state still behind the witness |
| Window.ScanComplete | QryIopWindow.java:113-141 | from a fresh take behind a witness window, at least one position is recorded |
| Window.CheckComplete | QryIopWindow.java:132-141 | from the window test behind a witness window, at least one position is recorded |
| Window.ReplaceComplete | QryIopWindow.java:121-141 | from a replacement behind a witness window, at least one position is recorded |
| Window.WindowComplete | QryIopWindow.java:97-143 | with sorted positions, when one position of every argument fits in a window of n positions, a match is recorded |
| Window.WindowMatchesIffWindowExists | QryIopWindow.java:97-143 | with sorted positions, a match is recorded exactly when some window of n positions holds one position of every argument |
| Window.WindowIffInDocuments | QryIopWindow.java:42-93 | for every document, with sorted postings, the match loop records a position exactly when such a window exists there |
| Window.WindowSortIsIdentity | QryIopWindow.java:92 | the Collections.sort after matching leaves the recorded positions unchanged |
| QueryTree.AppendArg | QryEval.java:312 | appendArg adds the argument at the end and changes nothing else |
| QueryTree.AddWeight | QrySopWeightedAnd.java:99-102 | addWeight appends the weight and keeps sumOfWeights equal to the sum of the weights |
| QueryTree.SetArg | QryEval.java:459 | `q.args.set(i, x)` replaces argument i only |
| QueryTree.AppendWithWeightKeepsLockStep | QryEval.java:312-316 | appending an argument together with its weight keeps a weighted node with one weight per argument |
| QueryTree.AppendUnweightedKeepsLockStep | QryEval.java:407 | appending to an unweighted operator keeps it without weights |
| QueryTree.RemoveArgAsWritten | QryEval.java:441-444 | removeArg as the cleanup pass calls it drops the argument but keeps its weight |
| QueryTree.RemoveArgAsWrittenBreaksLockStep | QryEval.java:441-444 | in `#wand(0.3 #syn() 0.7 dog)`, removing the argument-less `#syn` leaves two weights for one argument, and `dog` is paired with weight 0.3 |
| QueryTree.RemoveArg | QryEval.java:441-444 | the corrected removal drops argument i and its weight, shifts the later arguments down and keeps the weights in lock-step throughout the tree |
| QueryTree.SizeOfConcat | QryEval.java:437-467 | the node count of a concatenated argument list is additive |
| QueryTree.LeavesOfConcat | QryEval.java:437-467 | the term leaves of a concatenated argument list concatenate |
| QueryTree.RemoveSize | QryEval.java:443 | deleting an argument removes exactly its nodes |
| QueryTree.RemoveLeaves | QryEval.java:441-444 | deleting an argument without term leaves loses no term |
| QueryTree.UpdateSize | QryEval.java:459 | replacing an argument changes the size by the difference |
| QueryTree.UpdateLeaves | QryEval.java:455-461 | replacing an argument by its only argument keeps the term leaves |
| QueryTree.Removal | QryEval.java:443 | `q.removeArg(i)` drops argument i; as written the weights and sumOfWeights stay, the corrected removal is RemoveArg |
| QueryTree.CleanedFrom | QryEval.java:437-467 | the backward walk from argument i on keeps the operator and every argument before i |
| QueryTree.RemovalMeasures | QryEval.java:441-444 | deleting a termless argument loses no term, shrinks the tree, keeps terms under every weighted operator, and keeps lock-step with the corrected removal or on an unweighted node |
| QueryTree.SetArgMeasures | QryEval.java:455-466 | replacing an argument by one with the same terms keeps the terms, the lock-step and the terms under weighted operators, and changes the size by the difference |
| QueryTree.CleanArg | QryEval.java:441-466 | the decision for one argument reports a change exactly when the argument is not settled; only termless operators are deleted; a kept argument becomes what the Cleaned definition makes of it, strictly smaller when changed and with the same terms; lock-step survives with the corrected removal, or as written when every weighted operator's arguments hold terms |
| QueryTree.ApplyToArg | QryEval.java:443-466 | carrying out that decision deletes with the chosen removal or replaces the argument; it keeps the earlier arguments and the terms, and a change strictly shrinks the tree; lock-step survives unless an argument of a weighted node is deleted by removeArg as written |
| QueryTree.CleanupPass | QryEval.java:433-470 | the pass with a given removal computes the Cleaned definition; it reports a change exactly when the tree is not settled; without a change the tree is unchanged; a change strictly shrinks it; the root and the terms survive, and so does lock-step with the corrected removal or when every weighted operator's arguments hold terms |
| QueryTree.CleanupTurn | QryEval.java:438-466 | one turn of the backward walk handles argument i - 1: the tree so far is CleanedFrom(q, i - 1), earlier arguments are untouched, there is a change exactly when a handled argument was not settled, and size, terms and lock-step are as the pass promises |
| QueryTree.ParseQueryCleanup | QryEval.java:433-470 | parseQueryCleanup as written: the Cleaned definition with the weight-keeping removal; a change exactly when the tree is not settled; lock-step kept only when every argument of a #wand/#wsum holds a term |
| QueryTree.CorrectedCleanup | QryEval.java:433-470 | the same pass with the corrected removal, which keeps lock-step on every tree |
| QueryTree.Unwrapped | QryEval.java:506-512 | unwrapping a root's single scoring argument keeps the terms, the weight lock-step and the terms under weighted operators |
| QueryTree.IterateStep | QryEval.java:513-515 | the n+1-th repetition of the pass is the pass applied to the n-th |
| QueryTree.Optimize | QryEval.java:506-515 | a null query fails with a null pointer; otherwise the loop stops at the first settled tree in the sequence of passes from the unwrapped parse, which the pass leaves unchanged, with the parsed tree's terms, and lock-step as the pass keeps it |
| QueryTree.OptimizeQuery | QryEval.java:506-515 | processQuery's optimisation as written: the first settled tree among the passes as written from the unwrapped parse; lock-step survives only when every argument of a #wand/#wsum holds a term |
| QueryTree.CorrectedOptimizeQuery | QryEval.java:506-515 | the optimisation with the corrected removal: the first settled tree among the corrected passes from the unwrapped parse; lock-step survives on every weighted tree |
| QueryTree.WAndWithEmptyArgPass | QryEval.java:437-467 | on `#wand(0.3 #syn() 0.7 dog)` the pass keeps `dog` and deletes the `#syn` |
| QueryTree.CleanupAsWrittenBreaksLockStep | QryEval.java:441-444 | the pass as written turns the well-weighted `#wand(0.3 #syn() 0.7 dog)` into `#wand` over `[dog]` with weights [0.3, 0.7], which is not in lock-step |
| QueryTree.CorrectedCleanupKeepsLockStep | QryEval.java:441-444 | the corrected pass turns the same tree into `#wand(0.7 dog)` with sumOfWeights 0.7 |
| QueryTree.CrossFamilySubtreeNotCleaned | QryEval.java:452-466 | a single-argument node of the other family is neither unwrapped nor entered, so the empty `#or` under `#and(#syn(#or()))` survives |
| QueryTree.CleanupExample | QryEval.java:441-461 | one pass turns the unsettled `#and(#or() #and(#or(dog cat)))` into the settled `#and(#or(dog cat))`: the argument-less `#or` is deleted and the single-argument `#and` is replaced by its argument |
| QueryParser.Lower | QryEval.java:383 | toLowerCase keeps the length and lower-cases every letter |
| QueryParser.IndexOf | QryEval.java:375 | indexOf('.') is -1 exactly when the character is absent, else its first position |
| QueryParser.SplitAll | QryEval.java:349 | the pieces between separators contain no separator |
| QueryParser.SplitSlash | QryEval.java:349 | split("/") yields pieces without '/' |
| QueryParser.DropTrailingEmpty | QryEval.java:349 | split drops exactly the trailing empty pieces |
| QueryParser.ParseInt | QryEval.java:350 | Integer.parseInt accepts only a signed decimal in 32-bit range; anything else, including the empty string, is a NumberFormatException |
| QueryParser.NatDigitsValue | QryEval.java:350 | the decimal digits of n read back as n |
| QueryParser.ParseIntDecimal | QryEval.java:350 | parseInt reads back every 32-bit integer written in decimal |
| QueryParser.Distance | QryEval.java:349-350 | the distance of `#near/n` or `#window/n`: a token without a second piece is an index error, otherwise parseInt of that piece |
| QueryParser.RunLength | QryEval.java:275 | the run of non-delimiters at the start of the text ends at a delimiter or at the end |
| QueryParser.TokenizeSound | QryEval.java:275 | the StringTokenizer with returned delimiters loses nothing: the tokens concatenate to the input, and each is one delimiter or a non-empty run without delimiters |
| QueryParser.TokenizeConcat | QryEval.java:275 | the tokens of a string concatenate back to the string |
| QueryParser.TokenizeWellFormed | QryEval.java:275 | every token is a single delimiter or a non-empty run of non-delimiters |
| QueryParser.RunLengthBeforeDelimiter | QryEval.java:275 | a run ends at the first delimiter |
| QueryParser.TokenizeAtDelimiter | QryEval.java:275 | a delimiter separates tokens: the text before and after it tokenises independently |
| QueryParser.TokenizeWord | QryEval.java:275 | a word without delimiters is a single token |
| QueryParser.WrapTokens | QryEval.java:204-205 | the wrapped query tokenises as the default operator, "(", the user's tokens, ")" |
| QueryParser.SplitField | QryEval.java:375-385 | a term without '.' is searched in body; otherwise the term is what precedes the first '.' and the field is the lower-cased rest |
| QueryParser.AppendTerms | QryEval.java:399-412 | every lexical piece becomes a term argument in that field; a weighted operator gets the same weight once per piece and keeps its sum |
| QueryParser.CloseOperator | QryEval.java:301-320 | ')' pops the current operator: an empty stack is an EmptyStackException; the outermost operator finishes the parse; otherwise it becomes the parent's last argument, with the top pending weight when the parent is weighted (an empty weight stack raises) |
| QueryParser.AddTermToken | QryEval.java:371-412 | an unknown field raises IllegalArgumentException exactly; otherwise the pieces are appended to the current operator, a weighted operator consumes the top weight and expects another, and a term with no current operator is a null dereference |
| QueryParser.Step | QryEval.java:289-416 | one token of the loop keeps the stack holding operators only |
| QueryParser.ClosedNodeOk | QryEval.java:301-316 | a node whose arguments are finished is finished once closed |
| QueryParser.CloseOperatorKeepsOk | QryEval.java:301-320 | closing keeps every operator under construction in weight lock-step with finished arguments |
| QueryParser.AddTermTokenKeepsOk | QryEval.java:371-412 | adding a term keeps that invariant and only accepted fields |
| QueryParser.StepKeepsOk | QryEval.java:289-416 | every token preserves the invariant, and a finished parse yields a finished tree |
| QueryParser.RunFromOk | QryEval.java:289-424 | the rest of the loop preserves the invariant up to the returned tree |
| QueryParser.ParseOk | QryEval.java:198-425 | every tree parseQuery returns has exactly one weight per argument on each #wand/#wsum node, with sumOfWeights their sum, and only accepted fields |
| QueryParser.AppendPieces | QryEval.java:405-412 | the loop over the lexical pieces computes AppendTerms |
| QueryParser.CloseFrame | QryEval.java:294-321 | the ')' branch on the parser's variables computes CloseOperator |
| QueryParser.TermToken | QryEval.java:371-412 | the term branch on the parser's variables computes AddTermToken |
| QueryParser.ParseQuery | QryEval.java:274-425 | the token loop with its trailing-token check (419-422) computes the Parse definition |
| QueryParser.RunFromSkip | QryEval.java:292-293 | a blank, comma or '(' token leaves the parser's state as it is |
| QueryParser.RunFromOpen | QryEval.java:322-339 | an operator name pushes a new operator of that kind; `#wand` and `#wsum` make a weight expected |
| QueryParser.RunFromWeight | QryEval.java:362-368 | a number where a weight is expected goes on the weight stack, and no weight is expected after it |
| QueryParser.RunFromWeightedTerm | QryEval.java:371-412 | a term kept whole by the analyzer under a weighted operator becomes its last argument with the pending weight, and a weight is expected again |
| QueryParser.RunFromClose | QryEval.java:301-312 | ')' makes the current operator the last argument of an unweighted parent |
| QueryParser.RunFromFinish | QryEval.java:301-304 | ')' closing the outermost operator as the last token ends the parse with that operator |
| QueryParser.OperatorForExample | QryEval.java:326-334 | `#and` and `#wand` name the AND and weighted-AND operators |
| QueryParser.SplitFieldExample | QryEval.java:375-385 | `a` is the term a in body, `b.title` the term b in title |
| QueryParser.TokenizeWordThen | QryEval.java:275 | a word followed by a delimiter gives those two tokens, then the tokens of the rest |
| QueryParser.TokenizeWordBefore | QryEval.java:275 | the same, with the rest grouped after the delimiter |
| QueryParser.TokenizeSpelled | QryEval.java:275 | any number of words, each followed by a delimiter, tokenise as word, delimiter, word, delimiter, … in order |
| QueryParser.ExampleQueryTokens | QryEval.java:275 | `#wand(0.3 a 0.7 b.title)` tokenises as `#wand`, `(`, `0.3`, ` `, `a`, ` `, `0.7`, ` `, `b.title`, `)` |
| QueryParser.ExampleTokenize | QryEval.java:204-205 | wrapped in `#and`, the same query tokenises as `#and`, `(`, the tokens above, `)` |
| QueryParser.ExampleOpen | QryEval.java:326-334 | tokens `#and ( #wand (` at positions 0-3 push `#and` and `#wand`, and a weight is expected |
| QueryParser.ExampleFirstWeight | QryEval.java:362-368 | `0.3` at position 4 goes on the weight stack and the blank after it is skipped |
| QueryParser.ExampleFirstTerm | QryEval.java:371-412 | a plain token at position 6 naming the term a in body becomes the first argument of `#wand` with weight 0.3 |
| QueryParser.ExampleSecondWeight | QryEval.java:292-368 | the blank is skipped and `0.7` goes on the weight stack |
| QueryParser.ExampleSecondTerm | QryEval.java:371-412 | a plain token at position 10 naming the term b in title becomes the second argument of `#wand` with weight 0.7 |
| QueryParser.ExampleClose | QryEval.java:301-312 | the last two tokens, both ')', make `#wand` the argument of `#and` and return `#and` |
| QueryParser.ExampleTree | QrySopWeightedAnd.java:99-102 | the resulting tree is `#and` over `#wand` with arguments a (body) and b (title), weights [0.3, 0.7] and sumOfWeights 1.0 |
| QueryParser.ParseExample | QryEval.java:198-425 | with an analyzer that keeps `a` and `b` whole, parseQuery of `#wand(0.3 a 0.7 b.title)` under the default `#and` returns exactly that tree |
| Tally.SopEqualsIsKeyEquality | QrySop.java:58-66 | QrySop.equals, which compares the argument lists element by element and nested scoring operators through QrySop.equals again, holds exactly when the two nodes share a map key, as hashCode/equals must agree |
| Tally.ElemEqualsIsKeyEquality | QrySop.java:58-66 | one list element equals another exactly when they share a key: through QrySop.equals for a scoring operator, by value for any other node |
| Tally.SopEqualsIsEquivalence | QrySop.java:58-62 | equals on scoring operators is reflexive, symmetric and transitive |
| Tally.AndOrShareAKey | QrySop.java:58-66 | `#and(a b)` and `#or(a b)` are different nodes but the same map key |
| Tally.NestedOperatorsShareAKey | QrySop.java:58-66 | `#and(#or(t))` and `#and(#and(t))` share a key although their arguments differ as nodes, since the nested operators are compared by their arguments |
| Tally.Bump | QrySop.java:72-80 | addQuery: a new key is stored with count 1 and the node itself; an existing key keeps its node and gains 1; every other entry is unchanged |
| Tally.Frequency | QrySop.java:82-88 | getQueryFrequency: the stored count, or the caller's answer for an absent key |
| Tally.FirstIndex | QrySop.java:72-80 | the first node of a list with a given key |
| Tally.OccurrencesAbsent | QrySop.java:72-80 | a key that does not occur has count 0 |
| Tally.TallyOfCounts | QrySop.java:72-80 | adding a list of nodes to an empty tally stores exactly the keys that occur, each with its number of occurrences, under its first node |
| Tally.CountsPositive | QrySop.java:72-80 | every stored count is at least 1 |
| Tally.OccurrencesAtLeastOne | QrySop.java:72-80 | a key that occurs is counted at least once |
| Tally.QueriesOfTally | QrySop.java:90-92 | getQueries of that tally holds only nodes of the list, and for every node of the list the node stored under its key, which is equal to it |
| RetrievalModels.RetrievalModelBM25.constructor | RetrievalModelBM25.java:27-32 | the three parameters as given, and an empty tally |
| RetrievalModels.RetrievalModelBM25.AddQuery | RetrievalModelBM25.java:38-43 | the tally becomes Bump of the old one; the parameters do not change |
| RetrievalModels.RetrievalModelBM25.GetQueryFrequency | RetrievalModelBM25.java:45-50 | the stored count, and 0 (not -1) for a node never added |
| Sop.Contributions | QrySopAnd.java:115-121 | each argument contributes its score when it matches the operator's document, else its default score |
| Sop.MatchMin | QrySopOr.java:17-19 | docIteratorHasMatchMin: no match exactly when no argument has one; otherwise the smallest matched id, which some argument matches |
| Sop.MatchAll | QrySopAnd.java:17-19 | docIteratorHasMatchAll: a match exactly when every argument matches one common document |
| Sop.MatchAllIsMatchMin | QrySopAnd.java:17-19 | a match of the all-policy is the min-policy's match |
| Sop.Collapse | QrySopAnd.java:75-78 | the unranked score is 1 exactly when the ranked score is positive, else 0 |
| Sop.QrySopState.constructor | QrySop.java:22-23 | an empty tally and the default-score cache at Double.MIN_VALUE |
| Sop.QrySopState.AddQuery | QrySop.java:72-80 | the tally becomes Bump of the old one; the cache does not change |
| Sop.QrySopState.GetQueryFrequency | QrySop.java:82-88 | the stored count, and -1 for a node not in the tally |
| Sop.QrySopState.ClearQueries | QrySop.java:94-96 | the tally becomes empty; the cache does not change |
| Sop.Initialized | QrySop.java:48-52 | initialize visits every argument in order; QrySopScore visits only its first and fails without one (QrySopScore.java:114-118) |
| Sop.Uniform | QrySopAnd.java:57 | the #and exponents are 1/k for each of the k arguments |
| Sop.UniformSumsToOne | QrySopAnd.java:114 | those exponents sum to 1 |
| Sop.Normalized | QrySopWeightedAnd.java:85 | the #wand/#wsum exponents are each weight divided by sumOfWeights |
| Sop.NormalizedSum | QrySopWeightedAnd.java:85 | the normalised weights sum to the weights' sum divided by the total |
| Sop.NormalizedSumsToOne | QrySopWeightedAnd.java:99-102 | with sumOfWeights kept as addWeight keeps it, the normalised weights sum to 1 |
| Sop.WeightedHasMatch | QrySopWeightedAnd.java:24-29 | #wand/#wsum match by the min-policy under Indri and never under another model |
| Sop.WeightedToString | QrySopWeightedAnd.java:110-118 | toString is `displayName( w1 a1 w2 a2 ... )` in argument order; an argument without a weight is an index error |
| Sop.ListingExtends | QrySopWeightedAnd.java:114-115 | the rendering of a prefix of the arguments is a prefix of the rendering |
| SopAnd.AndHasMatch | QrySopAnd.java:17-24 | the all-policy under the boolean models, always a match under Indri, never under another model |
| SopAnd.MinScore | QrySopAnd.java:87-98 | MIN from Double.MAX_VALUE: below every argument score and equal to one of them, or MAX_VALUE |
| SopAnd.GetScoreRankedBoolean | QrySopAnd.java:86-101 | the MIN loop with its early break computes the RankedAnd definition |
| SopAnd.GetScoreUnrankedBoolean | QrySopAnd.java:75-78 | the ranked score collapsed to 1 or 0 |
| SopAnd.UnrankedAndIsConjunction | QrySopAnd.java:75-101 | with a cached match, the unranked #and is 1 exactly when every argument matches the document with a positive score |
| SopAnd.RankedAndBounds | QrySopAnd.java:86-101 | at a document all arguments match, the score is at most each argument's score; otherwise it is 0 |
| SopAnd.GetScoreIndri | QrySopAnd.java:109-124 | the product loop computes the IndriAnd definition: pow(score or default, 1/k) over the arguments |
| SopAnd.IndriAndWithoutMatchesIsDefault | QrySopAnd.java:109-124 | an #and none of whose arguments matches its document scores exactly its default score |
| SopAnd.DefaultScoreIsCached | QrySopAnd.java:51-52 | once a default score other than Double.MIN_VALUE is stored, every later call returns it, whatever the model, arguments or document |
| SopAnd.DefaultProduct | QrySopAnd.java:55-59 | the product loop computes the AndDefault definition: pow(default score, 1/k) over the arguments, 1 for none |
| SopAnd.GetDefaultScore | QrySopAnd.java:49-67 | the cache is read first; under Indri the product is stored and returned; other models raise "... doesn't support the default score for AND operator."; the tally is untouched |
| SopAnd.GetScore | QrySopAnd.java:32-44 | dispatch on the model; BM25 and Letor raise "... doesn't support the AND operator." |
| SopOr.MaxMatching | QrySopOr.java:73-87 | MAX from 0 over the arguments that match: non-negative, at least every matching score, and a matching score when positive |
| SopOr.GetScoreRankedBoolean | QrySopOr.java:73-87 | the MAX loop computes the RankedOr definition |
| SopOr.GetScoreUnrankedBoolean | QrySopOr.java:62-65 | the ranked score collapsed to 1 or 0 |
| SopOr.UnrankedOrIsDisjunction | QrySopOr.java:62-87 | with a cached match, the unranked #or is 1 exactly when some argument matches the document with a positive score |
| SopOr.Complements | QrySopOr.java:47 | each factor of the default product is 1 minus an argument's default score |
| SopOr.GetDefaultScore | QrySopOr.java:41-54 | under Indri 1 minus the product of (1 - default); other models raise the message naming the AND operator, as written |
| SopOr.ProductOfUnitInterval | QrySopOr.java:46-47 | a product of factors in [0, 1] lies in [0, 1] |
| SopOr.ProductWithZero | QrySopOr.java:46-47 | a zero factor makes the product 0 |
| SopOr.OrDefaultIsProbability | QrySopOr.java:41-49 | default scores that are probabilities give a probability; an argument certain by default makes the #or certain; no arguments give 0 |
| SopOr.GetScore | QrySopOr.java:27-36 | only the boolean models are supported; the others raise "... doesn't support the OR operator." |
| SopSum.KeySumPick | QrySopSum.java:75-83 | the sum over the tally's key set does not depend on the order the HashMap visits the keys |
| SopSum.RefillTally | QrySopSum.java:70-73 | clearQueries then addQuery of every argument leaves the tally of the argument list |
| SopSum.SumOverTally | QrySopSum.java:74-83 | the loop over getQueries sums each distinct argument that matches the document once; a #score argument is weighted with its count |
| SopSum.GetScoreBM25 | QrySopSum.java:66-85 | the BM25 score is the sum over distinct arguments, and the tally is left holding the arguments' counts |
| SopSum.OccurrencesOfOnlyKey | QrySopSum.java:71-73 | in a list sharing a single key, that key occurs once per element |
| SopSum.RepeatedArgumentScoredOnce | QrySopSum.java:70-83 | a #sum of n arguments that are equal as map keys scores one contribution with query-term frequency n |
| SopSum.GetDefaultScore | QrySopSum.java:44-57 | under Indri the #and product without a cache; other models raise the AND message, as written |
| SopSum.GetScore | QrySopSum.java:29-37 | only BM25 is supported; the others raise "... doesn't support the SUM operator."; the cache is untouched |
| SopWAnd.GetScoreIndri | QrySopWeightedAnd.java:76-94 | the loop computes the IndriWAnd definition: the product of pow(score or default, w_i / sum), or an index error when an argument has no weight |
| SopWAnd.GetDefaultScore | QrySopWeightedAnd.java:50-67 | under Indri the weighted product of default scores; other models raise the AND message, as written |
| SopWAnd.GetScore | QrySopWeightedAnd.java:37-45 | only Indri is supported; others raise "... doesn't support the WAND operator." |
| SopWAnd.LockStepWAndExponents | QrySopWeightedAnd.java:83-91 | on a #wand with one weight per argument, scoring never fails and the exponents sum to 1 |
| SopWAnd.RemovalShiftsWAndExponent | QryEval.java:443 | after the cleanup pass drops the argument-less first argument of `#wand(0.3 #syn() 0.7 dog)`, `dog` is scored with exponent 0.3 instead of 1 |
| SopWSum.DotAppend | QrySopWeightedSum.java:77-94 | the weighted sum of one more term adds that term's product |
| SopWSum.GetScoreIndri | QrySopWeightedSum.java:77-94 | the loop computes the IndriWSum definition: the sum of (w_i / sum) times score or default, or an index error when an argument has no weight |
| SopWSum.GetDefaultScore | QrySopWeightedSum.java:52-68 | under Indri the weighted mean of default scores; other models raise "... doesn't support the default score for WSUM operator." |
| SopWSum.GetScore | QrySopWeightedSum.java:39-47 | only Indri is supported; others raise "... doesn't support the WSUM operator." |
| SopWSum.DotBounds | QrySopWeightedSum.java:77-94 | with non-negative coefficients, a combination of values in [lo, hi] lies between lo and hi times the coefficients' sum |
| SopWSum.WSumIsWeightedMean | QrySopWeightedSum.java:77-94 | with non-negative weights in lock-step and a positive sum, the #wsum score is defined and lies between the least and the greatest contribution |
| SopScore.MatchFirst | QrySopScore.java:23-25 | docIteratorHasMatchFirst: an operator without arguments fails on args.get(0); otherwise it matches exactly when its first argument does, at that document |
| SopScore.UnrankedScore | QrySopScore.java:55-59 | 1 exactly when the posting's tf is positive, else 0 |
| SopScore.UnrankedIsCollapsedRanked | QrySopScore.java:55-70 | the unranked score is the ranked score (tf) collapsed |
| SopScore.ScoreBM25 | QrySopScore.java:78-104 | no current document gives 0; otherwise the BM25 formula with the model's tally count as qtf |
| SopScore.UncountedNodeHasZeroQtf | QrySopScore.java:91 | a node the BM25 model never counted is scored with qtf 0 |
| SopScore.GetScore | QrySopScore.java:33-47 | Indri and Letor raise "... doesn't support the SCORE operator."; the other models fail on an empty argument list and otherwise score the first argument |
| SopScore.BooleanScoresAgree | QrySopScore.java:55-70 | the ranked score is positive exactly when the unranked one is 1, and never below it |
| Ranking.Compare | QryEval.java:864-877 | the comparator is -1, 1 or 0 exactly when the first score is larger, smaller or equal |
| Ranking.CompareIsTotalPreorder | QryEval.java:864-877 | the comparator contract: antisymmetric, transitive, and equal pairs compare alike with any third |
| Ranking.QueueOrderIsDescendingScore | QryEval.java:740-741 | the priority queue's order is non-increasing score |
| Letor.UrlDepthOfSegment | RetrievalModelLetor.java:259-265 | one more path segment after a slash adds one to the URL depth |
| Letor.PageRankOf | RetrievalModelLetor.java:276-283 | the listed PageRank, or -10 for a document the file does not list |
| Letor.SlotValues | RetrievalModelLetor.java:243-309 | one value per slot, 18 in all |
| Letor.SlotLayout | RetrievalModelLetor.java:285-309 | the content features of field i sit at 3i+4, 3i+5 and 3i+6, in the order body, title, url, inlink; slots 16 and 17 hold 0 |
| Letor.Record | RetrievalModelLetor.java:251-256 | writing one slot raises its running maximum and lowers its running minimum, and changes nothing else |
| Letor.ComputeSlot | RetrievalModelLetor.java:251-301 | computing slot k moves the vector and both bounds from the state below k to the state below k+1 |
| Letor.SkipSlot | RetrievalModelLetor.java:251-283 | a disabled document feature is not computed and changes nothing |
| Letor.BuildKeepsBounds | RetrievalModelLetor.java:114-115 | one build only widens the bounds, the vector it builds lies within them, and so does every vector of the query built earlier |
| Letor.DocumentSlots | RetrievalModelLetor.java:251-283 | the spam score, URL depth, Wikipedia flag and PageRank, each unless disabled |
| Letor.ContentSlots | RetrievalModelLetor.java:285-301 | three content features for each of the four fields |
| Letor.ReservedSlots | RetrievalModelLetor.java:304-309 | the two reserved slots are computed as 0 |
| Letor.DisableFeatures | RetrievalModelLetor.java:312-313 | every disabled feature's slot holds the sentinel and every other slot is unchanged, whatever the set's order |
| Letor.FinishBuild | RetrievalModelLetor.java:304-313 | the computed slots with the sentinel over the disabled ones are the BuiltVector definition |
| Letor.RetrievalModelLetor.constructor | RetrievalModelLetor.java:39-48 | the models and the base-feature count as given, the disabled features as a set, the PageRanks as the given map |
| Letor.RetrievalModelLetor.BuildFeatures | RetrievalModelLetor.java:243-322 | the vector holds the computed slot values with the sentinel over every disabled feature, and each bound is its old value moved by every computed slot |
| Letor.RetrievalModelLetor.NormalizeFeatures | RetrievalModelLetor.java:230-238 | every slot is normalised slot by slot against its bounds |
| Letor.NormalizedVector | RetrievalModelLetor.java:230-238 | normalisation keeps the vector's length |
| Letor.NormalizedSlotInUnitInterval | RetrievalModelLetor.java:233-236 | a value within its bounds normalises into [0, 1], the minimum to 0 and a distinct maximum to 1 |
| Letor.NormalizedVectorInUnitInterval | RetrievalModelLetor.java:230-238 | a vector within its bounds normalises into [0, 1], except the sentinel slots, which stay the sentinel |
| Letor.NormalizationExample | RetrievalModelLetor.java:234-236 | values 2, 4 and 6 normalise to 0, 0.5 and 1 |
| Letor.InitialBoundsAsWritten | RetrievalModelLetor.java:155-160 | the bounds of a query start at Double.MIN_VALUE (maximum) and Double.MAX_VALUE (minimum), as written |
| Letor.InitialBounds | RetrievalModelLetor.java:98-103 | the corrected bounds start at -Double.MAX_VALUE and Double.MAX_VALUE |
| Letor.RunningMax | RetrievalModelLetor.java:251-256 | a running maximum: at least the start and every value, and equal to one of them |
| Letor.RunningMin | RetrievalModelLetor.java:251-256 | a running minimum: at most the start and every value, and equal to one of them |
| Letor.BoundsAfterDocuments | RetrievalModelLetor.java:105-119 | after one buildFeatures call per document of a query, each computed slot holds the running maximum and minimum of that slot's values from the starting bounds, and a slot never computed keeps its starting bounds |
| Letor.FeatureMaxStartMisnormalizes | RetrievalModelLetor.java:98-103 | with the maximum started at Double.MIN_VALUE, a slot whose values are -10 and -5 keeps a maximum above both, so the greatest value does not normalise to 1 |
| Letor.CorrectedBoundsNormalizeOntoUnitInterval | RetrievalModelLetor.java:230-238 | started at -MAX_VALUE, the bounds are the slot's least and greatest values; every value normalises into [0, 1], the greatest to 1 and the least to 0 |
| Letor.EntriesNumberedDensely | RetrievalModelLetor.java:214-220 | printed feature numbers run 1, 2, 3, … with no gaps, and no sentinel is printed |
| Letor.EntriesOfPrefix | RetrievalModelLetor.java:215-220 | the entries of a prefix of the vector are a prefix of the entries |
| Letor.SlotPrintedAt | RetrievalModelLetor.java:215-220 | a slot that is not the sentinel is printed under the number one more than the count of printed slots before it |
| Letor.RenderAppend | RetrievalModelLetor.java:217 | rendering one more entry appends "index:value " |
| Letor.EntriesStep | RetrievalModelLetor.java:216-219 | one more slot adds one entry, unless it is the sentinel |
| Letor.RenderFeatures | RetrievalModelLetor.java:214-220 | the loop renders exactly the entries of the vector |
| Letor.PrintFeatures | RetrievalModelLetor.java:210-227 | the line is "rel qid:Q ", the entries, "# doc" and a newline |
| Letor.NumDocs | RetrievalModelLetor.java:168 | classify reranks the whole ranking, at most 100 candidates |
| Letor.ReadBackScores | RetrievalModelLetor.java:193-201 | the i-th score line goes to the i-th candidate of the ranking, for as many candidates as there are both score lines and reranked documents |
| Letor.ScoreLinesAsWritten | RetrievalModelLetor.java:181-190 | the score lines come in the order the features were written, the HashMap's order |
| Letor.ScoreLines | RetrievalModelLetor.java:169-190 | written in ranking order, line j holds the classifier's score of the j-th candidate |
| Letor.ClassifyMisassignsScores | RetrievalModelLetor.java:181-201 | ranking [2, 1] written in the other order gives document 2 the score of document 1 |
| Letor.AsWrittenInRankingOrder | RetrievalModelLetor.java:181-201 | when the HashMap visits the candidates in ranking order, the score lines as written are those of the intended order |
| Letor.ClassifyKeepsScoresWithDocuments | RetrievalModelLetor.java:193-201 | with ranking-order lines, every candidate read back receives its own score |
| Letor.ClassifyAsWritten | RetrievalModelLetor.java:168-201 | classify as written: the first candidates of the ranking, as many as both score lines and reranked documents allow, each with the score of the line written at its rank in HashMap order |
| Letor.Classify | RetrievalModelLetor.java:168-201 | classify with the features written in ranking order: the first NumDocs candidates, in ranking order, each with the classifier's score of its own features |

## Left out

- Query expansion (QryEval.java:207-271, `expandQuery`), the index (`Idx`, Lucene), `tokenizeQuery`'s analyzer, result printing and the parameter file. These need I/O or the index. Only the comparator of the expansion queue is modelled.
- `processQueryLetor`, `processQueryFile` and `main`: these are drivers over files and the index.
- Qry, QryIop, QryIopTerm, QryIopSyn and the `docIteratorHasMatch*` helpers are not part of this model. Their behaviour is taken as the views `ArgView`/`IopView` and as cursors into posting lists. `appendArg` appends verbatim.
- Tally.KeyOf: a node that is not a scoring operator (a term or an inverted-list operator) is keyed by its value, while Java uses the equals of Qry classes that are not part of this model. Scoring operators, nested or not, are keyed by their arguments as QrySop.equals compares them.
- QueryTree: the query tree is a value. `appendArg`, `addWeight` and `removeArg` return the updated node instead of updating it in place, so aliasing between parents and children is not modelled.
- QueryParser.ParseQuery: the `isDouble` assert at QryEval.java:364 is disabled in normal runs, so a malformed weight is modelled as Double.valueOf's NumberFormatException.
- QueryParser: the parser works on ASCII. Java's Unicode case mapping is not modelled.
- SopWAnd.GetScoreIndri, SopWAnd.GetDefaultScore, SopWAnd.GetScore, SopWAnd.IndriWAnd, SopWAnd.WAndDefault, SopWSum.GetScoreIndri, SopWSum.GetDefaultScore, SopWSum.GetScore, SopWSum.IndriWSum, SopWSum.WSumDefault: these require a non-zero sumOfWeights whenever a weight is divided by it. Java would produce Infinity or NaN, and IEEE division is not modelled.
- SopSum.GetScoreBM25: QrySopSum.java:79 calls `getUserWeightedScore`, which QrySopScore does not define. It is the parameter `userWeighted`.
- SopScore.ScoreBM25: the RSJ, tf and user weights (Math.log over index statistics) are the parameter `formula`. `RetrievalModelBM25.addQuery` has no caller in the modelled code, so the qtf it reads is 0 unless a caller fills the tally.
- All scores are real numbers: doubles as exact reals, with no rounding, overflow, NaN or infinity. `Math.pow` is the parameter `pow`.
- Letor.RetrievalModelLetor.BuildFeatures:
  - It requires numBaseFeatures == 18 and every disabled feature within 1..numBaseFeatures.
  - In Java, numBaseFeatures < 18 or a disabled feature outside 1..numBaseFeatures makes an array write throw inside buildFeatures. Its own catch (RetrievalModelLetor.java:315-319) swallows the exception, so the vector and the bounds stay partly written and classify goes on with the next document.
  - In Java, numBaseFeatures > 18 throws nothing in buildFeatures: slots 18 and up stay null. The comparison at RetrievalModelLetor.java:233 then unboxes null in normalizeFeatures, and classify's catch (RetrievalModelLetor.java:203-205) returns an empty result.
  - The spam score arrives already parsed.
  - getContentFeatures (RetrievalModelLetor.java:324-434) is the parameter `content`. It reads term vectors, and its reused buffer carries values across fields. Its lookup `get(qTerm + 1.0)` at line 332 is not modelled.
- Letor.ReadBackScores: when the score file ends early, `Double.parseDouble(null)` at RetrievalModelLetor.java:198 throws, and classify's catch (RetrievalModelLetor.java:203-205) returns the scores read so far. The model returns the same truncated result; only the printed stack trace is left out.
- Letor: `train`, `classify`'s file handling (the test file is opened for appending), the SVM-rank subprocess, `buildPageRanks`' file reading and `String.format("%.2f")` are left out. They are I/O or formatting: the PageRank file is the map `pageRanks`, the score file is a sequence of reals, and formatting is the parameter `format`.
- Letor.RetrievalModelLetor.constructor: QryEval.java:179 calls a five-argument constructor, but RetrievalModelLetor.java:39-40 declares six parameters. The model follows the declaration.

## Findings

| source | as written | input that shows it | evidently intended | confidence | as-written member | corrected member |
|---|---|---|---|---|---|---|
| QryEval.java:441-444 | `q.removeArg(i)` drops an argument-less argument of a `#wand`/`#wsum` but not its weight | `#wand(0.3 #syn() 0.7 dog)`: the pass leaves `dog` paired with 0.3 and scored with exponent 0.3 | drop the weight with its argument, keeping `sumOfWeights` the sum | not executed | QueryTree.ParseQueryCleanup (QueryTree.CleanupAsWrittenBreaksLockStep, QueryTree.RemoveArgAsWrittenBreaksLockStep, SopWAnd.RemovalShiftsWAndExponent) | QueryTree.CorrectedCleanup (QueryTree.RemoveArg, QueryTree.CorrectedCleanupKeepsLockStep, QueryTree.CorrectedOptimizeQuery) |
| RetrievalModelLetor.java:98-103, 155-160 | every running maximum starts at Double.MIN_VALUE, the smallest positive double | one slot whose values are -10 and -5 (a document without PageRank, -10, and one listed with PageRank -5): the maximum stays at MIN_VALUE and -5 does not normalise to 1 | start the maximum at -Double.MAX_VALUE | not executed | Letor.InitialBoundsAsWritten (Letor.FeatureMaxStartMisnormalizes) | Letor.InitialBounds (Letor.CorrectedBoundsNormalizeOntoUnitInterval) |
| RetrievalModelLetor.java:181-201 | test features are written in HashMap order, but the scores are read back in ranking order | ranking [2, 1] with the HashMap visiting 1 first: document 2 gets document 1's score | write the features in ranking order | not executed | Letor.ScoreLinesAsWritten (Letor.ClassifyMisassignsScores, Letor.ClassifyAsWritten) | Letor.ScoreLines (Letor.ClassifyKeepsScoresWithDocuments, Letor.Classify) |
