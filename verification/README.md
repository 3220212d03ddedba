# minictl: the CTL solver and the ISPL tokenizers in Dafny

minictl is a small model checker. This project models three parts of it:

- **The CTL solver.** It computes the satisfaction set of a CTL formula over a
  Kripke model: the set of state indices where the formula holds.
  - It computes only `EX`, `EU` and `AF` itself. `EU` and `AF` are least-fixpoint
    loops over the predecessor operators `pre_e` and `pre_a`.
  - Every other operator is rewritten into those three and solved again.
  - It memoises each result in a map. The outer `CTLSolver` keeps a cache that
    lives across queries and adds only keys it did not already hold.
- **The CTL and LTL formula factories.** They hash-cons formulas: every
  subformula goes through a cache, so equal subformulas are shared.
- **The two ISPL tokenizers.** ISPL is the input language of interpreted systems.
  - The current tokenizer is `src/ispl/tokenizer.rs`, with its kinds in
    `src/ispl/kinds.rs`.
  - The earlier one is in `src/parser.rs`.
  - Both are hand-written lexers driven by a stack of contexts. The stack says
    whether the lexer is at top level, after `Agent`, inside an outer or inner
    block, after an `end`, or inside a group, enum or set definition.
  - Both keep three growing name tables: enum literals, group names and agent
    names. Later words are classified against them.

## How the model is built

- **The Kripke model** (`kripke.dfy`): states are `0 .. n-1`, with a sequence of
  successor sets, one of label sets and one of names. The model's own source is
  not part of this model. `all_idx`, `all_containing_idx`, `all_except_idx`,
  `pre_e` and `pre_a` are declared here from how the solver and the model's
  tests use them. A state with no successors lies in every `pre_a`.
- **The reference semantics** (`ctl_semantics.dfy`).
  - `Sat` states what the solver computes for each connective. For `EU` and
    `AF` it is the iteration the solver runs, and that iteration is proved to
    be the least closed set.
  - `Rewrite` is the solver's rewrite table. Each rewrite is proved to keep the
    satisfaction set.
  - `Weight` decreases along every rewrite, so the solver's recursion
    terminates.
- **The solver** (`ctl_solver.dfy`): a class whose memo map is a field, with the
  fixpoint loops as methods. Each method is proved to return exactly `Sat` of
  its formula and to keep every memo entry equal to `Sat` of its key.
- **The factories** (`ctl_formula.dfy`, `ltl_formula.dfy`):
  - `Rc` sharing becomes value equality, so a cache is a `map` whose values equal
    their keys.
  - `memoize` is a recursive method that threads the map.
  - Each factory is a class holding its map.
- **The lexer state** (`lexing.dfy`): a class with the input and an offset. The
  scanning helpers are methods specified by functions on the remaining input.
  The context stack and its nesting invariant live here too.
- **The tokenizers** (`ispl_tokenizer.dfy`, `parser_tokenizer.dfy`): classes with
  the state, the stack and the name tables as fields.
  - `next_inner` is split into one method per context.
  - Inside a lexeme the source calls the tokenizer's own `Iterator::next`, which
    lexes and discards a whole further token, context changes included. It does
    not step one character. This is modelled as written: a mutual recursion
    that terminates because a character was consumed first.
  - A top-level `Semantics` statement is one such case. The tokenizer steps
    to the `;`, then lexes one more token with an empty stack. The `;` there
    is a stray top-level character, so that token runs on to the end of the
    line. The statement's token therefore ends at the newline, not at the
    `;` (`Lexing.StatementLen`).
- **Worked examples** (`tokenizer_examples.dfy`): each method runs a tokenizer
  on one fixed input. `Semantics=SA;` is one single-assignment token covering
  the whole input. `Semantics=SA;X` is one error token, because the text after
  the `;` joins the statement.

The solver computes `A[l U r]` as `!E[!r U (!l and !r)] or EG !r`. The model
keeps that rewrite, because the checker's own test suite expects its sets. On
the six-state test model, `A[p U q]` holds in every state (`AUpqSixStates`).
`AUStandard` is the textbook reading, `!E[!r U (!l and !r)] and !EG !r`. It is
proved to lie inside the solver's set and inside `AF r`. The one-state loop in
`AUSolverExceedsStandard` shows that the containment is strict: there the solver
accepts `A[TOP U p]` although no path ever reaches `p`.

## Model

| member | source | states |
|---|---|---|
| Kripke.AllIdx | python/tests/models/test_model.py:16-22 | a state index is in `all_idx` exactly when it is below the number of states |
| Kripke.AllContainingIdx | python/tests/models/test_model.py:24-29 | exactly the states whose label set holds the variable |
| Kripke.AllExceptIdx | python/tests/models/test_model.py:31-37 | the complement within the model: disjoint from the argument and covering every other state |
| Kripke.PreE | src/satisfies/ctl_solver.rs:40-42 | exactly the states with at least one successor in the set |
| Kripke.PreA | src/satisfies/ctl_solver.rs:71-76 | exactly the states all of whose successors are in the set |
| Kripke.GetNames | src/satisfies/ctl_solver.rs:213 | a state's name is in the result exactly when the state is in the set |
| Kripke.PreEMonotone | src/satisfies/ctl_solver.rs:53-69 | `pre_e` is monotone, which makes the `EU` iteration grow |
| Kripke.PreAMonotone | src/satisfies/ctl_solver.rs:75-84 | `pre_a` is monotone, which makes the `AF` iteration grow |
| Kripke.DoubleComplement | src/satisfies/ctl_solver.rs:97-100 | complementing twice gives back any set of states |
| Kripke.CardinalityBound | src/satisfies/ctl_solver.rs:53-84 | a set of states has at most as many elements as the model has states, which bounds both loops |
| CtlFormulas.TotalSize | src/formulas/ctl_types.rs:70-90 | every formula has size at least 1 |
| CtlFormulas.SubformulasBound | src/formulas/ctl_types.rs:70-90 | a formula has no more distinct subformulas than `total_size` counts nodes |
| CtlFormulas.ExtendsTransitive | src/formulas/ctl_types.rs:43-67 | keeping every earlier entry is transitive across nested `memoize` calls |
| CtlFormulas.InsertNode | src/formulas/ctl_types.rs:67 | inserting a node as itself, after all its subformulas, keeps the cache canonical and memoizes the node |
| CtlFormulas.AfterLeaf | src/formulas/ctl_types.rs:48-50 | a leaf that is not cached ends up cached as itself |
| CtlFormulas.AfterUnary | src/formulas/ctl_types.rs:51-62 | a unary node is memoized once its operand is |
| CtlFormulas.AfterBinary | src/formulas/ctl_types.rs:52-64 | a binary node is memoized once both operands are, left then right |
| CtlFormulas.Memoize | src/formulas/ctl_types.rs:38-69 | returns a formula equal to its input; afterwards the formula and every subformula are keys mapped to themselves; earlier entries are untouched, only subformula keys are added, and a hit leaves the cache as it was |
| CtlFormulas.MemoizeGrowth | src/formulas/ctl_types.rs:43-67 | one `memoize` grows the cache by at most `total_size` of its argument |
| CtlFormulas.CTLFactory.Default | src/formulas/ctl_types.rs:93-96 | the default factory has an empty cache |
| CtlFormulas.CTLFactory.constructor | src/formulas/ctl_types.rs:99-101 | a factory over a canonical cache holds that cache |
| CtlFormulas.CTLFactory.Create | src/formulas/ctl_types.rs:102-108 | returns a formula equal to its input; the cache gains exactly the subformulas; `actual_size` never decreases and grows by at most `total_size` |
| CtlFormulas.CTLFactory.ActualSize | src/formulas/ctl_types.rs:106-108 | definition: the number of cache entries; stated through `CtlFormulas.CTLFactory.Create`, whose ensures bound its growth |
| CtlFormulas.MemoizeCtl | src/formulas/ctl_types.rs:111-115 | memoizing against a fresh cache returns a formula equal to the input |
| LtlFormulas.TotalSize | src/formulas/ltl_types.rs:66-81 | every formula has size at least 1 |
| LtlFormulas.SubformulasBound | src/formulas/ltl_types.rs:66-81 | a formula has no more distinct subformulas than `total_size` counts nodes |
| LtlFormulas.ExtendsTransitive | src/formulas/ltl_types.rs:41-63 | keeping every earlier entry is transitive across nested `memoize` calls |
| LtlFormulas.InsertNode | src/formulas/ltl_types.rs:63 | inserting a node as itself, after all its subformulas, keeps the cache canonical and memoizes the node |
| LtlFormulas.AfterLeaf | src/formulas/ltl_types.rs:46-48 | a leaf that is not cached ends up cached as itself |
| LtlFormulas.AfterUnary | src/formulas/ltl_types.rs:49-57 | a unary node is memoized once its operand is |
| LtlFormulas.AfterBinary | src/formulas/ltl_types.rs:50-60 | a binary node is memoized once both operands are, left then right |
| LtlFormulas.Memoize | src/formulas/ltl_types.rs:36-65 | returns a formula equal to its input; afterwards the formula and every subformula are keys mapped to themselves; earlier entries are untouched, and a hit leaves the cache as it was |
| LtlFormulas.MemoizeGrowth | src/formulas/ltl_types.rs:41-63 | one `memoize` grows the cache by at most `total_size` of its argument |
| LtlFormulas.LTLFactory.Default | src/formulas/ltl_types.rs:84-87 | the default factory has an empty cache |
| LtlFormulas.LTLFactory.constructor | src/formulas/ltl_types.rs:90-92 | a factory over a canonical cache holds that cache |
| LtlFormulas.LTLFactory.Create | src/formulas/ltl_types.rs:93-99 | returns a formula equal to its input; the cache gains exactly the subformulas; `actual_size` never decreases and grows by at most `total_size` |
| LtlFormulas.LTLFactory.ActualSize | src/formulas/ltl_types.rs:97-99 | definition: the number of cache entries; stated through `LtlFormulas.LTLFactory.Create`, whose ensures bound its growth |
| LtlFormulas.MemoizeLtl | src/formulas/ltl_types.rs:102-106 | memoizing against a fresh cache returns a formula equal to the input |
| CtlSemantics.Weight | src/satisfies/ctl_solver.rs:117-176 | every formula weighs at least 1 |
| CtlSemantics.Rewrite | src/satisfies/ctl_solver.rs:117-176 | each rewrite the solver solves instead weighs less than the formula it replaces, so the recursion terminates |
| CtlSemantics.ImpliesRLighter | src/satisfies/ctl_solver.rs:117-120 | `l -> r` is rewritten into a lighter `!l or r` |
| CtlSemantics.ImpliesLLighter | src/satisfies/ctl_solver.rs:121-124 | `l <- r` is rewritten into a lighter `l or !r` |
| CtlSemantics.BiImpliesLighter | src/satisfies/ctl_solver.rs:125-134 | `l <-> r` is rewritten into a lighter conjunction of both implications |
| CtlSemantics.AXLighter | src/satisfies/ctl_solver.rs:135-138 | `AX f` is rewritten into a lighter `!EX !f` |
| CtlSemantics.AULighter | src/satisfies/ctl_solver.rs:144-156 | the `AU` rewrite is lighter than `A[l U r]` |
| CtlSemantics.EFLighter | src/satisfies/ctl_solver.rs:161-164 | `EF f` is rewritten into a lighter `E[TOP U f]` |
| CtlSemantics.EGLighter | src/satisfies/ctl_solver.rs:169-172 | `EG f` is rewritten into a lighter `!AF !f` |
| CtlSemantics.AGLighter | src/satisfies/ctl_solver.rs:173-176 | `AG f` is rewritten into a lighter `!EF !f` |
| CtlSemantics.Grows | src/satisfies/ctl_solver.rs:62-68 | a pass that changes the working set strictly grows it, up to the number of states |
| CtlSemantics.Shrinks | src/satisfies/ctl_solver.rs:169-172 | a pass of the greatest-fixpoint iteration that changes the set strictly shrinks it |
| CtlSemantics.EUIterate | src/satisfies/ctl_solver.rs:53-69 | the `EU` iteration contains its start and stays within the states |
| CtlSemantics.AFIterate | src/satisfies/ctl_solver.rs:75-84 | the `AF` iteration contains its start and stays within the states |
| CtlSemantics.EGIterate | src/satisfies/ctl_solver.rs:169-172 | the `EG` iteration stays within its start |
| CtlSemantics.AGIterate | src/satisfies/ctl_solver.rs:173-176 | the `AG` iteration stays within its start |
| CtlSemantics.EUIterateLeast | src/satisfies/ctl_solver.rs:53-69 | iterating from below every closed set ends in the least set that contains `rhs` and every `lhs` state with a successor in it |
| CtlSemantics.LeastEU | src/satisfies/ctl_solver.rs:43-70 | `sat_eu` yields the least Y with Sat(rhs) ⊆ Y and pre_e(Y) ∩ Sat(lhs) ⊆ Y |
| CtlSemantics.AFIterateLeast | src/satisfies/ctl_solver.rs:75-84 | iterating from below every closed set ends in the least set that contains `f` and every state all of whose successors are in it |
| CtlSemantics.LeastAF | src/satisfies/ctl_solver.rs:71-85 | `sat_af` yields the least Y with Sat(f) ⊆ Y and pre_a(Y) ⊆ Y |
| CtlSemantics.EGIterateGreatest | src/satisfies/ctl_solver.rs:169-172 | the `EG` iteration ends in the greatest set inside `f` whose states all have a successor in it |
| CtlSemantics.GreatestEG | src/satisfies/ctl_solver.rs:169-172 | `EG f` is the greatest set inside Sat(f) closed under having a successor in it |
| CtlSemantics.AGIterateGreatest | src/satisfies/ctl_solver.rs:173-176 | the `AG` iteration ends in the greatest set inside `f` all of whose states have every successor in it |
| CtlSemantics.GreatestAG | src/satisfies/ctl_solver.rs:173-176 | `AG f` is the greatest set inside Sat(f) closed under all successors |
| CtlSemantics.PreADual | src/satisfies/ctl_solver.rs:135-138 | pre_a(X) is the complement of pre_e of the complement of X |
| CtlSemantics.EGDual | src/satisfies/ctl_solver.rs:169-172 | the `EG` fixpoint is the complement of the `AF` fixpoint of the complement |
| CtlSemantics.AGDual | src/satisfies/ctl_solver.rs:173-176 | the `AG` fixpoint is the complement of the `EF` fixpoint of the complement |
| CtlSemantics.Sat | src/satisfies/ctl_solver.rs:91-177 | every satisfaction set is a set of states of the model |
| CtlSemantics.ImpliesRAsOr | src/satisfies/ctl_solver.rs:117-120 | `l -> r` holds where `!l or r` holds: complement of Sat(l) united with Sat(r) |
| CtlSemantics.ImpliesLAsOr | src/satisfies/ctl_solver.rs:121-124 | `l <- r` holds where `l or !r` holds |
| CtlSemantics.BiImpliesAsAnd | src/satisfies/ctl_solver.rs:125-134 | `l <-> r` holds where both implications hold |
| CtlSemantics.AXAsNegEX | src/satisfies/ctl_solver.rs:135-142 | `AX f` equals `!EX !f`, and a state with no successors satisfies every `AX f` and no `EX f` |
| CtlSemantics.EFAsEU | src/satisfies/ctl_solver.rs:161-164 | `EF f` equals `E[TOP U f]` |
| CtlSemantics.EGAsNegAF | src/satisfies/ctl_solver.rs:169-172 | `EG f` equals `!AF !f` |
| CtlSemantics.AGAsNegEF | src/satisfies/ctl_solver.rs:173-176 | `AG f` equals `!EF !f` |
| CtlSemantics.AFAsNegEG | src/satisfies/ctl_solver.rs:165-172 | `AF f` equals `!EG !f` |
| CtlSemantics.RewritePreservesSat | src/satisfies/ctl_solver.rs:117-176 | every rewrite the solver makes has the satisfaction set of the formula it replaces |
| CtlSemantics.AUStandard | src/satisfies/ctl_solver.rs:144-156 | the textbook `A[l U r]` is a set of states |
| CtlSemantics.AUStandardReaches | src/satisfies/ctl_solver.rs:144-156 | every state of the textbook `A[l U r]` satisfies `AF r` |
| CtlSemantics.AUStandardLocal | src/satisfies/ctl_solver.rs:144-156 | every state of the textbook `A[l U r]` satisfies `l` or `r` |
| CtlSemantics.AUStandardWithinSolver | src/satisfies/ctl_solver.rs:144-156 | the textbook `A[l U r]` is contained in the solver's |
| CtlSolver.EUFixpoint | src/satisfies/ctl_solver.rs:53-69 | the loop returns the least set containing the start and every base state with a successor in it |
| CtlSolver.AFFixpoint | src/satisfies/ctl_solver.rs:75-84 | the loop returns the least set containing the start and every state all of whose successors are in it |
| CtlSolver.SolverInner.constructor | src/satisfies/ctl_solver.rs:212 | the solver starts from the given memo map |
| CtlSolver.SolverInner.Memoise | src/satisfies/ctl_solver.rs:23-39 | records the set under the formula, returns it, and keeps every entry equal to `Sat` of its key |
| CtlSolver.SolverInner.SatEX | src/satisfies/ctl_solver.rs:40-42 | returns exactly the states satisfying `EX f` |
| CtlSolver.SolverInner.SatEU | src/satisfies/ctl_solver.rs:43-70 | returns exactly the states satisfying `E[l U r]` |
| CtlSolver.SolverInner.SatAF | src/satisfies/ctl_solver.rs:71-85 | returns exactly the states satisfying `AF f` |
| CtlSolver.SolverInner.Solve | src/satisfies/ctl_solver.rs:86-178 | returns exactly `Sat` of the formula; a memo hit returns the entry and leaves the map as it was; afterwards the formula is a key; no key is lost; every entry stays sound |
| CtlSolver.SolverInner.SolveRewritten | src/satisfies/ctl_solver.rs:117-176 | a rewritten operator's set is that of its rewrite, and both are recorded |
| CtlSolver.SolverInner.SolveDirect | src/satisfies/ctl_solver.rs:91-168 | `TOP` gives all states, `BOT` none, an atom its labelled states, `!` the complement, `and`/`or` intersection/union, `EX`/`EU`/`AF` their fixpoints, each recorded |
| CtlSolver.CTLSolver.constructor | src/satisfies/ctl_solver.rs:188-194 | a new solver has an empty cache and a fresh empty factory |
| CtlSolver.MergeIsMemo | src/satisfies/ctl_solver.rs:215-226 | adding to a sound cache the entries it lacks from a sound memo that extends it gives exactly that memo, so the merge loses no formula and changes no set |
| CtlSolver.CTLSolver.Satisfies | src/satisfies/ctl_solver.rs:195-228 | returns the names of exactly the states satisfying the formula; the formula is cached with its true set; no cached key is lost or changed; a formula already cached leaves the cache as it was |
| CtlExamples.SixStates | python/tests/modelcheckers/test_ctlchecker.py:6-23 | the test model is well formed and has six states |
| CtlExamples.LabelsSixStates | python/tests/modelcheckers/test_ctlchecker.py:37-40 | `p` holds in s1, s2, s3 and `q` in s2, s3, s5, s6 |
| CtlExamples.ImpliesLSixStates | python/tests/modelcheckers/test_ctlchecker.py:71-73 | `p <- q` holds in s1 .. s4 |
| CtlExamples.AXSixStates | python/tests/modelcheckers/test_ctlchecker.py:79-81 | `AX p` holds in s1, s2 and s6 |
| CtlExamples.PreESixStates | python/tests/modelcheckers/test_ctlchecker.py:13-23 | of s1, s2 (and s3), only s1 and s2 have a successor in the set |
| CtlExamples.EGIterateUnfold | src/satisfies/ctl_solver.rs:169-172 | one step of the `EG` iteration |
| CtlExamples.EGStableSixStates | python/tests/modelcheckers/test_ctlchecker.py:166-168 | the `EG` iteration keeps s1, s2 |
| CtlExamples.EGIterateSixStates | python/tests/modelcheckers/test_ctlchecker.py:166-168 | the `EG` iteration from s1, s2, s3 ends in s1, s2 |
| CtlExamples.EGSixStates | python/tests/modelcheckers/test_ctlchecker.py:166-168 | `EG p` holds in s1 and s2 |
| CtlExamples.EUIterateUnfold | src/satisfies/ctl_solver.rs:53-69 | one step of the `EU` iteration |
| CtlExamples.PreEFourSixStates | python/tests/modelcheckers/test_ctlchecker.py:13-23 | the states with a successor in s4 (or s4, s5) are exactly s3 and s5 |
| CtlExamples.EUNegQSixStates | src/satisfies/ctl_solver.rs:144-156 | the `EU` part of the `A[p U q]` rewrite holds only in s4 |
| CtlExamples.EUNegPSixStates | src/satisfies/ctl_solver.rs:144-156 | the `EU` part of the `A[q U p]` rewrite holds in s4 and s5 |
| CtlExamples.EGEmptiesSixStates | src/satisfies/ctl_solver.rs:169-172 | the `EG` iteration empties {s5} |
| CtlExamples.EGNegPSixStates | src/satisfies/ctl_solver.rs:169-172 | `EG !p` holds nowhere on the test model |
| CtlExamples.EGNegQSixStates | src/satisfies/ctl_solver.rs:169-172 | `EG !q` holds in s1 and s4 |
| CtlExamples.AUFromSets | src/satisfies/ctl_solver.rs:144-156 | the solver's `A[l U r]` as set algebra over the sets of `l` and `r` |
| CtlExamples.AllSixStates | python/tests/modelcheckers/test_ctlchecker.py:25-34 | the test model's states are the indices 0 .. 5 |
| CtlExamples.ComplementSixStates | python/tests/modelcheckers/test_ctlchecker.py:42-45 | complements within the test model |
| CtlExamples.AUpqSixStates | python/tests/modelcheckers/test_ctlchecker.py:99-106 | `A[p U q]` holds in all six states |
| CtlExamples.AUqpSixStates | python/tests/modelcheckers/test_ctlchecker.py:96-98 | `A[q U p]` holds in s1, s2, s3 and s6 |
| CtlExamples.Loop | src/satisfies/ctl_solver.rs:144-156 | a one-state model whose state is its own successor |
| CtlExamples.AUSolverExceedsStandard | src/satisfies/ctl_solver.rs:144-156 | on that model `AF p` holds nowhere and the textbook `A[TOP U p]` holds nowhere, yet the solver's `A[TOP U p]` holds in the state |
| IsplKinds.ToRaw | src/ispl/tokenizer.rs:56-60 | the raw value is the kind's position in declaration order |
| IsplKinds.FromRaw | src/ispl/tokenizer.rs:66-69 | a raw value converts to a kind exactly when it is at most that of `ROOT` |
| IsplKinds.RawRoundTrip | src/ispl/kinds.rs:4-130 | whitespace is 0, every kind is at most `ROOT`, and converting to raw and back gives the same kind |
| IsplKinds.FromRawRoundTrip | src/ispl/tokenizer.rs:66-72 | converting a raw value up to `ROOT` to a kind and back gives the same raw value |
| IsplKinds.IsErr | src/ispl/kinds.rs:135-146 | definition: the seven error kinds; stated through `IsplKinds.TriviaLayout` |
| IsplKinds.IsTrivia | src/ispl/kinds.rs:149-151 | definition: comments, whitespace and errors; stated through `IsplKinds.TriviaLayout` |
| IsplKinds.TriviaLayout | src/ispl/kinds.rs:135-151 | `is_err` holds for exactly the seven error kinds; `is_trivia` exactly for comments, whitespace and errors; whitespace and comments are trivia but not errors |
| Lexing.TakeWhileLen | src/ispl/tokenizer.rs:128-140 | the length of the longest prefix satisfying the predicate: every character before it satisfies it and the next does not |
| Lexing.TakeWhileLenUnique | src/ispl/tokenizer.rs:128-140 | that prefix length is the only one with those properties |
| Lexing.VarAt | src/ispl/tokenizer.rs:141-154 | a name exists exactly when the first character is alphabetic; it is then the maximal prefix of name characters |
| Lexing.ErrLen | src/ispl/tokenizer.rs:155-160 | runs up to the next newline, or to the end of the input when that would be nothing |
| Lexing.RemoveWhitespace | src/ispl/tokenizer.rs:281-287 | the result has no whitespace and is no longer than its input |
| Lexing.RemoveWhitespaceAppend | src/ispl/tokenizer.rs:281-287 | removing whitespace distributes over concatenation |
| Lexing.RemoveWhitespaceNone | src/ispl/tokenizer.rs:281-287 | a text without whitespace is left as it is |
| Lexing.IsValidStartVarChar | src/ispl/tokenizer.rs:4-6 | definition: a name starts with a letter; stated through `Lexing.VarAt`, whose result exists exactly when the first character passes it |
| Lexing.StrayAtTop | src/ispl/tokenizer.rs:203-210 | definition: a first character that is not whitespace, does not start `--` and cannot start a name; stated through the tokenizers' `Next`, `NextInner` and `Lexeme`, which lex it as a top-level error |
| Lexing.StatementLen | src/ispl/tokenizer.rs:279-280 | the length of a `Semantics` statement after its keyword: non-empty, within the input, and containing the `;` |
| Lexing.SemicolonRun | src/ispl/tokenizer.rs:279-280 | the run before the first `;` reaches the end exactly when there is no `;`; otherwise the `;` is a stray top-level character, and the statement length is that run plus the error span from the `;` to the newline (src/ispl/tokenizer.rs:155-160) |
| Lexing.State.constructor | src/ispl/tokenizer.rs:183 | a new state starts at offset 0 |
| Lexing.State.Remaining | src/ispl/tokenizer.rs:96-98 | the rest of the input from the offset |
| Lexing.State.Peek | src/ispl/tokenizer.rs:99-101 | the first character of the rest of the input, and none exactly when nothing is left |
| Lexing.State.PeekChar | src/ispl/tokenizer.rs:102-104 | the first non-whitespace character ahead, and none exactly when only whitespace is left |
| Lexing.State.Peek2 | src/ispl/tokenizer.rs:105-110 | as written: both halves are the next character |
| Lexing.State.PeekTwo | src/ispl/tokenizer.rs:105-110 | the next two characters, each present exactly when the input reaches that far |
| Lexing.State.Next | src/ispl/tokenizer.rs:111-117 | returns the next character and steps past it, or none at the end |
| Lexing.State.StartsWithBump | src/ispl/tokenizer.rs:118-124 | true exactly when the rest starts with the string, and then steps past it |
| Lexing.State.StrSince | src/ispl/tokenizer.rs:125-127 | the text from an earlier offset to the current one |
| Lexing.State.ConsumeWhile | src/ispl/tokenizer.rs:128-140 | steps over the longest prefix satisfying the predicate and returns its length |
| Lexing.State.ConsumeVar | src/ispl/tokenizer.rs:141-154 | returns the name ahead, stepping over it, or none without moving |
| Lexing.State.ConsumeErr | src/ispl/tokenizer.rs:155-160 | steps to the next newline, or to the end when the next character is a newline |
| Lexing.Peek2MissesArrow | src/ispl/tokenizer.rs:105-110 | before `->`, `peek2` never returns `(-, >)`, though the next two characters are exactly that |
| Lexing.PushNested | src/ispl/tokenizer.rs:196-556 | every push the tokenizer makes keeps the stack well nested |
| Lexing.PopNested | src/ispl/tokenizer.rs:191-194 | popping keeps the stack well nested |
| Lexing.NestedTop | src/ispl/tokenizer.rs:212-273 | after `Agent` the stack is only that marker; an ended marker always sits on a block |
| IsplTokenizer.IsValidVarChar | src/ispl/tokenizer.rs:7-9 | definition: letters, digits and `_ $ @ #`; stated through `IsplTokenizer.VarCharsContinueStart` and `Lexing.VarAt` |
| IsplTokenizer.VarCharsContinueStart | src/ispl/tokenizer.rs:4-9 | every character that can start a name can continue one |
| IsplTokenizer.ParseVar | src/ispl/tokenizer.rs:26-54 | definition; stated through `IsplTokenizer.ParseVarKind` |
| IsplTokenizer.ParseInnerBlockName | src/ispl/tokenizer.rs:11-24 | definition; stated through `IsplTokenizer.ParseInnerBlockNameKind` |
| IsplTokenizer.KeywordKind | src/ispl/tokenizer.rs:463-487 | definition: the table of operator and literal words; stated through `IsplTokenizer.Tokenizer.Word` |
| IsplTokenizer.SemanticsKind | src/ispl/tokenizer.rs:281-296 | definition: the four accepted statement texts; stated through `IsplTokenizer.Tokenizer.TopLevel` and the worked examples |
| IsplTokenizer.OuterBlockKind | src/ispl/tokenizer.rs:302-321 | definition: the five outer block names `Evaluation`, `InitStates`, `Groups`, `Fairness`, `Formulae` and their begin kinds; stated through `IsplTokenizer.Tokenizer.TopLevel` and `IsplTokenizer.Tokenizer.OpenBlock` |
| IsplTokenizer.ParseVarKind | src/ispl/tokenizer.rs:26-54 | the 19 reserved words give the keyword error; `Environment`, `Action`, `Other`, `none` their own kinds; anything else the expected kind; the result is an error exactly for reserved words or an error expected |
| IsplTokenizer.ParseInnerBlockNameKind | src/ispl/tokenizer.rs:11-24 | the result is the block error exactly when the name is not one of the nine block names, and distinct block names get distinct kinds |
| IsplTokenizer.Tokenizer.constructor | src/ispl/tokenizer.rs:180-188 | a new tokenizer is at offset 0 with an empty stack and empty name tables |
| IsplTokenizer.Tokenizer.PopCtx | src/ispl/tokenizer.rs:191-194 | pops the given context off the top |
| IsplTokenizer.Tokenizer.PushCtx | src/ispl/tokenizer.rs:298-321 | pushes a context, keeping the stack well nested |
| IsplTokenizer.Tokenizer.Next | src/ispl/tokenizer.rs:560-567 | the token's text is the input between the offsets before and after; it is non-empty; none only at the end of the input or for an unterminated `Semantics`; the name tables only grow; at top level a stray character gives the unexpected-top-level error running to the end of the line |
| IsplTokenizer.Tokenizer.NextInner | src/ispl/tokenizer.rs:196-210 | none exactly at the end of the input (or an unterminated `Semantics`); a whitespace run is one whitespace token; `--` starts a comment token that ends before the newline; at top level a stray character gives the unexpected-top-level error up to the newline |
| IsplTokenizer.Tokenizer.Lexeme | src/ispl/tokenizer.rs:212-329 | dispatches on the top of the stack; inside a block there is always a token; at top level a character that cannot start a name gives the unexpected-top-level error up to the newline, with the stack left empty |
| IsplTokenizer.Tokenizer.AgentName | src/ispl/tokenizer.rs:212-229 | after `Agent` the agent block opens; a name is recorded and gives the agent-name kind (`Environment` its own); no name gives the expected-name error to the end of the line |
| IsplTokenizer.Tokenizer.BlockName | src/ispl/tokenizer.rs:231-273 | after `end` the block's own name closes it; another name gives the invalid-close error; no name gives the expected-name error |
| IsplTokenizer.Tokenizer.TopLevel | src/ispl/tokenizer.rs:276-326 | at top level `Agent` and the five outer block names push their context and give their begin kind; `Semantics` gives a token exactly when a `;` follows, spanning the keyword and `Lexing.StatementLen` more characters, with its kind from `SemanticsKind` of the whitespace-free text; any other word, or none, gives the unexpected-top-level error up to the newline and leaves the stack empty |
| IsplTokenizer.Tokenizer.Semantics | src/ispl/tokenizer.rs:278-297 | no token exactly when no `;` is left; otherwise the token ends `Lexing.StatementLen` characters on, just before the newline after the `;` (or at the end of the input), and its whitespace-free text gives `SA` for `Semantics=SA;` or `Semantics=SingleAssignment;`, `MA` for the two multi-assignment forms, and the top-level error otherwise |
| IsplTokenizer.Tokenizer.OpenBlock | src/ispl/tokenizer.rs:298-325 | `Agent` pushes the agent marker; the five outer block names push their block and give its begin kind; any other word, or none, gives the unexpected-top-level error up to the newline with the stack left empty |
| IsplTokenizer.Tokenizer.Symbol | src/ispl/tokenizer.rs:329-556 | every character inside a block gives a token; as written, `<->` gives the implies-left kind |
| IsplTokenizer.Tokenizer.OpenBrace | src/ispl/tokenizer.rs:341-354 | `{` opens a group in `Groups`, an enum in an inner block and a set elsewhere |
| IsplTokenizer.Tokenizer.CloseBrace | src/ispl/tokenizer.rs:355-369 | `}` closes a group, enum or set definition on top of the stack, and is an error with the stack unchanged otherwise |
| IsplTokenizer.Tokenizer.Operator | src/ispl/tokenizer.rs:378-419 | the operators starting with `<`, `>`, `-`, `=` always give a token; the `peek2` arm for `<->` is proved dead, so after `<` a following `->` falls to the implies-left arm, which lexes the rest with a nested `next` |
| IsplTokenizer.Tokenizer.OperatorFixed | src/ispl/tokenizer.rs:378-382 | with the two characters ahead looked at, `<->` gives the bi-implication kind, consumes exactly `->` after the `<` and leaves the stack and name tables unchanged; other input goes to `Operator` |
| IsplTokenizer.Tokenizer.LessThan | src/ispl/tokenizer.rs:421-456 | `<` opens a group expression exactly when the next name after whitespace is a recorded group, and is less-than otherwise |
| IsplTokenizer.Tokenizer.Word | src/ispl/tokenizer.rs:461-488 | a word is the maximal run of name characters; the keywords give their kinds without touching the stack or the tables |
| IsplTokenizer.Tokenizer.End | src/ispl/tokenizer.rs:489-503 | `end` in an agent, outer or inner block marks it ended; elsewhere it is the invalid-close error |
| IsplTokenizer.Tokenizer.Name | src/ispl/tokenizer.rs:504-552 | names in an enum definition or `Groups` are recorded; group definitions and expressions check against agents and groups; `=` or `:` after a name opens an inner block; elsewhere enum literal, then agent, then variable; reserved words give errors |
| IsplTokenizer.Tokenize | src/ispl/tokenizer.rs:569-572 | every token is non-empty, the texts put together are a prefix of the input, and what is left is an unterminated `Semantics` statement |
| ParserTokenizer.ToRaw | src/parser.rs:109-113 | the raw value is the kind's position in declaration order |
| ParserTokenizer.FromRaw | src/parser.rs:119-122 | a raw value converts to a kind exactly when it is at most that of `ROOT` |
| ParserTokenizer.RawRoundTrip | src/parser.rs:7-99 | whitespace is 0, every kind is at most `ROOT`, and converting to raw and back gives the same kind |
| ParserTokenizer.IsValidVarChar | src/parser.rs:105-107 | definition: letters, digits and `_ - $ ^ @ #`; stated through `Lexing.VarAt` |
| ParserTokenizer.ModalKind | src/parser.rs:490-496 | definition: the one-letter operators `X F G U A E K`; stated through `ParserTokenizer.Tokenizer.Symbol` |
| ParserTokenizer.KeywordKind | src/parser.rs:515-521 | definition: the table of literal and connective words; stated through `ParserTokenizer.Tokenizer.Word` |
| ParserTokenizer.OuterBlockKind | src/parser.rs:336-355 | definition: the five outer block names and their begin kinds; stated through `ParserTokenizer.Tokenizer.TopLevel` and `ParserTokenizer.Tokenizer.OpenBlock` |
| ParserTokenizer.Tokenizer.constructor | src/parser.rs:232-241 | a new tokenizer is at offset 0 with an empty stack and empty name tables |
| ParserTokenizer.Tokenizer.PopCtx | src/parser.rs:244-247 | pops the given context off the top |
| ParserTokenizer.Tokenizer.PushCtx | src/parser.rs:332-355 | pushes a context, keeping the stack well nested |
| ParserTokenizer.Tokenizer.Next | src/parser.rs:578-585 | the token's text is the input between the offsets before and after; it is non-empty; none only at the end of the input or for an unterminated `Semantics`; the name tables only grow; at top level a stray character gives an error token running to the end of the line |
| ParserTokenizer.Tokenizer.NextInner | src/parser.rs:249-263 | none exactly at the end of the input (or an unterminated `Semantics`); a whitespace run is one whitespace token; `--` starts a comment token that ends before the newline; at top level a stray character gives an error token up to the newline |
| ParserTokenizer.Tokenizer.Lexeme | src/parser.rs:265-363 | dispatches on the top of the stack; inside a block there is always a token; at top level a character that cannot start a name gives an error token up to the newline, with the stack left empty |
| ParserTokenizer.Tokenizer.AgentName | src/parser.rs:265-278 | after `Agent` the agent block opens; a name is recorded and gives the agent-name kind; no name gives an error to the end of the line |
| ParserTokenizer.Tokenizer.BlockName | src/parser.rs:280-323 | after `end` the block's own name closes it; anything else is an error |
| ParserTokenizer.Tokenizer.TopLevel | src/parser.rs:325-361 | at top level `Agent` and the five outer block names push their context and give their begin kind; `Semantics` gives one semantics token exactly when a `;` follows, spanning the keyword and `Lexing.StatementLen` more characters; anything else is an error to the end of the line with the stack empty |
| ParserTokenizer.Tokenizer.Semantics | src/parser.rs:327-331 | no token exactly when no `;` is left; otherwise one semantics token that ends `Lexing.StatementLen` characters on, just before the newline after the `;` (or at the end of the input) (the error span is src/parser.rs:208-213) |
| ParserTokenizer.Tokenizer.OpenBlock | src/parser.rs:332-360 | `Agent` pushes the agent marker; the five outer block names push their block and give its begin kind; any other word, or none, gives an error up to the newline with the stack left empty |
| ParserTokenizer.Tokenizer.Symbol | src/parser.rs:363-574 | every character inside a block gives a token; as written, `<->` gives the implies-left kind; `X F G U A E K` are one-letter operators directly inside `Formulae` |
| ParserTokenizer.Tokenizer.OpenBrace | src/parser.rs:371-384 | `{` opens a group in `Groups`, an enum in an inner block and a set elsewhere |
| ParserTokenizer.Tokenizer.CloseBrace | src/parser.rs:385-399 | `}` closes a group, enum or set definition on top of the stack, and is an error with the stack unchanged otherwise |
| ParserTokenizer.Tokenizer.Operator | src/parser.rs:412-447 | the operators starting with `<`, `>`, `-`, `=` always give a token; the `peek2` arm for `<->` is proved dead, so after `<` a following `->` falls to the implies-left arm, which lexes the rest with a nested `next` |
| ParserTokenizer.Tokenizer.OperatorFixed | src/parser.rs:412-416 | with the two characters ahead looked at, `<->` gives the bi-implication kind, consumes exactly `->` after the `<` and leaves the stack and name tables unchanged; other input goes to `Operator` |
| ParserTokenizer.Tokenizer.LessThan | src/parser.rs:449-485 | `<` opens a group expression exactly when the next name after whitespace is a recorded group, and is less-than otherwise |
| ParserTokenizer.Tokenizer.Word | src/parser.rs:497-521 | a word is the maximal run of name characters; `none and or if true false boolean` give their kinds without touching the stack or the tables |
| ParserTokenizer.Tokenizer.End | src/parser.rs:500-514 | `end` in an agent, outer or inner block marks it ended; elsewhere it is an error |
| ParserTokenizer.Tokenizer.Name | src/parser.rs:522-570 | names in an enum definition or `Groups` are recorded; group definitions and expressions check against agents and groups; `=` or `:` after a name opens an inner block; elsewhere enum literal, then agent, then variable |
| ParserTokenizer.Tokenize | src/parser.rs:587-589 | every token is non-empty, the texts put together are a prefix of the input, and what is left is an unterminated `Semantics` statement |
| TokenizerExamples.SemanticsWord | src/ispl/tokenizer.rs:276-278 | both tokenizers read `Semantics` as the first word of `Semantics=...` |
| TokenizerExamples.AssignmentLen | src/ispl/tokenizer.rs:279-280 | the statement after the keyword in `Semantics=SA;` is the whole rest of the input |
| TokenizerExamples.TrailingWordLen | src/ispl/tokenizer.rs:279-280 | text after the `;` on the same line belongs to the statement |
| TokenizerExamples.AssignmentText | src/ispl/tokenizer.rs:291 | `Semantics=SA;` is the single-assignment statement |
| TokenizerExamples.TrailingWordText | src/ispl/tokenizer.rs:281-296 | `Semantics=SA;X` is not one of the four known statements |
| TokenizerExamples.IsplSingleAssignment | src/ispl/tokenizer.rs:276-297 | on `Semantics=SA;` the first token is the single-assignment kind and covers the whole input |
| TokenizerExamples.IsplTrailingWord | src/ispl/tokenizer.rs:276-297 | on `Semantics=SA;X` the first token covers the whole input and is the unexpected-top-level error |
| TokenizerExamples.ParserSingleAssignment | src/parser.rs:327-331 | the older tokenizer reads `Semantics=SA;` as one semantics token covering the whole input |

## Left out

- Memory management is not modelled: the arena, `Rc`, `Cow`, lifetimes, `RefCell` and the `transmute` in `kind_from_raw`. Formulas and sets are values, so sharing is value equality.
- `memoise_alloc` and `memoise_ref` differ only in whether the set is moved into the arena, so both are `Memoise`.
- The concrete model type (`src/models/model.rs`) is not part of this model. States, successors, labels and names are sequences.
- Kripke.PreA: a state without successors is in every `pre_a`. The real `pre_a_idx` is not visible, and every test model has a successor for each state.
- The custom-operator registry and `CTLChecker` (`src/modelcheckers/ctl_checker.rs`) are not part of this model.
- The Python bindings, the formula text parsers, the parser error messages and the file-reading tests are not part of this model.
- Unicode classification is left out. `is_alphabetic` and `is_alphanumeric` are ASCII letters and digits. `is_whitespace` is the Unicode White_Space list.
- UTF-8 byte lengths are left out: offsets count characters, not bytes.
- `debug_assert_eq!` in `pop_ctx` becomes a precondition of `PopCtx`.
- The `_` arm after `end` (src/ispl/tokenizer.rs:267-272, src/parser.rs:316-321) cannot be reached: the stack invariant always places an ended marker on a block. `BlockName` therefore has no such branch.
- IsplTokenizer.Tokenizer.Symbol: states that there is a token, and the kind for `<->`, not the kind of each single character; the other kinds are stated by the members it calls.
- IsplTokenizer.Tokenizer.Operator: states that there is a token and the kind for `<->`, not which operator kind each other character pair gives; on `<->` it states the implies-left kind and that input is consumed, not how far the nested `next` reads (it lexes `->` as a whole token, whose `>` may close a group expression).
- ParserTokenizer.Tokenizer.Symbol: same as the ISPL one; besides `<->`, only the one-letter operators inside `Formulae` are stated outright.
- ParserTokenizer.Tokenizer.Operator: same as the ISPL one.
- CtlFormulas.CTLFactory.constructor: only a canonical cache (every key mapped to itself, closed under subformulas) is modelled; `CTLFactory::new` accepts any map, and over a map such as `{TOP ↦ BOT}` `create` would hand back a formula different from its argument, which the model does not describe.
- LtlFormulas.LTLFactory.constructor: the same restriction for `LTLFactory::new`.
- IsplTokenizer.Tokenizer.Lexeme: states only the dispatch-wide facts; each context's kinds are stated by the member it calls.
- ParserTokenizer.Tokenizer.Lexeme: same as the ISPL one.
- IsplTokenizer.Tokenize: does not state the kind of each token, only how the texts cover the input.
- ParserTokenizer.Tokenize: same as the ISPL one.
- The formula macros are left out; they are trivial constructors.

## Findings

| source | as written | input that shows it | evidently intended | confidence | as-written member | corrected member |
|---|---|---|---|---|---|---|
| src/ispl/tokenizer.rs:105-110 | `peek2` returns the next character twice, so the `<->` arm at src/ispl/tokenizer.rs:378-382 never fires | `<->` inside a block: the first character after `<` is `-`, never the pair `(-, >)`, so the implies-left arm takes it | `peek2` returns the next two characters, and `<->` lexes as one bi-implication token | high, not executed | IsplTokenizer.Tokenizer.Operator | IsplTokenizer.Tokenizer.OperatorFixed |
| src/parser.rs:158-163 | the same `peek2`, so the `<->` arm at src/parser.rs:412-416 never fires | `<->` inside a block, as above | as above | high, not executed | ParserTokenizer.Tokenizer.Operator | ParserTokenizer.Tokenizer.OperatorFixed |

Both tokenizers are modelled as written: they call `Peek2`, whose two halves
are the same character (`Lexing.Peek2MissesArrow` shows it cannot see `->`),
so `Operator` and `Symbol` state that `<->` gives the implies-left kind.
`OperatorFixed` is the corrected arm, built on `PeekTwo`: on `<->` it gives the
bi-implication kind and consumes exactly the three characters. The arm in the
source steps twice with the tokenizer's own `next`, which lexes whole tokens:
the second step would take the token after the arrow, and at the end of the
input its `unwrap` would panic. The corrected arm steps over the two
characters of `->` instead.
