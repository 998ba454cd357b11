# PP-Wizardry macro core, modelled in Dafny

PP-Wizardry is a header-only collection of C preprocessor macros. They
count and index variadic argument lists, do bit logic and small-number
comparisons by token pasting, run a foreach loop over the arguments by
forcing repeated rescans, and generate C++ `namespace` and `template<...>`
boilerplate. This project models the four headers that hold that core:
`macro_va.h`, `macro_logic.h`, `macro_eval.h` and `macro_template.h`.

How the model represents the preprocessor:

- A token is known by its spelling (`Tokens.Token`). `Call(callee, arg)`
  stands for the text `callee(arg)` that stays in place because `callee`
  is not a function-like macro.
- A macro's arguments are a sequence of tokens, one per comma-separated
  argument. Its expansion is a sequence of tokens too, with commas as
  ordinary tokens.
- Dispatch by pasting (`MACRO_LOOKUP`/`MACRO_CONCAT` and every family
  `VA_AT<i>`, `EQ<i>`, `NS_END<i>`, `IIF_<c>`...) is taken literally. The
  index's spelling is appended to the family name, and the result is
  looked up in a string-keyed table that lists the family's definitions.
  When the name is undefined, or a macro gets too few arguments, the result
  is `None`: the preprocessor either leaves that text unexpanded or reports
  an arity error.
- Without `## __VA_ARGS__`, an empty variadic part still passes one empty
  argument (`Tokens.Spread`). The macros that use GNU `, ## __VA_ARGS__`
  get the list as it is.
- `B_EVAL` is a tower: each level applies the level below three times,
  down to `B_EVAL4`. The model counts one scan per `B_EVAL4` pass, 243 for
  `B_EVAL`, and ignores the rescans the enclosing levels perform on their
  own replacement lists (so the real budget is larger). The
  `_EACH0`/`_EACH1` ping-pong is a state machine (`Eval.Expansion`), and
  one counted scan advances it by one deferred invocation. The proofs use
  only the rules such a scan obeys (`Eval.IsEachScan`, which
  `Eval.ScannerIsEachScan` shows of the concrete step), not the step
  function itself.

The main results are these:

- every gate matches its truth table;
- `EQ`, `GT`, `GTE`, `LT`, `LTE` and `NEQ` agree with the integer
  comparisons on 0..10, and treat an empty left operand as 1;
- `_EACH` applies its function to every element, once, in order, for
  lists of fewer than 243 elements (one per counted `B_EVAL4` pass);
- `VA_ITERATE` applies END exactly once, on the last argument;
- `NS_START`/`NS_END` open and close the same number of braces;
- `generic(...)` emits `template<class a, ..., class z>`.

## Model

| member | source | states |
|---|---|---|
| `Tokens.SpelledBit` | src/bolt/util/macro_logic.h:36-38 | Only the tokens 0 and 1 are spelled "0" or "1", so only they select a `NOT0`/`NOT1`-style entry. |
| `Tokens.Paste` | src/bolt/util/macro_logic.h:49 | `A ## B` joins the gates' two operands into one name; `Logic.And`, `Logic.Or` and `Logic.Xor` state the truth tables that pasting selects. |
| `Tokens.MacroConcat` | src/bolt/util/macro_va.h:66 | `MACRO_CONCAT(FUNC, INDEX)` forms the name FUNC followed by the spelling of INDEX. `MacroConcatInjective` and `PastedIndex` state what that name determines. |
| `Tokens.SpelledAsNum` | src/bolt/util/macro_va.h:66 | A token spelled as the decimal for n is the number n: no function-call text is spelled as a number. |
| `Tokens.PastedIndex` | src/bolt/util/macro_va.h:60-66 | An index that pastes onto FUNC to the name `FUNC<n>` is the number n itself, so a numbered family resolves only for its own indices. |
| `Tokens.MacroConcatInjective` | src/bolt/util/macro_va.h:66 | Two indices that paste onto the same family name to the same identifier have the same spelling, so dispatch by pasting is unambiguous. |
| `Tokens.FlatMapSingle` | src/bolt/util/macro_eval.h:141 | The reference foreach of a one-element list is the function applied to that element. |
| `Variadic.GetMacro` | src/bolt/util/macro_va.h:109 | For up to ten arguments, `GET_MACRO(FUNC, ...)` is FUNC followed by the decimal argument count. |
| `Variadic.VaCheck` | src/bolt/util/macro_va.h:82-85 | `VA_CHECK` is 0 for a single argument (or none) and the second argument otherwise, which is how a probe that expanded to two arguments is detected. |
| `Variadic.CountdownAt` | src/bolt/util/macro_va.h:101 | Entry j of the countdown `10, 9, ..., 0` is the number 10 - j. |
| `Variadic.VaLength` | src/bolt/util/macro_va.h:101-103 | `VA_LENGTH` is the argument count for up to ten arguments (0 for none). With more, a caller argument is returned instead of a count. |
| `Variadic.VaLengthInc` | src/bolt/util/macro_va.h:117-119 | `VA_LENGTH_INC` as written: the count plus one for one to nine arguments, but 2 for the empty list. |
| `Variadic.VaLengthIncIntended` | src/bolt/util/macro_va.h:117-119 | With the comma elided for an empty list, the count plus one for every list of up to nine arguments, the empty one included. |
| `Variadic.VaLengthIncEmpty` | src/bolt/util/macro_va.h:119 | The empty list tells the two apart: 2 as written, 1 as intended. |
| `Variadic.VaLengthDec` | src/bolt/util/macro_va.h:127-129 | `VA_LENGTH_DEC` is the count minus one for one to eleven arguments and 0 for none. |
| `Variadic.VaAtFamily` | src/bolt/util/macro_va.h:175-185 | `VA_AT` pasted with any index 0..10 names the family member that skips that many arguments. |
| `Variadic.VaAtIndex` | src/bolt/util/macro_va.h:175-185 | Conversely, the only indices for which `VA_AT ## INDEX` names a definition are the numbers 0..10, each naming the member that skips that many arguments. |
| `Variadic.VaAt` | src/bolt/util/macro_va.h:159 | `VA_AT(INDEX, ...)` is argument INDEX when there is one (`VaAtCorrect`), an arity error when there is not (`VaAtTooFew`), and expands for no other index (`VaAtDomain`). |
| `Variadic.VaAtDomain` | src/bolt/util/macro_va.h:159 | Every `VA_AT(INDEX, ...)` that expands has INDEX a number i in 0..10, an argument at position i, and yields that argument. |
| `Variadic.VaAtCorrect` | src/bolt/util/macro_va.h:159 | `VA_AT(i, ...)` is argument i, for i up to 10 and fewer than the number of arguments. |
| `Variadic.VaAtTooFew` | src/bolt/util/macro_va.h:159 | `VA_AT(i, ...)` with no argument at position i is an arity error. |
| `Variadic.VaHead` | src/bolt/util/macro_va.h:137 | `VA_HEAD` is the first argument, or the empty argument for an empty list. |
| `Variadic.VaTail` | src/bolt/util/macro_va.h:148 | `VA_TAIL` is the last argument, for one to eleven arguments. |
| `Variadic.VaSliceAtFamily` | src/bolt/util/macro_va.h:190-200 | `VA_SLICE_AT` pasted with any index 0..10 names the family member that keeps that many leading arguments. |
| `Variadic.VaSliceAtIndex` | src/bolt/util/macro_va.h:190-200 | Conversely, the only indices for which `VA_SLICE_AT ## INDEX` names a definition are the numbers 0..10. |
| `Variadic.VaSliceAt` | src/bolt/util/macro_va.h:168 | `VA_SLICE_AT(INDEX, ...)` is the first INDEX arguments given one more (`VaSliceAtCorrect`), an arity error otherwise (`VaSliceAtTooFew`), and expands for no other index (`VaSliceAtDomain`). |
| `Variadic.VaSliceAtDomain` | src/bolt/util/macro_va.h:168 | Every `VA_SLICE_AT(INDEX, ...)` that expands has INDEX a number i in 0..10 and at least i + 1 arguments, and yields the first i of them. |
| `Variadic.VaSliceAtCorrect` | src/bolt/util/macro_va.h:168 | `VA_SLICE_AT(i, ...)` is the first i arguments, exactly i of them, when at least i + 1 arguments are given. |
| `Variadic.VaSliceAtZero` | src/bolt/util/macro_va.h:190 | `VA_SLICE_AT(0, ...)` is the empty slice of every list. |
| `Variadic.VaSliceAtTooFew` | src/bolt/util/macro_va.h:168 | `VA_SLICE_AT(i, ...)` with i or fewer arguments is an arity error: the family needs one argument more than it returns. |
| `Logic.Not` | src/bolt/util/macro_logic.h:36-38 | `NOT` of a bit is its complement, and `NOT` resolves only for a bit. |
| `Logic.NotInvolution` | src/bolt/util/macro_logic.h:36-38 | `NOT(NOT(c))` is c for every bit c. |
| `Logic.And` | src/bolt/util/macro_logic.h:49-53 | On two bits, `AND` is 1 exactly when both are 1. |
| `Logic.Or` | src/bolt/util/macro_logic.h:63-67 | On two bits, `OR` is 1 exactly when either is 1. |
| `Logic.Xor` | src/bolt/util/macro_logic.h:77-81 | On two bits, `XOR` is 1 exactly when they differ. |
| `Logic.Nand` | src/bolt/util/macro_logic.h:58 | On two bits, `NAND` is the negation of their conjunction. |
| `Logic.Nor` | src/bolt/util/macro_logic.h:72 | On two bits, `NOR` is the negation of their disjunction. |
| `Logic.Xnor` | src/bolt/util/macro_logic.h:86 | On two bits, `XNOR` is 1 exactly when they are equal. |
| `Logic.EqRow` | src/bolt/util/macro_logic.h:107-117 | Row `EQ<k>` exists for k in 0..10, has 11 bits, and has a 1 exactly at position k. |
| `Logic.GtRow` | src/bolt/util/macro_logic.h:122-132 | Row `GT<k>` exists for k in 0..10, has 11 bits, and has a 1 exactly at the positions greater than k. |
| `Logic.EqIndex` | src/bolt/util/macro_logic.h:107-117 | Only the numbers 0..10 select a row `EQ<k>`. |
| `Logic.GtIndex` | src/bolt/util/macro_logic.h:122-132 | Only the numbers 0..10 select a row `GT<k>`. |
| `Logic.RowEntry` | src/bolt/util/macro_logic.h:95-98 | `MACRO_LOOKUP(VA_AT, A)` applied to a row: `VA_AT<A>` for a number A, and for an empty A the live `VA_AT`, which indexes the rest of the row by its first entry; `EqBlank` and `GtBlank` state the result. |
| `Logic.Eq` | src/bolt/util/macro_logic.h:95 | `EQ(A, B)` is entry A of row `EQ<B>`: on 0..10 it is 1 exactly when A = B (`EqCorrect`), an empty A compares as 1 (`EqBlank`), and it expands on no other operands (`EqDomain`). |
| `Logic.Gt` | src/bolt/util/macro_logic.h:98 | `GT(LHS, RHS)` is entry LHS of row `GT<RHS>`: on 0..10 it is 1 exactly when LHS > RHS (`GtCorrect`), an empty LHS compares as 1 (`GtBlank`), and it expands on no other operands (`GtDomain`). |
| `Logic.Neq` | src/bolt/util/macro_logic.h:96 | `NEQ` is `NOT(EQ)`: 1 exactly when the operands differ (`NeqCorrect`), an empty left operand compares as 1 (`NeqBlank`), no other operands expand (`NeqDomain`). |
| `Logic.Gte` | src/bolt/util/macro_logic.h:99 | `GTE` is `OR(GT, EQ)`: 1 exactly when LHS ≥ RHS (`GteCorrect`), an empty LHS compares as 1 (`GteBlank`), no other operands expand (`GteDomain`). |
| `Logic.Lt` | src/bolt/util/macro_logic.h:101 | `LT` is `NOT(GTE)`: 1 exactly when LHS < RHS (`LtCorrect`), an empty LHS compares as 1 (`LtBlank`), no other operands expand (`LtDomain`). |
| `Logic.Lte` | src/bolt/util/macro_logic.h:102 | `LTE` is `OR(LT, EQ)`: 1 exactly when LHS ≤ RHS (`LteCorrect`), an empty LHS compares as 1 (`LteBlank`), no other operands expand (`LteDomain`). |
| `Logic.EqBlank` | src/bolt/util/macro_logic.h:95 | `EQ( , b)` pastes to the live `VA_AT`, which reads row b from its first entry on. For b in 0..10 that gives `EQ(1, b)`, 1 exactly when b = 1. |
| `Logic.GtBlank` | src/bolt/util/macro_logic.h:98 | `GT( , r)` reads row r from its first entry, which is 0 in every row. For r in 0..10 that gives `GT(1, r)`, 1 exactly when r = 0. |
| `Logic.NeqBlank` | src/bolt/util/macro_logic.h:96 | `NEQ( , b)` is `NEQ(1, b)`, 1 exactly when b ≠ 1. |
| `Logic.GteBlank` | src/bolt/util/macro_logic.h:99 | `GTE( , r)` is `GTE(1, r)`, 1 exactly when r ≤ 1. |
| `Logic.LtBlank` | src/bolt/util/macro_logic.h:101 | `LT( , r)` is `LT(1, r)`, 1 exactly when r > 1. |
| `Logic.LteBlank` | src/bolt/util/macro_logic.h:102 | `LTE( , r)` is `LTE(1, r)`, 1 exactly when r ≥ 1. |
| `Logic.EqDomain` | src/bolt/util/macro_logic.h:95 | `EQ(A, B)` expands only when B is a number in 0..10 and A is a number in 0..10 or empty. |
| `Logic.GtDomain` | src/bolt/util/macro_logic.h:98 | `GT(LHS, RHS)` expands only when RHS is a number in 0..10 and LHS is a number in 0..10 or empty. |
| `Logic.NeqDomain` | src/bolt/util/macro_logic.h:96 | `NEQ` expands only on the operands `EQ` accepts: a right operand in 0..10, a left one in 0..10 or empty. |
| `Logic.GteDomain` | src/bolt/util/macro_logic.h:99 | `GTE` expands only on a right operand in 0..10 and a left one in 0..10 or empty. |
| `Logic.LtDomain` | src/bolt/util/macro_logic.h:101 | `LT` expands only on a right operand in 0..10 and a left one in 0..10 or empty. |
| `Logic.LteDomain` | src/bolt/util/macro_logic.h:102 | `LTE` expands only on a right operand in 0..10 and a left one in 0..10 or empty. |
| `Logic.EqCorrect` | src/bolt/util/macro_logic.h:95 | `EQ(a, b)` is 1 exactly when a = b, for a and b in 0..10. |
| `Logic.GtCorrect` | src/bolt/util/macro_logic.h:98 | `GT(l, r)` is 1 exactly when l > r, for l and r in 0..10. |
| `Logic.EqSymmetric` | src/bolt/util/macro_logic.h:95 | `EQ` gives the same answer with its operands swapped, although it reads row B at index A. |
| `Logic.NeqCorrect` | src/bolt/util/macro_logic.h:96 | `NEQ(a, b)` is 1 exactly when a ≠ b. |
| `Logic.GteCorrect` | src/bolt/util/macro_logic.h:99 | `GTE(l, r)`, the OR of `GT` and `EQ`, is 1 exactly when l ≥ r. |
| `Logic.LtCorrect` | src/bolt/util/macro_logic.h:101 | `LT(l, r)`, the NOT of `GTE`, is 1 exactly when l < r. |
| `Logic.LteCorrect` | src/bolt/util/macro_logic.h:102 | `LTE(l, r)`, the OR of `LT` and `EQ`, is 1 exactly when l ≤ r. |
| `Eval.Iif` | src/bolt/util/macro_eval.h:68-70 | `IIF(0)` keeps the first argument of its group and `IIF(1)` the rest. Any other condition names no macro. |
| `Eval.IfThenElseArm` | src/bolt/util/macro_eval.h:59 | `IF_THEN_ELSE_` selects THEN for 1 and ELSE for 0, and nothing for any other condition. |
| `Eval.IfThenElse` | src/bolt/util/macro_eval.h:58-59 | `IF_THEN_ELSE` applies THEN for 1 and ELSE for 0 to `(__VA_ARGS__)`, so to one empty argument when there are none, and fails for a non-bit. Only the chosen branch has to be applicable to the arguments. |
| `Eval.IfThen` | src/bolt/util/macro_eval.h:57 | `IF_THEN` applies THEN for 1 to `(__VA_ARGS__)` (one empty argument when there are none), emits nothing for 0, and fails for a non-bit. |
| `Eval.Empty` | src/bolt/util/macro_eval.h:80 | `EMPTY(...)` expands to nothing: `IfThen` states that condition 0 emits nothing, and `IterateDone` and `EachRun` that reaching EMPTY ends the loop. |
| `Eval.SentinelExpansion` | src/bolt/util/macro_eval.h:95 | `SENTINEL(X)` is `X, 1`; `TokenArgs` states that this makes `VA_CHECK` of the probe `SENTINEL(~)` 1. |
| `Eval.TokenArgs` | src/bolt/util/macro_eval.h:90 | The probe `TOKEN(T)`, that is `T(~)`, is two arguments exactly when T is SENTINEL and one otherwise, so `VA_CHECK` of it is 1 exactly for SENTINEL. |
| `Eval.IsNextEnd` | src/bolt/util/macro_eval.h:90-117 | `IS_NEXT_END(T)` is `0, EMPTY` when T is SENTINEL (the probe `T(~)` expands to two arguments) and `0` for any other token. |
| `Eval.Next` | src/bolt/util/macro_eval.h:144-146 | `_NEXT(I, N)` continues with EMPTY at the SENTINEL and with N anywhere else. |
| `Eval.EachStep` | src/bolt/util/macro_eval.h:141-142 | One scan of the foreach never retracts text already emitted, and a finished expansion stays as it is. |
| `Eval.EachAlternates` | src/bolt/util/macro_eval.h:141-142 | One `_EACH0`/`_EACH1` step emits `F(X)` and continues with the other macro of the pair (or EMPTY), never with itself. This is why the recursion is not blocked. |
| `Eval.IterateAdd` | src/bolt/util/macro_eval.h:43-48 | m + n counted scans equal m counted scans followed by n. |
| `Eval.TowerScans` | src/bolt/util/macro_eval.h:44-48 | A `B_EVAL` level d steps above `B_EVAL4` makes 3^d `B_EVAL4` passes, one counted scan each. |
| `Eval.Tower` | src/bolt/util/macro_eval.h:44-48 | `B_EVAL<k>` applies the level below three times, down to `B_EVAL4`; `TowerScans` counts its `B_EVAL4` passes. |
| `Eval.TowerFixpoint` | src/bolt/util/macro_eval.h:44-48 | On text with nothing left to expand, the tower changes nothing. |
| `Eval.BEvalScans` | src/bolt/util/macro_eval.h:43 | `B_EVAL` makes 243 = 3^5 `B_EVAL4` passes. |
| `Eval.BEval` | src/bolt/util/macro_eval.h:43 | `B_EVAL(...)` is `B_EVAL0` applied three times; `BEvalScans` counts its `B_EVAL4` passes. |
| `Eval.IterateDone` | src/bolt/util/macro_eval.h:80 | Once `EMPTY(...)` has ended the loop, further rescans change nothing. |
| `Eval.EachRun` | src/bolt/util/macro_eval.h:141-146 | A ping-pong over `d0..dn-1, SENTINEL, ...`, with no SENTINEL among d1..dn-1, ends after n + 1 counted scans, having emitted `F(d0) ... F(dn-1)`. With n or fewer it is still pending. |
| `Eval.EachIsBEval` | src/bolt/util/macro_eval.h:140 | `_EACH` is the ping-pong started at `_EACH0(F, ..., SENTINEL, 0)` and run under `B_EVAL`. |
| `Eval.Each` | src/bolt/util/macro_eval.h:140 | `_EACH(F, ...)` runs the ping-pong from `_EACH0(F, ..., SENTINEL, 0)` for the `B_EVAL4` passes of `B_EVAL` (`EachIsBEval`); `EachCorrect` states its result. |
| `Eval.EachOutcome` | src/bolt/util/macro_eval.h:140-146 | `_EACH` succeeds with `F` of every element before the first SENTINEL after the first element (which is never tested) when fewer than 243 precede it. With 243 or more the 243 counted `B_EVAL4` passes leave the modelled loop pending. |
| `Eval.EachCorrect` | src/bolt/util/macro_eval.h:140-146 | `_EACH(F, x0, ..., xn-1)` for 1 ≤ n < 243, with no SENTINEL among x1..xn-1, is `F(x0) ... F(xn-1)`: each element once, in order, with neither the appended SENTINEL nor the 0 passed to F. |
| `Eval.EachEmpty` | src/bolt/util/macro_eval.h:140 | `_EACH(F)` with no elements still applies F once, to the empty argument. |
| `Eval.EachBudgetExhausted` | src/bolt/util/macro_eval.h:140 | With 243 or more elements (no SENTINEL after the first) the modelled loop is still pending after the 243 counted `B_EVAL4` passes. |
| `Eval.EachSentinelCollision` | src/bolt/util/macro_eval.h:140-146 | A data element spelled SENTINEL after the first element ends the loop early: it and the elements after it are dropped. |
| `Eval.EachFirstUntested` | src/bolt/util/macro_eval.h:141 | `_EACH0(F, X, P, ...)` never tests X, so `_EACH(F, SENTINEL, x)` is `F(SENTINEL) F(x)`. |
| `Loops.VaEachExecCorrect` | src/bolt/util/macro_va.h:242-243 | `VA_EACH_EXEC(F, n, ...)` applies F to the first n arguments in order, for 1 ≤ n ≤ 10 and at least n + 1 arguments. |
| `Loops.VaEachExec` | src/bolt/util/macro_va.h:242-243 | `VA_EACH_EXEC(F, NUM, ...)` is `_EACH` over `VA_SLICE_AT(NUM, ...)`: F on the first NUM arguments for 1 ≤ NUM ≤ 10 (`VaEachExecCorrect`), F once on the empty argument for NUM = 0 (`VaEachExecZero`), and no expansion for other counts (`VaEachExecDomain`). |
| `Loops.VaEachExecZero` | src/bolt/util/macro_va.h:242-243 | `VA_EACH_EXEC(F, 0, ...)` slices off nothing and applies F once, to the empty argument. |
| `Loops.VaEachExecDomain` | src/bolt/util/macro_va.h:242 | `VA_EACH_EXEC` expands only for a count n in 0..10 given at least n + 1 arguments. |
| `Loops.VaIterateCorrect` | src/bolt/util/macro_va.h:219-222 | `VA_ITERATE(NEXT, END, a0, ..., an)` for two to eleven arguments is `NEXT(a0) ... NEXT(an-1) END(an)`: END once, on the last argument. |
| `Loops.VaIterateTooFew` | src/bolt/util/macro_va.h:219 | `VA_ITERATE` with fewer than two arguments is an arity error. |
| `Loops.VaIterate` | src/bolt/util/macro_va.h:219-222 | `VA_ITERATE` is `VA_EACH_EXEC` with count `VA_LENGTH_DEC`, then END of `VA_TAIL`; `VaIterateCorrect` and `VaIterateTooFew` state its result. |
| `Loops.VaEachAlwaysFails` | src/bolt/util/macro_va.h:232-233 | `VA_EACH` as written is an arity error for every list of up to ten arguments, because it slices at the full length. |
| `Loops.VaEach` | src/bolt/util/macro_va.h:232-233 | `VA_EACH` as written slices at `VA_LENGTH` of all its arguments; `VaEachAlwaysFails` shows it never expands. |
| `Loops.VaEachIntended` | src/bolt/util/macro_va.h:225-230 | `VA_EACH` as its comment and its MSVC branch have it, `_EACH(NEXT, ARG1, ...)`; `VaEachIntendedCorrect` states its result. |
| `Loops.VaEachIntendedCorrect` | src/bolt/util/macro_va.h:225-230 | `VA_EACH` as its comment and its MSVC branch have it: F applied to every argument in order. |
| `Template.Check` | src/bolt/util/macro_template.h:55 | `NS_CHECK`/`TEMPLATE_CHECK` pick the iterating branch for two to ten arguments and the END-only branch for one argument or none. |
| `Template.DispatchSingle` | src/bolt/util/macro_template.h:56 | One argument (or none) expands to `END` of it, with no iteration. |
| `Template.DispatchMany` | src/bolt/util/macro_template.h:54-57 | Two to ten arguments expand to `NEXT` of all but the last one, then `END` of the last one. |
| `Template.Dispatch` | src/bolt/util/macro_template.h:54-57 | `NS_START_` and `TEMPLATE` branch on the argument count: END alone for one argument or none (`DispatchSingle`), `VA_ITERATE` for two to ten (`DispatchMany`). |
| `Template.NsName` | src/bolt/util/macro_template.h:71 | `NS_T(T)` is `namespace T`; `NsCounts` states it holds no brace. |
| `Template.NsOpen` | src/bolt/util/macro_template.h:72 | `NS_T_(T)` is `namespace T {`; `NsCounts` states it holds one opening brace. |
| `Template.NsStart` | src/bolt/util/macro_template.h:45 | `NS_START(...)` dispatches `NS_T_` and `NS_T` over the names; `NsStartCorrect` states the chain it opens. |
| `Template.ChainSplit` | src/bolt/util/macro_template.h:71-72 | The documented namespace chain is `NS_T_` on every name but the last, followed by `NS_T` on the last. |
| `Template.NsStartCorrect` | src/bolt/util/macro_template.h:45-57 | `NS_START(a, ..., z)` for one to ten names is `namespace a { ... namespace z`. |
| `Template.NsStartEmpty` | src/bolt/util/macro_template.h:45-56 | `NS_START()` emits `namespace` followed by an empty name. |
| `Template.NsEndRow` | src/bolt/util/macro_template.h:77-86 | Entry `NS_END<k>` for k in 0..9 is k copies of `};`. |
| `Template.NsEndRowLow` | src/bolt/util/macro_template.h:77-80 | Entries `NS_END0` to `NS_END3` are 0 to 3 copies of `};`. |
| `Template.NsEndRowMid` | src/bolt/util/macro_template.h:81-83 | Entries `NS_END4` to `NS_END6` are 4 to 6 copies of `};`. |
| `Template.NsEndRowHigh` | src/bolt/util/macro_template.h:84-86 | Entries `NS_END7` to `NS_END9` are 7 to 9 copies of `};`. |
| `Template.NsEndIndex` | src/bolt/util/macro_template.h:77-86 | Only the numbers 0..9 select an entry `NS_END<k>`. |
| `Template.NsEnd` | src/bolt/util/macro_template.h:67 | `NS_END(...)` is the entry selected by `VA_LENGTH_DEC(...)`; `NsEndCorrect`, `NsEndEmpty`, `NsEndTooMany` and `NsEndDomain` state its result. |
| `Template.NsEndDomain` | src/bolt/util/macro_template.h:67-86 | Every `NS_END(...)` that expands has `VA_LENGTH_DEC(...)` a number k in 0..9 and emits k closers. |
| `Template.NsEndCorrect` | src/bolt/util/macro_template.h:67 | `NS_END` of one to ten names is count − 1 copies of `};`. |
| `Template.NsEndEmpty` | src/bolt/util/macro_template.h:67-77 | `NS_END()` emits nothing. |
| `Template.NsEndTooMany` | src/bolt/util/macro_template.h:67-86 | The table stops at `NS_END9`, so eleven names have no closer. |
| `Template.ClosersCount` | src/bolt/util/macro_template.h:77-86 | `NS_END<k>` holds exactly k closing braces and no opening brace. |
| `Template.NsCounts` | src/bolt/util/macro_template.h:71-72 | `NS_T` holds no brace, and `NS_T_` holds exactly one opening brace. |
| `Template.ChainCount` | src/bolt/util/macro_template.h:71-72 | A chain of n namespaces opens n − 1 braces and closes none. |
| `Template.NsStartBraces` | src/bolt/util/macro_template.h:45-57 | `NS_START` of n names opens n − 1 braces and closes none. |
| `Template.NsEndBraces` | src/bolt/util/macro_template.h:67-86 | `NS_END` of n names closes n − 1 braces and opens none. |
| `Template.BraceBalance` | src/bolt/util/macro_template.h:45-67 | `NS_START(names)` opens exactly as many braces as `NS_END(names)` closes. |
| `Template.ClassListShape` | src/bolt/util/macro_template.h:165-170 | The parameter list is `class` and name i at positions 3i and 3i + 1, with a comma between entries and none after the last. |
| `Template.ClassListSplit` | src/bolt/util/macro_template.h:165-170 | The parameter list is `CLASS_T_` on every name but the last, followed by `CLASS_T` on the last. |
| `Template.ClassName` | src/bolt/util/macro_template.h:165 | `CLASS_T(T)` is `class T`; `ClassListShape` places it in the parameter list. |
| `Template.ClassComma` | src/bolt/util/macro_template.h:170 | `CLASS_T_(T)` is `class T,`; `ClassListShape` places it in the parameter list. |
| `Template.TemplateParams` | src/bolt/util/macro_template.h:156-159 | `TEMPLATE(CLASS_T_, CLASS_T, ...)` dispatches over the names; `TemplateParamsCorrect` states the list it emits. |
| `Template.TemplateParamsCorrect` | src/bolt/util/macro_template.h:156-159 | `TEMPLATE(CLASS_T_, CLASS_T, a, ..., z)` is `class a, ..., class z` for one to ten names. |
| `Template.GenericCorrect` | src/bolt/util/macro_template.h:115 | `generic(a, ..., z)` is `template<class a, ..., class z>`. |
| `Template.GenericEmpty` | src/bolt/util/macro_template.h:115 | `generic()` is `template<class >`, the keyword with an empty name. |
| `Template.Generic` | src/bolt/util/macro_template.h:115 | `generic(...)` wraps the parameter list in `template<` and `>`; `GenericCorrect` and `GenericEmpty` state its result. |
| `Template.ClassDecl` | src/bolt/util/macro_template.h:136 | `class(...)` is `generic(...) class`; `ClassDeclCorrect` states its result. |
| `Template.StructDecl` | src/bolt/util/macro_template.h:142 | `struct(...)` is `generic(...) struct`; `StructDeclCorrect` states its result. |
| `Template.ClassDeclCorrect` | src/bolt/util/macro_template.h:136 | `class(a, ..., z)` is the `generic` header followed by `class`. |
| `Template.StructDeclCorrect` | src/bolt/util/macro_template.h:142 | `struct(a, ..., z)` is the `generic` header followed by `struct`. |
| `Template.CommaJoin` | src/bolt/util/macro_template.h:116 | The text of n arguments with separating commas is 2n − 1 tokens long, and empty for no arguments. |
| `Template.CommaJoinRoundTrip` | src/bolt/util/macro_template.h:116 | Dropping the separating commas gives the arguments back, in order (for arguments that are not themselves commas). |
| `Template.TypedGeneric` | src/bolt/util/macro_template.h:116 | `typed_generic(...)` is `template<...>` around the arguments as written; `TypedGenericCorrect` states that they come back in order. |
| `Template.TypedGenericCorrect` | src/bolt/util/macro_template.h:116 | `typed_generic(...)` is `template<`, then the arguments in order, then `>`. |

## Left out

- The `IS_MSVC` branches of every header are not modelled: the `APPLY`/`MSVC_HACK` forms for MSVC's argument splitting. The model follows the standard-preprocessor branch.
- `APPLY`, `DELAYED_APPLY` and `EXPAND` (macro_eval.h:85-108) only add a rescan between forming an invocation and expanding it. The model applies the macro directly.
- `VA_CONCAT` (macro_va.h:72) refers to itself, so it never expands further. Models of `IIF` and the families use `VA_CONCAT_`/`MACRO_CONCAT` pasting.
- `EMPTY_TOKEN` (macro_eval.h:75) expands to nothing. It is dropped from `_NEXT1`.
- Rescanning itself is not simulated: painted-blue tokens, the disabling context, the exact order of expansion. The model assumes that each `B_EVAL4` pass advances the `_EACH` ping-pong by exactly one deferred invocation.
- Eval.TowerScans: counts only the `B_EVAL4` passes. Each enclosing `B_EVAL<k>` also rescans its own replacement list (section 6.10.3.4 of ISO/IEC 9899), so the source's tower performs more rescans than the 3^d counted.
- Eval.BEvalScans: 243 counts only the `B_EVAL4` passes of `B_EVAL`. With the rescans of the enclosing levels and of `B_EVAL`'s argument the source performs more, roughly 364.
- Eval.EachOutcome: its "pending with 243 or more elements" half is about the model's 243 counted passes. The source's larger rescan budget may finish longer lists.
- Eval.EachBudgetExhausted: the 243-element limit comes from the model's counted passes, not from a limit the source is known to have. The real limit is at least this large.
- A list whose only argument is empty (`[BLANK]`) is treated as a one-element list wherever a macro uses GNU `, ## __VA_ARGS__`, although GNU elides the comma for it too. Only the genuinely empty list is elided.
- Comparisons and lookups outside each family's domain (operands above 10, more than ten namespaces) are modelled as failed lookups. Which tokens a real preprocessor would then leave behind is not modelled. The one pasted name that stays live, `VA_AT` from an empty left comparison operand, is modelled (`Logic.RowEntry`).
- Data tokens are assumed not to be function-like macros, so `TOKEN(I)` leaves `I(~)` in place for every token except SENTINEL. The `Eval` loop lemmas require that no element after the first is SENTINEL, and the `Loops` and `Template` ones that no element is, except `Eval.EachSentinelCollision` and `Eval.EachFirstUntested`, which state what happens when one is.
- What the emitted C++ text means to a compiler is not modelled. The generated namespace and template text is a token sequence.
- Logic.And: states the truth table on bits, not that other operands fail. Pasting is on spellings, so operands such as an empty token and `11` also paste to a defined name.
- Logic.Or: the same as `Logic.And`: the truth table on bits only, for the same reason.
- Logic.Xor: the same as `Logic.And`: the truth table on bits only, for the same reason.

## Findings

| source | as written | input that shows it | evidently intended | confidence | as-written member | corrected member |
|---|---|---|---|---|---|---|
| src/bolt/util/macro_va.h:117-119 | `VA_INC(...)` is `VA_LENGTH(0, __VA_ARGS__)`. Without `##`, an empty call leaves an empty argument after `0,`. | `VA_LENGTH_INC()` yields 2 | the count plus one, 1 for the empty list | not executed | `Variadic.VaLengthIncEmpty` | `Variadic.VaLengthIncIntended` |
| src/bolt/util/macro_va.h:232-233 | `VA_EACH_` passes `VA_LENGTH` of all arguments as `NUM`, so `VA_SLICE_AT<n>` gets n arguments where it needs n + 1. | `VA_EACH(F, a, b)` is an arity error | `_EACH(F, a, b)`, F on every argument, as the MSVC branch (macro_va.h:230) and the comment have it | not executed | `Loops.VaEachAlwaysFails` | `Loops.VaEachIntendedCorrect` |
