/**
 * The loops of macro_va.h, built on the foreach engine: `VA_EACH_EXEC`
 * (a foreach over a prefix of the arguments), `VA_ITERATE` (NEXT on all
 * arguments but the last, END on the last) and `VA_EACH`.
 */
module Loops {
  import opened Tokens
  import Variadic
  import Eval

  /**
   * `VA_EACH_EXEC(NEXT, NUM, ...)`: `_EACH(NEXT, VA_SLICE_AT(NUM, ...))`,
   * NEXT on each of the first NUM arguments.
   */
  function VaEachExec(next: Token -> Text, num: Token, va: Args): Option<Text> {
    var slice :- Variadic.VaSliceAt(num, va);
    Eval.Each(next, slice)
  }

  lemma VaEachExecCorrect(next: Token -> Text, n: nat, va: Args)
    requires 1 <= n <= 10 && n < |va|
    requires Eval.SENTINEL !in va[..n]
    ensures VaEachExec(next, Num(n), va) == Some(FlatMap(next, va[..n]))
  {
    Variadic.VaSliceAtCorrect(n, va);
    Eval.EachCorrect(next, va[..n]);
  }

  /**
   * A count of 0 slices off nothing, and `_EACH` of the empty slice still
   * applies NEXT once, to the empty argument.
   */
  lemma VaEachExecZero(next: Token -> Text, va: Args)
    ensures VaEachExec(next, Num(0), va) == Some(next(BLANK))
  {
    Variadic.VaSliceAtZero(va);
    Eval.EachEmpty(next);
  }

  /** `VA_EACH_EXEC` expands only for a count n in 0..10 with at least n + 1 arguments. */
  lemma VaEachExecDomain(next: Token -> Text, num: Token, va: Args)
    requires VaEachExec(next, num, va).Some?
    ensures exists n: nat :: n <= 10 && num == Num(n) && n < |Spread(va)|
  {
    Variadic.VaSliceAtDomain(num, va);
  }

  /**
   * `VA_ITERATE(NEXT, END, ARG1, ARG2, ...)`: at least two arguments, then
   * `VA_EACH_EXEC(NEXT, VA_LENGTH_DEC(...), ...) END(VA_TAIL(...))`.
   */
  function VaIterate(next: Token -> Text, end: Token -> Text, va: Args): Option<Text> {
    if |va| < 2 then None
    else
      var init :- VaEachExec(next, Variadic.VaLengthDec(va), va);
      var last :- Variadic.VaTail(va);
      Some(init + end(last))
  }

  /**
   * For two to eleven arguments `VA_ITERATE` is `NEXT(a0) ... NEXT(an-2)
   * END(an-1)`: END exactly once, on the last argument, after NEXT on
   * every other one in order.
   */
  lemma VaIterateCorrect(next: Token -> Text, end: Token -> Text, va: Args)
    requires 2 <= |va| <= 11
    requires Eval.SENTINEL !in va[..|va| - 1]
    ensures VaIterate(next, end, va) == Some(FlatMap(next, va[..|va| - 1]) + end(va[|va| - 1]))
  {
    var n := |va| - 1;
    assert Variadic.VaLengthDec(va) == Num(n);
    assert Variadic.VaTail(va) == Some(va[n]);
    VaEachExecCorrect(next, n, va);
  }

  /** Fewer than the two required arguments is an arity error. */
  lemma VaIterateTooFew(next: Token -> Text, end: Token -> Text, va: Args)
    requires |va| < 2
    ensures VaIterate(next, end, va) == None
  {
  }

  /**
   * `VA_EACH(NEXT, ARG1, ...)` as written: `VA_EACH_EXEC(NEXT,
   * VA_LENGTH(ARG1, __VA_ARGS__), ARG1, __VA_ARGS__)`. It slices at the
   * full length, and `VA_SLICE_AT<n>` needs `n + 1` arguments.
   */
  function VaEach(next: Token -> Text, va: Args): Option<Text> {
    if va == [] then None
    else
      var args := [va[0]] + Spread(va[1..]);
      VaEachExec(next, Variadic.VaLength(args), args)
  }

  /** `VA_EACH` as written never expands: every supported call is an arity error. */
  lemma VaEachAlwaysFails(next: Token -> Text, va: Args)
    requires |va| <= 10
    ensures VaEach(next, va) == None
  {
    if va != [] {
      var args := [va[0]] + Spread(va[1..]);
      assert |args| == if |va| == 1 then 2 else |va|;
      Variadic.VaSliceAtTooFew(|args|, args);
    }
  }

  /**
   * `VA_EACH` as its comment describes it and as the MSVC branch writes
   * it: `_EACH(NEXT, ARG1, __VA_ARGS__)`, NEXT on every argument.
   */
  function VaEachIntended(next: Token -> Text, va: Args): Option<Text> {
    if va == [] then None else Eval.Each(next, va)
  }

  lemma VaEachIntendedCorrect(next: Token -> Text, va: Args)
    requires 1 <= |va| < 243 && Eval.SENTINEL !in va
    ensures VaEachIntended(next, va) == Some(FlatMap(next, va))
  {
    Eval.EachCorrect(next, va);
  }
}
