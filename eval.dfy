/**
 * The evaluation engine of macro_eval.h: the two-way selector `IIF` and the
 * conditionals built on it, sentinel detection, the "ping-pong" foreach
 * `_EACH0`/`_EACH1`, and the `B_EVAL` rescan tower that drives it.
 *
 * The preprocessor's rescanning is not simulated. A deferred invocation
 * is a `Pending` expansion, and the tower hands the `_EACH` machine one
 * scan per `B_EVAL4` pass, each of which advances it by one invocation.
 * The rescans that the enclosing `B_EVAL<k>` levels perform on their own
 * replacement lists are not counted, so this budget is a lower bound.
 */
module Eval {
  import opened Tokens
  import Variadic

  // Names of the macros the engine refers to.
  const SENTINEL: Token := Tok("SENTINEL")
  const EMPTY: Token := Tok("EMPTY")
  const EACH0: Token := Tok("_EACH0")
  const EACH1: Token := Tok("_EACH1")

  datatype Selector = First | Rest

  /** `IIF_0(ARG, ...)` keeps ARG; `IIF_1(ARG, ...)` keeps the rest. */
  const IIF: map<string, Selector> := map["IIF_0" := First, "IIF_1" := Rest]

  /**
   * `IIF(COND)(...)`: the macro named `IIF_ ## COND` applied to a group of
   * at least one argument. A condition other than 0 or 1 names no macro.
   */
  function Iif<X>(cond: Token, group: seq<X>): (r: Option<seq<X>>)
    requires |group| >= 1
    ensures cond == ZERO ==> r == Some([group[0]])
    ensures cond == ONE ==> r == Some(group[1..])
    ensures !IsBit(cond) ==> r == None
  {
    assert MacroConcat("IIF_", ZERO) == "IIF_0";
    assert MacroConcat("IIF_", ONE) == "IIF_1";
    var found := Lookup(IIF, "IIF_", cond);
    assert found.Some? ==> IsBit(cond) by {
      if found.Some? {
        assert Spell(cond) == MacroConcat("IIF_", cond)[4..];
        SpelledBit(cond);
      }
    }
    match found
    case None => None
    case Some(sel) => if sel == First then Some([group[0]]) else Some(group[1..])
  }

  /** `EMPTY(...)`: expands to nothing whatever its arguments. */
  function Empty(va: Args): Text {
    []
  }

  /**
   * `IF_THEN_ELSE_(COND, THEN, ELSE)`: `IIF(COND)(ELSE, THEN)`, the macro
   * that is then applied to the arguments.
   */
  function IfThenElseArm(cond: Token, onTrue: Args --> Text, onFalse: Args --> Text): (r: Option<Args --> Text>)
    ensures cond == ONE ==> r == Some(onTrue)
    ensures cond == ZERO ==> r == Some(onFalse)
    ensures !IsBit(cond) ==> r == None
  {
    var chosen :- Iif(cond, [onFalse, onTrue]);
    Some(chosen[0])
  }

  /**
   * `IF_THEN_ELSE(COND, THEN, ELSE, ...)`: THEN or ELSE applied to
   * `(__VA_ARGS__)`, so to one empty argument when there are none. Only
   * the chosen macro is applied, so only its precondition is needed: the
   * discarded branch may be undefined on these arguments.
   */
  function IfThenElse(cond: Token, onTrue: Args --> Text, onFalse: Args --> Text, va: Args): (r: Option<Text>)
    requires cond == ONE ==> onTrue.requires(Spread(va))
    requires cond == ZERO ==> onFalse.requires(Spread(va))
    ensures cond == ONE ==> r == Some(onTrue(Spread(va)))
    ensures cond == ZERO ==> r == Some(onFalse(Spread(va)))
    ensures !IsBit(cond) ==> r == None
  {
    var arm :- IfThenElseArm(cond, onTrue, onFalse);
    Some(arm(Spread(va)))
  }

  /** `IF_THEN(COND, THEN, ...)`: `IF_THEN_ELSE_(COND, THEN, EMPTY)(...)`. */
  function IfThen(cond: Token, onTrue: Args --> Text, va: Args): (r: Option<Text>)
    requires cond == ONE ==> onTrue.requires(Spread(va))
    ensures cond == ONE ==> r == Some(onTrue(Spread(va)))
    ensures cond == ZERO ==> r == Some([])
    ensures !IsBit(cond) ==> r == None
  {
    IfThenElse(cond, onTrue, Empty, va)
  }

  /** `SENTINEL(X)`: `X, 1`, two arguments. */
  function SentinelExpansion(x: Token): Args {
    [x, ONE]
  }

  /**
   * `TOKEN(I)`: the text `I(~)` as an argument list. Only SENTINEL expands
   * there (to two arguments); any other data token stays as one argument.
   */
  function TokenArgs(t: Token): (r: Args)
    ensures |r| == (if t == SENTINEL then 2 else 1)
    ensures Variadic.VaCheck(r) == Bit(t == SENTINEL)
  {
    if t == SENTINEL then SentinelExpansion(TILDE) else [Call(t, TILDE)]
  }

  /**
   * `IS_NEXT_END(T)`: `IIF(VA_CHECK(TOKEN(T)))(0, 0, EMPTY)`, which is
   * `0, EMPTY` for SENTINEL and `0` for any other token.
   */
  function IsNextEnd(t: Token): (r: Option<Args>)
    ensures t == SENTINEL ==> r == Some([ZERO, EMPTY])
    ensures t != SENTINEL ==> r == Some([ZERO])
  {
    Iif(Variadic.VaCheck(TokenArgs(t)), [ZERO, ZERO, EMPTY])
  }

  /**
   * `_NEXT(I, N)`: `_NEXT1(IS_NEXT_END(I), N, 0)` keeps its second
   * argument, which is EMPTY when I is SENTINEL and N otherwise.
   */
  function Next(i: Token, n: Token): (r: Token)
    ensures r == if i == SENTINEL then EMPTY else n
  {
    var args := IsNextEnd(i).value + [n, ZERO];
    args[1]
  }

  /**
   * Text during expansion: what has been emitted so far, followed, while
   * the loop runs, by an invocation `macro (F, args...)` that the current
   * scan has not expanded.
   */
  datatype Expansion =
    | Pending(text: Text, macro: Token, args: Args)
    | Done(text: Text)

  function OtherEach(m: Token): Token {
    if m == EACH0 then EACH1 else EACH0
  }

  /**
   * One scan of the foreach. `_EACH0(F, X, P, ...)` emits `F(X)` and
   * leaves `_NEXT(P, _EACH1)(F, P, ...)` for the next scan, and `_EACH1`
   * likewise with `_EACH0`; `EMPTY(...)` vanishes. Anything else (an
   * invocation with too few arguments) is left as it is.
   */
  function EachStep(f: Token -> Text, e: Expansion): (r: Expansion)
    ensures e.Done? ==> r == e
    ensures |e.text| <= |r.text| && r.text[..|e.text|] == e.text
  {
    match e
    case Done(_) => e
    case Pending(text, m, args) =>
      if m == EMPTY then Done(text)
      else if (m == EACH0 || m == EACH1) && |args| >= 2 then
        Pending(text + f(args[0]), Next(args[1], OtherEach(m)), [args[1]] + Spread(args[2..]))
      else e
  }

  function Scanner(f: Token -> Text): Expansion -> Expansion {
    e => EachStep(f, e)
  }

  /** The ping-pong: a step of `_EACH0` never continues with `_EACH0`, nor `_EACH1` with `_EACH1`. */
  lemma EachAlternates(f: Token -> Text, text: Text, m: Token, args: Args)
    requires m == EACH0 || m == EACH1
    requires |args| >= 2
    ensures EachStep(f, Pending(text, m, args)).Pending?
    ensures EachStep(f, Pending(text, m, args)).text == text + f(args[0])
    ensures EachStep(f, Pending(text, m, args)).macro != m
    ensures EachStep(f, Pending(text, m, args)).macro in {EMPTY, OtherEach(m)}
  {
  }

  /** `n` scans. */
  function Iterate<S>(scan: S -> S, n: nat, x: S): S {
    if n == 0 then x else Iterate(scan, n - 1, scan(x))
  }

  lemma {:induction false} IterateAdd<S>(scan: S -> S, m: nat, n: nat, x: S)
    ensures Iterate(scan, m + n, x) == Iterate(scan, n, Iterate(scan, m, x))
  {
    if m > 0 {
      IterateAdd(scan, m - 1, n, scan(x));
    }
  }

  function Pow3(d: nat): nat {
    if d == 0 then 1 else 3 * Pow3(d - 1)
  }

  /**
   * The tower `B_EVAL<k>(...)`: `B_EVAL4` passes its argument through,
   * and is counted as one scan; every level above applies the level
   * below three times, and its own rescan is not counted. `Tower(d, ...)` is the level `d` steps above
   * `B_EVAL4`, so `B_EVAL0` is `Tower(4, ...)` and `B_EVAL` is `Tower(5, ...)`.
   */
  function Tower<S>(depth: nat, scan: S -> S, x: S): S {
    if depth == 0 then scan(x)
    else Tower(depth - 1, scan, Tower(depth - 1, scan, Tower(depth - 1, scan, x)))
  }

  /** A tower of depth d makes 3^d `B_EVAL4` passes, one counted scan each. */
  lemma {:induction false} TowerScans<S>(depth: nat, scan: S -> S, x: S)
    ensures Tower(depth, scan, x) == Iterate(scan, Pow3(depth), x)
  {
    if depth == 0 {
      assert Iterate(scan, 1, x) == Iterate(scan, 0, scan(x));
    } else {
      var p := Pow3(depth - 1);
      TowerScans(depth - 1, scan, x);
      var y := Tower(depth - 1, scan, x);
      TowerScans(depth - 1, scan, y);
      var z := Tower(depth - 1, scan, y);
      TowerScans(depth - 1, scan, z);
      IterateAdd(scan, p, p, x);
      IterateAdd(scan, p + p, p, x);
    }
  }

  /** On text with nothing left to expand the tower changes nothing. */
  lemma {:induction false} TowerFixpoint<S>(depth: nat, scan: S -> S, x: S)
    requires scan(x) == x
    ensures Tower(depth, scan, x) == x
  {
    if depth > 0 {
      TowerFixpoint(depth - 1, scan, x);
    }
  }

  /** `B_EVAL0` sits four levels above `B_EVAL4`. */
  const BEVAL0_DEPTH: nat := 4

  /** The `B_EVAL4` passes of one `B_EVAL`. */
  const BEVAL_SCANS: nat := 243

  /** `B_EVAL(...)`: `B_EVAL0(B_EVAL0(B_EVAL0(...)))`. */
  function BEval<S>(scan: S -> S, x: S): S {
    Tower(BEVAL0_DEPTH, scan, Tower(BEVAL0_DEPTH, scan, Tower(BEVAL0_DEPTH, scan, x)))
  }

  /** `B_EVAL` makes 3 * 3^4 = 243 `B_EVAL4` passes. */
  lemma BEvalScans<S>(scan: S -> S, x: S)
    ensures BEval(scan, x) == Iterate(scan, BEVAL_SCANS, x)
    ensures BEVAL_SCANS == Pow3(BEVAL0_DEPTH + 1)
  {
    var p := Pow3(BEVAL0_DEPTH);
    assert p == 81;
    TowerScans(BEVAL0_DEPTH, scan, x);
    var y := Tower(BEVAL0_DEPTH, scan, x);
    TowerScans(BEVAL0_DEPTH, scan, y);
    var z := Tower(BEVAL0_DEPTH, scan, y);
    TowerScans(BEVAL0_DEPTH, scan, z);
    IterateAdd(scan, p, p, x);
    IterateAdd(scan, p + p, p, x);
  }

  /**
   * `_EACH(FUNC, ...)`: `B_EVAL(_EACH0(FUNC, __VA_ARGS__, SENTINEL, 0))`,
   * the foreach run for the `B_EVAL4` passes of `B_EVAL` (`EachIsBEval`
   * below). None when the loop is still pending once they run out.
   */
  function Each(f: Token -> Text, va: Args): Option<Text> {
    Outcome(Iterate(Scanner(f), BEVAL_SCANS, EachStart(va)))
  }

  /** The invocation `_EACH0(F, __VA_ARGS__, SENTINEL, 0)`, nothing emitted yet. */
  function EachStart(va: Args): Expansion {
    Pending([], EACH0, Spread(va) + [SENTINEL] + [ZERO])
  }

  function Outcome(e: Expansion): Option<Text> {
    match e
    case Done(text) => Some(text)
    case Pending(_, _, _) => None
  }

  /**
   * What a scan does to the foreach, as `EachStep` does it: a scan of this
   * kind is all the proofs below need to know.
   */
  ghost predicate IsEachScan(f: Token -> Text, scan: Expansion -> Expansion) {
    && (forall text: Text, m: Token, args: Args ::
          (m == EACH0 || m == EACH1) && |args| >= 2 ==>
            scan(Pending(text, m, args))
            == Pending(text + f(args[0]), if args[1] == SENTINEL then EMPTY else OtherEach(m),
                       [args[1]] + Spread(args[2..])))
    && (forall text: Text, args: Args :: scan(Pending(text, EMPTY, args)) == Done(text))
    && (forall text: Text :: scan(Done(text)) == Done(text))
  }

  lemma ScannerIsEachScan(f: Token -> Text)
    ensures IsEachScan(f, Scanner(f))
  {
  }

  /** Once the loop has ended, further scans change nothing. */
  lemma {:induction false} IterateDone(f: Token -> Text, scan: Expansion -> Expansion, n: nat, text: Text)
    requires IsEachScan(f, scan)
    ensures Iterate(scan, n, Done(text)) == Done(text)
  {
    if n > 0 {
      IterateDone(f, scan, n - 1, text);
    }
  }

  /**
   * The loop over `ds, SENTINEL, rest...`: it needs `|ds| + 1` scans, then
   * has emitted `F(d0) ... F(dn-1)` and stops at the first SENTINEL; any
   * fewer scans leave it pending.
   */
  lemma {:induction false} EachRun(f: Token -> Text, scan: Expansion -> Expansion, ds: Args, rest: Args, text: Text, m: Token, k: nat)
    requires IsEachScan(f, scan)
    requires |ds| >= 1 && SENTINEL !in ds[1..]
    requires m == EACH0 || m == EACH1
    ensures k > |ds| ==>
      Iterate(scan, k, Pending(text, m, ds + [SENTINEL] + rest)) == Done(text + FlatMap(f, ds))
    ensures k <= |ds| ==>
      Iterate(scan, k, Pending(text, m, ds + [SENTINEL] + rest)).Pending?
    decreases k
  {
    var args := ds + [SENTINEL] + rest;
    var text' := text + f(ds[0]);
    assert FlatMap(f, ds) == f(ds[0]) + FlatMap(f, ds[1..]);
    if k > 0 {
      assert args[0] == ds[0];
      if |ds| == 1 {
        assert args[1] == SENTINEL;
        var next := Pending(text', EMPTY, [SENTINEL] + Spread(args[2..]));
        assert Iterate(scan, k, Pending(text, m, args)) == Iterate(scan, k - 1, next);
        if k > 1 {
          assert Iterate(scan, k - 1, next) == Iterate(scan, k - 2, Done(text'));
          IterateDone(f, scan, k - 2, text');
          assert FlatMap(f, ds[1..]) == [];
        }
      } else {
        assert args[1] == ds[1] && ds[1] in ds[1..];
        assert ds[1..][1..] == ds[2..];
        assert args[2..] == ds[2..] + [SENTINEL] + rest;
        assert [ds[1]] + Spread(args[2..]) == ds[1..] + [SENTINEL] + rest;
        var next := Pending(text', OtherEach(m), ds[1..] + [SENTINEL] + rest);
        assert Iterate(scan, k, Pending(text, m, args)) == Iterate(scan, k - 1, next);
        EachRun(f, scan, ds[1..], rest, text', OtherEach(m), k - 1);
        assert text' + FlatMap(f, ds[1..]) == text + FlatMap(f, ds);
      }
    }
  }

  /** `_EACH` is the foreach machine under the `B_EVAL` tower. */
  lemma EachIsBEval(f: Token -> Text, va: Args)
    ensures Each(f, va) == Outcome(BEval(Scanner(f), EachStart(va)))
  {
    BEvalScans(Scanner(f), EachStart(va));
  }

  /**
   * The run from the start state, for any scan that behaves as the
   * foreach's, when the first SENTINEL of the list follows `ds`.
   */
  lemma EachOutcome(f: Token -> Text, va: Args, ds: Args, rest: Args)
    requires ds != [] && SENTINEL !in ds[1..]
    requires Spread(va) + [SENTINEL] + [ZERO] == ds + [SENTINEL] + rest
    ensures |ds| < BEVAL_SCANS ==> Outcome(Iterate(Scanner(f), BEVAL_SCANS, EachStart(va))) == Some(FlatMap(f, ds))
    ensures |ds| >= BEVAL_SCANS ==> Outcome(Iterate(Scanner(f), BEVAL_SCANS, EachStart(va))) == None
  {
    ScannerIsEachScan(f);
    EachRun(f, Scanner(f), ds, rest, [], EACH0, BEVAL_SCANS);
    assert [] + FlatMap(f, ds) == FlatMap(f, ds);
  }

  /**
   * `_EACH(F, x0, ..., xn-1)` with one to 242 elements, none of them
   * SENTINEL after the first, is `F(x0) ... F(xn-1)`: each element once,
   * left to right, and F is applied neither to the appended SENTINEL nor
   * to the 0. `_EACH0(F, X, P, ...)` tests only P, so x0 is never tested.
   */
  lemma EachCorrect(f: Token -> Text, va: Args)
    requires va != [] && SENTINEL !in va[1..] && |va| < 243
    ensures Each(f, va) == Some(FlatMap(f, va))
  {
    EachOutcome(f, va, va, [ZERO]);
  }

  /** An empty list still passes one empty argument to F. */
  lemma EachEmpty(f: Token -> Text)
    ensures Each(f, []) == Some(f(BLANK))
  {
    EachOutcome(f, [], [BLANK], [ZERO]);
    FlatMapSingle(f, BLANK);
  }

  /** Beyond the 243 counted `B_EVAL4` passes the modelled loop is left unfinished. */
  lemma EachBudgetExhausted(f: Token -> Text, va: Args)
    requires |va| >= 243 && SENTINEL !in va[1..]
    ensures Each(f, va) == None
  {
    EachOutcome(f, va, va, [ZERO]);
  }

  lemma SentinelSplit(a: Args, b: Args)
    ensures Spread(a + [SENTINEL] + b) + [SENTINEL] + [ZERO] == a + [SENTINEL] + (b + [SENTINEL] + [ZERO])
  {
    var va := a + [SENTINEL] + b;
    assert Spread(va) == va;
    assert va + [SENTINEL] + [ZERO] == a + [SENTINEL] + (b + [SENTINEL] + [ZERO]);
  }

  /**
   * A data token equal to SENTINEL after the first element ends the loop
   * early: it and the elements after it are dropped.
   */
  lemma EachSentinelCollision(f: Token -> Text, a: Args, b: Args)
    requires a != [] && SENTINEL !in a[1..] && |a| < 243
    ensures Each(f, a + [SENTINEL] + b) == Some(FlatMap(f, a))
  {
    var va := a + [SENTINEL] + b;
    var rest := b + [SENTINEL] + [ZERO];
    SentinelSplit(a, b);
    EachOutcome(f, va, a, rest);
  }

  /** A SENTINEL in first place is not tested: F is applied to it and the loop goes on. */
  lemma EachFirstUntested(f: Token -> Text, x: Token)
    requires x != SENTINEL
    ensures Each(f, [SENTINEL, x]) == Some(f(SENTINEL) + f(x))
  {
    EachCorrect(f, [SENTINEL, x]);
    assert FlatMap(f, [SENTINEL, x]) == f(SENTINEL) + FlatMap(f, [x]);
    FlatMapSingle(f, x);
  }
}
