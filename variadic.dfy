/**
 * Variadic primitives of macro_va.h: inspecting, counting, indexing and
 * slicing a macro's argument list by positional pattern matching.
 */
module Variadic {
  import opened Tokens

  /**
   * `GET_MACRO(FUNC, ...)`: the name formed by pasting the argument count
   * onto FUNC.
   */
  function GetMacro(func: string, va: Args): (name: string)
    ensures |va| <= 10 ==> name == func + Decimal(|va|)
  {
    MacroConcat(func, VaLength(va))
  }

  /**
   * `VA_CHECK(...)`: the second argument of `__VA_ARGS__, 0,` — so 0 when
   * the arguments form a single argument, and the second argument otherwise.
   */
  function VaCheck(va: Args): (r: Token)
    ensures |va| <= 1 ==> r == ZERO
    ensures |va| >= 2 ==> r == va[1]
  {
    var args := Spread(va) + [ZERO, BLANK];
    args[1]
  }

  /** The reverse count `10, 9, ..., 0` that `VA_LENGTH` aligns against. */
  const COUNTDOWN: Args :=
    [Tok("10"), Tok("9"), Tok("8"), Tok("7"), Tok("6"), Tok("5"),
     Tok("4"), Tok("3"), Tok("2"), Tok("1"), Tok("0")]

  lemma CountdownAt(j: nat)
    requires j <= 10
    ensures COUNTDOWN[j] == Num(10 - j)
  {
    if j == 0 {
      assert Decimal(10) == "10";
    }
  }

  /**
   * `VA_LENGTH(...)`: the argument in position 11 (counting from 0) of
   * `0, ## __VA_ARGS__, 10, 9, ..., 0`. That is the number of arguments
   * for up to ten of them; an eleventh argument and beyond push an
   * argument of the caller's into position 11.
   */
  function VaLength(va: Args): (r: Token)
    ensures |va| <= 10 ==> r == Num(|va|)
    ensures |va| > 10 ==> r == va[10]
  {
    var args := [ZERO] + va + COUNTDOWN;
    assert |va| <= 10 ==> args[11] == Num(|va|) by {
      if |va| <= 10 { CountdownAt(10 - |va|); }
    }
    args[11]
  }

  /**
   * `VA_LENGTH_INC(...)` as written: `VA_LENGTH(0, __VA_ARGS__)`. Without
   * `##`, an empty variadic part leaves an empty argument after the `0,`,
   * so the empty list counts as two.
   */
  function VaLengthInc(va: Args): (r: Token)
    ensures 1 <= |va| <= 9 ==> r == Num(|va| + 1)
    ensures va == [] ==> r == Num(2)
  {
    VaLength([ZERO] + Spread(va))
  }

  /** `VA_LENGTH_INC` with the comma elided for an empty list: `VA_LENGTH(0, ## __VA_ARGS__)`. */
  function VaLengthIncIntended(va: Args): (r: Token)
    ensures |va| <= 9 ==> r == Num(|va| + 1)
  {
    VaLength([ZERO] + va)
  }

  /** The empty argument list shows the two definitions apart. */
  lemma VaLengthIncEmpty()
    ensures VaLengthInc([]) == Num(2)
    ensures VaLengthIncIntended([]) == Num(1)
    ensures VaLengthInc([]) != VaLengthIncIntended([])
  {
    assert Decimal(2) == "2";
    assert Decimal(1) == "1";
  }

  /**
   * `VA_LENGTH_DEC(...)`: `VA_DEC(_0, ...)` drops the first argument and
   * counts the rest, so one less than the count for one to eleven
   * arguments, and 0 for none.
   */
  function VaLengthDec(va: Args): (r: Token)
    ensures 1 <= |va| <= 11 ==> r == Num(|va| - 1)
    ensures va == [] ==> r == ZERO
  {
    var args := Spread(va);
    VaLength(args[1..])
  }

  /**
   * The family `VA_AT0` ... `VA_AT10`: `VA_AT<i>` names `i` leading
   * parameters and returns the argument that follows them.
   */
  const VA_AT: map<string, nat> :=
    map["VA_AT0" := 0, "VA_AT1" := 1, "VA_AT2" := 2, "VA_AT3" := 3,
        "VA_AT4" := 4, "VA_AT5" := 5, "VA_AT6" := 6, "VA_AT7" := 7,
        "VA_AT8" := 8, "VA_AT9" := 9, "VA_AT10" := 10]

  lemma VaAtFamily(i: nat)
    requires i <= 10
    ensures Lookup(VA_AT, "VA_AT", Num(i)) == Some(i)
  {
    match i
    case 0 => assert MacroConcat("VA_AT", Num(i)) == "VA_AT0";
    case 1 => assert MacroConcat("VA_AT", Num(i)) == "VA_AT1";
    case 2 => assert MacroConcat("VA_AT", Num(i)) == "VA_AT2";
    case 3 => assert MacroConcat("VA_AT", Num(i)) == "VA_AT3";
    case 4 => assert MacroConcat("VA_AT", Num(i)) == "VA_AT4";
    case 5 => assert MacroConcat("VA_AT", Num(i)) == "VA_AT5";
    case 6 => assert MacroConcat("VA_AT", Num(i)) == "VA_AT6";
    case 7 => assert MacroConcat("VA_AT", Num(i)) == "VA_AT7";
    case 8 => assert MacroConcat("VA_AT", Num(i)) == "VA_AT8";
    case 9 => assert MacroConcat("VA_AT", Num(i)) == "VA_AT9";
    case 10 => assert MacroConcat("VA_AT", Num(i)) == "VA_AT10";
  }

  /**
   * `VA_AT(INDEX, ...)`: the macro `VA_AT<INDEX>` applied to the
   * arguments. None when that name is not defined, or when the caller
   * supplies too few arguments for its parameter list.
   */
  function VaAt(index: Token, va: Args): Option<Token> {
    var i :- Lookup(VA_AT, "VA_AT", index);
    var args := Spread(va);
    if i < |args| then Some(args[i]) else None
  }

  /** Only the family's own indices resolve: a defined `VA_AT<t>` has t in 0..10. */
  lemma VaAtIndex(t: Token)
    requires Lookup(VA_AT, "VA_AT", t).Some?
    ensures Lookup(VA_AT, "VA_AT", t).value <= 10
    ensures t == Num(Lookup(VA_AT, "VA_AT", t).value)
  {
    var i := Lookup(VA_AT, "VA_AT", t).value;
    assert MacroConcat("VA_AT", t) == "VA_AT" + Decimal(i);
    PastedIndex("VA_AT", t, i);
  }

  /**
   * Every `VA_AT(INDEX, ...)` that expands has an index in 0..10 with an
   * argument at that position, and yields that argument.
   */
  lemma VaAtDomain(index: Token, va: Args)
    requires VaAt(index, va).Some?
    ensures exists i: nat :: i <= 10 && index == Num(i) && i < |Spread(va)| && VaAt(index, va).value == Spread(va)[i]
  {
    VaAtIndex(index);
  }

  lemma VaAtCorrect(i: nat, va: Args)
    requires i <= 10 && i < |va|
    ensures VaAt(Num(i), va) == Some(va[i])
  {
    VaAtFamily(i);
  }

  /** Under-supplying `VA_AT<i>` is an arity error, not a value. */
  lemma VaAtTooFew(i: nat, va: Args)
    requires i <= 10 && |Spread(va)| <= i
    ensures VaAt(Num(i), va) == None
  {
    VaAtFamily(i);
  }

  /** `VA_HEAD(...)`: `VA_AT(0, __VA_ARGS__)`, the first argument. */
  function VaHead(va: Args): (r: Option<Token>)
    ensures va != [] ==> r == Some(va[0])
    ensures va == [] ==> r == Some(BLANK)
  {
    VaAtFamily(0);
    VaAt(ZERO, va)
  }

  /** `VA_TAIL(...)`: `VA_AT(VA_LENGTH_DEC(__VA_ARGS__), __VA_ARGS__)`, the last argument. */
  function VaTail(va: Args): (r: Option<Token>)
    ensures 1 <= |va| <= 11 ==> r == Some(va[|va| - 1])
  {
    assert 1 <= |va| <= 11 ==> VaAt(Num(|va| - 1), va) == Some(va[|va| - 1]) by {
      if 1 <= |va| <= 11 { VaAtCorrect(|va| - 1, va); }
    }
    VaAt(VaLengthDec(va), va)
  }

  /**
   * The family `VA_SLICE_AT0` ... `VA_SLICE_AT10`: `VA_SLICE_AT<i>` names
   * `i + 1` leading parameters and returns the first `i` of them.
   */
  const VA_SLICE_AT: map<string, nat> :=
    map["VA_SLICE_AT0" := 0, "VA_SLICE_AT1" := 1, "VA_SLICE_AT2" := 2,
        "VA_SLICE_AT3" := 3, "VA_SLICE_AT4" := 4, "VA_SLICE_AT5" := 5,
        "VA_SLICE_AT6" := 6, "VA_SLICE_AT7" := 7, "VA_SLICE_AT8" := 8,
        "VA_SLICE_AT9" := 9, "VA_SLICE_AT10" := 10]

  lemma VaSliceAtFamily(i: nat)
    requires i <= 10
    ensures Lookup(VA_SLICE_AT, "VA_SLICE_AT", Num(i)) == Some(i)
  {
    match i
    case 0 => assert MacroConcat("VA_SLICE_AT", Num(i)) == "VA_SLICE_AT0";
    case 1 => assert MacroConcat("VA_SLICE_AT", Num(i)) == "VA_SLICE_AT1";
    case 2 => assert MacroConcat("VA_SLICE_AT", Num(i)) == "VA_SLICE_AT2";
    case 3 => assert MacroConcat("VA_SLICE_AT", Num(i)) == "VA_SLICE_AT3";
    case 4 => assert MacroConcat("VA_SLICE_AT", Num(i)) == "VA_SLICE_AT4";
    case 5 => assert MacroConcat("VA_SLICE_AT", Num(i)) == "VA_SLICE_AT5";
    case 6 => assert MacroConcat("VA_SLICE_AT", Num(i)) == "VA_SLICE_AT6";
    case 7 => assert MacroConcat("VA_SLICE_AT", Num(i)) == "VA_SLICE_AT7";
    case 8 => assert MacroConcat("VA_SLICE_AT", Num(i)) == "VA_SLICE_AT8";
    case 9 => assert MacroConcat("VA_SLICE_AT", Num(i)) == "VA_SLICE_AT9";
    case 10 => assert MacroConcat("VA_SLICE_AT", Num(i)) == "VA_SLICE_AT10";
  }

  /**
   * `VA_SLICE_AT(INDEX, ...)`: the macro `VA_SLICE_AT<INDEX>` applied to
   * the arguments. None when that name is not defined, or when the caller
   * supplies fewer than `INDEX + 1` arguments.
   */
  function VaSliceAt(index: Token, va: Args): Option<Args> {
    var i :- Lookup(VA_SLICE_AT, "VA_SLICE_AT", index);
    var args := Spread(va);
    if i < |args| then Some(args[..i]) else None
  }

  /** Only the family's own indices resolve: a defined `VA_SLICE_AT<t>` has t in 0..10. */
  lemma VaSliceAtIndex(t: Token)
    requires Lookup(VA_SLICE_AT, "VA_SLICE_AT", t).Some?
    ensures Lookup(VA_SLICE_AT, "VA_SLICE_AT", t).value <= 10
    ensures t == Num(Lookup(VA_SLICE_AT, "VA_SLICE_AT", t).value)
  {
    var i := Lookup(VA_SLICE_AT, "VA_SLICE_AT", t).value;
    assert MacroConcat("VA_SLICE_AT", t) == "VA_SLICE_AT" + Decimal(i);
    PastedIndex("VA_SLICE_AT", t, i);
  }

  /**
   * Every `VA_SLICE_AT(INDEX, ...)` that expands has an index i in 0..10,
   * at least i + 1 arguments, and yields the first i of them.
   */
  lemma VaSliceAtDomain(index: Token, va: Args)
    requires VaSliceAt(index, va).Some?
    ensures exists i: nat :: i <= 10 && index == Num(i) && i < |Spread(va)| && VaSliceAt(index, va).value == Spread(va)[..i]
  {
    VaSliceAtIndex(index);
  }

  lemma VaSliceAtCorrect(i: nat, va: Args)
    requires i <= 10 && i < |va|
    ensures VaSliceAt(Num(i), va) == Some(va[..i])
    ensures |VaSliceAt(Num(i), va).value| == i
  {
    VaSliceAtFamily(i);
  }

  /** `VA_SLICE_AT0` is the empty slice of any argument list, even an empty one. */
  lemma VaSliceAtZero(va: Args)
    ensures VaSliceAt(ZERO, va) == Some([])
  {
    VaSliceAtFamily(0);
  }

  /** Slicing at `i` needs one argument more than it returns. */
  lemma VaSliceAtTooFew(i: nat, va: Args)
    requires i <= 10 && |Spread(va)| <= i
    ensures VaSliceAt(Num(i), va) == None
  {
    VaSliceAtFamily(i);
  }
}
