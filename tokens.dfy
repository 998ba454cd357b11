/**
 * Tokens, spellings and name pasting: the vocabulary shared by every macro
 * of the toolkit. A macro argument list is a sequence of tokens (one token
 * per comma-separated argument); the text a macro emits is a sequence of
 * tokens too, in which a comma is an ordinary token.
 */
module Tokens {

  datatype Option<+T> = None | Some(value: T) {
    predicate IsFailure() { None? }

    function PropagateFailure<U>(): Option<U>
      requires None?
    {
      None
    }

    function Extract(): T
      requires Some?
    {
      value
    }
  }

  /**
   * A preprocessing token, known by its spelling. `Call(callee, arg)` is
   * the text `callee(arg)` that the preprocessor leaves in place because
   * `callee` does not name a function-like macro; to the argument
   * splitter it is a single argument.
   */
  datatype Token =
    | Tok(text: string)
    | Call(callee: Token, arg: Token)

  type Args = seq<Token>
  type Text = seq<Token>

  function Spell(t: Token): string {
    match t
    case Tok(s) => s
    case Call(c, a) => Spell(c) + "(" + Spell(a) + ")"
  }

  function Digit(d: nat): char
    requires d < 10
  {
    "0123456789"[d]
  }

  /** The decimal spelling of `n`, as a pp-number is written. */
  function Decimal(n: nat): string {
    if n < 10 then [Digit(n)] else Decimal(n / 10) + [Digit(n % 10)]
  }

  function Num(n: nat): Token {
    Tok(Decimal(n))
  }

  const ZERO: Token := Tok("0")
  const ONE: Token := Tok("1")

  /** An empty macro argument, as in the second argument of `F(a, )`. */
  const BLANK: Token := Tok("")

  const COMMA: Token := Tok(",")
  const TILDE: Token := Tok("~")

  function Bit(b: bool): Token {
    if b then ONE else ZERO
  }

  predicate IsBit(t: Token) {
    t == ZERO || t == ONE
  }

  /** A bit's spelling is the one-character string "0" or "1". */
  lemma SpelledBit(c: Token)
    requires Spell(c) == "0" || Spell(c) == "1"
    ensures IsBit(c)
  {
    match c
    case Tok(_) =>
    case Call(f, a) =>
  }

  /**
   * The argument list that the text `__VA_ARGS__` forms when it stands
   * between commas or parentheses: an empty variadic part still leaves one
   * empty argument behind. (Only the GNU form `, ## __VA_ARGS__` makes the
   * empty part vanish; there the list is used as it is.)
   */
  function Spread(va: Args): (r: Args)
    ensures |r| >= 1
    ensures va != [] ==> r == va
    ensures va == [] ==> r == [BLANK]
  {
    if va == [] then [BLANK] else va
  }

  /** A decimal spelling is all digits. */
  lemma {:induction false} DecimalIsDigits(n: nat)
    ensures forall k :: 0 <= k < |Decimal(n)| ==> '0' <= Decimal(n)[k] <= '9'
  {
    if n >= 10 {
      DecimalIsDigits(n / 10);
    }
  }

  lemma CallSpelling(c: Token, a: Token)
    ensures |Spell(c)| < |Spell(Call(c, a))| && Spell(Call(c, a))[|Spell(c)|] == '('
  {
  }

  /**
   * A token spelled as a decimal number is that number: the spelling of a
   * `Call` holds a parenthesis, which no number does.
   */
  lemma SpelledAsNum(t: Token, n: nat)
    requires Spell(t) == Decimal(n)
    ensures t == Num(n)
  {
    match t
    case Tok(_) =>
    case Call(c, a) =>
      CallSpelling(c, a);
      DecimalIsDigits(n);
  }

  /** `A ## B`: the token that pasting two tokens forms. */
  function Paste(a: Token, b: Token): Token {
    Tok(Spell(a) + Spell(b))
  }

  /** `MACRO_CONCAT(FUNC, INDEX)`: the name of the identifier `FUNC ## INDEX`. */
  function MacroConcat(func: string, index: Token): string {
    func + Spell(index)
  }

  /**
   * Dispatch by concatenation: the pasted name resolves to an entry of a
   * macro family exactly when the family defines a macro of that name.
   */
  function Lookup<E>(family: map<string, E>, func: string, index: Token): (r: Option<E>)
    ensures r.Some? <==> MacroConcat(func, index) in family
    ensures r.Some? ==> r.value == family[MacroConcat(func, index)]
  {
    var name := MacroConcat(func, index);
    if name in family then Some(family[name]) else None
  }

  /**
   * An index that pastes onto FUNC to the name `FUNC<n>` of a numbered
   * family member is the number n itself.
   */
  lemma PastedIndex(func: string, t: Token, n: nat)
    requires MacroConcat(func, t) == func + Decimal(n)
    ensures t == Num(n)
  {
    assert Spell(t) == MacroConcat(func, t)[|func|..];
    assert (func + Decimal(n))[|func|..] == Decimal(n);
    SpelledAsNum(t, n);
  }

  /** Pasting is unambiguous: two indices that paste to one name are spelled alike. */
  lemma MacroConcatInjective(func: string, a: Token, b: Token)
    requires MacroConcat(func, a) == MacroConcat(func, b)
    ensures Spell(a) == Spell(b)
  {
    assert Spell(a) == MacroConcat(func, a)[|func|..];
    assert Spell(b) == MacroConcat(func, b)[|func|..];
  }

  function Count(t: Text, x: Token): (c: nat)
    ensures c <= |t|
  {
    if t == [] then 0 else (if t[0] == x then 1 else 0) + Count(t[1..], x)
  }

  lemma {:induction false} CountAppend(a: Text, b: Text, x: Token)
    ensures Count(a + b, x) == Count(a, x) + Count(b, x)
  {
    if a == [] {
      assert a + b == b;
    } else {
      assert (a + b)[1..] == a[1..] + b;
      CountAppend(a[1..], b, x);
    }
  }

  /** The concatenation `f(x0) f(x1) ... f(xn-1)`. */
  function FlatMap(f: Token -> Text, xs: Args): Text {
    if xs == [] then [] else f(xs[0]) + FlatMap(f, xs[1..])
  }

  lemma FlatMapSingle(f: Token -> Text, x: Token)
    ensures FlatMap(f, [x]) == f(x)
  {
    assert FlatMap(f, [x]) == f(x) + FlatMap(f, []);
  }
}
