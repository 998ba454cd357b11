/**
 * Bit logic and comparisons of macro_logic.h. Every gate is a lookup: the
 * operands are pasted onto the gate's name and the resulting zero-argument
 * macro, if one is defined, yields the answer. Comparisons of operands 0
 * to 10 pick one entry of an 11-entry row with `VA_AT<i>`.
 */
module Logic {
  import opened Tokens
  import Variadic

  const NOT_TABLE: map<string, Token> := map["NOT0" := ONE, "NOT1" := ZERO]

  /**
   * `NOT(C)`: `NOT0()` is 1 and `NOT1()` is 0; any other operand pastes to
   * a name with no definition.
   */
  function Not(c: Token): (r: Option<Token>)
    ensures IsBit(c) ==> r == Some(Bit(c == ZERO))
    ensures r.Some? ==> IsBit(c)
  {
    assert MacroConcat("NOT", ZERO) == "NOT0";
    assert MacroConcat("NOT", ONE) == "NOT1";
    var r := Lookup(NOT_TABLE, "NOT", c);
    assert r.Some? ==> IsBit(c) by {
      if r.Some? {
        var name := MacroConcat("NOT", c);
        assert Spell(c) == name[3..];
        SpelledBit(c);
      }
    }
    r
  }

  lemma NotInvolution(c: Token)
    requires IsBit(c)
    ensures Not(Not(c).value) == Some(c)
  {
  }

  /** The four-entry truth tables, keyed by the two pasted bits. */
  const AND_TABLE: map<string, Token> :=
    map["AND00" := ZERO, "AND01" := ZERO, "AND10" := ZERO, "AND11" := ONE]
  const OR_TABLE: map<string, Token> :=
    map["OR00" := ZERO, "OR01" := ONE, "OR10" := ONE, "OR11" := ONE]
  const XOR_TABLE: map<string, Token> :=
    map["XOR00" := ZERO, "XOR01" := ONE, "XOR10" := ONE, "XOR11" := ZERO]

  /** `AND(A, B)`: `AND ## A ## B` looked up in the table `AND00` ... `AND11`. */
  function And(a: Token, b: Token): (r: Option<Token>)
    ensures IsBit(a) && IsBit(b) ==> r == Some(Bit(a == ONE && b == ONE))
  {
    assert MacroConcat("AND", Paste(ZERO, ZERO)) == "AND00";
    assert MacroConcat("AND", Paste(ZERO, ONE)) == "AND01";
    assert MacroConcat("AND", Paste(ONE, ZERO)) == "AND10";
    assert MacroConcat("AND", Paste(ONE, ONE)) == "AND11";
    Lookup(AND_TABLE, "AND", Paste(a, b))
  }

  /** `OR(A, B)`: `OR ## A ## B` looked up in the table `OR00` ... `OR11`. */
  function Or(a: Token, b: Token): (r: Option<Token>)
    ensures IsBit(a) && IsBit(b) ==> r == Some(Bit(a == ONE || b == ONE))
  {
    assert MacroConcat("OR", Paste(ZERO, ZERO)) == "OR00";
    assert MacroConcat("OR", Paste(ZERO, ONE)) == "OR01";
    assert MacroConcat("OR", Paste(ONE, ZERO)) == "OR10";
    assert MacroConcat("OR", Paste(ONE, ONE)) == "OR11";
    Lookup(OR_TABLE, "OR", Paste(a, b))
  }

  /** `XOR(A, B)`: `XOR ## A ## B` looked up in the table `XOR00` ... `XOR11`. */
  function Xor(a: Token, b: Token): (r: Option<Token>)
    ensures IsBit(a) && IsBit(b) ==> r == Some(Bit(a != b))
  {
    assert MacroConcat("XOR", Paste(ZERO, ZERO)) == "XOR00";
    assert MacroConcat("XOR", Paste(ZERO, ONE)) == "XOR01";
    assert MacroConcat("XOR", Paste(ONE, ZERO)) == "XOR10";
    assert MacroConcat("XOR", Paste(ONE, ONE)) == "XOR11";
    Lookup(XOR_TABLE, "XOR", Paste(a, b))
  }

  /** `NAND(A, B)`: `NOT(AND(A, B))`. */
  function Nand(a: Token, b: Token): (r: Option<Token>)
    ensures IsBit(a) && IsBit(b) ==> r == Some(Bit(!(a == ONE && b == ONE)))
  {
    var x :- And(a, b);
    Not(x)
  }

  /** `NOR(A, B)`: `NOT(OR(A, B))`. */
  function Nor(a: Token, b: Token): (r: Option<Token>)
    ensures IsBit(a) && IsBit(b) ==> r == Some(Bit(!(a == ONE || b == ONE)))
  {
    var x :- Or(a, b);
    Not(x)
  }

  /** `XNOR(A, B)`: `NOT(XOR(A, B))`. */
  function Xnor(a: Token, b: Token): (r: Option<Token>)
    ensures IsBit(a) && IsBit(b) ==> r == Some(Bit(a == b))
  {
    var x :- Xor(a, b);
    Not(x)
  }

  /** The rows `EQ0()` ... `EQ10()`. */
  const EQ_ROWS: map<string, Args> :=
    map[
      "EQ0" := [ONE, ZERO, ZERO, ZERO, ZERO, ZERO, ZERO, ZERO, ZERO, ZERO, ZERO],
      "EQ1" := [ZERO, ONE, ZERO, ZERO, ZERO, ZERO, ZERO, ZERO, ZERO, ZERO, ZERO],
      "EQ2" := [ZERO, ZERO, ONE, ZERO, ZERO, ZERO, ZERO, ZERO, ZERO, ZERO, ZERO],
      "EQ3" := [ZERO, ZERO, ZERO, ONE, ZERO, ZERO, ZERO, ZERO, ZERO, ZERO, ZERO],
      "EQ4" := [ZERO, ZERO, ZERO, ZERO, ONE, ZERO, ZERO, ZERO, ZERO, ZERO, ZERO],
      "EQ5" := [ZERO, ZERO, ZERO, ZERO, ZERO, ONE, ZERO, ZERO, ZERO, ZERO, ZERO],
      "EQ6" := [ZERO, ZERO, ZERO, ZERO, ZERO, ZERO, ONE, ZERO, ZERO, ZERO, ZERO],
      "EQ7" := [ZERO, ZERO, ZERO, ZERO, ZERO, ZERO, ZERO, ONE, ZERO, ZERO, ZERO],
      "EQ8" := [ZERO, ZERO, ZERO, ZERO, ZERO, ZERO, ZERO, ZERO, ONE, ZERO, ZERO],
      "EQ9" := [ZERO, ZERO, ZERO, ZERO, ZERO, ZERO, ZERO, ZERO, ZERO, ONE, ZERO],
      "EQ10" := [ZERO, ZERO, ZERO, ZERO, ZERO, ZERO, ZERO, ZERO, ZERO, ZERO, ONE]]

  /** The rows `GT0()` ... `GT10()`. */
  const GT_ROWS: map<string, Args> :=
    map[
      "GT0" := [ZERO, ONE, ONE, ONE, ONE, ONE, ONE, ONE, ONE, ONE, ONE],
      "GT1" := [ZERO, ZERO, ONE, ONE, ONE, ONE, ONE, ONE, ONE, ONE, ONE],
      "GT2" := [ZERO, ZERO, ZERO, ONE, ONE, ONE, ONE, ONE, ONE, ONE, ONE],
      "GT3" := [ZERO, ZERO, ZERO, ZERO, ONE, ONE, ONE, ONE, ONE, ONE, ONE],
      "GT4" := [ZERO, ZERO, ZERO, ZERO, ZERO, ONE, ONE, ONE, ONE, ONE, ONE],
      "GT5" := [ZERO, ZERO, ZERO, ZERO, ZERO, ZERO, ONE, ONE, ONE, ONE, ONE],
      "GT6" := [ZERO, ZERO, ZERO, ZERO, ZERO, ZERO, ZERO, ONE, ONE, ONE, ONE],
      "GT7" := [ZERO, ZERO, ZERO, ZERO, ZERO, ZERO, ZERO, ZERO, ONE, ONE, ONE],
      "GT8" := [ZERO, ZERO, ZERO, ZERO, ZERO, ZERO, ZERO, ZERO, ZERO, ONE, ONE],
      "GT9" := [ZERO, ZERO, ZERO, ZERO, ZERO, ZERO, ZERO, ZERO, ZERO, ZERO, ONE],
      "GT10" := [ZERO, ZERO, ZERO, ZERO, ZERO, ZERO, ZERO, ZERO, ZERO, ZERO, ZERO]]

  /** Row `EQ<k>` has 11 bits, with 1 exactly at position k. */
  lemma EqRow(k: nat)
    requires k <= 10
    ensures Lookup(EQ_ROWS, "EQ", Num(k)).Some?
    ensures var row := Lookup(EQ_ROWS, "EQ", Num(k)).value;
      |row| == 11 && forall i :: 0 <= i < 11 ==> row[i] == Bit(i == k)
  {
    match k
    case 0 => assert MacroConcat("EQ", Num(k)) == "EQ0";
    case 1 => assert MacroConcat("EQ", Num(k)) == "EQ1";
    case 2 => assert MacroConcat("EQ", Num(k)) == "EQ2";
    case 3 => assert MacroConcat("EQ", Num(k)) == "EQ3";
    case 4 => assert MacroConcat("EQ", Num(k)) == "EQ4";
    case 5 => assert MacroConcat("EQ", Num(k)) == "EQ5";
    case 6 => assert MacroConcat("EQ", Num(k)) == "EQ6";
    case 7 => assert MacroConcat("EQ", Num(k)) == "EQ7";
    case 8 => assert MacroConcat("EQ", Num(k)) == "EQ8";
    case 9 => assert MacroConcat("EQ", Num(k)) == "EQ9";
    case 10 => assert MacroConcat("EQ", Num(k)) == "EQ10";
  }

  /** Row `GT<k>` has 11 bits, with 1 exactly at the positions above k. */
  lemma GtRow(k: nat)
    requires k <= 10
    ensures Lookup(GT_ROWS, "GT", Num(k)).Some?
    ensures var row := Lookup(GT_ROWS, "GT", Num(k)).value;
      |row| == 11 && forall i :: 0 <= i < 11 ==> row[i] == Bit(i > k)
  {
    match k
    case 0 => assert MacroConcat("GT", Num(k)) == "GT0";
    case 1 => assert MacroConcat("GT", Num(k)) == "GT1";
    case 2 => assert MacroConcat("GT", Num(k)) == "GT2";
    case 3 => assert MacroConcat("GT", Num(k)) == "GT3";
    case 4 => assert MacroConcat("GT", Num(k)) == "GT4";
    case 5 => assert MacroConcat("GT", Num(k)) == "GT5";
    case 6 => assert MacroConcat("GT", Num(k)) == "GT6";
    case 7 => assert MacroConcat("GT", Num(k)) == "GT7";
    case 8 => assert MacroConcat("GT", Num(k)) == "GT8";
    case 9 => assert MacroConcat("GT", Num(k)) == "GT9";
    case 10 => assert MacroConcat("GT", Num(k)) == "GT10";
  }

  /**
   * `DELAYED_APPLY(MACRO_LOOKUP(VA_AT, A), <row>)`: the macro that `VA_AT ## A`
   * names, applied to a comparison row. For a number A that is `VA_AT<A>`,
   * entry A of the row. An empty A pastes to `VA_AT` itself, which is not
   * being expanded at that point, so it takes the row's first entry as its
   * index into the rest of the row.
   */
  function RowEntry(a: Token, row: Args): Option<Token> {
    if a == BLANK && row != [] then Variadic.VaAt(row[0], row[1..]) else Variadic.VaAt(a, row)
  }

  /**
   * `EQ(A, B)`: `DELAYED_APPLY(MACRO_LOOKUP(VA_AT, A), MACRO_LOOKUP(EQ, B))`,
   * that is `VA_AT<A>(EQ<B>())`: entry A of row B.
   */
  function Eq(a: Token, b: Token): Option<Token> {
    var row :- Lookup(EQ_ROWS, "EQ", b);
    RowEntry(a, row)
  }

  /** `GT(LHS, RHS)`: `VA_AT<LHS>(GT<RHS>())`, entry LHS of row RHS. */
  function Gt(lhs: Token, rhs: Token): Option<Token> {
    var row :- Lookup(GT_ROWS, "GT", rhs);
    RowEntry(lhs, row)
  }

  /** `NEQ(A, B)`: `NOT(EQ(A, B))`. */
  function Neq(a: Token, b: Token): Option<Token> {
    var e :- Eq(a, b);
    Not(e)
  }

  /** `GTE(LHS, RHS)`: `OR(GT(LHS, RHS), EQ(LHS, RHS))`. */
  function Gte(lhs: Token, rhs: Token): Option<Token> {
    var g :- Gt(lhs, rhs);
    var e :- Eq(lhs, rhs);
    Or(g, e)
  }

  /** `LT(LHS, RHS)`: `NOT(GTE(LHS, RHS))`. */
  function Lt(lhs: Token, rhs: Token): Option<Token> {
    var ge :- Gte(lhs, rhs);
    Not(ge)
  }

  /** `LTE(LHS, RHS)`: `OR(LT(LHS, RHS), EQ(LHS, RHS))`. */
  function Lte(lhs: Token, rhs: Token): Option<Token> {
    var lt :- Lt(lhs, rhs);
    var e :- Eq(lhs, rhs);
    Or(lt, e)
  }

  lemma EqCorrect(a: nat, b: nat)
    requires a <= 10 && b <= 10
    ensures Eq(Num(a), Num(b)) == Some(Bit(a == b))
  {
    EqRow(b);
    Variadic.VaAtCorrect(a, Lookup(EQ_ROWS, "EQ", Num(b)).value);
  }

  lemma GtCorrect(lhs: nat, rhs: nat)
    requires lhs <= 10 && rhs <= 10
    ensures Gt(Num(lhs), Num(rhs)) == Some(Bit(lhs > rhs))
  {
    GtRow(rhs);
    Variadic.VaAtCorrect(lhs, Lookup(GT_ROWS, "GT", Num(rhs)).value);
  }

  lemma EqSymmetric(a: nat, b: nat)
    requires a <= 10 && b <= 10
    ensures Eq(Num(a), Num(b)) == Eq(Num(b), Num(a))
  {
    EqCorrect(a, b);
    EqCorrect(b, a);
  }

  lemma NeqCorrect(a: nat, b: nat)
    requires a <= 10 && b <= 10
    ensures Neq(Num(a), Num(b)) == Some(Bit(a != b))
  {
    EqCorrect(a, b);
  }

  lemma GteCorrect(lhs: nat, rhs: nat)
    requires lhs <= 10 && rhs <= 10
    ensures Gte(Num(lhs), Num(rhs)) == Some(Bit(lhs >= rhs))
  {
    GtCorrect(lhs, rhs);
    EqCorrect(lhs, rhs);
  }

  lemma LtCorrect(lhs: nat, rhs: nat)
    requires lhs <= 10 && rhs <= 10
    ensures Lt(Num(lhs), Num(rhs)) == Some(Bit(lhs < rhs))
  {
    GteCorrect(lhs, rhs);
  }

  lemma LteCorrect(lhs: nat, rhs: nat)
    requires lhs <= 10 && rhs <= 10
    ensures Lte(Num(lhs), Num(rhs)) == Some(Bit(lhs <= rhs))
  {
    LtCorrect(lhs, rhs);
    EqCorrect(lhs, rhs);
  }

  /**
   * The operands a comparison accepts: a right operand in 0..10, and a
   * left operand in 0..10 or empty.
   */
  ghost predicate Operands(a: Token, b: Token) {
    (a == BLANK || exists i: nat :: i <= 10 && a == Num(i)) && exists j: nat :: j <= 10 && b == Num(j)
  }

  /** Only the rows `EQ0` ... `EQ10` are defined. */
  lemma EqIndex(t: Token)
    requires Lookup(EQ_ROWS, "EQ", t).Some?
    ensures exists k: nat :: k <= 10 && t == Num(k)
  {
    var name := MacroConcat("EQ", t);
    if name == "EQ0" {
      PastedIndex("EQ", t, 0);
    } else if name == "EQ1" {
      PastedIndex("EQ", t, 1);
    } else if name == "EQ2" {
      PastedIndex("EQ", t, 2);
    } else if name == "EQ3" {
      PastedIndex("EQ", t, 3);
    } else if name == "EQ4" {
      PastedIndex("EQ", t, 4);
    } else if name == "EQ5" {
      PastedIndex("EQ", t, 5);
    } else if name == "EQ6" {
      PastedIndex("EQ", t, 6);
    } else if name == "EQ7" {
      PastedIndex("EQ", t, 7);
    } else if name == "EQ8" {
      PastedIndex("EQ", t, 8);
    } else if name == "EQ9" {
      PastedIndex("EQ", t, 9);
    } else {
      assert name == "EQ10";
      PastedIndex("EQ", t, 10);
    }
  }

  /** Only the rows `GT0` ... `GT10` are defined. */
  lemma GtIndex(t: Token)
    requires Lookup(GT_ROWS, "GT", t).Some?
    ensures exists k: nat :: k <= 10 && t == Num(k)
  {
    var name := MacroConcat("GT", t);
    if name == "GT0" {
      PastedIndex("GT", t, 0);
    } else if name == "GT1" {
      PastedIndex("GT", t, 1);
    } else if name == "GT2" {
      PastedIndex("GT", t, 2);
    } else if name == "GT3" {
      PastedIndex("GT", t, 3);
    } else if name == "GT4" {
      PastedIndex("GT", t, 4);
    } else if name == "GT5" {
      PastedIndex("GT", t, 5);
    } else if name == "GT6" {
      PastedIndex("GT", t, 6);
    } else if name == "GT7" {
      PastedIndex("GT", t, 7);
    } else if name == "GT8" {
      PastedIndex("GT", t, 8);
    } else if name == "GT9" {
      PastedIndex("GT", t, 9);
    } else {
      assert name == "GT10";
      PastedIndex("GT", t, 10);
    }
  }

  /**
   * An empty left operand compares as 1: `VA_AT` indexes the rest of row B
   * by the row's first entry, which is 0 for every row but `EQ0`.
   */
  lemma EqBlank(b: nat)
    requires b <= 10
    ensures Eq(BLANK, Num(b)) == Eq(Num(1), Num(b)) == Some(Bit(b == 1))
  {
    EqRow(b);
    EqCorrect(1, b);
    var row := Lookup(EQ_ROWS, "EQ", Num(b)).value;
    assert Num(0) == ZERO && Num(1) == ONE;
    if b == 0 {
      Variadic.VaAtCorrect(1, row[1..]);
    } else {
      Variadic.VaAtCorrect(0, row[1..]);
    }
  }

  /** An empty left operand compares as 1: every `GT` row starts with 0. */
  lemma GtBlank(rhs: nat)
    requires rhs <= 10
    ensures Gt(BLANK, Num(rhs)) == Gt(Num(1), Num(rhs)) == Some(Bit(rhs == 0))
  {
    GtRow(rhs);
    GtCorrect(1, rhs);
    var row := Lookup(GT_ROWS, "GT", Num(rhs)).value;
    assert Num(0) == ZERO;
    Variadic.VaAtCorrect(0, row[1..]);
  }

  lemma NeqBlank(b: nat)
    requires b <= 10
    ensures Neq(BLANK, Num(b)) == Neq(Num(1), Num(b)) == Some(Bit(b != 1))
  {
    EqBlank(b);
  }

  lemma GteBlank(rhs: nat)
    requires rhs <= 10
    ensures Gte(BLANK, Num(rhs)) == Gte(Num(1), Num(rhs)) == Some(Bit(rhs <= 1))
  {
    GtBlank(rhs);
    EqBlank(rhs);
  }

  lemma LtBlank(rhs: nat)
    requires rhs <= 10
    ensures Lt(BLANK, Num(rhs)) == Lt(Num(1), Num(rhs)) == Some(Bit(rhs > 1))
  {
    GteBlank(rhs);
  }

  lemma LteBlank(rhs: nat)
    requires rhs <= 10
    ensures Lte(BLANK, Num(rhs)) == Lte(Num(1), Num(rhs)) == Some(Bit(rhs >= 1))
  {
    LtBlank(rhs);
    EqBlank(rhs);
  }

  /** `EQ(A, B)` expands only when B is in 0..10 and A is in 0..10 or empty. */
  lemma EqDomain(a: Token, b: Token)
    requires Eq(a, b).Some?
    ensures Operands(a, b)
  {
    EqIndex(b);
    if a != BLANK {
      Variadic.VaAtDomain(a, Lookup(EQ_ROWS, "EQ", b).value);
    }
  }

  /** `GT(LHS, RHS)` expands only when RHS is in 0..10 and LHS is in 0..10 or empty. */
  lemma GtDomain(lhs: Token, rhs: Token)
    requires Gt(lhs, rhs).Some?
    ensures Operands(lhs, rhs)
  {
    GtIndex(rhs);
    if lhs != BLANK {
      Variadic.VaAtDomain(lhs, Lookup(GT_ROWS, "GT", rhs).value);
    }
  }
  /** `NEQ`, `GTE`, `LT` and `LTE` expand only on operands that `EQ` or `GT` accept. */
  lemma NeqDomain(a: Token, b: Token)
    requires Neq(a, b).Some?
    ensures Operands(a, b)
  {
    EqDomain(a, b);
  }

  lemma GteDomain(lhs: Token, rhs: Token)
    requires Gte(lhs, rhs).Some?
    ensures Operands(lhs, rhs)
  {
    GtDomain(lhs, rhs);
  }

  lemma LtDomain(lhs: Token, rhs: Token)
    requires Lt(lhs, rhs).Some?
    ensures Operands(lhs, rhs)
  {
    GtDomain(lhs, rhs);
  }

  lemma LteDomain(lhs: Token, rhs: Token)
    requires Lte(lhs, rhs).Some?
    ensures Operands(lhs, rhs)
  {
    GtDomain(lhs, rhs);
  }
}
