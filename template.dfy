/**
 * The code generators of macro_template.h: nested namespace openers and
 * their closing braces, and `template<...>` parameter lists. The emitted
 * C++ text is a sequence of tokens; what it means to a C++ compiler is
 * not modelled.
 */
module Template {
  import opened Tokens
  import Variadic
  import Logic
  import Eval
  import Loops

  const NAMESPACE: Token := Tok("namespace")
  const LBRACE: Token := Tok("{")
  const RBRACE: Token := Tok("}")
  const SEMI: Token := Tok(";")
  const TEMPLATE: Token := Tok("template")
  const LANGLE: Token := Tok("<")
  const RANGLE: Token := Tok(">")
  const CLASS: Token := Tok("class")
  const STRUCT: Token := Tok("struct")

  /** `NS_T(T)`: `namespace T`. */
  function NsName(t: Token): Text {
    [NAMESPACE, t]
  }

  /** `NS_T_(T)`: `namespace T {`. */
  function NsOpen(t: Token): Text {
    NsName(t) + [LBRACE]
  }

  /** `CLASS_T(T)`: `class T`. */
  function ClassName(t: Token): Text {
    [CLASS, t]
  }

  /** `CLASS_T_(T)`: `class T,`. */
  function ClassComma(t: Token): Text {
    ClassName(t) + [COMMA]
  }

  /** The two ways `NS_START` and `TEMPLATE` expand. */
  datatype Branch = Single | Iterated

  /**
   * `NS_CHECK(...)` and `TEMPLATE_CHECK(...)`:
   * `IIF(GTE(VA_LENGTH(...), 2))(<one>, <many>)`.
   */
  function Check(va: Args): (r: Option<Branch>)
    ensures |va| <= 10 ==> r == Some(if |va| >= 2 then Iterated else Single)
  {
    assert |va| <= 10 ==> Logic.Gte(Variadic.VaLength(va), Num(2)) == Some(Bit(|va| >= 2)) by {
      if |va| <= 10 { Logic.GteCorrect(|va|, 2); }
    }
    var c :- Logic.Gte(Variadic.VaLength(va), Num(2));
    var arm :- Eval.Iif(c, [Single, Iterated]);
    Some(arm[0])
  }

  /**
   * `NS_START_(NEXT, END, ...)` and `TEMPLATE(NEXT, END, ...)`: for one
   * argument (or none) `END(...)` only, as `NS_1` and `TEMPLATE_1` do; for
   * more, `VA_ITERATE(NEXT, END, ...)`, as `NS_N` and `TEMPLATE_N` do.
   * END takes a single argument, so the one-argument branch fails on more.
   */
  function Dispatch(next: Token -> Text, end: Token -> Text, va: Args): Option<Text> {
    var branch :- Check(va);
    match branch
    case Single => if |va| <= 1 then Some(end(Spread(va)[0])) else None
    case Iterated => Loops.VaIterate(next, end, va)
  }

  /** One argument takes the END-only branch: no iteration at all. */
  lemma DispatchSingle(next: Token -> Text, end: Token -> Text, va: Args)
    requires |va| <= 1
    ensures Dispatch(next, end, va) == Some(end(Spread(va)[0]))
  {
  }

  /** Two to ten arguments take the iterating branch. */
  lemma DispatchMany(next: Token -> Text, end: Token -> Text, va: Args)
    requires 2 <= |va| <= 10
    requires Eval.SENTINEL !in va[..|va| - 1]
    ensures Dispatch(next, end, va) == Some(FlatMap(next, va[..|va| - 1]) + end(va[|va| - 1]))
  {
    Loops.VaIterateCorrect(next, end, va);
  }

  /** `NS_START(...)`: `NS_START_(NS_T_, NS_T, ...)`. */
  function NsStart(va: Args): Option<Text> {
    Dispatch(NsOpen, NsName, va)
  }

  /** The nesting `NS_START` is documented to open: `namespace a { namespace b { ... namespace z`. */
  function NamespaceChain(names: Args): Text
    requires names != []
  {
    if |names| == 1 then NsName(names[0]) else NsOpen(names[0]) + NamespaceChain(names[1..])
  }

  lemma {:induction false} ChainSplit(names: Args)
    requires names != []
    ensures NamespaceChain(names) == FlatMap(NsOpen, names[..|names| - 1]) + NsName(names[|names| - 1])
  {
    if |names| > 1 {
      ChainSplit(names[1..]);
      assert names[1..][..|names[1..]| - 1] == names[..|names| - 1][1..];
      assert FlatMap(NsOpen, names[..|names| - 1])
          == NsOpen(names[0]) + FlatMap(NsOpen, names[..|names| - 1][1..]);
    }
  }

  /**
   * `NS_START(a, ..., z)` for one to ten names opens every namespace but
   * the innermost with a brace, in order.
   */
  lemma NsStartCorrect(names: Args)
    requires 1 <= |names| <= 10 && Eval.SENTINEL !in names
    ensures NsStart(names) == Some(NamespaceChain(names))
  {
    ChainSplit(names);
    if |names| >= 2 {
      DispatchMany(NsOpen, NsName, names);
    } else {
      DispatchSingle(NsOpen, NsName, names);
    }
  }

  /** `NS_START()` emits a bare `namespace` keyword. */
  lemma NsStartEmpty()
    ensures NsStart([]) == Some([NAMESPACE, BLANK])
  {
    DispatchSingle(NsOpen, NsName, []);
  }

  /** The closers `}; ... };`, k of them. */
  function Closers(k: nat): Text {
    if k == 0 then [] else [RBRACE, SEMI] + Closers(k - 1)
  }

  /** The table `NS_END0` ... `NS_END9`. */
  const NS_END: map<string, Text> :=
    map["NS_END0" := [],
        "NS_END1" := [RBRACE, SEMI],
        "NS_END2" := [RBRACE, SEMI, RBRACE, SEMI],
        "NS_END3" := [RBRACE, SEMI, RBRACE, SEMI, RBRACE, SEMI],
        "NS_END4" := [RBRACE, SEMI, RBRACE, SEMI, RBRACE, SEMI, RBRACE, SEMI],
        "NS_END5" := [RBRACE, SEMI, RBRACE, SEMI, RBRACE, SEMI, RBRACE, SEMI, RBRACE, SEMI],
        "NS_END6" := [RBRACE, SEMI, RBRACE, SEMI, RBRACE, SEMI, RBRACE, SEMI, RBRACE, SEMI, RBRACE, SEMI],
        "NS_END7" := [RBRACE, SEMI, RBRACE, SEMI, RBRACE, SEMI, RBRACE, SEMI, RBRACE, SEMI, RBRACE, SEMI, RBRACE, SEMI],
        "NS_END8" := [RBRACE, SEMI, RBRACE, SEMI, RBRACE, SEMI, RBRACE, SEMI, RBRACE, SEMI, RBRACE, SEMI, RBRACE, SEMI, RBRACE, SEMI],
        "NS_END9" := [RBRACE, SEMI, RBRACE, SEMI, RBRACE, SEMI, RBRACE, SEMI, RBRACE, SEMI, RBRACE, SEMI, RBRACE, SEMI, RBRACE, SEMI, RBRACE, SEMI]]

  /** Entry `NS_END<k>` of the table is the k-fold closer. */
  lemma NsEndRow(k: nat)
    requires k <= 9
    ensures Lookup(NS_END, "NS_END", Num(k)) == Some(Closers(k))
  {
    if k <= 3 {
      NsEndRowLow(k);
    } else if k <= 6 {
      NsEndRowMid(k);
    } else {
      NsEndRowHigh(k);
    }
  }

  lemma NsEndRowLow(k: nat)
    requires k <= 3
    ensures Lookup(NS_END, "NS_END", Num(k)) == Some(Closers(k))
  {
    match k
    case 0 =>
      assert MacroConcat("NS_END", Num(k)) == "NS_END0";
      assert NS_END["NS_END0"] == Closers(0);
    case 1 =>
      assert MacroConcat("NS_END", Num(k)) == "NS_END1";
      assert NS_END["NS_END1"] == Closers(1);
    case 2 =>
      assert MacroConcat("NS_END", Num(k)) == "NS_END2";
      assert NS_END["NS_END2"] == Closers(2);
    case 3 =>
      assert MacroConcat("NS_END", Num(k)) == "NS_END3";
      assert NS_END["NS_END3"] == Closers(3);
  }

  lemma NsEndRowMid(k: nat)
    requires 4 <= k <= 6
    ensures Lookup(NS_END, "NS_END", Num(k)) == Some(Closers(k))
  {
    match k
    case 4 =>
      assert MacroConcat("NS_END", Num(k)) == "NS_END4";
      assert NS_END["NS_END4"] == Closers(4);
    case 5 =>
      assert MacroConcat("NS_END", Num(k)) == "NS_END5";
      assert NS_END["NS_END5"] == Closers(5);
    case 6 =>
      assert MacroConcat("NS_END", Num(k)) == "NS_END6";
      assert NS_END["NS_END6"] == Closers(6);
  }

  lemma NsEndRowHigh(k: nat)
    requires 7 <= k <= 9
    ensures Lookup(NS_END, "NS_END", Num(k)) == Some(Closers(k))
  {
    match k
    case 7 =>
      assert MacroConcat("NS_END", Num(k)) == "NS_END7";
      assert NS_END["NS_END7"] == Closers(7);
    case 8 =>
      assert MacroConcat("NS_END", Num(k)) == "NS_END8";
      assert NS_END["NS_END8"] == Closers(8);
    case 9 =>
      assert MacroConcat("NS_END", Num(k)) == "NS_END9";
      assert NS_END["NS_END9"] == Closers(9);
  }

  /** `NS_END(...)`: `MACRO_LOOKUP(NS_END, VA_LENGTH_DEC(...))`. */
  function NsEnd(va: Args): Option<Text> {
    Lookup(NS_END, "NS_END", Variadic.VaLengthDec(va))
  }

  /** Only the entries `NS_END0` ... `NS_END9` are defined. */
  lemma NsEndIndex(t: Token)
    requires Lookup(NS_END, "NS_END", t).Some?
    ensures exists k: nat :: k <= 9 && t == Num(k)
  {
    var name := MacroConcat("NS_END", t);
    if name == "NS_END0" {
      PastedIndex("NS_END", t, 0);
    } else if name == "NS_END1" {
      PastedIndex("NS_END", t, 1);
    } else if name == "NS_END2" {
      PastedIndex("NS_END", t, 2);
    } else if name == "NS_END3" {
      PastedIndex("NS_END", t, 3);
    } else if name == "NS_END4" {
      PastedIndex("NS_END", t, 4);
    } else if name == "NS_END5" {
      PastedIndex("NS_END", t, 5);
    } else if name == "NS_END6" {
      PastedIndex("NS_END", t, 6);
    } else if name == "NS_END7" {
      PastedIndex("NS_END", t, 7);
    } else if name == "NS_END8" {
      PastedIndex("NS_END", t, 8);
    } else {
      assert name == "NS_END9";
      PastedIndex("NS_END", t, 9);
    }
  }

  /**
   * `NS_END(...)` expands only when `VA_LENGTH_DEC(...)` is a number k in
   * 0..9, and then emits k closers.
   */
  lemma NsEndDomain(va: Args)
    requires NsEnd(va).Some?
    ensures exists k: nat :: k <= 9 && Variadic.VaLengthDec(va) == Num(k) && NsEnd(va).value == Closers(k)
  {
    NsEndIndex(Variadic.VaLengthDec(va));
    var k: nat :| k <= 9 && Variadic.VaLengthDec(va) == Num(k);
    NsEndRow(k);
  }

  /** `NS_END` of one to ten names closes all but the innermost namespace. */
  lemma NsEndCorrect(names: Args)
    requires 1 <= |names| <= 10
    ensures NsEnd(names) == Some(Closers(|names| - 1))
  {
    NsEndRow(|names| - 1);
  }

  /** `NS_END()` closes nothing, as `NS_START()` opens no brace. */
  lemma NsEndEmpty()
    ensures NsEnd([]) == Some([])
  {
    NsEndRow(0);
  }

  /** The table stops at `NS_END9`: eleven names name no closer. */
  lemma NsEndTooMany(names: Args)
    requires |names| == 11
    ensures NsEnd(names) == None
  {
    assert MacroConcat("NS_END", Num(10)) == "NS_END10";
  }

  /** `NS_END<k>` holds exactly k closing braces. */
  lemma {:induction false} ClosersCount(k: nat)
    ensures Count(Closers(k), RBRACE) == k
    ensures Count(Closers(k), LBRACE) == 0
  {
    if k > 0 {
      CountAppend([RBRACE, SEMI], Closers(k - 1), RBRACE);
      CountAppend([RBRACE, SEMI], Closers(k - 1), LBRACE);
      ClosersCount(k - 1);
    }
  }

  lemma NsCounts(name: Token)
    requires name != LBRACE && name != RBRACE
    ensures Count(NsName(name), LBRACE) == 0 && Count(NsName(name), RBRACE) == 0
    ensures Count(NsOpen(name), LBRACE) == 1 && Count(NsOpen(name), RBRACE) == 0
  {
    assert NsName(name)[1..] == [name];
    assert NsName(name)[1..][1..] == [];
    CountAppend(NsName(name), [LBRACE], LBRACE);
    CountAppend(NsName(name), [LBRACE], RBRACE);
  }

  /** A chain of n namespaces has n - 1 opening braces and no closing one. */
  lemma {:induction false} ChainCount(names: Args)
    requires names != [] && LBRACE !in names && RBRACE !in names
    ensures Count(NamespaceChain(names), LBRACE) == |names| - 1
    ensures Count(NamespaceChain(names), RBRACE) == 0
  {
    NsCounts(names[0]);
    if |names| > 1 {
      ChainCount(names[1..]);
      CountAppend(NsOpen(names[0]), NamespaceChain(names[1..]), LBRACE);
      CountAppend(NsOpen(names[0]), NamespaceChain(names[1..]), RBRACE);
    }
  }

  /** `NS_START` of n names opens n - 1 braces and closes none. */
  lemma NsStartBraces(names: Args)
    requires 1 <= |names| <= 10 && Eval.SENTINEL !in names
    requires LBRACE !in names && RBRACE !in names
    ensures NsStart(names).Some?
    ensures Count(NsStart(names).value, LBRACE) == |names| - 1
    ensures Count(NsStart(names).value, RBRACE) == 0
  {
    NsStartCorrect(names);
    ChainCount(names);
  }

  /** `NS_END` of n names closes n - 1 braces and opens none. */
  lemma NsEndBraces(names: Args)
    requires 1 <= |names| <= 10
    ensures NsEnd(names).Some?
    ensures Count(NsEnd(names).value, RBRACE) == |names| - 1
    ensures Count(NsEnd(names).value, LBRACE) == 0
  {
    NsEndCorrect(names);
    ClosersCount(|names| - 1);
  }

  /**
   * Brace balance: `NS_START(names)` opens exactly as many braces as
   * `NS_END(names)` closes. The innermost pair is the user's own.
   */
  lemma BraceBalance(names: Args)
    requires 1 <= |names| <= 10 && Eval.SENTINEL !in names
    requires LBRACE !in names && RBRACE !in names
    ensures NsStart(names).Some? && NsEnd(names).Some?
    ensures Count(NsStart(names).value, LBRACE) == Count(NsEnd(names).value, RBRACE)
  {
    NsStartBraces(names);
    NsEndBraces(names);
  }

  /** `TEMPLATE(CLASS_T_, CLASS_T, ...)`: the parameter list inside `template<...>`. */
  function TemplateParams(va: Args): Option<Text> {
    Dispatch(ClassComma, ClassName, va)
  }

  /** `generic(...)`: `template<TEMPLATE(CLASS_T_, CLASS_T, ...)>`. */
  function Generic(va: Args): Option<Text> {
    var params :- TemplateParams(va);
    Some([TEMPLATE, LANGLE] + params + [RANGLE])
  }

  /** The parameter list `class a, class b, ..., class z` that `generic` is documented to emit. */
  function ClassList(names: Args): Text
    requires names != []
  {
    if |names| == 1 then ClassName(names[0]) else ClassComma(names[0]) + ClassList(names[1..])
  }

  /**
   * `ClassList` entry by entry: `class` and the i-th name at positions
   * 3i and 3i + 1, a comma at 3i + 2 between entries, and no trailing comma.
   */
  lemma {:induction false} ClassListShape(names: Args)
    requires names != []
    ensures |ClassList(names)| == 3 * |names| - 1
    ensures forall i :: 0 <= i < |names| ==> ClassList(names)[3 * i] == CLASS
    ensures forall i :: 0 <= i < |names| ==> ClassList(names)[3 * i + 1] == names[i]
    ensures forall i :: 0 <= i < |names| - 1 ==> ClassList(names)[3 * i + 2] == COMMA
    ensures ClassList(names)[|ClassList(names)| - 1] == names[|names| - 1]
  {
    if |names| > 1 {
      var tail := names[1..];
      ClassListShape(tail);
      var l := ClassList(names);
      assert l == ClassComma(names[0]) + ClassList(tail);
      forall i | 1 <= i < |names|
        ensures l[3 * i] == CLASS && l[3 * i + 1] == names[i]
      {
        assert l[3 * i] == ClassList(tail)[3 * (i - 1)];
        assert l[3 * i + 1] == ClassList(tail)[3 * (i - 1) + 1];
      }
      forall i | 1 <= i < |names| - 1
        ensures l[3 * i + 2] == COMMA
      {
        assert l[3 * i + 2] == ClassList(tail)[3 * (i - 1) + 2];
      }
    }
  }

  lemma {:induction false} ClassListSplit(names: Args)
    requires names != []
    ensures ClassList(names) == FlatMap(ClassComma, names[..|names| - 1]) + ClassName(names[|names| - 1])
  {
    if |names| > 1 {
      ClassListSplit(names[1..]);
      assert names[1..][..|names[1..]| - 1] == names[..|names| - 1][1..];
      assert FlatMap(ClassComma, names[..|names| - 1])
          == ClassComma(names[0]) + FlatMap(ClassComma, names[..|names| - 1][1..]);
    }
  }

  /** `TEMPLATE(CLASS_T_, CLASS_T, a, ..., z)` is `class a, ..., class z`. */
  lemma TemplateParamsCorrect(names: Args)
    requires 1 <= |names| <= 10 && Eval.SENTINEL !in names
    ensures TemplateParams(names) == Some(ClassList(names))
  {
    ClassListSplit(names);
    if |names| >= 2 {
      DispatchMany(ClassComma, ClassName, names);
    } else {
      DispatchSingle(ClassComma, ClassName, names);
    }
  }

  /** `generic(a, ..., z)` for one to ten names is `template<class a, ..., class z>`. */
  lemma GenericCorrect(names: Args)
    requires 1 <= |names| <= 10 && Eval.SENTINEL !in names
    ensures Generic(names) == Some([TEMPLATE, LANGLE] + ClassList(names) + [RANGLE])
  {
    TemplateParamsCorrect(names);
  }

  /** `generic()` is `template<class>`, the keyword without a name. */
  lemma GenericEmpty()
    ensures Generic([]) == Some([TEMPLATE, LANGLE, CLASS, BLANK, RANGLE])
  {
    DispatchSingle(ClassComma, ClassName, []);
    assert [TEMPLATE, LANGLE] + ClassName(BLANK) + [RANGLE] == [TEMPLATE, LANGLE, CLASS, BLANK, RANGLE];
  }

  /** `class(...)`: `generic(...) class`. */
  function ClassDecl(va: Args): Option<Text> {
    var g :- Generic(va);
    Some(g + [CLASS])
  }

  /** `struct(...)`: `generic(...) struct`. */
  function StructDecl(va: Args): Option<Text> {
    var g :- Generic(va);
    Some(g + [STRUCT])
  }

  lemma ClassDeclCorrect(names: Args)
    requires 1 <= |names| <= 10 && Eval.SENTINEL !in names
    ensures ClassDecl(names) == Some([TEMPLATE, LANGLE] + ClassList(names) + [RANGLE, CLASS])
  {
    GenericCorrect(names);
    AppendKeyword(ClassList(names), CLASS);
  }

  lemma StructDeclCorrect(names: Args)
    requires 1 <= |names| <= 10 && Eval.SENTINEL !in names
    ensures StructDecl(names) == Some([TEMPLATE, LANGLE] + ClassList(names) + [RANGLE, STRUCT])
  {
    GenericCorrect(names);
    AppendKeyword(ClassList(names), STRUCT);
  }

  /** Regrouping the generic header around a trailing keyword. */
  lemma AppendKeyword(params: Text, keyword: Token)
    ensures [TEMPLATE, LANGLE] + params + [RANGLE] + [keyword] == [TEMPLATE, LANGLE] + params + [RANGLE, keyword]
  {
  }

  /** The argument text `a, b, ..., z` with its separating commas. */
  function CommaJoin(va: Args): (r: Text)
    ensures va == [] ==> r == []
    ensures va != [] ==> |r| == 2 * |va| - 1
  {
    if |va| <= 1 then va else [va[0], COMMA] + CommaJoin(va[1..])
  }

  /** `typed_generic(...)`: `template<...>`, the arguments passed through as written. */
  function TypedGeneric(va: Args): Text {
    [TEMPLATE, LANGLE] + CommaJoin(va) + [RANGLE]
  }

  /** The tokens of a text other than `x`, in order. */
  function Without(t: Text, x: Token): (r: Text)
    ensures |r| <= |t|
  {
    if t == [] then [] else (if t[0] == x then [] else [t[0]]) + Without(t[1..], x)
  }

  /** Dropping the separators from the joined text gives the arguments back. */
  lemma {:induction false} CommaJoinRoundTrip(va: Args)
    requires COMMA !in va
    ensures Without(CommaJoin(va), COMMA) == va
  {
    if |va| == 1 {
      assert Without(va, COMMA) == [va[0]] + Without([], COMMA);
    } else if |va| > 1 {
      var rest := CommaJoin(va[1..]);
      CommaJoinRoundTrip(va[1..]);
      assert ([va[0], COMMA] + rest)[1..] == [COMMA] + rest;
      assert ([COMMA] + rest)[1..] == rest;
    }
  }

  /** `typed_generic` keeps the arguments, in order, between `template<` and `>`. */
  lemma TypedGenericCorrect(va: Args)
    requires COMMA !in va
    ensures TypedGeneric(va)[..2] == [TEMPLATE, LANGLE]
    ensures TypedGeneric(va)[|TypedGeneric(va)| - 1] == RANGLE
    ensures Without(TypedGeneric(va)[2..|TypedGeneric(va)| - 1], COMMA) == va
  {
    var t := TypedGeneric(va);
    assert t[2..|t| - 1] == CommaJoin(va);
    CommaJoinRoundTrip(va);
  }
}
