/** What the parser makes of tokens, token by token: the operators and the other forms
    spelled out, without reference to the levels and the printer. */
module Ladder {
  import opened Wrappers
  import opened Syntax
  import opened RoundTrip

  // ---- operators

  /** `x op y`. */
  ghost predicate Reads(text: string, op: BinOp) {
    forall x: string, y: string ::
      ParseExpr([Identifier(x), Oper(text), Identifier(y)]) == Node(Binary(op, Ident(x), Ident(y)), [])
  }

  /** `op x`. */
  ghost predicate ReadsPrefix(text: string, op: UnOp) {
    forall x: string :: ParseExpr([Oper(text), Identifier(x)]) == Node(Unary(op, Ident(x)), [])
  }

  ghost predicate GroupsLeft(text1: string, op1: BinOp, text2: string, op2: BinOp) {
    forall x: string, y: string, z: string ::
      ParseExpr([Identifier(x), Oper(text1), Identifier(y), Oper(text2), Identifier(z)]) ==
        Node(Binary(op2, Binary(op1, Ident(x), Ident(y)), Ident(z)), [])
  }

  ghost predicate GroupsRight(text1: string, op1: BinOp, text2: string, op2: BinOp) {
    forall x: string, y: string, z: string ::
      ParseExpr([Identifier(x), Oper(text1), Identifier(y), Oper(text2), Identifier(z)]) ==
        Node(Binary(op1, Ident(x), Binary(op2, Ident(y), Ident(z))), [])
  }

  /** The second operator binds tighter than the first, whichever comes first. */
  ghost predicate Tighter(text1: string, op1: BinOp, text2: string, op2: BinOp) {
    GroupsRight(text1, op1, text2, op2) && GroupsLeft(text2, op2, text1, op1)
  }

  /** Operators of one rung associate to the left. */
  ghost predicate Alike(text1: string, op1: BinOp, text2: string, op2: BinOp) {
    GroupsLeft(text1, op1, text2, op2) && GroupsLeft(text2, op2, text1, op1)
  }

  lemma PairRead(op: BinOp)
    ensures Reads(OpText(op), op)
  {
    hide OpLevel, OpText, ParseLevel, Stops, TakesOp, Print, PrintBare;
    forall x: string, y: string
      ensures ParseExpr([Identifier(x), Oper(OpText(op)), Identifier(y)]) == Node(Binary(op, Ident(x), Ident(y)), [])
    {
      assert [Identifier(x), Oper(OpText(op)), Identifier(y)] == Cons(Identifier(x), Cons(Oper(OpText(op)), Cons(Identifier(y), [])));
      PrintsPair(x, op, y, TERN, []);
      EndStops(TERN);
      ParsesBack(Binary(op, Ident(x), Ident(y)), TERN, []);
    }
  }

  /** Each token is its operator, and no other. */
  lemma OperatorsRead()
    ensures Reads("||", BoolOr) && Reads("&&", BoolAnd) && Reads("==", Eq) && Reads("!=", Ne)
    ensures Reads("<", Lt) && Reads("<=", Le) && Reads(">", Gt) && Reads(">=", Ge)
    ensures Reads("|", BitOr) && Reads("^", BitXor) && Reads("&", BitAnd) && Reads("<<", BitShl) && Reads(">>", BitShr)
    ensures Reads("+", Add) && Reads("-", Sub) && Reads("*", Mul) && Reads("/", Div) && Reads("%", Mod)
    ensures ReadsPrefix("-", Neg) && ReadsPrefix("!", BoolNot) && ReadsPrefix("~", BitNot)
  {
    hide Reads, ReadsPrefix;
    forall op: BinOp ensures Reads(OpText(op), op) {
      PairRead(op);
    }
    assert Reads(OpText(BoolOr), BoolOr) && Reads(OpText(BoolAnd), BoolAnd) && Reads(OpText(Eq), Eq) && Reads(OpText(Ne), Ne);
    assert Reads(OpText(Lt), Lt) && Reads(OpText(Le), Le) && Reads(OpText(Gt), Gt) && Reads(OpText(Ge), Ge);
    assert Reads(OpText(BitOr), BitOr) && Reads(OpText(BitXor), BitXor) && Reads(OpText(BitAnd), BitAnd);
    assert Reads(OpText(BitShl), BitShl) && Reads(OpText(BitShr), BitShr);
    assert Reads(OpText(Add), Add) && Reads(OpText(Sub), Sub);
    assert Reads(OpText(Mul), Mul) && Reads(OpText(Div), Div) && Reads(OpText(Mod), Mod);
    PrefixRead(Neg);
    PrefixRead(BoolNot);
    PrefixRead(BitNot);
  }

  lemma PrefixRead(op: UnOp)
    ensures ReadsPrefix(UnText(op), op)
  {
    hide UnText, ParseLevel, Stops, TakesOp, PrintBare, Print;
    forall x: string ensures ParseExpr([Oper(UnText(op)), Identifier(x)]) == Node(Unary(op, Ident(x)), []) {
      assert [Oper(UnText(op)), Identifier(x)] == Cons(Oper(UnText(op)), Cons(Identifier(x), []));
      PrintsPrefix(op, Ident(x), TERN, []);
      PrintsIdent(x, UNARY, []);
      EndStops(TERN);
      ParsesBack(Unary(op, Ident(x)), TERN, []);
    }
  }

  lemma PrintsPrefix(op: UnOp, operand: Expr, l: nat, rest: Tokens)
    requires l <= UNARY
    ensures Print(Unary(op, operand), l, rest) == Cons(Oper(UnText(op)), Print(operand, UNARY, rest))
  {
    hide UnText;
  }

  /** By level, as `GroupsByLevel` says. */
  lemma GroupedOnce(op1: BinOp, op2: BinOp)
    ensures OpLevel(op1) >= OpLevel(op2) ==> GroupsLeft(OpText(op1), op1, OpText(op2), op2)
    ensures OpLevel(op1) < OpLevel(op2) ==> GroupsRight(OpText(op1), op1, OpText(op2), op2)
  {
    hide ParseExpr, OpLevel, OpText;
    if OpLevel(op1) >= OpLevel(op2) {
      forall x: string, y: string, z: string
        ensures ParseExpr([Identifier(x), Oper(OpText(op1)), Identifier(y), Oper(OpText(op2)), Identifier(z)]) ==
          Node(Binary(op2, Binary(op1, Ident(x), Ident(y)), Ident(z)), [])
      {
        GroupsByLevel(x, op1, y, op2, z);
      }
    } else {
      forall x: string, y: string, z: string
        ensures ParseExpr([Identifier(x), Oper(OpText(op1)), Identifier(y), Oper(OpText(op2)), Identifier(z)]) ==
          Node(Binary(op1, Ident(x), Binary(op2, Ident(y), Ident(z))), [])
      {
        GroupsByLevel(x, op1, y, op2, z);
      }
    }
  }

  lemma Grouped(op1: BinOp, op2: BinOp)
    ensures OpLevel(op1) < OpLevel(op2) ==> Tighter(OpText(op1), op1, OpText(op2), op2)
    ensures OpLevel(op1) == OpLevel(op2) ==> Alike(OpText(op1), op1, OpText(op2), op2)
  {
    hide OpLevel, OpText, GroupsLeft, GroupsRight;
    GroupedOnce(op1, op2);
    GroupedOnce(op2, op1);
  }

  /** The ladder, each rung against the next and the operators of a rung among
      themselves. Unlike in C, bitwise operators bind tighter than comparisons, and
      tighter the further they are from `|`. */
  lemma Rungs()
    ensures Tighter("||", BoolOr, "&&", BoolAnd)
    ensures Tighter("&&", BoolAnd, "==", Eq) && Tighter("&&", BoolAnd, "!=", Ne)
    ensures Tighter("==", Eq, "<", Lt) && Tighter("==", Eq, "<=", Le) && Tighter("==", Eq, ">", Gt) && Tighter("==", Eq, ">=", Ge)
    ensures Tighter("!=", Ne, "<", Lt) && Tighter("!=", Ne, "<=", Le) && Tighter("!=", Ne, ">", Gt) && Tighter("!=", Ne, ">=", Ge)
    ensures Tighter("<", Lt, "|", BitOr) && Tighter("<=", Le, "|", BitOr) && Tighter(">", Gt, "|", BitOr) && Tighter(">=", Ge, "|", BitOr)
    ensures Tighter("|", BitOr, "^", BitXor) && Tighter("^", BitXor, "&", BitAnd)
    ensures Tighter("&", BitAnd, "<<", BitShl) && Tighter("&", BitAnd, ">>", BitShr)
    ensures Tighter("<<", BitShl, "+", Add) && Tighter("<<", BitShl, "-", Sub)
    ensures Tighter(">>", BitShr, "+", Add) && Tighter(">>", BitShr, "-", Sub)
    ensures Tighter("+", Add, "*", Mul) && Tighter("+", Add, "/", Div) && Tighter("+", Add, "%", Mod)
    ensures Tighter("-", Sub, "*", Mul) && Tighter("-", Sub, "/", Div) && Tighter("-", Sub, "%", Mod)
    ensures Alike("||", BoolOr, "||", BoolOr) && Alike("&&", BoolAnd, "&&", BoolAnd)
    ensures Alike("==", Eq, "!=", Ne) && Alike("<", Lt, "<=", Le) && Alike("<=", Le, ">", Gt) && Alike(">", Gt, ">=", Ge)
    ensures Alike("|", BitOr, "|", BitOr) && Alike("^", BitXor, "^", BitXor) && Alike("&", BitAnd, "&", BitAnd)
    ensures Alike("<<", BitShl, ">>", BitShr) && Alike("+", Add, "-", Sub) && Alike("*", Mul, "/", Div) && Alike("/", Div, "%", Mod)
  {
    hide Tighter, Alike;
    Grouped(BoolOr, BoolAnd);
    Grouped(BoolAnd, Eq); Grouped(BoolAnd, Ne);
    Grouped(Eq, Lt); Grouped(Eq, Le); Grouped(Eq, Gt); Grouped(Eq, Ge);
    Grouped(Ne, Lt); Grouped(Ne, Le); Grouped(Ne, Gt); Grouped(Ne, Ge);
    Grouped(Lt, BitOr); Grouped(Le, BitOr); Grouped(Gt, BitOr); Grouped(Ge, BitOr);
    Grouped(BitOr, BitXor); Grouped(BitXor, BitAnd);
    Grouped(BitAnd, BitShl); Grouped(BitAnd, BitShr);
    Grouped(BitShl, Add); Grouped(BitShl, Sub); Grouped(BitShr, Add); Grouped(BitShr, Sub);
    Grouped(Add, Mul); Grouped(Add, Div); Grouped(Add, Mod);
    Grouped(Sub, Mul); Grouped(Sub, Div); Grouped(Sub, Mod);
    Grouped(BoolOr, BoolOr); Grouped(BoolAnd, BoolAnd);
    Grouped(Eq, Ne); Grouped(Lt, Le); Grouped(Le, Gt); Grouped(Gt, Ge);
    Grouped(BitOr, BitOr); Grouped(BitXor, BitXor); Grouped(BitAnd, BitAnd);
    Grouped(BitShl, BitShr); Grouped(Add, Sub); Grouped(Mul, Div); Grouped(Div, Mod);
  }

  // ---- the other forms

  ghost predicate Parses(ts: Tokens, e: Expr) {
    ParseExpr(ts) == Node(e, [])
  }

  lemma Printed(e: Expr, ts: Tokens)
    requires Print(e, TERN, []) == ts
    ensures Parses(ts, e)
  {
    hide ParseLevel, Print, Stops;
    EndStops(TERN);
    ParsesBack(e, TERN, []);
  }

  lemma Listed(a: Token, b: Token, c: Token, d: Token, e: Token, f: Token)
    ensures Cons(a, Cons(b, Cons(c, []))) == [a, b, c]
    ensures Cons(a, Cons(b, Cons(c, Cons(d, [])))) == [a, b, c, d]
    ensures Cons(a, Cons(b, Cons(c, Cons(d, Cons(e, []))))) == [a, b, c, d, e]
    ensures Cons(a, Cons(b, Cons(c, Cons(d, Cons(e, Cons(f, [])))))) == [a, b, c, d, e, f]
  {
  }

  lemma PrintsCall(fn: Expr, args: seq<Expr>, l: nat, rest: Tokens)
    requires l <= NESTED
    ensures Print(FuncCall(fn, args), l, rest) == Print(fn, NESTED, Cons(Oper("("), PrintList(args, Cons(Oper(")"), rest))))
  {
    hide PrintList;
  }

  lemma PrintsSubscript(arr: Expr, index: Expr, l: nat, rest: Tokens)
    requires l <= NESTED
    ensures Print(Subscript(arr, index), l, rest) == Print(arr, NESTED, Cons(Oper("["), Print(index, TERN, Cons(Oper("]"), rest))))
  {
  }

  lemma PrintsMember(obj: Expr, member: string, l: nat, rest: Tokens)
    requires l <= NESTED
    ensures Print(MemberIdent(obj, member), l, rest) == Print(obj, NESTED, Cons(Oper("."), Cons(Identifier(member), rest)))
  {
  }

  lemma PrintsTernary(cond: Expr, troo: Expr, fols: Expr, rest: Tokens)
    ensures Print(Ternary(cond, troo, fols), TERN, rest) ==
      Print(cond, BOOL_OR, Cons(Oper("?"), Print(troo, TERN, Cons(Oper(":"), Print(fols, TERN, rest)))))
  {
  }

  lemma PrintsOne(e: Expr, rest: Tokens)
    ensures PrintList([e], rest) == Print(e, TERN, rest)
  {
    hide Print;
  }

  lemma PrintsTwo(e: Expr, f: Expr, rest: Tokens)
    ensures PrintList([e, f], rest) == Print(e, TERN, Cons(Oper(","), Print(f, TERN, rest)))
  {
    hide Print;
    assert [e, f][1..] == [f];
    PrintsOne(f, rest);
  }

  /** `x(y, z)`, `x[y]` and `x.y`. */
  lemma CallRead(x: string, y: string, z: string)
    ensures Parses([Identifier(x), Oper("("), Identifier(y), Oper(","), Identifier(z), Oper(")")], FuncCall(Ident(x), [Ident(y), Ident(z)]))
  {
    hide Print, PrintList, Cons, Parses;
    var call, end := FuncCall(Ident(x), [Ident(y), Ident(z)]), Cons(Oper(")"), []);
    PrintsIdent(z, TERN, end);
    PrintsIdent(y, TERN, Cons(Oper(","), Cons(Identifier(z), end)));
    PrintsTwo(Ident(y), Ident(z), end);
    PrintsCall(Ident(x), [Ident(y), Ident(z)], TERN, []);
    PrintsIdent(x, NESTED, Cons(Oper("("), PrintList([Ident(y), Ident(z)], end)));
    Listed(Identifier(x), Oper("("), Identifier(y), Oper(","), Identifier(z), Oper(")"));
    Printed(call, [Identifier(x), Oper("("), Identifier(y), Oper(","), Identifier(z), Oper(")")]);
  }

  lemma ElementRead(x: string, y: string)
    ensures Parses([Identifier(x), Oper("["), Identifier(y), Oper("]")], Subscript(Ident(x), Ident(y)))
  {
    hide Print, PrintList, Cons, Parses;
    PrintsSubscript(Ident(x), Ident(y), TERN, []);
    PrintsIdent(y, TERN, Cons(Oper("]"), []));
    PrintsIdent(x, NESTED, Cons(Oper("["), Cons(Identifier(y), Cons(Oper("]"), []))));
    Listed(Identifier(x), Oper("["), Identifier(y), Oper("]"), Oper(""), Oper(""));
    Printed(Subscript(Ident(x), Ident(y)), [Identifier(x), Oper("["), Identifier(y), Oper("]")]);
  }

  /** `-x.y`: prefix operators are looser than members ... */
  lemma MemberRead(x: string, y: string)
    ensures Parses([Identifier(x), Oper("."), Identifier(y)], MemberIdent(Ident(x), y))
    ensures Parses([Oper("-"), Identifier(x), Oper("."), Identifier(y)], Unary(Neg, MemberIdent(Ident(x), y)))
  {
    hide Print, PrintList, Cons, Parses;
    var e := MemberIdent(Ident(x), y);
    PrintsMember(Ident(x), y, TERN, []);
    PrintsMember(Ident(x), y, UNARY, []);
    PrintsIdent(x, NESTED, Cons(Oper("."), Cons(Identifier(y), [])));
    PrintsMinus(e, TERN, []);
    Listed(Identifier(x), Oper("."), Identifier(y), Oper(""), Oper(""), Oper(""));
    Listed(Oper("-"), Identifier(x), Oper("."), Identifier(y), Oper(""), Oper(""));
    Printed(e, [Identifier(x), Oper("."), Identifier(y)]);
    Printed(Unary(Neg, e), [Oper("-"), Identifier(x), Oper("."), Identifier(y)]);
  }

  lemma PrintsMinus(e: Expr, l: nat, rest: Tokens)
    requires l <= UNARY
    ensures Print(Unary(Neg, e), l, rest) == Cons(Oper("-"), Print(e, UNARY, rest))
  {
  }

  lemma PrintsMul(e: Expr, f: Expr, rest: Tokens)
    ensures Print(Binary(Mul, e, f), TERN, rest) == Print(e, MUL, Cons(Oper("*"), Print(f, UNARY, rest)))
  {
  }

  /** `-x * y` and `x * -y`: ... and tighter than all other operators. */
  lemma FactorRead(x: string, y: string)
    ensures Parses([Oper("-"), Identifier(x), Oper("*"), Identifier(y)], Binary(Mul, Unary(Neg, Ident(x)), Ident(y)))
    ensures Parses([Identifier(x), Oper("*"), Oper("-"), Identifier(y)], Binary(Mul, Ident(x), Unary(Neg, Ident(y))))
  {
    hide Print, PrintList, Cons, Parses;
    var times := Cons(Oper("*"), Cons(Identifier(y), []));
    PrintsIdent(y, UNARY, []);
    PrintsMul(Unary(Neg, Ident(x)), Ident(y), []);
    PrintsMinus(Ident(x), MUL, times);
    PrintsIdent(x, UNARY, times);
    Listed(Oper("-"), Identifier(x), Oper("*"), Identifier(y), Oper(""), Oper(""));
    Printed(Binary(Mul, Unary(Neg, Ident(x)), Ident(y)), [Oper("-"), Identifier(x), Oper("*"), Identifier(y)]);
    PrintsMul(Ident(x), Unary(Neg, Ident(y)), []);
    PrintsMinus(Ident(y), UNARY, []);
    PrintsIdent(x, MUL, Cons(Oper("*"), Cons(Oper("-"), Cons(Identifier(y), []))));
    Listed(Identifier(x), Oper("*"), Oper("-"), Identifier(y), Oper(""), Oper(""));
    Printed(Binary(Mul, Ident(x), Unary(Neg, Ident(y))), [Identifier(x), Oper("*"), Oper("-"), Identifier(y)]);
  }

  /** Parentheses make a term of any expression. */
  lemma ParenthesesRead(x: string, y: string, z: string)
    ensures Parses([Oper("("), Identifier(x), Oper("+"), Identifier(y), Oper(")"), Oper("*"), Identifier(z)],
                   Binary(Mul, Binary(Add, Ident(x), Ident(y)), Ident(z)))
  {
    hide Print, PrintList, Cons, Parses, OpText;
    var sum, times := Binary(Add, Ident(x), Ident(y)), Cons(Oper("*"), Cons(Identifier(z), []));
    PrintsIdent(z, UNARY, []);
    PrintsMul(sum, Ident(z), []);
    PrintsSum(x, y, times);
    Seven(Oper("("), Identifier(x), Oper("+"), Identifier(y), Oper(")"), Oper("*"), Identifier(z));
    Printed(Binary(Mul, sum, Ident(z)), [Oper("("), Identifier(x), Oper("+"), Identifier(y), Oper(")"), Oper("*"), Identifier(z)]);
  }

  lemma PrintsSum(x: string, y: string, rest: Tokens)
    ensures Print(Binary(Add, Ident(x), Ident(y)), MUL, rest) ==
      Cons(Oper("("), Cons(Identifier(x), Cons(Oper("+"), Cons(Identifier(y), Cons(Oper(")"), rest)))))
  {
    PrintsIdent(y, MUL, Cons(Oper(")"), rest));
    PrintsIdent(x, ADD, Cons(Oper("+"), Cons(Identifier(y), Cons(Oper(")"), rest))));
  }

  lemma Seven(a: Token, b: Token, c: Token, d: Token, e: Token, f: Token, g: Token)
    ensures Cons(a, Cons(b, Cons(c, Cons(d, Cons(e, Cons(f, Cons(g, []))))))) == [a, b, c, d, e, f, g]
  {
  }

  lemma Nine(a: Token, b: Token, c: Token, d: Token, e: Token, f: Token, g: Token, h: Token, i: Token)
    ensures Cons(a, Cons(b, Cons(c, Cons(d, Cons(e, Cons(f, Cons(g, Cons(h, Cons(i, []))))))))) == [a, b, c, d, e, f, g, h, i]
  {
  }

  /** `u ? x : v ? y : z`: conditionals group to the right. */
  lemma TernaryRead(u: string, x: string, v: string, y: string, z: string)
    ensures Parses([Identifier(u), Oper("?"), Identifier(x), Oper(":"), Identifier(v), Oper("?"), Identifier(y), Oper(":"), Identifier(z)],
                   Ternary(Ident(u), Ident(x), Ternary(Ident(v), Ident(y), Ident(z))))
  {
    hide Print, PrintList, Cons, Parses;
    var inner := Ternary(Ident(v), Ident(y), Ident(z));
    var tail := Cons(Oper("?"), Cons(Identifier(y), Cons(Oper(":"), Cons(Identifier(z), []))));
    PrintsTernary(Ident(u), Ident(x), inner, []);
    PrintsTernary(Ident(v), Ident(y), Ident(z), []);
    PrintsIdent(z, TERN, []);
    PrintsIdent(y, TERN, Cons(Oper(":"), Cons(Identifier(z), [])));
    PrintsIdent(v, BOOL_OR, tail);
    PrintsIdent(x, TERN, Cons(Oper(":"), Cons(Identifier(v), tail)));
    PrintsIdent(u, BOOL_OR, Cons(Oper("?"), Cons(Identifier(x), Cons(Oper(":"), Cons(Identifier(v), tail)))));
    Nine(Identifier(u), Oper("?"), Identifier(x), Oper(":"), Identifier(v), Oper("?"), Identifier(y), Oper(":"), Identifier(z));
    Printed(Ternary(Ident(u), Ident(x), inner),
      [Identifier(u), Oper("?"), Identifier(x), Oper(":"), Identifier(v), Oper("?"), Identifier(y), Oper(":"), Identifier(z)]);
  }

  /** `x || y ? z : u`: the condition takes everything in front of it. */
  lemma ConditionRead(x: string, y: string, z: string, u: string)
    ensures Parses([Identifier(x), Oper("||"), Identifier(y), Oper("?"), Identifier(z), Oper(":"), Identifier(u)],
                   Ternary(Binary(BoolOr, Ident(x), Ident(y)), Ident(z), Ident(u)))
  {
    hide Print, PrintList, Cons, Parses;
    var tail := Cons(Oper("?"), Cons(Identifier(z), Cons(Oper(":"), Cons(Identifier(u), []))));
    PrintsTernary(Binary(BoolOr, Ident(x), Ident(y)), Ident(z), Ident(u), []);
    PrintsIdent(u, TERN, []);
    PrintsIdent(z, TERN, Cons(Oper(":"), Cons(Identifier(u), [])));
    PrintsPair(x, BoolOr, y, BOOL_OR, tail);
    Seven(Identifier(x), Oper("||"), Identifier(y), Oper("?"), Identifier(z), Oper(":"), Identifier(u));
    Printed(Ternary(Binary(BoolOr, Ident(x), Ident(y)), Ident(z), Ident(u)),
      [Identifier(x), Oper("||"), Identifier(y), Oper("?"), Identifier(z), Oper(":"), Identifier(u)]);
  }

  /** Literals; strings and characters come with their quotes. */
  lemma LiteralsRead(s: string)
    ensures Parses([Keyword("true")], BoolLiteral(true)) && Parses([Keyword("false")], BoolLiteral(false))
    ensures Parses([Number(s)], NumberLiteral(s))
    ensures Parses([String("\"" + s + "\"")], StringLiteral(s)) && Parses([Character("'" + s + "'")], CharLiteral(s))
  {
    hide Parses;
    Printed(BoolLiteral(true), [Keyword("true")]);
    Printed(BoolLiteral(false), [Keyword("false")]);
    Printed(NumberLiteral(s), [Number(s)]);
    Printed(StringLiteral(s), [String("\"" + s + "\"")]);
    Printed(CharLiteral(s), [Character("'" + s + "'")]);
  }

  /** `[x, y]` and `{x}`. */
  lemma ListsRead(x: string, y: string)
    ensures Parses([Oper("["), Identifier(x), Oper(","), Identifier(y), Oper("]")], ArrayLiteral([Ident(x), Ident(y)]))
    ensures Parses([Oper("{"), Identifier(x), Oper("}")], InitList([Ident(x)]))
  {
    hide Print, PrintList, Cons, Parses;
    var end := Cons(Oper("]"), []);
    PrintsLists([Ident(x), Ident(y)]);
    PrintsTwo(Ident(x), Ident(y), end);
    PrintsIdent(y, TERN, end);
    PrintsIdent(x, TERN, Cons(Oper(","), Cons(Identifier(y), end)));
    Listed(Oper("["), Identifier(x), Oper(","), Identifier(y), Oper("]"), Oper(""));
    Printed(ArrayLiteral([Ident(x), Ident(y)]), [Oper("["), Identifier(x), Oper(","), Identifier(y), Oper("]")]);
    PrintsLists([Ident(x)]);
    PrintsOne(Ident(x), Cons(Oper("}"), []));
    PrintsIdent(x, TERN, Cons(Oper("}"), []));
    Listed(Oper("{"), Identifier(x), Oper("}"), Oper(""), Oper(""), Oper(""));
    Printed(InitList([Ident(x)]), [Oper("{"), Identifier(x), Oper("}")]);
  }

  lemma PrintsLists(es: seq<Expr>)
    ensures Print(ArrayLiteral(es), TERN, []) == Cons(Oper("["), PrintList(es, Cons(Oper("]"), [])))
    ensures Print(InitList(es), TERN, []) == Cons(Oper("{"), PrintList(es, Cons(Oper("}"), [])))
  {
    hide PrintList;
  }

  // ---- types

  /** `make t !x`. */
  lemma MakeRead(t: string, x: string)
    ensures Parses([Keyword("make"), Identifier(t), Oper("!"), Identifier(x)], Make(NamedType(t), Unary(BoolNot, Ident(x))))
  {
    hide Print, PrintList, Cons, Parses;
    PrintsMakeNot(t, x);
    PrintsIdent(x, UNARY, []);
    Listed(Keyword("make"), Identifier(t), Oper("!"), Identifier(x), Oper(""), Oper(""));
    Printed(Make(NamedType(t), Unary(BoolNot, Ident(x))), [Keyword("make"), Identifier(t), Oper("!"), Identifier(x)]);
  }

  lemma PrintsMakeNot(t: string, x: string)
    ensures Print(Make(NamedType(t), Unary(BoolNot, Ident(x))), TERN, []) ==
      Cons(Keyword("make"), Cons(Identifier(t), Cons(Oper("!"), Print(Ident(x), UNARY, []))))
  {
    PrintsUnary(BoolNot, Ident(x), []);
  }

  /** `func(ref t, u) -> v`. */
  lemma FuncTypeRead(t: string, u: string, v: string)
    ensures ParseType([Keyword("func"), Oper("("), Keyword("ref"), Identifier(t), Oper(","), Identifier(u), Oper(")"), Oper("->"), Identifier(v)]) ==
      Node(FuncType([ParamType(true, NamedType(t)), ParamType(false, NamedType(u))], Some(NamedType(v))), [])
  {
    hide Cons, ParseType, PrintType, PrintParams;
    var params := [ParamType(true, NamedType(t)), ParamType(false, NamedType(u))];
    var result := Cons(Oper("->"), Cons(Identifier(v), []));
    PrintsFunc(params, NamedType(v));
    PrintsParams(t, u, Cons(Oper(")"), result));
    PrintsNamed(v, []);
    Nine(Keyword("func"), Oper("("), Keyword("ref"), Identifier(t), Oper(","), Identifier(u), Oper(")"), Oper("->"), Identifier(v));
    TypeBack(FuncType(params, Some(NamedType(v))), []);
  }

  lemma PrintsNamed(t: string, rest: Tokens)
    ensures PrintType(NamedType(t), rest) == Cons(Identifier(t), rest)
  {
  }

  lemma PrintsFunc(params: seq<ParamType>, ret: Type)
    ensures PrintType(FuncType(params, Some(ret)), []) ==
      Cons(Keyword("func"), Cons(Oper("("), PrintParams(params, Cons(Oper(")"), Cons(Oper("->"), PrintType(ret, []))))))
  {
    hide PrintParams;
  }

  lemma PrintsParams(t: string, u: string, rest: Tokens)
    ensures PrintParams([ParamType(true, NamedType(t)), ParamType(false, NamedType(u))], rest) ==
      Cons(Keyword("ref"), Cons(Identifier(t), Cons(Oper(","), Cons(Identifier(u), rest))))
  {
    var p, q := ParamType(true, NamedType(t)), ParamType(false, NamedType(u));
    assert [p, q][1..] == [q];
    assert PrintParam(q, rest) == Cons(Identifier(u), rest);
    assert PrintParams([q], rest) == Cons(Identifier(u), rest);
    assert PrintParam(p, Cons(Oper(","), Cons(Identifier(u), rest))) == Cons(Keyword("ref"), Cons(Identifier(t), Cons(Oper(","), Cons(Identifier(u), rest))));
  }

  /** `func()`: whether a result is meant is seen from the arrow. */
  lemma BareFuncTypeRead()
    ensures ParseType([Keyword("func"), Oper("("), Oper(")")]) == Node(FuncType([], None), [])
  {
    hide ParseType;
    assert PrintType(FuncType([], None), []) == Cons(Keyword("func"), Cons(Oper("("), Cons(Oper(")"), [])));
    Listed(Keyword("func"), Oper("("), Oper(")"), Oper(""), Oper(""), Oper(""));
    TypeBack(FuncType([], None), []);
  }

  /** `[t]`. */
  lemma ArrayTypeRead(t: string)
    ensures ParseType([Oper("["), Identifier(t), Oper("]")]) == Node(ArrayType(NamedType(t)), [])
  {
    hide Cons, ParseType;
    Listed(Oper("["), Identifier(t), Oper("]"), Oper(""), Oper(""), Oper(""));
    TypeBack(ArrayType(NamedType(t)), []);
  }

  /** `struct { x: t; }`. */
  lemma StructTypeRead(x: string, t: string)
    ensures ParseType([Keyword("struct"), Oper("{"), Identifier(x), Oper(":"), Identifier(t), Oper(";"), Oper("}")]) ==
      Node(StructType([Field(x, NamedType(t))]), [])
  {
    hide Cons, ParseType, PrintFields;
    PrintsField(x, t, Cons(Oper("}"), []));
    Seven(Keyword("struct"), Oper("{"), Identifier(x), Oper(":"), Identifier(t), Oper(";"), Oper("}"));
    TypeBack(StructType([Field(x, NamedType(t))]), []);
  }

  lemma PrintsField(x: string, t: string, rest: Tokens)
    ensures PrintFields([Field(x, NamedType(t))], rest) == Cons(Identifier(x), Cons(Oper(":"), Cons(Identifier(t), Cons(Oper(";"), rest))))
  {
    hide Cons;
  }

  // ---- what is not read

  /** An error at one level is one at all looser levels. */
  lemma {:induction false} Fails(l: nat, k: nat, ts: Tokens)
    requires l <= k <= NESTED && (k < UNARY || l == k) && ParseLevel(k, ts) == Fatal
    ensures ParseLevel(l, ts) == Fatal
    decreases k - l
  {
    if l < k {
      Fails(l + 1, k, ts);
    }
  }

  /** A binary operator has two operands. */
  lemma OperandMissing(x: string, op: BinOp)
    ensures ParseExpr([Identifier(x), Oper(OpText(op))]) == Fatal
  {
    hide Print, ParseLevel;
    var l, rest := OpLevel(op), Cons(Oper(OpText(op)), []);
    OpTaken(op, rest);
    PrintsIdent(x, l, rest);
    BinFront(Ident(x), l, rest);
    NothingThere(l + 1);
    assert [Identifier(x), Oper(OpText(op))] == Cons(Identifier(x), rest);
    Fails(TERN, l, Cons(Identifier(x), rest));
  }

  /** Where there are no tokens there is no expression. */
  lemma {:induction false} NothingThere(l: nat)
    requires l <= NESTED
    ensures ParseLevel(l, []) == NoNode
    decreases NESTED - l
  {
    if l < UNARY {
      NothingThere(l + 1);
    }
  }
}
