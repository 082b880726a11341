/** Parsing undoes printing. */
module RoundTrip {
  import opened Wrappers
  import opened Syntax

  // ---- types

  lemma TypeHead(t: Type, rest: Tokens)
    ensures var ts := PrintType(t, rest);
      ts != [] && (ts[0].Oper? ==> ts[0] == Oper("[")) && ts[0] != Keyword("ref")
  {
  }

  /** A type is read back, unless what follows would give a function type a result. */
  lemma {:induction false} TypeBack(t: Type, rest: Tokens)
    requires !Starts(rest, Oper("->"))
    ensures ParseType(PrintType(t, rest)) == Node(t, rest)
    decreases t
  {
    match t
    case NamedType(name) =>
    case ArrayType(elem) => TypeBack(elem, Cons(Oper("]"), rest));
    case StructType(fields) => FieldsBack(fields, rest);
    case FuncType(params, ret) =>
      if ret.Some? {
        TypeBack(ret.value, rest);
      }
      if params != [] {
        ParamsBack(params, if ret.Some? then Cons(Oper("->"), PrintType(ret.value, rest)) else rest);
      }
      FuncTypeBack(params, ret, rest);
  }

  lemma FuncTypeBack(params: seq<ParamType>, ret: Option<Type>, rest: Tokens)
    requires !Starts(rest, Oper("->"))
    requires ret.Some? ==> ParseType(PrintType(ret.value, rest)) == Node(ret.value, rest)
    requires var tail := if ret.Some? then Cons(Oper("->"), PrintType(ret.value, rest)) else rest;
      params != [] ==> ParseParams(PrintParams(params, Cons(Oper(")"), tail))) == Node(params, tail)
    ensures ParseFuncType(PrintType(FuncType(params, ret), rest)[1..]) == Node(FuncType(params, ret), rest)
  {
    hide ParseType, ParseParams;
    var tail := if ret.Some? then Cons(Oper("->"), PrintType(ret.value, rest)) else rest;
    var ts := Cons(Oper("("), PrintParams(params, Cons(Oper(")"), tail)));
    assert PrintType(FuncType(params, ret), rest) == Cons(Keyword("func"), ts);
    if params == [] {
      assert ts[2..] == ts[1..][1..];
    } else {
      ParamsHead(params, Cons(Oper(")"), tail));
    }
  }

  lemma ParamsHead(ps: seq<ParamType>, rest: Tokens)
    requires ps != []
    ensures PrintParams(ps, rest) != [] && PrintParams(ps, rest)[0] != Oper(")")
  {
    TypeHead(ps[0].paramType, if |ps| == 1 then rest else Cons(Oper(","), PrintParams(ps[1..], rest)));
  }

  lemma {:induction false} ParamBack(p: ParamType, rest: Tokens)
    requires !Starts(rest, Oper("->"))
    ensures var ts := PrintParam(p, rest);
      && Starts(ts, Keyword("ref")) == p.ref
      && ParseType(if p.ref then ts[1..] else ts) == Node(p.paramType, rest)
    decreases p
  {
    hide ParseType;
    TypeHead(p.paramType, rest);
    TypeBack(p.paramType, rest);
  }

  lemma {:induction false} ParamsBack(ps: seq<ParamType>, rest: Tokens)
    requires ps != []
    ensures ParseParams(PrintParams(ps, Cons(Oper(")"), rest))) == Node(ps, rest)
    decreases ps
  {
    hide PrintParam, ParseType;
    var end := Cons(Oper(")"), rest);
    var tail := if |ps| == 1 then end else Cons(Oper(","), PrintParams(ps[1..], end));
    ParamBack(ps[0], tail);
    if |ps| == 1 {
      assert ps == [ps[0]];
    } else {
      ParamsBack(ps[1..], rest);
      assert ps == [ps[0]] + ps[1..];
    }
  }

  lemma {:induction false} FieldsBack(fs: seq<Field>, rest: Tokens)
    ensures ParseFields(PrintFields(fs, Cons(Oper("}"), rest))) == Node(fs, rest)
    decreases fs
  {
    hide PrintType, ParseType;
    if fs != [] {
      var f, tail := fs[0], PrintFields(fs[1..], Cons(Oper("}"), rest));
      var typed := PrintType(f.fieldType, Cons(Oper(";"), tail));
      var ts := PrintFields(fs, Cons(Oper("}"), rest));
      assert ts == Cons(Identifier(f.field), Cons(Oper(":"), typed)) && ts[2..] == ts[1..][1..] == typed;
      TypeBack(f.fieldType, Cons(Oper(";"), tail));
      assert ParseField(ts) == Node(f, tail);
      FieldsBack(fs[1..], rest);
      assert fs == [f] + fs[1..];
    }
  }

  // ---- expressions

  /** A parse of level `l` does not go on with these tokens. */
  ghost predicate Stops(l: nat, rest: Tokens) {
    && !Starts(rest, Oper("(")) && !Starts(rest, Oper("[")) && !Starts(rest, Oper("."))
    && (forall k: nat {:trigger TakesOp(k, rest)} :: l <= k ==> TakesOp(k, rest).None?)
    && (l == TERN ==> !Starts(rest, Oper("?")))
  }

  predicate Closes(end: string) {
    end == ")" || end == "]" || end == "}"
  }

  /** Nothing goes on past a separator or a closing bracket. */
  lemma Separates(op: string, rest: Tokens)
    requires Closes(op) || op == "," || op == ":"
    ensures Stops(TERN, Cons(Oper(op), rest))
  {
  }

  /** How the tokens of an expression begin. */
  predicate Heads(l: nat, ts: Tokens) {
    && ts != [] && ts[0] != Oper(")") && ts[0] != Oper("]") && ts[0] != Oper("}") && ts[0] != Oper("->")
    && (l == NESTED ==> TakesUnary(ts).None? && ts[0] != Keyword("make"))
  }

  lemma {:induction false} Head(e: Expr, l: nat, rest: Tokens)
    requires l <= NESTED
    ensures Heads(l, Print(e, l, rest))
    decreases e, 1
  {
    BareHead(e, rest);
  }

  lemma {:induction false} BareHead(e: Expr, rest: Tokens)
    ensures Heads(Level(e), PrintBare(e, rest))
    decreases e, 0
  {
    match e
    case FuncCall(fn, args) => Head(fn, NESTED, Cons(Oper("("), PrintList(args, Cons(Oper(")"), rest))));
    case Subscript(arr, index) => Head(arr, NESTED, Cons(Oper("["), Print(index, TERN, Cons(Oper("]"), rest))));
    case MemberIdent(obj, member) => Head(obj, NESTED, Cons(Oper("."), Cons(Identifier(member), rest)));
    case Binary(op, lhs, rhs) => Head(lhs, OpLevel(op), Cons(Oper(OpText(op)), Print(rhs, OpLevel(op) + 1, rest)));
    case Ternary(cond, troo, fols) =>
      Head(cond, BOOL_OR, Cons(Oper("?"), Print(troo, TERN, Cons(Oper(":"), Print(fols, TERN, rest)))));
    case _ =>
  }

  /** The measure of the mutual induction: parentheses put the same expression at a
      looser level, every other step goes to a tighter one or to a part. */
  function Wrapped(e: Expr, l: nat): nat {
    if Level(e) < l then 1 else 0
  }

  /** Printing at a tighter level makes no difference to what binds that tightly
      already, or is in parentheses already. */
  lemma PrintTighter(e: Expr, l: nat, rest: Tokens)
    requires l < NESTED && Level(e) != l
    ensures Print(e, l, rest) == Print(e, l + 1, rest) && Wrapped(e, l) == Wrapped(e, l + 1)
  {
  }

  /** The tokens of an expression, printed for a level, are read back at that level,
      and no token behind them is touched. */
  lemma {:induction false} ParsesBack(e: Expr, l: nat, rest: Tokens)
    requires l <= NESTED && Stops(l, rest)
    ensures ParseLevel(l, Print(e, l, rest)) == Node(e, rest)
    decreases e, Wrapped(e, l), NESTED - l, 1
  {
    hide Print, Level;
    if l == NESTED {
      NestedFront(e, rest);
    } else if l == UNARY {
      UnaryBack(e, rest);
    } else if l == TERN {
      TernBack(e, rest);
    } else {
      BinFront(e, l, rest);
      assert TakesOp(l, rest).None?;
    }
  }

  lemma {:induction false} TernBack(e: Expr, rest: Tokens)
    requires Stops(TERN, rest)
    ensures ParseLevel(TERN, Print(e, TERN, rest)) == Node(e, rest)
    decreases e, Wrapped(e, TERN), NESTED, 0
  {
    if e.Ternary? {
      var tail2 := Cons(Oper(":"), Print(e.fols, TERN, rest));
      var tail1 := Cons(Oper("?"), Print(e.troo, TERN, tail2));
      ParsesBack(e.cond, BOOL_OR, tail1);
      ParsesBack(e.troo, TERN, tail2);
      ParsesBack(e.fols, TERN, rest);
    } else {
      PrintTighter(e, TERN, rest);
      ParsesBack(e, BOOL_OR, rest);
    }
  }

  /** At the level of a loop the printed expression is what the loop starts with,
      even if the loop goes on: operators group to the left. */
  lemma {:induction false} BinFront(e: Expr, l: nat, rest: Tokens)
    requires BOOL_OR <= l <= MUL && Stops(l + 1, rest)
    ensures ParseLevel(l, Print(e, l, rest)) == BinLoop(l, e, rest)
    decreases e, Wrapped(e, l), NESTED - l, 0
  {
    if e.Binary? && OpLevel(e.oper) == l {
      var tail := Cons(Oper(OpText(e.oper)), Print(e.rhs, l + 1, rest));
      OpTaken(e.oper, tail);
      BinFront(e.lhs, l, tail);
      ParsesBack(e.rhs, l + 1, rest);
    } else {
      PrintTighter(e, l, rest);
      ParsesBack(e, l + 1, rest);
    }
  }

  /** An operator is taken at its own level and at no other. */
  lemma OpTaken(op: BinOp, ts: Tokens)
    requires Starts(ts, Oper(OpText(op)))
    ensures TakesOp(OpLevel(op), ts) == Some(op) && Stops(OpLevel(op) + 1, ts)
  {
  }

  lemma {:induction false} UnaryBack(e: Expr, rest: Tokens)
    requires Stops(UNARY, rest)
    ensures ParseUnary(Print(e, UNARY, rest)) == Node(e, rest)
    decreases e, Wrapped(e, UNARY), NESTED - UNARY, 0
  {
    hide Print, PrintBare, NestedLoop, ParseType, PrintType, TakesOp;
    match e
    case Unary(op, operand) =>
      PrintsUnary(op, operand, rest);
      UnaryTaken(op, Cons(Oper(UnText(op)), Print(operand, UNARY, rest)));
      UnaryBack(operand, rest);
    case Make(made, from) =>
      var tail := Print(from, UNARY, rest);
      PrintsMake(made, from, rest);
      Head(from, UNARY, rest);
      TypeBack(made, tail);
      UnaryBack(from, rest);
    case _ =>
      PrintTighter(e, UNARY, rest);
      Head(e, NESTED, rest);
      NestedFront(e, rest);
      Stopped(e, rest);
  }

  lemma Stopped(e: Expr, rest: Tokens)
    requires Stops(UNARY, rest)
    ensures NestedLoop(e, rest) == Node(e, rest)
  {
  }

  lemma PrintsUnary(op: UnOp, operand: Expr, rest: Tokens)
    ensures Print(Unary(op, operand), UNARY, rest) == Cons(Oper(UnText(op)), Print(operand, UNARY, rest))
  {
    hide UnText;
  }

  lemma PrintsMake(made: Type, from: Expr, rest: Tokens)
    ensures Print(Make(made, from), UNARY, rest) == Cons(Keyword("make"), PrintType(made, Print(from, UNARY, rest)))
  {
    hide PrintType;
  }

  lemma UnaryTaken(op: UnOp, ts: Tokens)
    requires Starts(ts, Oper(UnText(op)))
    ensures TakesUnary(ts) == Some(op)
  {
  }

  /** Calls, subscripts and members go on from what is printed. */
  lemma {:induction false} NestedFront(e: Expr, rest: Tokens)
    ensures ParseNested(Print(e, NESTED, rest)) == NestedLoop(e, rest)
    decreases e, Wrapped(e, NESTED), 0, 0
  {
    hide ParseLevel, ParseTerm, PrintList, ParseExprList, Stops, TakesOp;
    match e
    case FuncCall(fn, args) =>
      NestedFront(fn, Cons(Oper("("), PrintList(args, Cons(Oper(")"), rest))));
      ListBack(args, ")", rest);
    case Subscript(arr, index) =>
      var tail := Cons(Oper("]"), rest);
      Separates("]", rest);
      NestedFront(arr, Cons(Oper("["), Print(index, TERN, tail)));
      ParsesBack(index, TERN, tail);
    case MemberIdent(obj, member) =>
      var tail := Cons(Oper("."), Cons(Identifier(member), rest));
      NestedFront(obj, tail);
      assert tail[1] == tail[1..][0] && tail[2..] == tail[1..][1..];
    case _ => TermBack(e, rest);
  }

  lemma {:induction false} TermBack(e: Expr, rest: Tokens)
    requires !e.FuncCall? && !e.Subscript? && !e.MemberIdent?
    ensures ParseTerm(Print(e, NESTED, rest)) == Node(e, rest)
    decreases e, Wrapped(e, NESTED), 0, 0, 0
  {
    if Level(e) < NESTED {
      Separates(")", rest);
      ParsesBack(e, TERN, Cons(Oper(")"), rest));
    } else {
      match e
      case ArrayLiteral(elems) => ListBack(elems, "]", rest);
      case InitList(inits) => ListBack(inits, "}", rest);
      case StringLiteral(text) => assert Trim("\"" + text + "\"") == text;
      case CharLiteral(text) => assert Trim("'" + text + "'") == text;
      case _ =>
    }
  }

  lemma {:induction false} ListBack(es: seq<Expr>, end: string, rest: Tokens)
    requires Closes(end)
    ensures ParseExprList(PrintList(es, Cons(Oper(end), rest)), end) == Node(es, rest)
    decreases es, 1
  {
    if es != [] {
      var last := Cons(Oper(end), rest);
      Head(es[0], TERN, if |es| == 1 then last else Cons(Oper(","), PrintList(es[1..], last)));
      ItemsBack(es, end, rest);
    }
  }

  lemma {:induction false} ItemsBack(es: seq<Expr>, end: string, rest: Tokens)
    requires es != [] && Closes(end)
    ensures ParseExprs(PrintList(es, Cons(Oper(end), rest)), end) == Node(es, rest)
    decreases es, 0
  {
    hide Print, ParseLevel, Stops, TakesOp;
    var last := Cons(Oper(end), rest);
    var tail := if |es| == 1 then last else Cons(Oper(","), PrintList(es[1..], last));
    Separates(if |es| == 1 then end else ",", tail[1..]);
    assert tail == Cons(Oper(if |es| == 1 then end else ","), tail[1..]);
    ParsesBack(es[0], TERN, tail);
    if |es| == 1 {
      assert es == [es[0]];
    } else {
      ItemsBack(es[1..], end, rest);
      assert es == [es[0]] + es[1..];
    }
  }

  // ---- what the parser promises

  /** Whatever was parsed, no operator that would have continued it is left in front. */
  lemma {:induction false} StopsAfter(l: nat, ts: Tokens)
    requires l <= NESTED && ParseLevel(l, ts).Node?
    ensures Stops(l, ParseLevel(l, ts).rest)
    decreases |ts|, NESTED - l, 1
  {
    if l == NESTED {
      NestedStops(ParseTerm(ts).node, ParseTerm(ts).rest);
    } else if l == UNARY {
      UnaryStops(ts);
    } else {
      var first := ParseLevel(l + 1, ts);
      StopsAfter(l + 1, ts);
      if l == TERN {
        TernStops(first.node, first.rest);
      } else {
        BinStops(l, first.node, first.rest);
      }
    }
  }

  lemma {:induction false} NestedStops(lhs: Expr, ts: Tokens)
    requires NestedLoop(lhs, ts).Node?
    ensures Stops(UNARY, NestedLoop(lhs, ts).rest)
    decreases |ts|
  {
    hide ParseExprList, ParseExpr;
    if Starts(ts, Oper("(")) {
      NestedStops(FuncCall(lhs, ParseExprList(ts[1..], ")").node), ParseExprList(ts[1..], ")").rest);
    } else if Starts(ts, Oper("[")) {
      NestedStops(Subscript(lhs, ParseExpr(ts[1..]).node), ParseExpr(ts[1..]).rest[1..]);
    } else if Starts(ts, Oper(".")) {
      NestedStops(MemberIdent(lhs, ts[1].id), ts[2..]);
    }
  }

  lemma {:induction false} UnaryStops(ts: Tokens)
    requires ParseUnary(ts).Node?
    ensures Stops(UNARY, ParseUnary(ts).rest)
    decreases |ts|, 1, 0
  {
    hide ParseTerm, ParseType;
    if TakesUnary(ts).Some? {
      UnaryStops(ts[1..]);
    } else if Starts(ts, Keyword("make")) {
      UnaryStops(ParseType(ts[1..]).rest);
    } else {
      NestedStops(ParseTerm(ts).node, ParseTerm(ts).rest);
    }
  }

  lemma {:induction false} BinStops(l: nat, lhs: Expr, ts: Tokens)
    requires BOOL_OR <= l <= MUL && BinLoop(l, lhs, ts).Node? && Stops(l + 1, ts)
    ensures Stops(l, BinLoop(l, lhs, ts).rest)
    decreases |ts|, 0, 0
  {
    if TakesOp(l, ts).Some? {
      var rhs := ParseLevel(l + 1, ts[1..]);
      StopsAfter(l + 1, ts[1..]);
      BinStops(l, Binary(TakesOp(l, ts).value, lhs, rhs.node), rhs.rest);
    }
  }

  lemma {:induction false} TernStops(cond: Expr, ts: Tokens)
    requires TernTail(cond, ts).Node? && Stops(BOOL_OR, ts)
    ensures Stops(TERN, TernTail(cond, ts).rest)
    decreases |ts|, 0, 0
  {
    if Starts(ts, Oper("?")) {
      var troo := ParseLevel(TERN, ts[1..]);
      StopsAfter(TERN, troo.rest[1..]);
    } else {
      assert TakesOp(TERN, ts).None?;
    }
  }

  /** A printed expression is read back, with nothing taken from behind it, exactly
      when what is behind it would not continue it. */
  lemma ParsedIffStopped(e: Expr, l: nat, rest: Tokens)
    requires l <= NESTED
    ensures ParseLevel(l, Print(e, l, rest)) == Node(e, rest) <==> Stops(l, rest)
  {
    if Stops(l, rest) {
      ParsesBack(e, l, rest);
    }
    if ParseLevel(l, Print(e, l, rest)) == Node(e, rest) {
      StopsAfter(l, Print(e, l, rest));
    }
  }

  lemma PrintsIdent(x: string, l: nat, rest: Tokens)
    requires l <= NESTED
    ensures Print(Ident(x), l, rest) == Cons(Identifier(x), rest)
  {
  }

  lemma PrintsBinary(op: BinOp, lhs: Expr, rhs: Expr, rest: Tokens)
    ensures Print(Binary(op, lhs, rhs), TERN, rest) ==
      Print(lhs, OpLevel(op), Cons(Oper(OpText(op)), Print(rhs, OpLevel(op) + 1, rest)))
  {
    hide OpLevel, OpText;
  }

  lemma PrintsPair(x: string, op: BinOp, y: string, l: nat, rest: Tokens)
    requires l <= OpLevel(op)
    ensures Print(Binary(op, Ident(x), Ident(y)), l, rest) == Cons(Identifier(x), Cons(Oper(OpText(op)), Cons(Identifier(y), rest)))
  {
    PrintsIdent(y, OpLevel(op) + 1, rest);
    PrintsIdent(x, OpLevel(op), Cons(Oper(OpText(op)), Cons(Identifier(y), rest)));
  }

  /** Operators of one level group to the left, and tighter ones before looser ones. */
  lemma GroupsByLevel(x: string, op1: BinOp, y: string, op2: BinOp, z: string)
    ensures ParseExpr([Identifier(x), Oper(OpText(op1)), Identifier(y), Oper(OpText(op2)), Identifier(z)]) ==
      Node(if OpLevel(op1) >= OpLevel(op2) then Binary(op2, Binary(op1, Ident(x), Ident(y)), Ident(z))
           else Binary(op1, Ident(x), Binary(op2, Ident(y), Ident(z))), [])
  {
    var ts := [Identifier(x), Oper(OpText(op1)), Identifier(y), Oper(OpText(op2)), Identifier(z)];
    var tail := Cons(Oper(OpText(op2)), Cons(Identifier(z), []));
    assert ts == Cons(Identifier(x), Cons(Oper(OpText(op1)), Cons(Identifier(y), tail)));
    var e := if OpLevel(op1) >= OpLevel(op2) then Binary(op2, Binary(op1, Ident(x), Ident(y)), Ident(z))
             else Binary(op1, Ident(x), Binary(op2, Ident(y), Ident(z)));
    hide OpLevel, OpText, ParseLevel, Stops, TakesOp, Print, PrintBare;
    if OpLevel(op1) >= OpLevel(op2) {
      PrintsPair(x, op1, y, OpLevel(op2), tail);
      PrintsIdent(z, OpLevel(op2) + 1, []);
      PrintsBinary(op2, Binary(op1, Ident(x), Ident(y)), Ident(z), []);
    } else {
      PrintsPair(y, op2, z, OpLevel(op1) + 1, []);
      PrintsIdent(x, OpLevel(op1), Cons(Oper(OpText(op1)), Cons(Identifier(y), tail)));
      PrintsBinary(op1, Ident(x), Binary(op2, Ident(y), Ident(z)), []);
    }
    EndStops(TERN);
    ParsesBack(e, TERN, []);
  }

  lemma EndStops(l: nat)
    ensures Stops(l, [])
  {
  }

  // ---- printing in front of tokens is putting the tokens of the expression there

  lemma ConsThen(t: Token, a: Tokens, b: Tokens)
    ensures Cons(t, a + b) == Cons(t, a) + b
  {
  }

  lemma {:induction false} TypeAppends(t: Type, a: Tokens, b: Tokens)
    ensures PrintType(t, a + b) == PrintType(t, a) + b
    decreases t
  {
    match t
    case NamedType(name) => ConsThen(Identifier(name), a, b);
    case ArrayType(elem) =>
      ConsThen(Oper("]"), a, b);
      TypeAppends(elem, Cons(Oper("]"), a), b);
      ConsThen(Oper("["), PrintType(elem, Cons(Oper("]"), a)), b);
    case StructType(fields) =>
      var ts := PrintFields(fields, Cons(Oper("}"), a));
      ConsThen(Oper("}"), a, b);
      FieldsAppend(fields, Cons(Oper("}"), a), b);
      ConsThen(Oper("{"), ts, b);
      ConsThen(Keyword("struct"), Cons(Oper("{"), ts), b);
    case FuncType(params, ret) =>
      var tail := if ret.Some? then Cons(Oper("->"), PrintType(ret.value, a)) else a;
      if ret.Some? {
        TypeAppends(ret.value, a, b);
        ConsThen(Oper("->"), PrintType(ret.value, a), b);
      }
      var ts := PrintParams(params, Cons(Oper(")"), tail));
      ConsThen(Oper(")"), tail, b);
      ParamsAppend(params, Cons(Oper(")"), tail), b);
      ConsThen(Oper("("), ts, b);
      ConsThen(Keyword("func"), Cons(Oper("("), ts), b);
  }

  lemma {:induction false} ParamAppends(p: ParamType, a: Tokens, b: Tokens)
    ensures PrintParam(p, a + b) == PrintParam(p, a) + b
    decreases p
  {
    TypeAppends(p.paramType, a, b);
    ConsThen(Keyword("ref"), PrintType(p.paramType, a), b);
  }

  lemma {:induction false} ParamsAppend(ps: seq<ParamType>, a: Tokens, b: Tokens)
    ensures PrintParams(ps, a + b) == PrintParams(ps, a) + b
    decreases ps
  {
    if ps != [] {
      hide PrintType;
      var tail := if |ps| == 1 then a else Cons(Oper(","), PrintParams(ps[1..], a));
      if |ps| > 1 {
        ParamsAppend(ps[1..], a, b);
        ConsThen(Oper(","), PrintParams(ps[1..], a), b);
      }
      ParamAppends(ps[0], tail, b);
    }
  }

  lemma {:induction false} FieldsAppend(fs: seq<Field>, a: Tokens, b: Tokens)
    ensures PrintFields(fs, a + b) == PrintFields(fs, a) + b
    decreases fs
  {
    if fs != [] {
      hide PrintType;
      var tail := Cons(Oper(";"), PrintFields(fs[1..], a));
      FieldsAppend(fs[1..], a, b);
      ConsThen(Oper(";"), PrintFields(fs[1..], a), b);
      TypeAppends(fs[0].fieldType, tail, b);
      ConsThen(Oper(":"), PrintType(fs[0].fieldType, tail), b);
      ConsThen(Identifier(fs[0].field), Cons(Oper(":"), PrintType(fs[0].fieldType, tail)), b);
    }
  }

  lemma {:induction false} PrintAppends(e: Expr, l: nat, a: Tokens, b: Tokens)
    requires l <= NESTED
    ensures Print(e, l, a + b) == Print(e, l, a) + b
    decreases e, 1
  {
    hide PrintBare;
    BareAppends(e, a, b);
    ConsThen(Oper(")"), a, b);
    BareAppends(e, Cons(Oper(")"), a), b);
    ConsThen(Oper("("), PrintBare(e, Cons(Oper(")"), a)), b);
  }

  lemma {:induction false} BareAppends(e: Expr, a: Tokens, b: Tokens)
    ensures PrintBare(e, a + b) == PrintBare(e, a) + b
    decreases e, 0
  {
    hide Print, PrintList, PrintType;
    match e
    case ArrayLiteral(elems) =>
      ConsThen(Oper("]"), a, b);
      ListAppends(elems, Cons(Oper("]"), a), b);
      ConsThen(Oper("["), PrintList(elems, Cons(Oper("]"), a)), b);
    case InitList(inits) =>
      ConsThen(Oper("}"), a, b);
      ListAppends(inits, Cons(Oper("}"), a), b);
      ConsThen(Oper("{"), PrintList(inits, Cons(Oper("}"), a)), b);
    case FuncCall(fn, args) =>
      ConsThen(Oper(")"), a, b);
      ListAppends(args, Cons(Oper(")"), a), b);
      ConsThen(Oper("("), PrintList(args, Cons(Oper(")"), a)), b);
      PrintAppends(fn, NESTED, Cons(Oper("("), PrintList(args, Cons(Oper(")"), a))), b);
    case Subscript(arr, index) =>
      ConsThen(Oper("]"), a, b);
      PrintAppends(index, TERN, Cons(Oper("]"), a), b);
      ConsThen(Oper("["), Print(index, TERN, Cons(Oper("]"), a)), b);
      PrintAppends(arr, NESTED, Cons(Oper("["), Print(index, TERN, Cons(Oper("]"), a))), b);
    case MemberIdent(obj, member) =>
      ConsThen(Identifier(member), a, b);
      ConsThen(Oper("."), Cons(Identifier(member), a), b);
      PrintAppends(obj, NESTED, Cons(Oper("."), Cons(Identifier(member), a)), b);
    case Unary(op, operand) =>
      PrintAppends(operand, UNARY, a, b);
      ConsThen(Oper(UnText(op)), Print(operand, UNARY, a), b);
    case Make(made, from) =>
      PrintAppends(from, UNARY, a, b);
      TypeAppends(made, Print(from, UNARY, a), b);
      ConsThen(Keyword("make"), PrintType(made, Print(from, UNARY, a)), b);
    case Binary(op, lhs, rhs) =>
      var tail := Print(rhs, OpLevel(op) + 1, a);
      PrintAppends(rhs, OpLevel(op) + 1, a, b);
      ConsThen(Oper(OpText(op)), tail, b);
      PrintAppends(lhs, OpLevel(op), Cons(Oper(OpText(op)), tail), b);
    case Ternary(cond, troo, fols) =>
      var tail2 := Cons(Oper(":"), Print(fols, TERN, a));
      var tail1 := Cons(Oper("?"), Print(troo, TERN, tail2));
      PrintAppends(fols, TERN, a, b);
      ConsThen(Oper(":"), Print(fols, TERN, a), b);
      PrintAppends(troo, TERN, tail2, b);
      ConsThen(Oper("?"), Print(troo, TERN, tail2), b);
      PrintAppends(cond, BOOL_OR, tail1, b);
    case _ => ConsThen(PrintBare(e, [])[0], a, b);
  }

  lemma {:induction false} ListAppends(es: seq<Expr>, a: Tokens, b: Tokens)
    ensures PrintList(es, a + b) == PrintList(es, a) + b
    decreases es
  {
    hide Print;
    if es != [] {
      var tail := if |es| == 1 then a else Cons(Oper(","), PrintList(es[1..], a));
      if |es| > 1 {
        ListAppends(es[1..], a, b);
        ConsThen(Oper(","), PrintList(es[1..], a), b);
      }
      PrintAppends(es[0], TERN, tail, b);
    }
  }

  /** Parsing undoes printing: the tokens of an expression, with any others behind
      them, are read as that expression and nothing else, exactly when the others
      would not continue it. */
  lemma ParseInvertsPrint(e: Expr, l: nat, rest: Tokens)
    requires l <= NESTED
    ensures ParseLevel(l, Print(e, l, []) + rest) == Node(e, rest) <==> Stops(l, rest)
  {
    PrintAppends(e, l, [], rest);
    assert [] + rest == rest;
    ParsedIffStopped(e, l, rest);
  }
}
