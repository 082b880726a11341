/** Types and expressions: what the parser makes of tokens, written as functions of
    the tokens that are left, and how they are printed. */
module Syntax {
  import opened Wrappers

  datatype Token =
    | Keyword(word: string)
    | Identifier(id: string)
    | Number(num: string)
    | String(str: string)        // with its quotes
    | Character(chr: string)     // with its quotes
    | Oper(op: string)

  type Tokens = seq<Token>

  datatype Type =
    | FuncType(params: seq<ParamType>, ret: Option<Type>)
    | ArrayType(elem: Type)
    | NamedType(name: string)
    | StructType(fields: seq<Field>)

  datatype ParamType = ParamType(ref: bool, paramType: Type)

  datatype Field = Field(field: string, fieldType: Type)

  datatype BinOp =
    | BoolOr | BoolAnd
    | BitOr | BitXor | BitAnd | BitShl | BitShr
    | Eq | Ne | Lt | Le | Gt | Ge
    | Add | Sub | Mul | Div | Mod

  datatype UnOp = Neg | BoolNot | BitNot

  datatype Expr =
    | Ident(ident: string)
    | StringLiteral(text: string)
    | CharLiteral(char_: string)
    | NumberLiteral(number: string)
    | BoolLiteral(value: bool)
    | ArrayLiteral(elems: seq<Expr>)
    | InitList(inits: seq<Expr>)
    | FuncCall(fn: Expr, args: seq<Expr>)
    | Subscript(arr: Expr, index: Expr)
    | MemberIdent(obj: Expr, member: string)
    | Unary(unop: UnOp, operand: Expr)
    | Make(made: Type, from: Expr)
    | Binary(oper: BinOp, lhs: Expr, rhs: Expr)
    | Ternary(cond: Expr, troo: Expr, fols: Expr)

  /** The result of a parse function: a node and the tokens behind it, nothing (and no
      token was taken), or an error that ends the parse. */
  datatype Parsed<+T> = Node(node: T, rest: Tokens) | NoNode | Fatal

  // ---- operators

  /** The ladder, from the loosest binding to the tightest. */
  const TERN: nat := 0
  const BOOL_OR: nat := 1
  const BOOL_AND: nat := 2
  const EQ: nat := 3
  const REL: nat := 4
  const BIT_OR: nat := 5
  const BIT_XOR: nat := 6
  const BIT_AND: nat := 7
  const SHIFT: nat := 8
  const ADD: nat := 9
  const MUL: nat := 10
  const UNARY: nat := 11
  const NESTED: nat := 12

  function OpLevel(op: BinOp): (l: nat)
    ensures BOOL_OR <= l <= MUL
  {
    match op
    case BoolOr => BOOL_OR
    case BoolAnd => BOOL_AND
    case Eq => EQ
    case Ne => EQ
    case Lt => REL
    case Le => REL
    case Gt => REL
    case Ge => REL
    case BitOr => BIT_OR
    case BitXor => BIT_XOR
    case BitAnd => BIT_AND
    case BitShl => SHIFT
    case BitShr => SHIFT
    case Add => ADD
    case Sub => ADD
    case Mul => MUL
    case Div => MUL
    case Mod => MUL
  }

  function OpText(op: BinOp): string {
    match op
    case BoolOr => "||"
    case BoolAnd => "&&"
    case Eq => "=="
    case Ne => "!="
    case Lt => "<"
    case Le => "<="
    case Gt => ">"
    case Ge => ">="
    case BitOr => "|"
    case BitXor => "^"
    case BitAnd => "&"
    case BitShl => "<<"
    case BitShr => ">>"
    case Add => "+"
    case Sub => "-"
    case Mul => "*"
    case Div => "/"
    case Mod => "%"
  }

  function UnText(op: UnOp): string {
    match op
    case Neg => "-"
    case BoolNot => "!"
    case BitNot => "~"
  }

  /** The operator that the loop of level `l` takes at the head of `ts`. */
  function TakesOp(l: nat, ts: Tokens): Option<BinOp> {
    if ts == [] || !ts[0].Oper? then None
    else
      var t := ts[0].op;
      if l == BOOL_OR && t == "||" then Some(BoolOr)
      else if l == BOOL_AND && t == "&&" then Some(BoolAnd)
      else if l == EQ && t == "==" then Some(Eq)
      else if l == EQ && t == "!=" then Some(Ne)
      else if l == REL && t == "<" then Some(Lt)
      else if l == REL && t == "<=" then Some(Le)
      else if l == REL && t == ">" then Some(Gt)
      else if l == REL && t == ">=" then Some(Ge)
      else if l == BIT_OR && t == "|" then Some(BitOr)
      else if l == BIT_XOR && t == "^" then Some(BitXor)
      else if l == BIT_AND && t == "&" then Some(BitAnd)
      else if l == SHIFT && t == "<<" then Some(BitShl)
      else if l == SHIFT && t == ">>" then Some(BitShr)
      else if l == ADD && t == "+" then Some(Add)
      else if l == ADD && t == "-" then Some(Sub)
      else if l == MUL && t == "*" then Some(Mul)
      else if l == MUL && t == "/" then Some(Div)
      else if l == MUL && t == "%" then Some(Mod)
      else None
  }

  function TakesUnary(ts: Tokens): Option<UnOp> {
    if Starts(ts, Oper("-")) then Some(Neg)
    else if Starts(ts, Oper("!")) then Some(BoolNot)
    else if Starts(ts, Oper("~")) then Some(BitNot)
    else None
  }

  predicate Starts(ts: Tokens, t: Token) {
    ts != [] && ts[0] == t
  }

  /** The token text without its quotes. */
  function Trim(s: string): string {
    if |s| < 2 then "" else s[1..|s| - 1]
  }

  // ---- parsing types

  function ParseType(ts: Tokens): (r: Parsed<Type>)
    ensures r.Node? ==> |r.rest| < |ts|
    decreases |ts|, 1
  {
    if Starts(ts, Keyword("func")) then ParseFuncType(ts[1..])
    else if Starts(ts, Oper("[")) then
      match ParseType(ts[1..])
      case Node(elem, rest) => if Starts(rest, Oper("]")) then Node(ArrayType(elem), rest[1..]) else Fatal
      case _ => Fatal
    else if ts != [] && ts[0].Identifier? then Node(NamedType(ts[0].id), ts[1..])
    else if Starts(ts, Keyword("struct")) then ParseStructType(ts[1..])
    else NoNode
  }

  /** A struct type, behind its keyword. */
  function ParseStructType(ts: Tokens): (r: Parsed<Type>)
    ensures r.Node? ==> |r.rest| < |ts|
    ensures r != NoNode
    decreases |ts|, 2
  {
    if !Starts(ts, Oper("{")) then Fatal
    else
      match ParseFields(ts[1..])
      case Node(fields, rest) => Node(StructType(fields), rest)
      case _ => Fatal
  }

  /** A function type, behind its keyword. */
  function ParseFuncType(ts: Tokens): (r: Parsed<Type>)
    ensures r.Node? ==> |r.rest| < |ts|
    ensures r != NoNode
    decreases |ts|, 2
  {
    if !Starts(ts, Oper("(")) then Fatal
    else
      var params := if Starts(ts[1..], Oper(")")) then Node([], ts[2..]) else ParseParams(ts[1..]);
      match params
      case Node(ps, rest) =>
        if Starts(rest, Oper("->")) then
          match ParseType(rest[1..])
          case Node(ret, rest') => Node(FuncType(ps, Some(ret)), rest')
          case _ => Fatal
        else Node(FuncType(ps, None), rest)
      case _ => Fatal
  }

  function ParseParams(ts: Tokens): (r: Parsed<seq<ParamType>>)
    ensures r.Node? ==> |r.rest| < |ts|
    decreases |ts|, 2
  {
    var ref := Starts(ts, Keyword("ref"));
    match ParseType(if ref then ts[1..] else ts)
    case Node(t, rest) =>
      if Starts(rest, Oper(",")) then
        match ParseParams(rest[1..])
        case Node(ps, rest') => Node([ParamType(ref, t)] + ps, rest')
        case _ => Fatal
      else if Starts(rest, Oper(")")) then Node([ParamType(ref, t)], rest[1..])
      else Fatal
    case _ => Fatal
  }

  function ParseFields(ts: Tokens): (r: Parsed<seq<Field>>)
    ensures r.Node? ==> |r.rest| < |ts|
    decreases |ts|, 2
  {
    if Starts(ts, Oper("}")) then Node([], ts[1..])
    else
      match ParseField(ts)
      case Node(field, rest) =>
        (match ParseFields(rest)
         case Node(fields, rest') => Node([field] + fields, rest')
         case _ => Fatal)
      case _ => Fatal
  }

  function ParseField(ts: Tokens): (r: Parsed<Field>)
    ensures r.Node? ==> |r.rest| < |ts|
    decreases |ts|, 1
  {
    if ts == [] || !ts[0].Identifier? || !Starts(ts[1..], Oper(":")) then Fatal
    else
      match ParseType(ts[2..])
      case Node(t, rest) => if Starts(rest, Oper(";")) then Node(Field(ts[0].id, t), rest[1..]) else Fatal
      case _ => Fatal
  }

  // ---- parsing expressions

  function ParseExpr(ts: Tokens): (r: Parsed<Expr>)
    ensures r.Node? ==> |r.rest| < |ts|
    decreases |ts|, 16
  {
    ParseLevel(TERN, ts)
  }

  function ParseTerm(ts: Tokens): (r: Parsed<Expr>)
    ensures r.Node? ==> |r.rest| < |ts|
    decreases |ts|, 0
  {
    if ts == [] then NoNode
    else
      match ts[0]
      case Identifier(name) => Node(Ident(name), ts[1..])
      case String(s) => Node(StringLiteral(Trim(s)), ts[1..])
      case Character(s) => Node(CharLiteral(Trim(s)), ts[1..])
      case Number(s) => Node(NumberLiteral(s), ts[1..])
      case Keyword(word) =>
        if word == "true" then Node(BoolLiteral(true), ts[1..])
        else if word == "false" then Node(BoolLiteral(false), ts[1..])
        else NoNode
      case Oper(op) =>
        if op == "(" then
          match ParseExpr(ts[1..])
          case Node(e, rest) => if Starts(rest, Oper(")")) then Node(e, rest[1..]) else Fatal
          case _ => Fatal
        else if op == "[" then
          match ParseExprList(ts[1..], "]")
          case Node(es, rest) => Node(ArrayLiteral(es), rest)
          case _ => Fatal
        else if op == "{" then
          match ParseExprList(ts[1..], "}")
          case Node(es, rest) => Node(InitList(es), rest)
          case _ => Fatal
        else NoNode
  }

  /** Calls, subscripts and members of `lhs`. */
  function NestedLoop(lhs: Expr, ts: Tokens): (r: Parsed<Expr>)
    ensures r.Node? ==> |r.rest| <= |ts|
    ensures r != NoNode
    decreases |ts|, 0
  {
    if Starts(ts, Oper("(")) then
      match ParseExprList(ts[1..], ")")
      case Node(args, rest) => NestedLoop(FuncCall(lhs, args), rest)
      case _ => Fatal
    else if Starts(ts, Oper("[")) then
      match ParseExpr(ts[1..])
      case Node(index, rest) => if Starts(rest, Oper("]")) then NestedLoop(Subscript(lhs, index), rest[1..]) else Fatal
      case _ => Fatal
    else if Starts(ts, Oper(".")) then
      if |ts| > 1 && ts[1].Identifier? then NestedLoop(MemberIdent(lhs, ts[1].id), ts[2..]) else Fatal
    else Node(lhs, ts)
  }

  function ParseNested(ts: Tokens): (r: Parsed<Expr>)
    ensures r.Node? ==> |r.rest| < |ts|
    decreases |ts|, 1
  {
    match ParseTerm(ts)
    case Node(lhs, rest) => NestedLoop(lhs, rest)
    case other => other
  }

  function ParseUnary(ts: Tokens): (r: Parsed<Expr>)
    ensures r.Node? ==> |r.rest| < |ts|
    decreases |ts|, 2
  {
    if TakesUnary(ts).Some? then
      match ParseUnary(ts[1..])
      case Node(e, rest) => Node(Unary(TakesUnary(ts).value, e), rest)
      case _ => Fatal
    else if Starts(ts, Keyword("make")) then
      match ParseType(ts[1..])
      case Node(t, rest) =>
        (match ParseUnary(rest)
         case Node(e, rest') => Node(Make(t, e), rest')
         case _ => Fatal)
      case _ => Fatal
    else ParseNested(ts)
  }

  /** The operators of level `l`, applied from the left. */
  function BinLoop(l: nat, lhs: Expr, ts: Tokens): (r: Parsed<Expr>)
    requires BOOL_OR <= l <= MUL
    ensures r.Node? ==> |r.rest| <= |ts|
    ensures r != NoNode
    decreases |ts|, 0
  {
    match TakesOp(l, ts)
    case None => Node(lhs, ts)
    case Some(op) =>
      match ParseLevel(l + 1, ts[1..])
      case Node(rhs, rest) => BinLoop(l, Binary(op, lhs, rhs), rest)
      case _ => Fatal
  }

  function ParseLevel(l: nat, ts: Tokens): (r: Parsed<Expr>)
    requires l <= NESTED
    ensures r.Node? ==> |r.rest| < |ts|
    decreases |ts|, 15 - l
  {
    if l == NESTED then ParseNested(ts)
    else if l == UNARY then ParseUnary(ts)
    else
      match ParseLevel(l + 1, ts)
      case Node(lhs, rest) => if l == TERN then TernTail(lhs, rest) else BinLoop(l, lhs, rest)
      case other => other
  }

  /** What may follow a condition. */
  function TernTail(cond: Expr, ts: Tokens): (r: Parsed<Expr>)
    ensures r.Node? ==> |r.rest| <= |ts|
    ensures r != NoNode
    decreases |ts|, 0
  {
    if !Starts(ts, Oper("?")) then Node(cond, ts)
    else
      match ParseLevel(TERN, ts[1..])
      case Node(troo, rest) =>
        if !Starts(rest, Oper(":")) then Fatal
        else
          (match ParseLevel(TERN, rest[1..])
           case Node(fols, rest') => Node(Ternary(cond, troo, fols), rest')
           case _ => Fatal)
      case _ => Fatal
  }

  function ParseExprList(ts: Tokens, end: string): (r: Parsed<seq<Expr>>)
    ensures r.Node? ==> |r.rest| < |ts|
    decreases |ts|, 18
  {
    if Starts(ts, Oper(end)) then Node([], ts[1..]) else ParseExprs(ts, end)
  }

  function ParseExprs(ts: Tokens, end: string): (r: Parsed<seq<Expr>>)
    ensures r.Node? ==> |r.rest| < |ts|
    decreases |ts|, 17
  {
    match ParseExpr(ts)
    case Node(e, rest) =>
      if Starts(rest, Oper(",")) then
        match ParseExprs(rest[1..], end)
        case Node(es, rest') => Node([e] + es, rest')
        case _ => Fatal
      else if Starts(rest, Oper(end)) then Node([e], rest[1..])
      else Fatal
    case _ => Fatal
  }

  // ---- printing; `rest` is what comes behind

  function Cons(t: Token, ts: Tokens): (r: Tokens)
    ensures r != [] && r[0] == t && r[1..] == ts && |r| == |ts| + 1
  {
    [t] + ts
  }

  function PrintType(t: Type, rest: Tokens): Tokens
    decreases t
  {
    match t
    case FuncType(params, ret) =>
      var tail := if ret.Some? then Cons(Oper("->"), PrintType(ret.value, rest)) else rest;
      Cons(Keyword("func"), Cons(Oper("("), PrintParams(params, Cons(Oper(")"), tail))))
    case ArrayType(elem) => Cons(Oper("["), PrintType(elem, Cons(Oper("]"), rest)))
    case NamedType(name) => Cons(Identifier(name), rest)
    case StructType(fields) => Cons(Keyword("struct"), Cons(Oper("{"), PrintFields(fields, Cons(Oper("}"), rest))))
  }

  function PrintParams(ps: seq<ParamType>, rest: Tokens): Tokens
    decreases ps
  {
    if ps == [] then rest
    else
      var tail := if |ps| == 1 then rest else Cons(Oper(","), PrintParams(ps[1..], rest));
      PrintParam(ps[0], tail)
  }

  function PrintParam(p: ParamType, rest: Tokens): Tokens
    decreases p
  {
    if p.ref then Cons(Keyword("ref"), PrintType(p.paramType, rest)) else PrintType(p.paramType, rest)
  }

  function PrintFields(fs: seq<Field>, rest: Tokens): Tokens
    decreases fs
  {
    if fs == [] then rest
    else
      Cons(Identifier(fs[0].field), Cons(Oper(":"),
        PrintType(fs[0].fieldType, Cons(Oper(";"), PrintFields(fs[1..], rest)))))
  }

  function Level(e: Expr): (l: nat)
    ensures l <= NESTED
  {
    match e
    case Ternary(_, _, _) => TERN
    case Binary(op, _, _) => OpLevel(op)
    case Unary(_, _) => UNARY
    case Make(_, _) => UNARY
    case _ => NESTED
  }

  /** Parentheses only where the place asks for a tighter level. */
  function Print(e: Expr, l: nat, rest: Tokens): Tokens
    requires l <= NESTED
    decreases e, 1
  {
    if Level(e) < l then Cons(Oper("("), PrintBare(e, Cons(Oper(")"), rest))) else PrintBare(e, rest)
  }

  function PrintBare(e: Expr, rest: Tokens): Tokens
    decreases e, 0
  {
    match e
    case Ident(name) => Cons(Identifier(name), rest)
    case StringLiteral(text) => Cons(String("\"" + text + "\""), rest)
    case CharLiteral(text) => Cons(Character("'" + text + "'"), rest)
    case NumberLiteral(text) => Cons(Number(text), rest)
    case BoolLiteral(value) => Cons(Keyword(if value then "true" else "false"), rest)
    case ArrayLiteral(elems) => Cons(Oper("["), PrintList(elems, Cons(Oper("]"), rest)))
    case InitList(inits) => Cons(Oper("{"), PrintList(inits, Cons(Oper("}"), rest)))
    case FuncCall(fn, args) => Print(fn, NESTED, Cons(Oper("("), PrintList(args, Cons(Oper(")"), rest))))
    case Subscript(arr, index) => Print(arr, NESTED, Cons(Oper("["), Print(index, TERN, Cons(Oper("]"), rest))))
    case MemberIdent(obj, member) => Print(obj, NESTED, Cons(Oper("."), Cons(Identifier(member), rest)))
    case Unary(op, operand) => Cons(Oper(UnText(op)), Print(operand, UNARY, rest))
    case Make(made, from) => Cons(Keyword("make"), PrintType(made, Print(from, UNARY, rest)))
    case Binary(op, lhs, rhs) => Print(lhs, OpLevel(op), Cons(Oper(OpText(op)), Print(rhs, OpLevel(op) + 1, rest)))
    case Ternary(cond, troo, fols) =>
      Print(cond, BOOL_OR, Cons(Oper("?"), Print(troo, TERN, Cons(Oper(":"), Print(fols, TERN, rest)))))
  }

  function PrintList(es: seq<Expr>, rest: Tokens): Tokens
    decreases es
  {
    if es == [] then rest
    else Print(es[0], TERN, if |es| == 1 then rest else Cons(Oper(","), PrintList(es[1..], rest)))
  }
}
