/** The recursive-descent parser of types and expressions: methods that move a cursor
    over the tokens, each proved against the function of `Syntax` of the same name. */
module Parser {
  import opened Wrappers
  import opened Syntax

  /** A node; nothing, with the cursor where it was; or an error that ends the parse. */
  datatype Outcome<+T> = Found(node: T) | Missing | Failed

  ghost predicate Matches<T>(o: Outcome<T>, before: Tokens, after: Tokens, p: Parsed<T>) {
    match p
    case Node(node, rest) => o == Found(node) && after == rest
    case NoNode => o == Missing && after == before
    case Fatal => o == Failed
  }

  /** What a list gives when `done` has been read of it. */
  function Append<T>(done: seq<T>, p: Parsed<seq<T>>): Parsed<seq<T>> {
    match p
    case Node(nodes, rest) => Node(done + nodes, rest)
    case other => other
  }

  class ParseTokens {
    /** The tokens from the cursor on. */
    var rest: Tokens

    constructor (tokens: Tokens)
      ensures rest == tokens
    {
      rest := tokens;
    }

    // ---- the cursor

    method Check(token: Token) returns (taken: bool)
      modifies this
      ensures taken <==> Starts(old(rest), token)
      ensures rest == if taken then old(rest)[1..] else old(rest)
    {
      taken := rest != [] && rest[0] == token;
      if taken {
        rest := rest[1..];
      }
    }

    method CheckOp(view: string) returns (taken: bool)
      modifies this
      ensures taken <==> Starts(old(rest), Oper(view))
      ensures rest == if taken then old(rest)[1..] else old(rest)
    {
      taken := Check(Oper(view));
    }

    method CheckKeyword(view: string) returns (taken: bool)
      modifies this
      ensures taken <==> Starts(old(rest), Keyword(view))
      ensures rest == if taken then old(rest)[1..] else old(rest)
    {
      taken := Check(Keyword(view));
    }

    method ExpectID() returns (name: Option<string>)
      modifies this
      ensures name == if old(rest) != [] && old(rest)[0].Identifier? then Some(old(rest)[0].id) else None
      ensures rest == if name.Some? then old(rest)[1..] else old(rest)
    {
      name := None;
      if rest != [] && rest[0].Identifier? {
        name := Some(rest[0].id);
        rest := rest[1..];
      }
    }

    /** Whether `a` was found; `None` if neither was. */
    method ExpectEitherOp(a: string, b: string) returns (found: Option<bool>)
      modifies this
      ensures found == if Starts(old(rest), Oper(a)) then Some(true) else if Starts(old(rest), Oper(b)) then Some(false) else None
      ensures rest == if found.Some? then old(rest)[1..] else old(rest)
    {
      var taken := CheckOp(a);
      if taken {
        return Some(true);
      }
      taken := CheckOp(b);
      found := if taken then Some(false) else None;
    }

    // ---- types

    method ParseType() returns (r: Outcome<Type>)
      modifies this
      ensures Matches(r, old(rest), rest, Syntax.ParseType(old(rest)))
      decreases |rest|, 1
    {
      var taken := CheckKeyword("func");
      if taken {
        r := ParseFuncType();
        return;
      }
      taken := CheckOp("[");
      if taken {
        var elem := ParseType();
        if !elem.Found? {
          return Failed;
        }
        taken := CheckOp("]");
        return if taken then Found(ArrayType(elem.node)) else Failed;
      }
      if rest != [] && rest[0].Identifier? {
        var name := ExpectID();
        return Found(NamedType(name.value));
      }
      taken := CheckKeyword("struct");
      if taken {
        r := ParseStructType();
        return;
      }
      return Missing;
    }

    /** Behind the keyword. */
    method ParseFuncType() returns (r: Outcome<Type>)
      modifies this
      ensures Matches(r, old(rest), rest, Syntax.ParseFuncType(old(rest)))
      decreases |rest|, 2
    {
      var taken := CheckOp("(");
      if !taken {
        return Failed;
      }
      var params := ParseParams();
      if !params.Found? {
        return Failed;
      }
      taken := CheckOp("->");
      if taken {
        var ret := ParseType();
        return if ret.Found? then Found(FuncType(params.node, Some(ret.node))) else Failed;
      }
      return Found(FuncType(params.node, None));
    }

    /** Behind the opening parenthesis. */
    method ParseParams() returns (r: Outcome<seq<ParamType>>)
      modifies this
      ensures Matches(r, old(rest), rest, if Starts(old(rest), Oper(")")) then Node([], old(rest)[1..]) else Syntax.ParseParams(old(rest)))
      decreases |rest|, 3
    {
      ghost var expected := Syntax.ParseParams(rest);
      var taken := CheckOp(")");
      if taken {
        return Found([]);
      }
      var params := [];
      var more := true;
      NothingDone(expected);
      while more
        invariant |rest| <= |old(rest)|
        invariant more ==> Append(params, Syntax.ParseParams(rest)) == expected
        invariant !more ==> expected == Node(params, rest)
        decreases |rest|, more
      {
        ghost var before := rest;
        var ref := CheckKeyword("ref");
        var t := ParseType();
        if !t.Found? {
          return Failed;
        }
        ghost var done := params;
        params := params + [ParamType(ref, t.node)];
        var either := ExpectEitherOp(",", ")");
        if either.None? {
          return Failed;
        }
        more := either.value;
        if more {
          Joined(done, ParamType(ref, t.node), Syntax.ParseParams(rest));
        }
      }
      return Found(params);
    }

    /** Behind the keyword. */
    method ParseStructType() returns (r: Outcome<Type>)
      modifies this
      ensures Matches(r, old(rest), rest, Syntax.ParseStructType(old(rest)))
      decreases |rest|, 2
    {
      var taken := CheckOp("{");
      if !taken {
        return Failed;
      }
      ghost var expected := Syntax.ParseFields(rest);
      var fields := [];
      NothingDone(expected);
      var last := CheckOp("}");
      while !last
        invariant |rest| < |old(rest)|
        invariant !last ==> Append(fields, Syntax.ParseFields(rest)) == expected && !Starts(rest, Oper("}"))
        invariant last ==> expected == Node(fields, rest)
        decreases |rest|, !last
      {
        var field := ParseStructMember();
        if !field.Found? {
          return Failed;
        }
        Joined(fields, field.node, Syntax.ParseFields(rest));
        fields := fields + [field.node];
        last := CheckOp("}");
        assert fields + [] == fields;
      }
      return Found(StructType(fields));
    }

    method ParseStructMember() returns (r: Outcome<Field>)
      modifies this
      ensures Matches(r, old(rest), rest, Syntax.ParseField(old(rest)))
      decreases |rest|, 1
    {
      var name := ExpectID();
      if name.None? {
        return Failed;
      }
      var taken := CheckOp(":");
      if !taken {
        return Failed;
      }
      assert rest == old(rest)[2..];
      var t := ParseType();
      if !t.Found? {
        return Failed;
      }
      taken := CheckOp(";");
      return if taken then Found(Field(name.value, t.node)) else Failed;
    }

    // ---- expressions

    method ParseExpr() returns (r: Outcome<Expr>)
      modifies this
      ensures Matches(r, old(rest), rest, Syntax.ParseExpr(old(rest)))
      decreases |rest|, 16
    {
      r := ParseTern();
    }

    method ParseTerm() returns (r: Outcome<Expr>)
      modifies this
      ensures Matches(r, old(rest), rest, Syntax.ParseTerm(old(rest)))
      decreases |rest|, 0
    {
      var taken := CheckOp("(");
      if taken {
        r := ParseExpr();
        if !r.Found? {
          return Failed;
        }
        taken := CheckOp(")");
        return if taken then r else Failed;
      }
      if rest != [] && rest[0].Identifier? {
        var name := ExpectID();
        return Found(Ident(name.value));
      }
      r := ParseLitr();
    }

    method ParseLitr() returns (r: Outcome<Expr>)
      requires !Starts(rest, Oper("(")) && (rest != [] ==> !rest[0].Identifier?)
      modifies this
      ensures Matches(r, old(rest), rest, Syntax.ParseTerm(old(rest)))
      decreases |rest|, 0, 0
    {
      if rest == [] {
        return Missing;
      }
      var token := rest[0];
      if token.String? || token.Character? || token.Number? {
        rest := rest[1..];
        return Found(if token.String? then StringLiteral(Trim(token.str))
                     else if token.Character? then CharLiteral(Trim(token.chr)) else NumberLiteral(token.num));
      }
      var taken := CheckKeyword("true");
      if taken {
        return Found(BoolLiteral(true));
      }
      taken := CheckKeyword("false");
      if taken {
        return Found(BoolLiteral(false));
      }
      taken := CheckOp("[");
      if taken {
        var elems := ParseExprList("]");
        return if elems.Found? then Found(ArrayLiteral(elems.node)) else Failed;
      }
      taken := CheckOp("{");
      if taken {
        var inits := ParseExprList("}");
        return if inits.Found? then Found(InitList(inits.node)) else Failed;
      }
      return Missing;
    }

    method ParseNested() returns (r: Outcome<Expr>)
      modifies this
      ensures Matches(r, old(rest), rest, Syntax.ParseNested(old(rest)))
      decreases |rest|, 1
    {
      ghost var expected := Syntax.ParseNested(rest);
      r := ParseTerm();
      if !r.Found? {
        return;
      }
      var lhs := r.node;
      while true
        invariant |rest| < |old(rest)|
        invariant NestedLoop(lhs, rest) == expected
        decreases |rest|
      {
        var taken := CheckOp("(");
        if taken {
          var args := ParseExprList(")");
          if !args.Found? {
            return Failed;
          }
          lhs := FuncCall(lhs, args.node);
          continue;
        }
        taken := CheckOp("[");
        if taken {
          var index := ParseExpr();
          if !index.Found? {
            return Failed;
          }
          taken := CheckOp("]");
          if !taken {
            return Failed;
          }
          lhs := Subscript(lhs, index.node);
          continue;
        }
        ghost var before := rest;
        taken := CheckOp(".");
        if taken {
          var member := ExpectID();
          if member.None? {
            return Failed;
          }
          assert rest == before[2..] && before[1] == before[1..][0];
          lhs := MemberIdent(lhs, member.value);
          continue;
        }
        return Found(lhs);
      }
    }

    method ParseUnary() returns (r: Outcome<Expr>)
      modifies this
      ensures Matches(r, old(rest), rest, Syntax.ParseUnary(old(rest)))
      decreases |rest|, 2
    {
      var oper := None;
      var taken := CheckOp("-");
      if taken {
        oper := Some(Neg);
      } else {
        taken := CheckOp("!");
        if taken {
          oper := Some(BoolNot);
        } else {
          taken := CheckOp("~");
          if taken {
            oper := Some(BitNot);
          }
        }
      }
      assert oper == TakesUnary(old(rest));
      if oper.Some? {
        r := ParseUnary();
        return if r.Found? then Found(Unary(oper.value, r.node)) else Failed;
      }
      taken := CheckKeyword("make");
      if taken {
        var t := ParseType();
        if !t.Found? {
          return Failed;
        }
        r := ParseUnary();
        return if r.Found? then Found(Make(t.node, r.node)) else Failed;
      }
      r := ParseNested();
    }

    /** Takes the first of the operators that a level looks for. */
    method CheckBinOp(l: nat) returns (op: Option<BinOp>)
      modifies this
      ensures op == TakesOp(l, old(rest))
      ensures rest == if op.Some? then old(rest)[1..] else old(rest)
    {
      var ops := LevelOps(l);
      var i := 0;
      while i < |ops|
        invariant i <= |ops| && rest == old(rest)
        invariant forall j: nat :: j < i ==> !Starts(rest, Oper(OpText(ops[j])))
      {
        var taken := CheckOp(OpText(ops[i]));
        if taken {
          TakesListed(l, old(rest), i);
          return Some(ops[i]);
        }
        i := i + 1;
      }
      TakesNone(l, rest);
      return None;
    }

    /** A level with left-associative operators, from `BOOL_OR` to `MUL`. */
    method ParseBin(l: nat) returns (r: Outcome<Expr>)
      requires BOOL_OR <= l <= MUL
      modifies this
      ensures Matches(r, old(rest), rest, ParseLevel(l, old(rest)))
      decreases |rest|, 15 - l, 0
    {
      ghost var expected := ParseLevel(l, rest);
      r := ParseLower(l + 1);
      if !r.Found? {
        return;
      }
      var lhs := r.node;
      while true
        invariant |rest| < |old(rest)|
        invariant BinLoop(l, lhs, rest) == expected
        decreases |rest|
      {
        var op := CheckBinOp(l);
        if op.None? {
          return Found(lhs);
        }
        var rhs := ParseLower(l + 1);
        if !rhs.Found? {
          return Failed;
        }
        lhs := Binary(op.value, lhs, rhs.node);
      }
    }

    method ParseLower(l: nat) returns (r: Outcome<Expr>)
      requires BOOL_OR <= l <= UNARY
      modifies this
      ensures Matches(r, old(rest), rest, ParseLevel(l, old(rest)))
      decreases |rest|, 15 - l, 1
    {
      if l == UNARY {
        r := ParseUnary();
      } else {
        r := ParseBin(l);
      }
    }

    method ParseTern() returns (r: Outcome<Expr>)
      modifies this
      ensures Matches(r, old(rest), rest, ParseLevel(TERN, old(rest)))
      decreases |rest|, 15
    {
      r := ParseBin(BOOL_OR);
      if !r.Found? {
        return;
      }
      var taken := CheckOp("?");
      if taken {
        var troo := ParseTern();
        if !troo.Found? {
          return Failed;
        }
        taken := CheckOp(":");
        if !taken {
          return Failed;
        }
        var fols := ParseTern();
        return if fols.Found? then Found(Ternary(r.node, troo.node, fols.node)) else Failed;
      }
    }

    /** Expressions separated by commas, up to and with `end`. */
    method ParseExprList(end: string) returns (r: Outcome<seq<Expr>>)
      requires end != ","
      modifies this
      ensures Matches(r, old(rest), rest, Syntax.ParseExprList(old(rest), end))
      decreases |rest|, 18
    {
      ghost var expected := ParseExprs(rest, end);
      var taken := CheckOp(end);
      if taken {
        return Found([]);
      }
      var exprs := [];
      var more := true;
      NothingDone(expected);
      while more
        invariant |rest| <= |old(rest)|
        invariant more ==> Append(exprs, ParseExprs(rest, end)) == expected
        invariant !more ==> expected == Node(exprs, rest)
        decreases |rest|, more
      {
        var e := ParseExpr();
        if !e.Found? {
          return Failed;
        }
        ghost var done := exprs;
        exprs := exprs + [e.node];
        var either := ExpectEitherOp(",", end);
        if either.None? {
          return Failed;
        }
        more := either.value;
        if more {
          Joined(done, e.node, ParseExprs(rest, end));
        }
      }
      return Found(exprs);
    }
  }

  lemma NothingDone<T>(p: Parsed<seq<T>>)
    ensures Append([], p) == p
  {
    if p.Node? {
      assert [] + p.node == p.node;
    }
  }

  lemma Joined<T>(done: seq<T>, node: T, p: Parsed<seq<T>>)
    ensures Append(done, Append([node], p)) == Append(done + [node], p)
  {
    if p.Node? {
      assert done + ([node] + p.node) == done + [node] + p.node;
    }
  }

  /** The operators of a level, in the order in which they are looked for. */
  function LevelOps(l: nat): seq<BinOp> {
    if l == BOOL_OR then [BoolOr]
    else if l == BOOL_AND then [BoolAnd]
    else if l == EQ then [Eq, Ne]
    else if l == REL then [Lt, Le, Gt, Ge]
    else if l == BIT_OR then [BitOr]
    else if l == BIT_XOR then [BitXor]
    else if l == BIT_AND then [BitAnd]
    else if l == SHIFT then [BitShl, BitShr]
    else if l == ADD then [Add, Sub]
    else if l == MUL then [Mul, Div, Mod]
    else []
  }

  lemma TakesListed(l: nat, ts: Tokens, i: nat)
    requires i < |LevelOps(l)| && Starts(ts, Oper(OpText(LevelOps(l)[i])))
    ensures TakesOp(l, ts) == Some(LevelOps(l)[i])
  {
  }

  lemma TakesNone(l: nat, ts: Tokens)
    requires forall j: nat :: j < |LevelOps(l)| ==> !Starts(ts, Oper(OpText(LevelOps(l)[j])))
    ensures TakesOp(l, ts) == None
  {
    var ops := LevelOps(l);
    assert |ops| > 0 ==> !Starts(ts, Oper(OpText(ops[0])));
    assert |ops| > 1 ==> !Starts(ts, Oper(OpText(ops[1])));
    assert |ops| > 2 ==> !Starts(ts, Oper(OpText(ops[2])));
    assert |ops| > 3 ==> !Starts(ts, Oper(OpText(ops[3])));
  }
}
