/** Code generation for statements: the visitor that keeps a stack of scopes, the
    targets of break and continue, and the block that is being written. */
module StatGen {
  import opened Wrappers
  import opened Lives
  import opened ExprSem
  import ExprGen
  import opened StatSem
  import opened StatWritten
  import opened StatProof
  import opened StatCompile
  import opened StatShape
  import opened StatRight
  import opened StatCount
  import opened StatReach
  import opened StatFunction

  class Visitor {
    var blocks: Code
    var curr: nat
    var flow: Flow
    var scopes: Scopes

    ghost predicate Valid() reads this {
      curr < |blocks| && scopes != [] && flow.scopeIndex < |scopes|
    }

    /** A function starts with an entry block, which only makes room for variables. */
    constructor ()
      ensures blocks == [[Br(1)], []] && curr == 1 && scopes == [] && flow == Flow(None, None, 0)
    {
      blocks, curr, scopes, flow := [[Br(1)], []], 1, [], Flow(None, None, 0);
    }

    // ---- the function builder

    method MakeBlock() returns (b: nat)
      modifies this`blocks
      ensures b == |old(blocks)| && blocks == old(blocks) + [[]]
    {
      b := |blocks|;
      blocks := blocks + [[]];
    }

    method MakeBlocks(count: nat) returns (made: seq<nat>)
      modifies this`blocks
      ensures made == Range(|old(blocks)|, count) && blocks == old(blocks) + Fresh(count)
    {
      made := [];
      while |made| < count
        invariant |made| <= count && made == Range(|old(blocks)|, |made|)
        invariant blocks == old(blocks) + Fresh(|made|)
      {
        var b := MakeBlock();
        made := made + [b];
      }
    }

    method SetCurr(block: nat)
      modifies this`curr
      ensures curr == block
    {
      curr := block;
    }

    method Append(code: seq<Instr>)
      requires curr < |blocks|
      modifies this`blocks
      ensures blocks == Put(old(blocks), curr, code)
    {
      blocks := blocks[curr := blocks[curr] + code];
    }

    method Link(from: nat, to: nat)
      requires from < |blocks|
      modifies this`blocks
      ensures blocks == Put(old(blocks), from, [Br(to)])
    {
      blocks := blocks[from := blocks[from] + [Br(to)]];
    }

    method NextEmpty() returns (next: nat)
      requires curr < |blocks|
      modifies this`blocks
      ensures LoopStarts(old(blocks), curr, blocks, next)
    {
      if blocks[curr] == [] {
        next := curr;
      } else {
        next := MakeBlock();
        Append([Br(next)]);
      }
    }

    method Terminate(dest: nat)
      requires curr < |blocks|
      modifies this`blocks
      ensures Ended(old(blocks), curr, Some(dest), blocks, Some(dest))
    {
      if blocks[curr] == [] || !IsTerminator(blocks[curr][|blocks[curr]| - 1]) {
        Append([Br(dest)]);
      }
    }

    method TerminateLazy(dest: Option<nat>) returns (done: Option<nat>)
      requires curr < |blocks|
      modifies this`blocks
      ensures Ended(old(blocks), curr, dest, blocks, done)
    {
      done := dest;
      if blocks[curr] == [] || !IsTerminator(blocks[curr][|blocks[curr]| - 1]) {
        if done.None? {
          var b := MakeBlock();
          done := Some(b);
        }
        Append([Br(done.value)]);
      }
    }

    // ---- scopes

    method EnterScope() returns (index: nat)
      modifies this`scopes
      ensures index == |old(scopes)| && scopes == old(scopes) + [[]]
    {
      index := |scopes|;
      scopes := scopes + [[]];
    }

    method LeaveScope()
      requires scopes != []
      modifies this`scopes
      ensures scopes == old(scopes)[..|old(scopes)| - 1]
    {
      scopes := scopes[..|scopes| - 1];
    }

    method PushObj(x: Obj)
      requires scopes != []
      modifies this`scopes
      ensures scopes == Push(old(scopes), [x])
    {
      scopes := scopes[|scopes| - 1 := scopes[|scopes| - 1] + [x]];
    }

    /** Destroys the objects of the scopes from the innermost out to `index`; the
        compile-time stack stays as it is. */
    method Destroy(index: nat)
      requires curr < |blocks| && index <= |scopes|
      modifies this`blocks
      ensures blocks == Put(old(blocks), curr, Emit(Drop(scopes, index)))
    {
      hide Put, Emit, Dtors, Drop;
      var i := |scopes|;
      ghost var done: seq<Event> := [];
      PutTwice(blocks, curr, [], []);
      EmitNothing();
      assert scopes[..i] == scopes;
      while i > index
        invariant index <= i <= |scopes|
        invariant blocks == Put(old(blocks), curr, Emit(done))
        invariant Drop(scopes, index) == done + Drop(scopes[..i], index)
      {
        i := i - 1;
        DropNext(scopes, i, index);
        DestroyObjs(scopes[i]);
        PutTwice(old(blocks), curr, Emit(done), Emit(Dtors(scopes[i])));
        EmitThen(done, Dtors(scopes[i]));
        assert done + Dtors(scopes[i]) + Drop(scopes[..i], index) == done + (Dtors(scopes[i]) + Drop(scopes[..i], index));
        done := done + Dtors(scopes[i]);
      }
      DropNone(scopes, index);
      assert done + [] == done;
    }

    /** Destroys objects in reverse order. */
    method DestroyObjs(objs: Objs)
      requires curr < |blocks|
      modifies this`blocks
      ensures blocks == Put(old(blocks), curr, Emit(Dtors(objs)))
    {
      var j := |objs|;
      ghost var done: seq<Event> := [];
      PutTwice(blocks, curr, [], []);
      assert Emit(done) == [];
      while j > 0
        invariant 0 <= j <= |objs|
        invariant blocks == Put(old(blocks), curr, Emit(done))
        invariant done == Dtors(objs)[..|objs| - j]
      {
        j := j - 1;
        Append([Do(Dtor(objs[j]))]);
        PutTwice(old(blocks), curr, Emit(done), [Do(Dtor(objs[j]))]);
        assert Emit(done + [Dtor(objs[j])]) == Emit(done) + [Do(Dtor(objs[j]))];
        done := done + [Dtor(objs[j])];
      }
      assert Dtors(objs)[..|objs|] == Dtors(objs);
    }

    // ---- expressions

    /** An expression is generated by the visitor of expressions, which registers its
        temporaries with the innermost scope, whether or not what makes them is always
        evaluated. */
    method GenExpr(e: Expr, keep: bool)
      requires curr < |blocks| && scopes != []
      modifies this`blocks, this`scopes
      ensures blocks == Put(old(blocks), curr, [Calc(e, keep)])
      ensures scopes == Push(old(scopes), TempsOf(e))
    {
      var _, _, temps := ExprGen.GenerateExpr(e);
      Append([Calc(e, keep)]);
      var i := 0;
      PushTwice(scopes, [], []);
      while i < |temps|
        invariant i <= |temps| && scopes != [] && scopes == Push(old(scopes), temps[..i])
        invariant blocks == Put(old(blocks), curr, [Calc(e, keep)])
      {
        PushObj(temps[i]);
        PushTwice(old(scopes), temps[..i], [temps[i]]);
        assert temps[..i + 1] == temps[..i] + [temps[i]];
        i := i + 1;
      }
      assert temps[..|temps|] == temps;
    }

    /** An expression whose temporaries end with the statement; what the statement does
        with its value is done before that. */
    method EvalExpr(w: Work, keep: bool)
      requires curr < |blocks|
      modifies this`blocks, this`scopes
      ensures scopes == old(scopes)
      ensures blocks == Put(old(blocks), curr, Piece(w.expr, keep, Tail(w)))
    {
      hide Put, Emit, TempsOf, Dtors;
      ghost var c, objs := blocks, TempsOf(w.expr);
      var exprScope := EnterScope();
      GenExpr(w.expr, keep);
      DropScope(old(scopes), objs, |old(scopes)|);
      AppendEvents(w.act);
      DestroyObjs(w.slot);
      assert Dtors(objs) + [] == Dtors(objs);
      Destroy(exprScope);
      LeaveScope();
      assert scopes == old(scopes);
      WorkCode(c, curr, w, keep);
    }

    method AppendEvents(evs: seq<Event>)
      requires curr < |blocks|
      modifies this`blocks
      ensures blocks == Put(old(blocks), curr, Emit(evs))
    {
      var i := 0;
      PutTwice(blocks, curr, [], []);
      assert Emit(evs[..0]) == [];
      while i < |evs|
        invariant i <= |evs| && blocks == Put(old(blocks), curr, Emit(evs[..i]))
      {
        Append([Do(evs[i])]);
        PutTwice(old(blocks), curr, Emit(evs[..i]), [Do(evs[i])]);
        assert Emit(evs[..i + 1]) == Emit(evs[..i]) + [Do(evs[i])];
        i := i + 1;
      }
      assert evs[..|evs|] == evs;
    }

    method GenCondBr(w: Work, troo: nat, fols: nat)
      requires curr < |blocks|
      modifies this`blocks, this`scopes
      ensures scopes == old(scopes)
      ensures blocks == Put(old(blocks), curr, CondCode(w, troo, fols))
    {
      hide Piece;
      EvalExpr(w, true);
      Append([CondBr(troo, fols)]);
      PutTwice(old(blocks), curr, Piece(w.expr, true, Tail(w)), [CondBr(troo, fols)]);
    }

    // ---- statements

    method Visit(s: Stmt)
      requires Valid() && Legal(s, flow.breakBlock.Some?, flow.continueBlock.Some?)
      modifies this
      ensures Valid() && flow == old(flow) && scopes == Push(old(scopes), Pushed(s))
      ensures Compiled(s, old(scopes), flow, old(blocks), old(curr), blocks, curr) && Shaped(s, old(blocks), old(curr), blocks, curr)
      decreases s, 1
    {
      match s
      case Block(_, _) => VisitBlock(s);
      case If(_, _, _) => VisitIf(s);
      case Switch(_, _, _) => VisitSwitch(s);
      case Break => VisitBreak(s);
      case Continue => VisitContinue(s);
      case Return(_) => VisitReturn(s);
      case While(_, _) => VisitWhile(s);
      case For(_, _, _, _) => VisitFor(s);
      case Plain(_) => VisitPlain(s);
    }

    method VisitFlow(body: Stmt, newFlow: Flow)
      requires curr < |blocks| && scopes != [] && newFlow.scopeIndex < |scopes|
      requires Legal(body, newFlow.breakBlock.Some?, newFlow.continueBlock.Some?)
      modifies this
      ensures flow == old(flow) && scopes == Push(old(scopes), Pushed(body))
      ensures Compiled(body, old(scopes), newFlow, old(blocks), old(curr), blocks, curr) && Shaped(body, old(blocks), old(curr), blocks, curr)
      decreases body, 2
    {
      var oldFlow := flow;
      flow := newFlow;
      Visit(body);
      flow := oldFlow;
    }

    method VisitBreak(s: Stmt)
      requires Valid() && s.Break? && flow.breakBlock.Some?
      modifies this
      ensures Valid() && flow == old(flow) && scopes == Push(old(scopes), Pushed(s))
      ensures Compiled(s, old(scopes), flow, old(blocks), old(curr), blocks, curr) && Shaped(s, old(blocks), old(curr), blocks, curr)
      decreases s, 0
    {
      ghost var c, code := blocks, Emit(Drop(scopes, flow.scopeIndex)) + [Br(flow.breakBlock.value)];
      Destroy(flow.scopeIndex);
      Append([Br(flow.breakBlock.value)]);
      PutTwice(c, curr, Emit(Drop(scopes, flow.scopeIndex)), [Br(flow.breakBlock.value)]);
      PutGrows(c, curr, code);
      PushTwice(scopes, [], []);
      JumpSim(blocks, s, scopes, flow, curr, |c[curr]|, flow.breakBlock.value, curr, |blocks[curr]|);
      StraightCode(Atom, false, Drop(scopes, flow.scopeIndex), None);
      PieceShaped(s, c, curr, Emit(Drop(scopes, flow.scopeIndex)), Some(Br(flow.breakBlock.value)));
    }

    method VisitContinue(s: Stmt)
      requires Valid() && s.Continue? && flow.continueBlock.Some?
      modifies this
      ensures Valid() && flow == old(flow) && scopes == Push(old(scopes), Pushed(s))
      ensures Compiled(s, old(scopes), flow, old(blocks), old(curr), blocks, curr) && Shaped(s, old(blocks), old(curr), blocks, curr)
      decreases s, 0
    {
      ghost var c, code := blocks, Emit(Drop(scopes, flow.scopeIndex)) + [Br(flow.continueBlock.value)];
      Destroy(flow.scopeIndex);
      Append([Br(flow.continueBlock.value)]);
      PutTwice(c, curr, Emit(Drop(scopes, flow.scopeIndex)), [Br(flow.continueBlock.value)]);
      PutGrows(c, curr, code);
      PushTwice(scopes, [], []);
      JumpSim(blocks, s, scopes, flow, curr, |c[curr]|, flow.continueBlock.value, curr, |blocks[curr]|);
      StraightCode(Atom, false, Drop(scopes, flow.scopeIndex), None);
      PieceShaped(s, c, curr, Emit(Drop(scopes, flow.scopeIndex)), Some(Br(flow.continueBlock.value)));
    }

    method VisitReturn(s: Stmt)
      requires Valid() && s.Return?
      modifies this
      ensures Valid() && flow == old(flow) && scopes == Push(old(scopes), Pushed(s))
      ensures Compiled(s, old(scopes), flow, old(blocks), old(curr), blocks, curr) && Shaped(s, old(blocks), old(curr), blocks, curr)
      decreases s, 0
    {
      hide Put, Emit, Drop, TempsOf;
      ghost var c, drop := blocks, Drop(Push(scopes, TempsOf(s.result)), 0);
      ghost var code := Piece(Given(s.result), false, drop);
      GivenMakes(s.result, YES);
      GenExpr(Given(s.result), false);
      Destroy(0);
      Append([Ret]);
      PutTwice(c, curr, [Calc(Given(s.result), false)], Emit(drop));
      PutTwice(c, curr, code, [Ret]);
      PutGrows(c, curr, code + [Ret]);
      ReturnSim(blocks, s, old(scopes), flow, curr, |c[curr]|, curr, |blocks[curr]|);
      StraightCode(Given(s.result), false, drop, None);
      PieceShaped(s, c, curr, code, Some(Ret));
    }

    /** The destructors of a declaration's temporaries run before its variable is
        registered. */
    method VisitPlain(s: Stmt)
      requires Valid() && s.Plain?
      modifies this
      ensures Valid() && flow == old(flow) && scopes == Push(old(scopes), Pushed(s))
      ensures Compiled(s, old(scopes), flow, old(blocks), old(curr), blocks, curr) && Shaped(s, old(blocks), old(curr), blocks, curr)
      decreases s, 0
    {
      hide OptCode;
      ghost var c, code := blocks, OptCode(Some(s.simple));
      PlainStep(s.simple);
      PutGrows(c, curr, code);
      PlainSim(blocks, s, old(scopes), flow, curr, |c[curr]|);
      StraightCode(Atom, false, [], Some(s.simple));
      OptCodeIs(s.simple);
      PieceShaped(s, c, curr, code, None);
      assert code + [] == code;
    }

    method PlainStep(simple: Simple)
      requires curr < |blocks| && scopes != []
      modifies this`blocks, this`scopes
      ensures scopes == Push(old(scopes), SimpleLocals(simple))
      ensures blocks == Put(old(blocks), curr, OptCode(Some(simple)))
    {
      EvalExpr(SimpleWork(simple), false);
      PushTwice(scopes, [], []);
      match simple
      case Declare(x, _) => PushObj(Local(x));
      case _ =>
    }

    method VisitBlock(s: Stmt)
      requires Valid() && s.Block? && Legal(s, flow.breakBlock.Some?, flow.continueBlock.Some?)
      modifies this
      ensures Valid() && flow == old(flow) && scopes == Push(old(scopes), Pushed(s))
      ensures Compiled(s, old(scopes), flow, old(blocks), old(curr), blocks, curr) && Shaped(s, old(blocks), old(curr), blocks, curr)
      decreases s, 0
    {
      hide Grew, Sim, SimSeq, Legal, Compiled, CompiledSeq, Shaped, ShapedSeq;
      ghost var c0, b0, outer := blocks, curr, scopes;
      var i := 0;
      BlockStarts(s, scopes, flow, blocks, curr);
      NoneShaped(blocks, curr);
      assert s.stats[..0] == [];
      var _ := EnterScope();
      while i < |s.stats|
        invariant i <= |s.stats| && Valid() && flow == old(flow) && outer != []
        invariant scopes == outer + [PushedAll(s.stats[..i])]
        invariant CompiledSeq(s, i, outer, flow, c0, b0, blocks, curr) && ShapedSeq(s.stats[..i], c0, b0, blocks, curr)
      {
        ghost var c1, b1 := blocks, curr;
        PartsLegal(s, i, flow.breakBlock.Some?, flow.continueBlock.Some?);
        Visit(s.stats[i]);
        SeqCompiled(s, i, outer, flow, c0, b0, c1, b1, blocks, curr);
        SeqMade(s, i, outer, flow, c0, b0, c1, b1, blocks, curr);
        DropScope(outer, PushedAll(s.stats[..i]), 0);
        i := i + 1;
      }
      ghost var c1 := blocks;
      assert s.stats[..|s.stats|] == s.stats;
      if s.terminate {
        Destroy(|scopes| - 1);
        DropScope(outer, PushedAll(s.stats), |outer|);
        assert Dtors(PushedAll(s.stats)) + [] == Dtors(PushedAll(s.stats));
      }
      BlockCompiled(s, outer, flow, c0, b0, c1, curr, blocks);
      BlockMade(s, outer, flow, c0, b0, c1, curr, blocks);
      LeaveScope();
      PushTwice(outer, [], []);
      assert scopes == outer;
    }

    method VisitIf(s: Stmt)
      requires Valid() && s.If? && Legal(s, flow.breakBlock.Some?, flow.continueBlock.Some?)
      modifies this
      ensures Valid() && flow == old(flow) && scopes == Push(old(scopes), Pushed(s))
      ensures Compiled(s, old(scopes), flow, old(blocks), old(curr), blocks, curr) && Shaped(s, old(blocks), old(curr), blocks, curr)
      decreases s, 0
    {
      hide Grew, Sim, Ended, Put, CondCode, Extends, Compiled, Shaped;
      ghost var c0, b0, outer := blocks, curr, scopes;
      var troo := MakeBlock();
      var fols := MakeBlock();
      assert blocks == c0 + [[], []];
      GenCondBr(Condition(s.cond), troo, fols);
      ghost var c1 := blocks;
      var done, c2 := VisitBranch(Some(s.body), troo, None, s);
      ghost var b2, c3, d3 := curr, blocks, done;
      ghost var c4;
      done, c4 := VisitBranch(s.elseBody, fols, done, s);
      ghost var b4 := curr;
      if done.Some? {
        SetCurr(done.value);
      }
      PushTwice(outer, Pushed(s.body), if s.elseBody.Some? then Pushed(s.elseBody.value) else []);
      IfCompiled(s, outer, flow, c0, b0, c1, c2, b2, c3, d3, c4, b4, blocks, done, curr);
      IfMade(s, outer, flow, c0, b0, c1, c2, b2, c3, d3, c4, b4, blocks, done, curr);
      CompiledGrew(s, outer, flow, c0, b0, blocks, curr);
    }

    /** One branch of an if, in a block of its own; `c` is the code before its end. */
    method VisitBranch(branch: Option<Stmt>, block: nat, before: Option<nat>, ghost s: Stmt) returns (done: Option<nat>, ghost c: Code)
      requires block < |blocks| && scopes != [] && flow.scopeIndex < |scopes|
      requires branch.Some? ==> branch.value < s && Legal(branch.value, flow.breakBlock.Some?, flow.continueBlock.Some?)
      modifies this
      ensures flow == old(flow) && scopes == Push(old(scopes), if branch.Some? then Pushed(branch.value) else [])
      ensures |old(blocks)| <= |c| <= |blocks| && curr < |c| && Ended(c, curr, before, blocks, done)
      ensures if branch.None? then c == old(blocks) && curr == block
              else Compiled(branch.value, old(scopes), flow, old(blocks), block, c, curr) && Shaped(branch.value, old(blocks), block, c, curr)
      decreases s, 0, 0
    {
      hide Grew, Sim, Ended, Compiled, Shaped;
      SetCurr(block);
      PushTwice(scopes, [], []);
      if branch.Some? {
        Visit(branch.value);
        CompiledGrew(branch.value, old(scopes), flow, old(blocks), block, blocks, curr);
      }
      c := blocks;
      done := TerminateLazy(before);
      EndedGoes(c, curr, before, blocks, done);
      GrewExtends(c, curr, blocks, curr);
    }

    method VisitWhile(s: Stmt)
      requires Valid() && s.While? && Legal(s, flow.breakBlock.Some?, flow.continueBlock.Some?)
      modifies this
      ensures Valid() && flow == old(flow) && scopes == Push(old(scopes), Pushed(s))
      ensures Compiled(s, old(scopes), flow, old(blocks), old(curr), blocks, curr) && Shaped(s, old(blocks), old(curr), blocks, curr)
      decreases s, 0
    {
      hide Grew, Sim, Ended, CondCode, Shaped;
      ghost var c0, b0, outer := blocks, curr, scopes;
      var cond := NextEmpty();
      ghost var c1 := blocks;
      var body := MakeBlock();
      var done := MakeBlock();
      assert blocks == c1 + Fresh(2);
      SetCurr(body);
      var scopeIndex := EnterScope();
      VisitFlow(s.wbody, Flow(Some(done), Some(cond), scopeIndex));
      ghost var c3, b3 := blocks, curr;
      PushTwice(outer, [], []);
      LeaveScope();
      assert scopes == outer;
      GrewExtends(c1 + Fresh(2), body, c3, b3);
      Terminate(cond);
      LoopShape(c0, b0, c1, cond, 2, c3, b3, cond, blocks);
      SetCurr(cond);
      WhileCompiled(s, outer, flow, c0, b0, c1, cond, c3, b3, blocks);
      WhileShaped(s, c0, b0, c1, cond, c3, b3, blocks);
      GenCondBr(Condition(s.wcond), body, done);
      SetCurr(done);
    }

    method VisitFor(s: Stmt)
      requires Valid() && s.For? && Legal(s, flow.breakBlock.Some?, flow.continueBlock.Some?)
      modifies this
      ensures Valid() && flow == old(flow) && scopes == Push(old(scopes), Pushed(s))
      ensures Compiled(s, old(scopes), flow, old(blocks), old(curr), blocks, curr) && Shaped(s, old(blocks), old(curr), blocks, curr)
      decreases s, 0
    {
      hide Grew, Sim, Ended, CondCode, OptCode, OptLocals, ForCode, LoopStarts, Has, Extends, GoesTo, Shaped, Put;
      ghost var c0, b0, outer := blocks, curr, scopes;
      var outerIndex, cond := OpenFor(s);
      ghost var c2 := blocks;
      var body := MakeBlock();
      var incr := MakeBlock();
      var done := MakeBlock();
      assert blocks == c2 + Fresh(3);
      SetCurr(body);
      var innerIndex := EnterScope();
      assert scopes == outer + [OptLocals(s.init), []];
      assert Legal(s.fbody, true, true);
      VisitFlow(s.fbody, Flow(Some(done), Some(incr), innerIndex));
      ghost var c3, b3 := blocks, curr;
      LeaveScope();
      assert scopes == outer + [OptLocals(s.init)];
      GrewExtends(c2 + Fresh(3), body, c3, b3);
      Terminate(incr);
      ghost var c4 := blocks;
      LoopShape(Put(c0, b0, OptCode(s.init)), b0, c2, cond, 3, c3, b3, incr, c4);
      CloseFor(s, cond, body, outerIndex);
      PushTwice(outer, [], []);
      ForCompiled(s, outer, flow, c0, b0, c2, cond, c3, b3, c4);
      ForShaped(s, c0, b0, c2, cond, c3, b3, c4);
    }

    /** The scope of a `for`, with what it declares, and the block of its condition. */
    method OpenFor(s: Stmt) returns (outerIndex: nat, cond: nat)
      requires s.For? && curr < |blocks|
      modifies this`blocks, this`scopes
      ensures outerIndex == |old(scopes)| && scopes == old(scopes) + [OptLocals(s.init)]
      ensures LoopStarts(Put(old(blocks), curr, OptCode(s.init)), curr, blocks, cond)
    {
      hide OptCode;
      outerIndex := EnterScope();
      if s.init.Some? {
        PlainStep(s.init.value);
      }
      DropScope(old(scopes), OptLocals(s.init), outerIndex);
      PutTwice(old(blocks), curr, [], []);
      NoCode();
      cond := NextEmpty();
    }

    /** The condition, the increment and the end of a `for`. What the increment
        declares is pushed onto the scope of the `for`. */
    method CloseFor(s: Stmt, cond: nat, body: nat, outerIndex: nat)
      requires s.For? && body + 2 < |blocks| && cond < |blocks|
      requires outerIndex + 1 == |scopes| && scopes[outerIndex] == OptLocals(s.init)
      modifies this
      ensures flow == old(flow) && scopes == old(scopes)[..outerIndex]
      ensures blocks == ForCode(s, body, cond, old(blocks)) && curr == body + 2
    {
      hide CondCode, OptCode, Emit, Drop, Dtors, SimpleLocals;
      var incr, done := body + 1, body + 2;
      SetCurr(cond);
      GenCondBr(Condition(s.fcond), body, done);
      ghost var c5 := blocks;
      SetCurr(incr);
      if s.incr.Some? {
        PlainStep(s.incr.value);
      }
      PutTwice(c5, incr, [], []);
      NoCode();
      assert blocks == Put(c5, incr, OptCode(s.incr));
      Append([Br(cond)]);
      PutTwice(c5, incr, OptCode(s.incr), [Br(cond)]);
      SetCurr(done);
      ghost var outer := old(scopes)[..outerIndex];
      PushTwice(old(scopes), [], []);
      assert old(scopes) == outer + [OptLocals(s.init)];
      assert scopes == Push(old(scopes), OptLocals(s.incr));
      ForScope(s, outer, old(scopes));
      assert scopes[..outerIndex] == outer;
      Destroy(outerIndex);
      LeaveScope();
    }

    method FindDefault(cases: seq<Case>) returns (d: nat)
      ensures d == DefaultIndex(cases)
    {
      d := 0;
      while d < |cases| && cases[d].test.Some?
        invariant d <= |cases| && d <= DefaultIndex(cases)
      {
        d := d + 1;
      }
    }

    method EmitCaseChecks(cases: seq<Case>, checks: seq<nat>, bodies: seq<nat>, done: nat, ghost first: nat, defaultIndex: nat)
      requires scopes != [] && |checks| == |bodies| == |cases| && checks == Range(first, |cases|) && first + |cases| <= |blocks|
      requires forall k: nat :: DefaultIndex(cases) < k < |cases| ==> cases[k].test.Some?
      requires forall b: nat :: first <= b < first + |cases| ==> blocks[b] == []
      requires defaultIndex == DefaultIndex(cases)
      modifies this`blocks, this`scopes, this`curr
      ensures scopes == old(scopes)
      ensures ChecksWritten(old(blocks), blocks, cases, |cases|, first, bodies, done)
    {
      hide ChecksWritten, CheckCode, Put, CondCode;
      ChecksNotWritten(blocks, cases, first, bodies, done);
      var c := 0;
      while c < |cases|
        invariant c <= |cases| && scopes == old(scopes) && |blocks| == |old(blocks)|
        invariant ChecksWritten(old(blocks), blocks, cases, c, first, bodies, done)
      {
        ChecksStep(old(blocks), blocks, cases, c, first, bodies, done);
        if cases[c].test.Some? {
          var pastDefault := defaultIndex < c;
          var checkIndex := if pastDefault then c - 1 else c;
          assert checkIndex == CheckIndex(cases, c);
          SetCurr(checks[checkIndex]);
          var nextCheck := done;
          if pastDefault || c != |cases| - 1 {
            nextCheck := checks[checkIndex + 1];
          }
          CheckCodeIs(cases, c, checks, bodies, done, nextCheck);
          GenCondBr(CaseTest(cases[c].test.value), bodies[c], nextCheck);
        }
        c := c + 1;
      }
    }

    method EmitCaseBodies(s: Stmt, bodies: seq<nat>, done: nat, ghost first: nat, scope: nat)
      requires s.Switch? && scopes != [] && scope == |scopes| && Legal(s, false, false)
      requires bodies == Range(first, |s.cases|) && first + |s.cases| <= |blocks|
      requires forall b: nat :: first <= b < first + |s.cases| ==> blocks[b] == []
      modifies this
      ensures scopes == old(scopes) && flow == old(flow)
      ensures CasesWritten(s, |s.cases|, scopes, first, done, old(blocks), blocks) && CasesShaped(s, |s.cases|, first, old(blocks), blocks)
      decreases s, 0, 0
    {
      hide Grew, Ended, CaseOk, Compiled, CasesWritten, Pushed, Shaped, CasesShaped;
      ghost var c0, outer := blocks, scopes;
      NoCasesWritten(s, scopes, first, done, blocks);
      NoCasesShaped(s, first, blocks);
      var c := 0;
      while c < |s.cases|
        invariant c <= |s.cases| && scopes == outer && flow == old(flow) && |c0| <= |blocks|
        invariant CasesWritten(s, c, outer, first, done, c0, blocks) && CasesShaped(s, c, first, c0, blocks)
      {
        ghost var c1 := blocks;
        SetCurr(bodies[c]);
        var _ := EnterScope();
        var next := if c == |s.cases| - 1 then None else Some(bodies[c + 1]);
        assert Flow(Some(done), next, scope) == CaseFlow(bodies, done, c, |outer|);
        VisitFlow(s.cases[c].cbody, Flow(Some(done), next, scope));
        ghost var c2 := blocks;
        CompiledGrew(s.cases[c].cbody, outer + [[]], Flow(Some(done), next, scope), c1, first + c, c2, curr);
        PushTwice(outer, [], []);
        LeaveScope();
        assert scopes == outer;
        Terminate(done);
        CaseBlock(s, c, outer, first, done, c0, c1);
        CasesStep(s, c, outer, first, done, c0, c1, c2, curr, blocks);
        CasesShapedStep(s, c, first, done, c0, c1, c2, curr, blocks);
        EndedGoes(c2, curr, Some(done), blocks, Some(done));
        GrewExtends(c2, curr, blocks, curr);
        c := c + 1;
      }
    }

    method VisitSwitch(s: Stmt)
      requires Valid() && s.Switch? && Legal(s, flow.breakBlock.Some?, flow.continueBlock.Some?)
      modifies this
      ensures Valid() && flow == old(flow) && scopes == Push(old(scopes), Pushed(s))
      ensures Compiled(s, old(scopes), flow, old(blocks), old(curr), blocks, curr) && Shaped(s, old(blocks), old(curr), blocks, curr)
      decreases s, 0, 2
    {
      hide Grew, Sim, Emit, TempsOf, Dtors, Put;
      ghost var c0, b0, outer, objs := blocks, curr, scopes, TempsOf(s.expr);
      var exprScope := EnterScope();
      GivenMakes(s.expr, YES);
      GenExpr(Given(s.expr), false);
      AppendEvents([Act]);
      PutTwice(c0, b0, [Calc(Given(s.expr), false)], Emit([Act]));
      DropScope(outer, objs, |outer|);
      assert Dtors(objs) + [] == Dtors(objs);
      PushTwice(outer, [], []);
      if s.cases == [] {
        ghost var tail := [Act] + Dtors(objs);
        Destroy(exprScope);
        EmptySwitchCode(s.expr);
        PutTwice(c0, b0, ValueCode(s.expr), Emit(Dtors(objs)));
        ghost var code := Piece(Given(s.expr), false, tail);
        PutGrows(c0, b0, code);
        PieceSize(Given(s.expr), false, tail);
        EmptySwitchSim(blocks, s, outer, flow, b0, |c0[b0]|, |blocks[b0]|);
        StraightCode(Given(s.expr), false, tail, None);
        PieceShaped(s, c0, b0, code, None);
        assert code + [] == code;
        LeaveScope();
        assert scopes == outer;
        return;
      }
      SwitchCases(s, exprScope, c0, b0, outer);
    }

    /** A switch with cases, once its value has been constructed. */
    method SwitchCases(s: Stmt, exprScope: nat, ghost c0: Code, ghost b0: nat, ghost outer: Scopes)
      requires s.Switch? && s.cases != [] && Legal(s, flow.breakBlock.Some?, flow.continueBlock.Some?)
      requires outer != [] && b0 < |c0| && exprScope == |outer| && scopes == outer + [TempsOf(s.expr)]
      requires curr == b0 && blocks == Put(c0, b0, ValueCode(s.expr))
      modifies this
      ensures flow == old(flow) && scopes == outer && curr < |blocks|
      ensures Compiled(s, outer, flow, c0, b0, blocks, curr) && Shaped(s, c0, b0, blocks, curr)
      decreases s, 0, 1
    {
      hide Grew, Sim, Emit, CasesWritten, ChecksReady, Compiled, ValueCode, TempsOf, Dtors, DefaultIndex, Put, Shaped, CasesShaped;
      var caseScope := |scopes|;
      var bodies, done := SwitchChecks(s, c0, b0);
      ghost var first, c5 := |c0| + |s.cases|, blocks;
      LegalAnywhere(s, flow.breakBlock.Some?, flow.continueBlock.Some?);
      ReadyBlocks(s, c0, b0, c5);
      EmitCaseBodies(s, bodies, done, first, caseScope);
      ghost var c6 := blocks;
      CasesSize(s, |s.cases|, outer + [TempsOf(s.expr)], first, done, c5, c6);
      SetCurr(done);
      if s.alwaysReturns {
        Append([Unreachable]);
      } else {
        DropScope(outer, TempsOf(s.expr), |outer|);
        assert Dtors(TempsOf(s.expr)) + [] == Dtors(TempsOf(s.expr));
        Destroy(exprScope);
      }
      LeaveScope();
      assert scopes == outer;
      SwitchCompiled(s, outer, flow, c0, b0, c5, c6, blocks);
      SwitchMade(s, outer + [TempsOf(s.expr)], c0, b0, c5, c6, blocks);
      CompiledGrew(s, outer, flow, c0, b0, blocks, curr);
    }

    method MakeSwitch(count: nat) returns (checks: seq<nat>, bodies: seq<nat>, done: nat)
      modifies this`blocks
      ensures checks == Range(|old(blocks)|, count) && bodies == Range(|old(blocks)| + count, count)
      ensures done == |old(blocks)| + 2 * count && blocks == old(blocks) + Fresh(2 * count + 1)
    {
      checks := MakeBlocks(count);
      bodies := MakeBlocks(count);
      done := MakeBlock();
    }

    /** The blocks of a switch, and the checks among them. */
    method SwitchChecks(s: Stmt, ghost c0: Code, ghost b0: nat) returns (bodies: seq<nat>, done: nat)
      requires s.Switch? && s.cases != [] && Legal(s, flow.breakBlock.Some?, flow.continueBlock.Some?)
      requires scopes != [] && b0 < |c0| && curr == b0 && blocks == Put(c0, b0, ValueCode(s.expr))
      modifies this`blocks, this`scopes, this`curr
      ensures scopes == old(scopes)
      ensures bodies == Range(|c0| + |s.cases|, |s.cases|) && done == |c0| + 2 * |s.cases|
      ensures ChecksReady(s, c0, b0, blocks)
    {
      hide ChecksWritten, ChecksOk, ValueCode, DefaultIndex, Fresh, Put;
      var checks;
      checks, bodies, done := MakeSwitch(|s.cases|);
      Append([Br(checks[0])]);
      ghost var c3 := blocks;
      assert c3 == SwitchStart(s, c0, b0);
      SwitchBlocks(s, c0, b0);
      var defaultIndex := FindDefault(s.cases);
      EmitCaseChecks(s.cases, checks, bodies, done, |c0|, defaultIndex);
      ghost var c4 := blocks;
      ChecksSize(c3, c4, s.cases, |s.cases|, |c0|, bodies, done);
      if defaultIndex < |s.cases| {
        Link(checks[|checks| - 1], bodies[defaultIndex]);
      }
      ChecksComplete(c3, c4, s.cases, |c0|, bodies, done, blocks);
    }
  }

  /** What a statement appends for its expression. */
  lemma WorkCode(c: Code, b: nat, w: Work, keep: bool)
    requires b < |c|
    ensures var objs := TempsOf(w.expr);
      Put(Put(Put(Put(c, b, [Calc(w.expr, keep)]), b, Emit(w.act)), b, Emit(Dtors(w.slot))), b, Emit(Dtors(objs))) ==
        Put(c, b, Piece(w.expr, keep, Tail(w)))
  {
    hide Put, TempsOf, Dtors, Emit;
    var head, x, y, z := [Calc(w.expr, keep)], w.act, Dtors(w.slot), Dtors(TempsOf(w.expr));
    PutTwice(c, b, head, Emit(x));
    PutTwice(c, b, head + Emit(x), Emit(y));
    PutTwice(c, b, head + Emit(x) + Emit(y), Emit(z));
    DtorsThen(TempsOf(w.expr), w.slot);
    EmitThen(y, z);
    EmitThen(x, y + z);
    assert head + Emit(x) + Emit(y) + Emit(z) == head + (Emit(x) + (Emit(y) + Emit(z)));
  }

  lemma DtorsThen(x: Objs, y: Objs)
    ensures Dtors(x + y) == Dtors(y) + Dtors(x)
  {
  }

  lemma OptCodeIs(s: Simple)
    ensures OptCode(Some(s)) != []
  {
  }

  lemma NoCode()
    ensures OptCode(None) == []
  {
  }

  lemma EmptySwitchCode(e: Expr)
    ensures Piece(Given(e), false, [Act] + Dtors(TempsOf(e))) == ValueCode(e) + Emit(Dtors(TempsOf(e)))
  {
    hide TempsOf, Dtors;
    EmitThen([Act], Dtors(TempsOf(e)));
  }

  // ---- functions

  /** The code of a function with these answers for its expressions: it returns, or
      waits for another outcome, having done what the statements say. */
  ghost predicate RunsLike(f: Code, r: Course, o: Answers) {
    exists c: Config :: Reaches(f, Run(0, 0, o, []), c) &&
      if r.out == Pending then Waiting(f, c) && c.trace == r.ev else c == Done(r.rest, r.ev + Dtors(r.locals))
  }

  /** The code does what was written: the run returns, waits, or stops at the end of a
      block or before an instruction that was to be unreachable. */
  ghost predicate RunsAs(f: Code, r: Ran, o: Answers) {
    exists c: Config :: Reaches(f, Run(0, 0, o, []), c) && Halts(f, c, r)
  }

  ghost predicate Halts(f: Code, c: Config, r: Ran) {
    match r.out
    case Returns => c == Done(r.rest, r.ev)
    case Pending => Waiting(f, c) && c.trace == r.ev
    case Stuck => Unreached(f, c) && c.trace == r.ev
    case Normal => c.Run? && c.blk < |f| && c.pc == |f[c.blk]| && c.trace == r.ev
    case _ => false
  }

  /** Every object was constructed before it was destroyed, in reverse order, and a
      run that has returned has destroyed them all. */
  ghost predicate Clean(f: Code, o: Answers) {
    exists c: Config :: Reaches(f, Run(0, 0, o, []), c) && Tidied(f, c)
  }

  ghost predicate Tidied(f: Code, c: Config) {
    || (c.Done? && Replay(c.trace, NOTHING) == Some(NOTHING))
    || (Waiting(f, c) && Replay(c.trace, NOTHING).Some?)
  }

  /** So what was written decides whether the run is clean. */
  lemma CleanIs(f: Code, r: Ran, o: Answers)
    requires RunsAs(f, r, o)
    ensures Clean(f, o) <==> CleanRun(r)
  {
    hide Reaches, Replay;
    var c: Config :| Reaches(f, Run(0, 0, o, []), c) && Halts(f, c, r);
    assert Tidied(f, c) <==> CleanRun(r);
    if Clean(f, o) {
      var d: Config :| Reaches(f, Run(0, 0, o, []), d) && Tidied(f, d);
      OneEnd(f, Run(0, 0, o, []), c, d);
    }
  }

  lemma LikeIs(f: Code, e: Course, r: Ran, o: Answers)
    requires RunsAs(f, r, o) && r.out == e.out && (e.out.Returns? || e.out.Pending?) && r.rest == e.rest && r.ev == LeaveScope(e).ev
    ensures RunsLike(f, e, o)
  {
    hide Reaches;
    var c: Config :| Reaches(f, Run(0, 0, o, []), c) && Halts(f, c, r);
  }

  lemma FunctionRuns(c0: Code, f: Code, stats: seq<Stmt>, b: nat, o: Answers)
    requires c0 == [[Br(1)], []]
    requires CompiledSeq(Block(stats, false), |stats|, [], Flow(None, None, 0), c0, 1, f, b)
    ensures RunsAs(f, FunctionRun(stats, o), o)
  {
    hide Reaches, DidSeq;
    var flow := Flow(None, None, 0);
    var outermost: Scopes := [];
    assert stats[..|stats|] == stats && outermost + [[]] == [[]];
    assert Extends(f, f);
    var r := FunctionRun(stats, o);
    assert Meets(f, 1, 0, o, [], r, flow, b, |f[b]|);
    var c: Config :| Reaches(f, Run(1, 0, o, []), c) && Arrives(f, c, r, [], flow, b, |f[b]|);
    assert [] + r.ev == r.ev;
    FunctionStarts(c0, f, b, o, c);
    assert Halts(f, c, r);
  }

  lemma FunctionStarts(c0: Code, f: Code, b: nat, o: Answers, c: Config)
    requires c0 == [[Br(1)], []] && Grew(c0, 1, f, b) && Reaches(f, Run(1, 0, o, []), c)
    ensures Reaches(f, Run(0, 0, o, []), c)
  {
    assert f[0] == c0[0] == [Br(1)];
    ReachesStep(f, Run(0, 0, o, []));
    ReachesThen(f, Run(0, 0, o, []), Run(1, 0, o, []), c);
  }

  /** The blocks of a function are valid exactly if nothing was written behind a
      terminator, and the last block is closed. */
  lemma FunctionShaped(c0: Code, f: Code, stats: seq<Stmt>, b: nat)
    requires c0 == [[Br(1)], []] && Grew(c0, 1, f, b) && ShapedSeq(stats, c0, 1, f, b)
    ensures (forall k: nat :: k < |f| ==> OneTerminator(f[k])) <==> FormedSeq(stats, false) && ClosedSeq(stats, false)
  {
    hide FormedSeq, ClosedSeq;
    assert f[0] == [Br(1)];
    ClosedIs(f[b]);
    if !FormedSeq(stats, false) {
      var k: nat :| k < |f| && (k == 1 || k >= |c0|) && !Proper(f[k]);
      ClosedIs(f[k]);
    }
  }

  lemma FunctionClean(c0: Code, f: Code, stats: seq<Stmt>, b: nat)
    requires c0 == [[Br(1)], []] && LegalSeq(stats)
    requires CompiledSeq(Block(stats, false), |stats|, [], Flow(None, None, 0), c0, 1, f, b)
    ensures forall o: Answers :: RunsAs(f, FunctionRun(stats, o), o)
    ensures Right(stats) ==> forall o: Answers :: RunsLike(f, ExecSeq(stats, o), o) && Clean(f, o)
    ensures Distinct(stats) ==> ((forall o: Answers :: Clean(f, o)) <==> Right(stats))
  {
    hide RunsAs, RunsLike, Clean, CleanRun, CompiledSeq, Right, Distinct, LegalSeq, FunctionRun, ExecSeq;
    forall o: Answers
      ensures RunsAs(f, FunctionRun(stats, o), o) && (Clean(f, o) <==> CleanRun(FunctionRun(stats, o)))
      ensures Right(stats) ==> RunsLike(f, ExecSeq(stats, o), o) && Clean(f, o)
    {
      FunctionRuns(c0, f, stats, b, o);
      CleanIs(f, FunctionRun(stats, o), o);
      if Right(stats) {
        RightRuns(stats, o);
        LikeIs(f, ExecSeq(stats, o), FunctionRun(stats, o), o);
      }
    }
    if Distinct(stats) {
      RightDecides(stats);
    }
  }

  /** The code of a function: its statements in the scope of its parameters. */
  method GenerateStat(stats: seq<Stmt>) returns (f: Code)
    requires LegalSeq(stats)
    ensures forall o: Answers :: RunsAs(f, FunctionRun(stats, o), o)
    ensures Right(stats) ==> forall o: Answers :: RunsLike(f, ExecSeq(stats, o), o) && Clean(f, o)
    ensures Distinct(stats) ==> ((forall o: Answers :: Clean(f, o)) <==> Right(stats))
    ensures (forall b: nat :: b < |f| ==> OneTerminator(f[b])) <==> FormedSeq(stats, false) && ClosedSeq(stats, false)
  {
    hide Compiled, CompiledSeq, Shaped, ShapedSeq, PushedAll, Pushed, Clean, RunsLike, RunsAs, Right, Distinct, Legal, FormedSeq, ClosedSeq;
    ghost var s, flow, c0: Code := Block(stats, false), Flow(None, None, 0), [[Br(1)], []];
    ghost var outer: Scopes := [];
    var v := new Visitor();
    var _ := v.EnterScope();
    BlockStarts(s, outer, flow, c0, 1);
    NoneShaped(c0, 1);
    assert [PushedAll(stats[..0])] == [[]] && stats[..0] == [];
    var i := 0;
    while i < |stats|
      invariant i <= |stats| && v.Valid() && v.flow == flow && fresh(v)
      invariant v.scopes == [PushedAll(stats[..i])]
      invariant CompiledSeq(s, i, outer, flow, c0, 1, v.blocks, v.curr) && ShapedSeq(stats[..i], c0, 1, v.blocks, v.curr)
    {
      ghost var c1, b1 := v.blocks, v.curr;
      assert Legal(stats[i], false, false);
      v.Visit(stats[i]);
      assert outer + [PushedAll(stats[..i])] == [PushedAll(stats[..i])];
      SeqCompiled(s, i, outer, flow, c0, 1, c1, b1, v.blocks, v.curr);
      SeqMade(s, i, outer, flow, c0, 1, c1, b1, v.blocks, v.curr);
      i := i + 1;
    }
    v.LeaveScope();
    f := v.blocks;
    assert stats[..|stats|] == stats;
    FunctionClean(c0, f, stats, v.curr);
    FunctionMade(c0, f, stats, v.curr);
  }

  lemma FunctionMade(c0: Code, f: Code, stats: seq<Stmt>, b: nat)
    requires c0 == [[Br(1)], []] && ShapedSeq(stats, c0, 1, f, b)
    requires CompiledSeq(Block(stats, false), |stats|, [], Flow(None, None, 0), c0, 1, f, b)
    ensures (forall k: nat :: k < |f| ==> OneTerminator(f[k])) <==> FormedSeq(stats, false) && ClosedSeq(stats, false)
  {
    hide ShapedSeq, SimSeq, Grew, OneTerminator;
    FunctionShaped(c0, f, stats, b);
  }

  /** A body of a loop that may continue, and breaks at its end. The analysis of missing
      returns takes it for one that may go on and appends a Terminate node behind the
      break, whose destructors are then written behind a terminator. */
  function BodyThatBreaks(x: nat): Stmt {
    Block([Plain(Declare(x, Atom)), If(Atom, Block([Continue], false), None), Break], true)
  }

  /** A function with such a loop means something, its code does it, and yet the code
      is not valid. */
  lemma WrittenBehindBreak(x: nat)
    ensures var stats := [While(Atom, BodyThatBreaks(x)), Return(Atom)];
      LegalSeq(stats) && Distinct(stats) && (forall k: nat :: k < |stats| ==> Orderly(stats[k])) && Right(stats) && !FormedSeq(stats, false)
  {
    hide BodyThatBreaks, EndsSeq, FormedSeq, MadeAll, Right, Formed, Orderly, Legal, Made;
    var loop, last := While(Atom, BodyThatBreaks(x)), Return(Atom);
    BodyIs(x);
    TwoParts(loop, last);
    TwoEnd(loop, last);
    LoopParts(BodyThatBreaks(x));
    BlocksAreRight([loop, last]);
  }

  lemma LoopParts(body: Stmt)
    ensures Legal(While(Atom, body), false, false) <==> Legal(body, true, true)
    ensures Orderly(While(Atom, body)) <==> body.Block? && Orderly(body)
    ensures Made(While(Atom, body)) == Made(body) && (Formed(While(Atom, body), false) <==> Formed(body, false))
    ensures Legal(Return(Atom), false, false) && Orderly(Return(Atom)) && Made(Return(Atom)) == multiset{}
  {
  }

  lemma BodyIs(x: nat)
    ensures var body := BodyThatBreaks(x);
      body.Block? && Legal(body, true, true) && Orderly(body) && Made(body) == multiset{Local(x)} && !Formed(body, false)
  {
    hide FormedSeq, ClosedSeq, PushedAll, MadeAll, EndsSeq, Formed, Orderly, Made, Legal;
    var first, second := Plain(Declare(x, Atom)), If(Atom, Block([Continue], false), None);
    ThreeParts(first, second, Break);
    PartsAre(x);
    BlockIs([first, second, Break]);
  }

  lemma PartsAre(x: nat)
    ensures var first, second := Plain(Declare(x, Atom)), If(Atom, Block([Continue], false), None);
      && Legal(first, true, true) && Legal(second, true, true) && Orderly(first) && Orderly(second)
      && Made(first) == multiset{Local(x)} && Made(second) == multiset{} && Pushed(first) == [Local(x)]
  {
    var inner := Block([Continue], false);
    OnePart(Continue);
    AtomIs();
    assert Legal(inner, true, true) && Orderly(inner) && Made(inner) == multiset{};
    assert multiset([Local(x)]) == multiset{Local(x)};
  }

  lemma AtomIs()
    ensures Balanced(Atom) && Balanced(Given(Atom)) && Objects(Atom) == Objects(Given(Atom)) == multiset{} && TempsOf(Atom) == []
  {
    assert Certain(Atom) && Owned(Atom) && SlotOf(Atom) == [];
  }

  lemma BlockIs(stats: seq<Stmt>)
    ensures var s := Block(stats, true);
      && (Legal(s, true, true) <==> forall k: nat :: k < |stats| ==> Legal(stats[k], true, true))
      && (Orderly(s) <==> forall k: nat :: k < |stats| ==> Orderly(stats[k]))
      && Made(s) == MadeAll(stats)
      && (ClosedSeq(stats, false) && PushedAll(stats) != [] ==> !Formed(s, false))
    ensures Legal(Break, true, true) && Orderly(Break)
  {
    hide MadeAll, ClosedSeq, PushedAll, FormedSeq, EndsSeq;
  }

  lemma OnePart(s: Stmt)
    ensures FormedSeq([s], false) == Formed(s, false) && ClosedSeq([s], false) == Closed(s, false)
    ensures PushedAll([s]) == Pushed(s) && EndsSeq([s], FRESH) == Ends(s, FRESH) && MadeAll([s]) == Made(s)
  {
    hide Formed, Closed, Ends, Pushed, Made;
    assert [s][..0] == [];
    OneSafe(s);
  }

  lemma TwoParts(s: Stmt, t: Stmt)
    ensures FormedSeq([s, t], false) ==> Formed(s, false)
    ensures ClosedSeq([s, t], false) == Closed(t, Closed(s, false))
    ensures MadeAll([s, t]) == Made(s) + Made(t) && PushedAll([s, t]) == Pushed(s) + Pushed(t)
  {
    hide Formed, Closed, Pushed, Made;
    var all := [s, t];
    OnePart(s);
    assert all[..|all| - 1] == [s] && all[|all| - 1] == t;
  }

  lemma TwoEnd(s: Stmt, t: Stmt)
    requires t.Return?
    ensures EndsSeq([s, t], FRESH) == {}
  {
    hide Ends;
    var all := [s, t];
    assert all[..|all| - 1] == [s] && all[|all| - 1] == t;
    ReturnSafe(t);
  }

  lemma BreakIs(u: Stmt)
    requires u.Break?
    ensures (forall g: Held :: Ends(u, g) == {}) && (forall closed: bool :: Closed(u, closed)) && Pushed(u) == [] && Made(u) == multiset{}
  {
  }

  lemma ThreeParts(s: Stmt, t: Stmt, u: Stmt)
    requires u.Break?
    ensures ClosedSeq([s, t, u], false) && EndsSeq([s, t, u], FRESH) == {}
    ensures PushedAll([s, t, u]) == Pushed(s) + Pushed(t) && MadeAll([s, t, u]) == Made(s) + Made(t)
  {
    hide Made, Pushed, Ends, Closed, Formed;
    var all := [s, t, u];
    assert all[..|all| - 1] == [s, t] && all[|all| - 1] == u;
    TwoParts(s, t);
    BreakIs(u);
  }
}
