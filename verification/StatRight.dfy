/** Which functions are compiled rightly. The compile-time stack of scopes is wrong
    where a branch that is not a block has left objects that only one path constructs;
    that does harm where a scope is destroyed, or left without being destroyed. The
    condition follows what can be reached from the start of the function, and asks of
    every expression that is reached that it destroys exactly what it constructs. */
module StatRight {
  import opened Wrappers
  import opened Lives
  import opened ExprSem
  import opened StatSem
  import opened StatWritten

  // ---- what the innermost scope can be like

  /** `whole`: all objects on the stack of scopes are alive; `none`: nothing is. */
  datatype Held = Held(whole: bool, none: bool)

  const FRESH := Held(true, true)

  /** Objects were pushed that this path has not constructed. */
  function Grown(h: Held, objs: Objs): Held {
    Held(h.whole && objs == [], h.none)
  }

  /** How the innermost scope can be when the statement has come to its end. */
  function Ends(s: Stmt, h: Held): set<Held>
    decreases s
  {
    match s
    case Block(stats, _) => if EndsSeq(stats, FRESH) == {} then {} else {h}
    case If(_, body, elseBody) =>
      (set g | g in Ends(body, h) :: Grown(g, if elseBody.Some? then Pushed(elseBody.value) else [])) +
      (if elseBody.Some? then Ends(elseBody.value, Grown(h, Pushed(body))) else {Grown(h, Pushed(body))})
    case Switch(_, cases, _) =>
      if DefaultIndex(cases) == |cases| || exists c: nat :: c < |cases| && (MayJump(cases[c].cbody, Break) || Ends(cases[c].cbody, FRESH) != {})
      then {h} else {}
    case While(_, _) => {h}
    case For(_, _, _, _) => {h}
    case Plain(simple) => {Held(h.whole, h.none && SimpleLocals(simple) == [])}
    case _ => {}
  }

  function EndsSeq(stats: seq<Stmt>, h: Held): set<Held>
    decreases stats
  {
    if stats == [] then {h}
    else
      var front, last := stats[..|stats| - 1], stats[|stats| - 1];
      set m, g | m in EndsSeq(front, h) && g in Ends(last, m) :: g
  }

  /** Whether a run can leave the statement by this kind of jump. */
  predicate MayJump(s: Stmt, jump: Stmt)
    decreases s
  {
    match s
    case Block(stats, _) => MayJumpSeq(stats, jump)
    case If(_, body, elseBody) => MayJump(body, jump) || (elseBody.Some? && MayJump(elseBody.value, jump))
    case Break => jump.Break?
    case Continue => jump.Continue?
    case _ => false
  }

  predicate MayJumpSeq(stats: seq<Stmt>, jump: Stmt)
    decreases stats
  {
    stats != [] &&
      (MayJumpSeq(stats[..|stats| - 1], jump) || (EndsSeq(stats[..|stats| - 1], FRESH) != {} && MayJump(stats[|stats| - 1], jump)))
  }

  // ---- the condition

  /** No scope is destroyed that is not whole, and none left that is not empty. `jump`
      says that the other scopes within the loop or switch are whole, `ret` that those
      of the function are. */
  predicate Safe(s: Stmt, h: Held, jump: bool, ret: bool)
    decreases s, 0
  {
    match s
    case Block(stats, terminate) =>
      && SafeSeq(stats, FRESH, jump && h.whole, ret && h.whole)
      && forall g :: g in EndsSeq(stats, FRESH) ==> if terminate then g.whole else g.none
    case If(cond, body, elseBody) =>
      Balanced(cond) && Safe(body, h, jump, ret) && (elseBody.Some? ==> Safe(elseBody.value, Grown(h, Pushed(body)), jump, ret))
    case Switch(expr, cases, alwaysReturns) =>
      && Balanced(expr) && BalancedTests(cases)
      && (forall c: nat :: c < |cases| ==> SafeBody(cases[c].cbody, ret && h.whole))
      && (alwaysReturns && cases != [] ==> Ends(s, FRESH) == {})
    case Break => jump && h.whole
    case Continue => jump && h.whole
    case Return(result) => ret && h.whole && Balanced(result)
    case While(cond, body) => Balanced(cond) && SafeBody(body, ret && h.whole)
    case For(init, cond, incr, body) =>
      && OptSettled(init) && Balanced(cond) && OptLocals(incr) == [] && SafeBody(body, ret && h.whole)
      && (GoesOn(body) ==> OptSettled(incr))
    case Plain(simple) => Settled(SimpleWork(simple))
  }

  predicate BalancedTests(cases: seq<Case>) {
    forall c: nat :: c < |cases| && cases[c].test.Some? ==> Balanced(cases[c].test.value)
  }

  predicate OptSettled(s: Option<Simple>) {
    s.Some? ==> Settled(SimpleWork(s.value))
  }

  /** Whether a turn of a loop can be followed by its increment. */
  predicate GoesOn(body: Stmt) {
    Ends(body, FRESH) != {} || MayJump(body, Continue)
  }

  predicate SafeSeq(stats: seq<Stmt>, h: Held, jump: bool, ret: bool)
    decreases stats, 0
  {
    stats == [] ||
      var front, last := stats[..|stats| - 1], stats[|stats| - 1];
      SafeSeq(front, h, jump, ret) && forall g :: g in EndsSeq(front, h) ==> Safe(last, g, jump, ret)
  }

  /** The body of a loop or case has a scope, but nobody destroys it at its end. */
  predicate SafeBody(body: Stmt, ret: bool)
    decreases body, 1
  {
    Safe(body, FRESH, true, ret) && forall g :: g in Ends(body, FRESH) ==> g.none
  }

  /** A function does not come to its end but by return. */
  predicate Right(stats: seq<Stmt>) {
    SafeSeq(stats, FRESH, true, true) && EndsSeq(stats, FRESH) == {}
  }

  // ---- objects alive, and objects on the stack

  /** Either all objects of a scope are alive, or fewer. */
  predicate Part(alive: Objs, objs: Objs) {
    alive == objs || (|alive| < |objs| && multiset(alive) <= multiset(objs))
  }

  function State(alive: Objs, objs: Objs): Held {
    Held(alive == objs, alive == [])
  }

  lemma PartThen(a1: Objs, o1: Objs, a2: Objs, o2: Objs)
    requires Part(a1, o1) && Part(a2, o2)
    ensures Part(a1 + a2, o1 + o2)
  {
  }

  lemma PartMore(alive: Objs, objs: Objs, more: Objs)
    requires Part(alive, objs)
    ensures Part(alive, objs + more) && State(alive, objs + more) == Grown(State(alive, objs), more)
  {
    if more == [] {
      assert objs + more == objs;
    }
  }

  // ---- runs end as they can end

  lemma {:induction false} LoopLeavesNothing(cond: Expr, body: Stmt, incr: Option<Simple>, o: Answers)
    ensures Loop(cond, body, incr, o).locals == []
    decreases |o|
  {
    hide Meant, Holds, Exec;
    if o != [] {
      var r := LeaveScope(Exec(body, o[1..]));
      var i := LeaveScope(OptRun(incr, r.rest, false));
      LoopLeavesNothing(cond, body, incr, i.rest);
    }
  }

  lemma EndsSeqLast(stats: seq<Stmt>, h: Held, m: Held, g: Held)
    requires stats != [] && m in EndsSeq(stats[..|stats| - 1], h) && g in Ends(stats[|stats| - 1], m)
    ensures g in EndsSeq(stats, h)
  {
  }

  lemma ExecSeqLast(stats: seq<Stmt>, o: Answers)
    requires stats != []
    ensures var r := ExecSeq(stats[..|stats| - 1], o);
            ExecSeq(stats, o) == if r.out != Normal then r else Then(r, Exec(stats[|stats| - 1], r.rest))
  {
  }

  lemma PushedLast(stats: seq<Stmt>)
    requires stats != []
    ensures PushedAll(stats) == PushedAll(stats[..|stats| - 1]) + Pushed(stats[|stats| - 1])
  {
  }

  lemma StateNone(alive: Objs, objs: Objs)
    ensures State(alive + [], objs + []) == State(alive, objs) && Part(alive, alive)
  {
    assert alive + [] == alive && objs + [] == objs;
  }

  lemma StateBoth(alive: Objs, objs: Objs, more: Objs)
    ensures State(alive + more, objs + more) == Held(alive == objs, alive == [] && more == [])
  {
    assert (alive + more)[..|alive|] == alive;
    if alive + more == objs + more {
      assert (objs + more)[..|objs|] == objs;
    }
  }

  /** What a run that comes to the end of a statement has left alive. */
  lemma {:induction false} RunEnds(s: Stmt, o: Answers, alive: Objs, objs: Objs)
    requires Exec(s, o).out == Normal && Part(alive, objs)
    ensures Part(Exec(s, o).locals, Pushed(s))
    ensures State(alive + Exec(s, o).locals, objs + Pushed(s)) in Ends(s, State(alive, objs))
    decreases |o|, s, 1
  {
    hide Part, State, Meant, Holds, Eval, Dispatch;
    StateNone(alive, objs);
    StateNone([], []);
    match s
    case Block(stats, _) =>
      SeqEnds(stats, o, [], []);
      FreshState();
    case If(cond, body, elseBody) => IfEnds(s, o, alive, objs);
    case Switch(_, cases, _) =>
      var d := Dispatch(cases, 0, o[1..], false);
      DispatchOut(cases, 0, o[1..], false);
      if d.target < |cases| {
        CasesEnd(s, d.target, d.rest);
      }
    case While(cond, body) => LoopLeavesNothing(cond, body, None, o);
    case For(init, cond, incr, body) =>
    case Plain(simple) =>
      StateBoth(alive, objs, SimpleLocals(simple));
      StateNone(SimpleLocals(simple), []);
      StateIs(alive, objs);
  }

  lemma FreshState()
    ensures Part([], []) && State([], []) == FRESH
  {
  }

  lemma StateIs(alive: Objs, objs: Objs)
    ensures State(alive, objs) == Held(alive == objs, alive == [])
  {
  }

  lemma IfEnds(s: Stmt, o: Answers, alive: Objs, objs: Objs)
    requires s.If? && Exec(s, o).out == Normal && Part(alive, objs)
    ensures Part(Exec(s, o).locals, Pushed(s))
    ensures State(alive + Exec(s, o).locals, objs + Pushed(s)) in Ends(s, State(alive, objs))
    decreases |o|, s, 0
  {
    hide Part, State, Ends, Exec, Holds;
    var l, p, h := Exec(s, o).locals, Pushed(s.body), State(alive, objs);
    var q := if s.elseBody.Some? then Pushed(s.elseBody.value) else [];
    Behind(objs, p, q);
    BranchRun(s, o);
    if Holds(s.cond, o[0]) {
      RunEnds(s.body, o[1..], alive, objs);
      PartThen(alive, objs, l, p);
      PartMore(alive + l, objs + p, q);
      PartMore(l, p, q);
      BodyEnds(s, h, State(alive + l, objs + p));
    } else {
      PartMore(alive, objs, p);
      ElseEnds(s, h);
      if s.elseBody.Some? {
        RunEnds(s.elseBody.value, o[1..], alive, objs + p);
        PartBehind(l, p, q);
      } else {
        FreshState();
        PartMore([], [], p);
        Behind(alive, [], []);
        Behind(p, [], []);
        Behind([], p, []);
      }
    }
  }

  lemma Behind(x: Objs, y: Objs, z: Objs)
    ensures x + y + z == x + (y + z) && x + [] == x && [] + y == y
  {
  }

  lemma BranchRun(s: Stmt, o: Answers)
    requires s.If? && Exec(s, o).out == Normal
    ensures o != []
    ensures Holds(s.cond, o[0]) ==> Exec(s.body, o[1..]).out == Normal && Exec(s, o).locals == Exec(s.body, o[1..]).locals
    ensures !Holds(s.cond, o[0]) && s.elseBody.Some? ==>
      Exec(s.elseBody.value, o[1..]).out == Normal && Exec(s, o).locals == Exec(s.elseBody.value, o[1..]).locals
    ensures !Holds(s.cond, o[0]) && s.elseBody.None? ==> Exec(s, o).locals == []
  {
    hide Holds, Meant;
  }

  lemma BodyEnds(s: Stmt, h: Held, g: Held)
    requires s.If? && g in Ends(s.body, h)
    ensures Grown(g, if s.elseBody.Some? then Pushed(s.elseBody.value) else []) in Ends(s, h)
  {
  }

  lemma ElseEnds(s: Stmt, h: Held)
    requires s.If?
    ensures s.elseBody.None? ==> Grown(h, Pushed(s.body)) in Ends(s, h)
    ensures s.elseBody.Some? ==> Ends(s.elseBody.value, Grown(h, Pushed(s.body))) <= Ends(s, h)
  {
  }

  lemma PartBehind(alive: Objs, before: Objs, objs: Objs)
    requires Part(alive, objs)
    ensures Part(alive, before + objs)
  {
    if before == [] {
      assert before + objs == objs;
    }
  }

  lemma {:induction false} SeqEnds(stats: seq<Stmt>, o: Answers, alive: Objs, objs: Objs)
    requires ExecSeq(stats, o).out == Normal && Part(alive, objs)
    ensures Part(ExecSeq(stats, o).locals, PushedAll(stats))
    ensures State(alive + ExecSeq(stats, o).locals, objs + PushedAll(stats)) in EndsSeq(stats, State(alive, objs))
    decreases |o|, stats
  {
    hide Part, State;
    if stats == [] {
      StateNone(alive, objs);
      FreshState();
    } else {
      hide Exec, ExecSeq, Ends, EndsSeq, Pushed, PushedAll;
      var front, last := stats[..|stats| - 1], stats[|stats| - 1];
      var r := ExecSeq(front, o);
      var e := Exec(last, r.rest);
      ExecSeqLast(stats, o);
      SeqEnds(front, o, alive, objs);
      PartThen(alive, objs, r.locals, PushedAll(front));
      RunEnds(last, r.rest, alive + r.locals, objs + PushedAll(front));
      PartThen(r.locals, PushedAll(front), e.locals, Pushed(last));
      PushedLast(stats);
      Behind(alive, r.locals, e.locals);
      Behind(objs, PushedAll(front), Pushed(last));
      EndsSeqLast(stats, State(alive, objs), State(alive + r.locals, objs + PushedAll(front)),
                  State(alive + r.locals + e.locals, objs + PushedAll(front) + Pushed(last)));
    }
  }

  lemma {:induction false} CasesEnd(s: Stmt, c: nat, o: Answers)
    requires s.Switch? && c < |s.cases| && ExecCases(s, c, o).out == Normal
    ensures exists k: nat :: k < |s.cases| && (MayJump(s.cases[k].cbody, Break) || Ends(s.cases[k].cbody, FRESH) != {})
    decreases |o|, s, 0, |s.cases| - c
  {
    var e := Exec(s.cases[c].cbody, o);
    if e.out.Normal? {
      RunEnds(s.cases[c].cbody, o, [], []);
    } else if e.out.Breaks? {
      RunJumps(s.cases[c].cbody, o, Break, true, true);
    } else {
      CasesEnd(s, c + 1, LeaveScope(e).rest);
    }
  }

  function Jumping(jump: Stmt): Outcome {
    if jump.Break? then Breaks else Continues
  }

  lemma {:induction false} RunJumps(s: Stmt, o: Answers, jump: Stmt, brk: bool, cont: bool)
    requires Exec(s, o).out == Jumping(jump) && (jump.Break? || (jump.Continue? && Legal(s, brk, cont)))
    ensures MayJump(s, jump)
    decreases |o|, s, 1
  {
    hide Meant, Holds, Dispatch, Eval;
    match s
    case Block(stats, _) => SeqJumps(stats, o, jump, brk, cont);
    case If(cond, body, elseBody) => RunJumps(if Holds(cond, o[0]) then body else elseBody.value, o[1..], jump, brk, cont);
    case Switch(_, cases, _) =>
      var d := Dispatch(cases, 0, o[1..], false);
      DispatchOut(cases, 0, o[1..], false);
      CasesNeverBreak(s, d.target, d.rest);
      if jump.Continue? {
        CasesJumpsLegal(s, d.target, d.rest, brk, cont);
      }
    case _ =>
  }

  lemma {:induction false} SeqJumps(stats: seq<Stmt>, o: Answers, jump: Stmt, brk: bool, cont: bool)
    requires ExecSeq(stats, o).out == Jumping(jump)
    requires jump.Break? || (jump.Continue? && forall k: nat :: k < |stats| ==> Legal(stats[k], brk, cont))
    ensures MayJumpSeq(stats, jump)
    decreases |o|, stats
  {
    hide Legal;
    var front, last := stats[..|stats| - 1], stats[|stats| - 1];
    var r := ExecSeq(front, o);
    if r.out == Normal {
      SeqEnds(front, o, [], []);
      FreshState();
      RunJumps(last, r.rest, jump, brk, cont);
    } else {
      SeqJumps(front, o, jump, brk, cont);
    }
  }

  lemma {:induction false} CasesNeverBreak(s: Stmt, c: nat, o: Answers)
    requires s.Switch?
    ensures c < |s.cases| ==> !ExecCases(s, c, o).out.Breaks?
    decreases |s.cases| - c
  {
    if c < |s.cases| {
      CasesNeverBreak(s, c + 1, LeaveScope(Exec(s.cases[c].cbody, o)).rest);
    }
  }

  // ---- jumps have a target

  lemma {:induction false} JumpsLegal(s: Stmt, o: Answers, brk: bool, cont: bool)
    requires Legal(s, brk, cont)
    ensures (Exec(s, o).out.Breaks? ==> brk) && (Exec(s, o).out.Continues? ==> cont)
    decreases |o|, s, 1
  {
    hide Meant, Holds, Dispatch;
    match s
    case Block(stats, _) => SeqJumpsLegal(stats, o, brk, cont);
    case If(cond, body, elseBody) =>
      if o != [] && (Holds(cond, o[0]) || elseBody.Some?) {
        JumpsLegal(if Holds(cond, o[0]) then body else elseBody.value, o[1..], brk, cont);
      }
    case Switch(_, cases, _) =>
      if o != [] {
        var d := Dispatch(cases, 0, o[1..], false);
        DispatchOut(cases, 0, o[1..], false);
        if d.out == Normal && d.target < |cases| {
          CasesJumpsLegal(s, d.target, d.rest, brk, cont);
        }
      }
    case _ =>
  }

  lemma {:induction false} SeqJumpsLegal(stats: seq<Stmt>, o: Answers, brk: bool, cont: bool)
    requires forall k: nat :: k < |stats| ==> Legal(stats[k], brk, cont)
    ensures (ExecSeq(stats, o).out.Breaks? ==> brk) && (ExecSeq(stats, o).out.Continues? ==> cont)
    decreases |o|, stats
  {
    if stats != [] {
      var r := ExecSeq(stats[..|stats| - 1], o);
      SeqJumpsLegal(stats[..|stats| - 1], o, brk, cont);
      if r.out == Normal {
        JumpsLegal(stats[|stats| - 1], r.rest, brk, cont);
      }
    }
  }

  lemma {:induction false} CasesJumpsLegal(s: Stmt, c: nat, o: Answers, brk: bool, cont: bool)
    requires s.Switch? && c < |s.cases| && Legal(s, brk, cont)
    ensures !ExecCases(s, c, o).out.Breaks? && !ExecCases(s, c, o).out.Continues?
    decreases |o|, s, 0, |s.cases| - c
  {
    var r := LeaveScope(Exec(s.cases[c].cbody, o));
    JumpsLegal(s.cases[c].cbody, o, true, c + 1 < |s.cases|);
    if r.out.Continues? {
      CasesJumpsLegal(s, c + 1, r.rest, brk, cont);
    }
  }
}
