/** How often objects are constructed and destroyed in a run of generated code. */
module StatCount {
  import opened Wrappers
  import opened Lives
  import opened ExprSem
  import opened StatSem
  import opened StatWritten
  import opened StatReach

  /** What a run has constructed and not destroyed is what it has left. */
  lemma CourseCounts(r: Course, x: Obj)
    requires Tidy(r, NOTHING) && r.out != Pending
    ensures N(r.ev, x) == multiset(r.locals)[x]
  {
    ReplayCounts(r.ev, NOTHING, x);
    WithCounts(NOTHING, r.locals, x);
  }

  // ---- counting what is on a stack of scopes

  function Count(scopes: Scopes, x: Obj): nat {
    if scopes == [] then 0 else Count(scopes[..|scopes| - 1], x) + multiset(scopes[|scopes| - 1])[x]
  }

  lemma CountPush(scopes: Scopes, objs: Objs, x: Obj)
    requires scopes != []
    ensures Count(Push(scopes, objs), x) == Count(scopes, x) + multiset(objs)[x]
  {
    assert Push(scopes, objs)[..|scopes| - 1] == scopes[..|scopes| - 1];
  }

  lemma CountScope(scopes: Scopes, objs: Objs, x: Obj)
    ensures Count(scopes + [objs], x) == Count(scopes, x) + multiset(objs)[x]
  {
    assert (scopes + [objs])[..|scopes|] == scopes;
  }

  lemma {:induction false} CountFront(scopes: Scopes, i: nat, x: Obj)
    requires i <= |scopes|
    ensures Count(scopes[..i], x) <= Count(scopes, x)
    decreases |scopes|
  {
    if i < |scopes| {
      CountFront(scopes[..|scopes| - 1], i, x);
      assert scopes[..|scopes| - 1][..i] == scopes[..i];
    } else {
      assert scopes[..i] == scopes;
    }
  }

  lemma {:induction false} NDrop(scopes: Scopes, index: nat, x: Obj)
    requires index <= |scopes|
    ensures N(Drop(scopes, index), x) == Count(scopes[..index], x) - Count(scopes, x)
    decreases |scopes|
  {
    if |scopes| > index {
      var outer, objs := scopes[..|scopes| - 1], scopes[|scopes| - 1];
      NDrop(outer, index, x);
      NThen(Dtors(objs), Drop(outer, index), x);
      NDtors(objs, x);
      assert outer[..index] == scopes[..index];
    } else {
      assert scopes[..index] == scopes;
    }
  }

  // ---- the objects of a statement

  /** The objects that a statement, or an expression in it, may construct. */
  function Made(s: Stmt): multiset<Obj>
    decreases s
  {
    match s
    case Block(stats, _) => MadeAll(stats)
    case If(cond, body, elseBody) => Objects(cond) + Made(body) + (if elseBody.Some? then Made(elseBody.value) else multiset{})
    case Switch(expr, cases, _) => Objects(expr) + MadeTests(cases) + MadeFrom(s, 0)
    case Return(result) => Objects(result)
    case While(cond, body) => Objects(cond) + Made(body)
    case For(init, cond, incr, body) => MadeOpt(init) + Objects(cond) + MadeOpt(incr) + Made(body)
    case Plain(simple) => MadeOpt(Some(simple))
    case _ => multiset{}
  }

  function MadeOpt(s: Option<Simple>): multiset<Obj> {
    if s.None? then multiset{} else Objects(SimpleWork(s.value).expr) + multiset(SimpleLocals(s.value))
  }

  function MadeTests(cases: seq<Case>): multiset<Obj> {
    if cases == [] then multiset{}
    else (if cases[0].test.Some? then Objects(cases[0].test.value) else multiset{}) + MadeTests(cases[1..])
  }

  function MadeAll(stats: seq<Stmt>): multiset<Obj>
    decreases stats
  {
    if stats == [] then multiset{} else MadeAll(stats[..|stats| - 1]) + Made(stats[|stats| - 1])
  }

  /** The cases from `c` on. */
  function MadeFrom(s: Stmt, c: nat): multiset<Obj>
    requires s.Switch?
    decreases s, 0, |s.cases| - c
  {
    if c >= |s.cases| then multiset{} else Made(s.cases[c].cbody) + MadeFrom(s, c + 1)
  }

  lemma {:induction false} MadeCase(s: Stmt, c: nat, k: nat)
    requires s.Switch? && c <= k < |s.cases|
    ensures Made(s.cases[k].cbody) + MadeFrom(s, k + 1) <= MadeFrom(s, c)
    decreases k - c
  {
    hide Made;
    if c < k {
      MadeCase(s, c + 1, k);
    }
  }

  lemma {:induction false} PushedMade(s: Stmt)
    ensures multiset(Pushed(s)) <= Made(s)
    decreases s
  {
    match s
    case If(_, body, elseBody) =>
      PushedMade(body);
      if elseBody.Some? {
        PushedMade(elseBody.value);
      }
    case Return(result) => KnownWithin(result);
    case _ =>
  }

  lemma {:induction false} PushedAllMade(stats: seq<Stmt>)
    ensures multiset(PushedAll(stats)) <= MadeAll(stats)
    decreases stats
  {
    if stats != [] {
      PushedAllMade(stats[..|stats| - 1]);
      PushedMade(stats[|stats| - 1]);
    }
  }

  lemma WorkSlots(w: Work, s: Option<Simple>)
    ensures s.Some? && w == SimpleWork(s.value) ==> w.slot == [] || w.slot == SlotOf(w.expr)
  {
  }

  lemma UntouchedWork(e: Expr, a: Answer, x: Obj)
    requires Objects(e)[x] == 0
    ensures N(Wrote(Condition(e), a), x) == 0 && N(Eval(Given(e), false, a).ev, x) == 0
    ensures N(Wrote(CaseTest(e), a), x) == 0 && N(Value(e, a), x) == 0 && multiset(TempsOf(e))[x] == 0
  {
    hide Eval, TempsOf, SlotOf, Objects, Wrote;
    GivenMakes(e, a);
    NElsewhere(Condition(e), a, x);
    NElsewhere(CaseTest(e), a, x);
    NEval(Given(e), false, a, x);
    Foreign(Given(e), false, a, x);
    NThen(Eval(Given(e), false, a).ev, [Act], x);
    NOne(Act, x);
  }

  /** What a simple statement does to an object that its expression does not make. */
  lemma NOpt(s: Option<Simple>, o: Answers, x: Obj)
    requires s.Some? ==> Objects(SimpleWork(s.value).expr)[x] == 0
    ensures var r := OptRun(s, o, true); N(r.ev, x) == if r.out == Normal then multiset(OptLocals(s))[x] else 0
  {
    hide Wrote;
    if s.Some? && o != [] {
      WorkSlots(SimpleWork(s.value), s);
      NElsewhere(SimpleWork(s.value), o[0], x);
      NAct(s.value, x);
    }
  }

  lemma NAct(s: Simple, x: Obj)
    ensures N(SimpleWork(s).act, x) == multiset(SimpleLocals(s))[x]
  {
    NOne(SimpleWork(s).act[0], x);
  }

  lemma UntouchedOpt(s: Option<Simple>, o: Answers, x: Obj)
    requires MadeOpt(s)[x] == 0
    ensures N(OptRun(s, o, true).ev, x) == 0 && multiset(OptLocals(s))[x] == 0
  {
    NOpt(s, o, x);
  }

  lemma {:induction false} NDispatch(cases: seq<Case>, c: nat, o: Answers, x: Obj)
    requires c <= |cases| && MadeTests(cases[c..])[x] == 0
    ensures N(Dispatch(cases, c, o, true).ev, x) == 0
    decreases |cases| - c
  {
    hide Wrote, Holds;
    if c < |cases| {
      assert cases[c..][1..] == cases[c + 1..];
      if cases[c].test.None? {
        NDispatch(cases, c + 1, o, x);
      } else if o != [] {
        UntouchedWork(cases[c].test.value, o[0], x);
        NDispatch(cases, c + 1, o[1..], x);
        NThen(Wrote(CaseTest(cases[c].test.value), o[0]), Dispatch(cases, c + 1, o[1..], true).ev, x);
      }
    }
  }

  /** What leaving destroys. */
  function Leaves(out: Outcome, scopes: Scopes, index: nat, x: Obj): int
    requires index <= |scopes|
  {
    match out
    case Breaks => Count(scopes[..index], x) - Count(scopes, x)
    case Continues => Count(scopes[..index], x) - Count(scopes, x)
    case Returns => 0 - Count(scopes, x)
    case _ => 0
  }

  lemma LeavesNone(out: Outcome, scopes: Scopes, index: nat, x: Obj)
    requires index <= |scopes| && Count(scopes, x) == 0
    ensures Leaves(out, scopes, index, x) == 0
  {
    CountFront(scopes, index, x);
  }

  lemma LeavesWithin(out: Outcome, scopes: Scopes, objs: Objs, index: nat, x: Obj)
    requires index <= |scopes| && multiset(objs)[x] == 0
    ensures Leaves(out, scopes + [objs], index, x) == Leaves(out, scopes, index, x)
  {
    CountScope(scopes, objs, x);
    assert (scopes + [objs])[..index] == scopes[..index];
  }

  lemma LeavesPushed(out: Outcome, scopes: Scopes, objs: Objs, index: nat, x: Obj)
    requires scopes != [] && index < |scopes| && multiset(objs)[x] == 0
    ensures Leaves(out, Push(scopes, objs), index, x) == Leaves(out, scopes, index, x)
  {
    CountPush(scopes, objs, x);
    assert Push(scopes, objs)[..index] == scopes[..index];
  }

  /** From a body, whose scope is empty, only a return leaves other scopes. */
  lemma LeavesBody(out: Outcome, scopes: Scopes, x: Obj)
    ensures Leaves(out, scopes + [[]], |scopes|, x) == if out.Returns? then 0 - Count(scopes, x) else 0
  {
    CountScope(scopes, [], x);
    assert (scopes + [[]])[..|scopes|] == scopes;
  }

  /** A run does not touch an object that the statement does not know, except that
      leaving scopes destroys it there. */
  lemma {:induction false} Untouched(s: Stmt, o: Answers, scopes: Scopes, index: nat, brk: bool, cont: bool, x: Obj)
    requires index < |scopes| && Made(s)[x] == 0 && Legal(s, brk, cont)
    ensures var r := Did(s, o, scopes, index); N(r.ev, x) == Leaves(r.out, scopes, index, x)
    ensures var r := Did(s, o, scopes, index); (r.out.Breaks? ==> brk) && (r.out.Continues? ==> cont)
    decreases |o|, s, 1
  {
    hide Did, Made, Leaves, Legal;
    match s
    case Block(_, _) => UntouchedBlock(s, o, scopes, index, brk, cont, x);
    case If(_, _, _) => UntouchedIf(s, o, scopes, index, brk, cont, x);
    case Switch(_, _, _) => UntouchedSwitch(s, o, scopes, index, brk, cont, x);
    case While(_, _) => UntouchedWhile(s, o, scopes, index, brk, cont, x);
    case For(_, _, _, _) => UntouchedFor(s, o, scopes, index, brk, cont, x);
    case Return(_) => UntouchedReturn(s, o, scopes, index, x);
    case _ => UntouchedSimple(s, o, scopes, index, brk, cont, x);
  }

  lemma UntouchedSimple(s: Stmt, o: Answers, scopes: Scopes, index: nat, brk: bool, cont: bool, x: Obj)
    requires index < |scopes| && (s.Break? || s.Continue? || s.Plain?) && Made(s)[x] == 0 && Legal(s, brk, cont)
    ensures var r := Did(s, o, scopes, index); N(r.ev, x) == Leaves(r.out, scopes, index, x)
    ensures var r := Did(s, o, scopes, index); (r.out.Breaks? ==> brk) && (r.out.Continues? ==> cont)
  {
    hide Wrote, Drop, Count, OptRun;
    if s.Plain? {
      UntouchedOpt(Some(s.simple), o, x);
    } else {
      NDrop(scopes, index, x);
    }
  }

  lemma UntouchedWhile(s: Stmt, o: Answers, scopes: Scopes, index: nat, brk: bool, cont: bool, x: Obj)
    requires index < |scopes| && s.While? && Made(s)[x] == 0 && Legal(s, brk, cont)
    ensures var r := Did(s, o, scopes, index); N(r.ev, x) == Leaves(r.out, scopes, index, x)
    ensures var r := Did(s, o, scopes, index); !r.out.Breaks? && !r.out.Continues?
    decreases |o|, s, 0
  {
    hide DidLoop, Count;
    UntouchedLoop(s.wcond, s.wbody, None, o, scopes, x);
  }

  lemma UntouchedBlock(s: Stmt, o: Answers, scopes: Scopes, index: nat, brk: bool, cont: bool, x: Obj)
    requires index < |scopes| && s.Block? && Made(s)[x] == 0 && Legal(s, brk, cont)
    ensures var r := Did(s, o, scopes, index); N(r.ev, x) == Leaves(r.out, scopes, index, x)
    ensures var r := Did(s, o, scopes, index); (r.out.Breaks? ==> brk) && (r.out.Continues? ==> cont)
    decreases |o|, s, 0
  {
    hide Count, Leaves, DidSeq, Dtors;
    var r, objs := DidSeq(s.stats, o, scopes + [[]], index), PushedAll(s.stats);
    LeavesNowhere(scopes, index, x);
    LeavesWithin(r.out, scopes, [], index, x);
    UntouchedSeq(s.stats, o, scopes + [[]], index, brk, cont, x);
    PushedAllMade(s.stats);
    NThen(r.ev, Dtors(objs), x);
    NDtors(objs, x);
  }

  lemma UntouchedIf(s: Stmt, o: Answers, scopes: Scopes, index: nat, brk: bool, cont: bool, x: Obj)
    requires index < |scopes| && s.If? && Made(s)[x] == 0 && Legal(s, brk, cont)
    ensures var r := Did(s, o, scopes, index); N(r.ev, x) == Leaves(r.out, scopes, index, x)
    ensures var r := Did(s, o, scopes, index); (r.out.Breaks? ==> brk) && (r.out.Continues? ==> cont)
    decreases |o|, s, 0
  {
    hide Wrote, Holds, Count, Leaves;
    LeavesNowhere(scopes, index, x);
    if o == [] {
      return;
    }
    var ev := Wrote(Condition(s.cond), o[0]);
    UntouchedWork(s.cond, o[0], x);
    if Holds(s.cond, o[0]) {
      Untouched(s.body, o[1..], scopes, index, brk, cont, x);
      NThen(ev, Did(s.body, o[1..], scopes, index).ev, x);
    } else if s.elseBody.Some? {
      var last, scopes' := s.elseBody.value, Push(scopes, Pushed(s.body));
      PushedMade(s.body);
      LeavesPushed(Did(last, o[1..], scopes', index).out, scopes, Pushed(s.body), index, x);
      Untouched(last, o[1..], scopes', index, brk, cont, x);
      NThen(ev, Did(last, o[1..], scopes', index).ev, x);
    } else {
      NThen(ev, [], x);
    }
  }

  lemma LeavesNowhere(scopes: Scopes, index: nat, x: Obj)
    requires index <= |scopes|
    ensures Leaves(Normal, scopes, index, x) == Leaves(Pending, scopes, index, x) == Leaves(Stuck, scopes, index, x) == 0
  {
  }

  lemma LeavesReturning(scopes: Scopes, index: nat, x: Obj)
    requires index <= |scopes|
    ensures Leaves(Returns, scopes, index, x) == 0 - Count(scopes, x)
  {
  }

  lemma UntouchedReturn(s: Stmt, o: Answers, scopes: Scopes, index: nat, x: Obj)
    requires index < |scopes| && s.Return? && Made(s)[x] == 0
    ensures var r := Did(s, o, scopes, index); N(r.ev, x) == Leaves(r.out, scopes, index, x) && (r.out.Returns? || r.out.Pending?)
  {
    hide Drop, Eval, Count, TempsOf;
    if o != [] {
      var objs := TempsOf(s.result);
      UntouchedWork(s.result, o[0], x);
      NThen(Eval(Given(s.result), false, o[0]).ev, Drop(Push(scopes, objs), 0), x);
      CountPush(scopes, objs, x);
      NDrop(Push(scopes, objs), 0, x);
      CountNone(x);
    }
  }

  lemma CountNone(x: Obj)
    ensures Count([], x) == 0
    ensures forall scopes: Scopes :: Count(scopes[..0], x) == 0
  {
  }

  lemma {:induction false} UntouchedSeq(stats: seq<Stmt>, o: Answers, scopes: Scopes, index: nat, brk: bool, cont: bool, x: Obj)
    requires index < |scopes| && MadeAll(stats)[x] == 0 && forall k: nat :: k < |stats| ==> Legal(stats[k], brk, cont)
    ensures var r := DidSeq(stats, o, scopes, index); N(r.ev, x) == Leaves(r.out, scopes, index, x)
    ensures var r := DidSeq(stats, o, scopes, index); (r.out.Breaks? ==> brk) && (r.out.Continues? ==> cont)
    decreases |o|, stats
  {
    hide Leaves, Did, Count, Legal;
    LeavesNowhere(scopes, index, x);
    if stats != [] {
      var front, last := stats[..|stats| - 1], stats[|stats| - 1];
      var r, scopes' := DidSeq(front, o, scopes, index), Push(scopes, PushedAll(front));
      UntouchedSeq(front, o, scopes, index, brk, cont, x);
      if r.out == Normal {
        PushedAllMade(front);
        LeavesPushed(Did(last, r.rest, scopes', index).out, scopes, PushedAll(front), index, x);
        Untouched(last, r.rest, scopes', index, brk, cont, x);
        NThen(r.ev, Did(last, r.rest, scopes', index).ev, x);
      }
    }
  }

  lemma NNone(x: Obj)
    ensures N([], x) == 0
  {
  }

  lemma LoopIs(cond: Expr, body: Stmt, incr: Option<Simple>, o: Answers, scopes: Scopes)
    requires scopes != []
    ensures o == [] ==> DidLoop(cond, body, incr, o, scopes) == Ran([], Pending, [])
    ensures o != [] ==>
      var d, r := DidLoop(cond, body, incr, o, scopes), Did(body, o[1..], scopes, |scopes| - 1);
      var ev := Wrote(Condition(cond), o[0]);
      var turn := Ran(ev + r.ev, r.out, r.rest);
      if !Holds(cond, o[0]) then d == Ran(ev, Normal, o[1..])
      else if r.out.Normal? || r.out.Continues? then d == NextTurn(cond, body, incr, turn, scopes)
      else d == if r.out.Breaks? then turn.(out := Normal) else turn
  {
    hide Wrote, Holds, Did, NextTurn;
  }

  /** A loop in these scopes. */
  lemma {:induction false} UntouchedLoop(cond: Expr, body: Stmt, incr: Option<Simple>, o: Answers, scopes: Scopes, x: Obj)
    requires scopes != [] && Legal(body, true, true) && Objects(cond)[x] == 0 && Made(body)[x] == 0 && MadeOpt(incr)[x] == 0
    ensures var r := DidLoop(cond, body, incr, o, scopes + [[]]); N(r.ev, x) == if r.out.Returns? then 0 - Count(scopes, x) else 0
    decreases |o|, body, 2
  {
    hide *;
    var inner := scopes + [[]];
    LoopIs(cond, body, incr, o, inner);
    if o == [] {
      NNone(x);
    } else {
      UntouchedStart(cond, body, o, scopes, x);
      var r := Did(body, o[1..], inner, |scopes|);
      var turn := Ran(Wrote(Condition(cond), o[0]) + r.ev, r.out, r.rest);
      if !Holds(cond, o[0]) {
        assert DidLoop(cond, body, incr, o, inner).ev == Wrote(Condition(cond), o[0]);
      } else if r.out.Normal? || r.out.Continues? {
        UntouchedTurn(cond, body, incr, turn, scopes, x);
        assert DidLoop(cond, body, incr, o, inner) == NextTurn(cond, body, incr, turn, inner);
      } else {
        assert DidLoop(cond, body, incr, o, inner).ev == turn.ev;
      }
    }
  }

  lemma UntouchedStart(cond: Expr, body: Stmt, o: Answers, scopes: Scopes, x: Obj)
    requires o != [] && Legal(body, true, true) && Made(body)[x] == 0 && Objects(cond)[x] == 0
    ensures N(Wrote(Condition(cond), o[0]), x) == 0
    ensures var r := Did(body, o[1..], scopes + [[]], |scopes|);
      N(Wrote(Condition(cond), o[0]) + r.ev, x) == if r.out.Returns? then 0 - Count(scopes, x) else 0
    decreases |o|, body, 1
  {
    hide *;
    var r := Did(body, o[1..], scopes + [[]], |scopes|);
    UntouchedWork(cond, o[0], x);
    UntouchedBody(body, o[1..], scopes, x);
    NThen(Wrote(Condition(cond), o[0]), r.ev, x);
  }

  lemma UntouchedBody(body: Stmt, o: Answers, scopes: Scopes, x: Obj)
    requires Legal(body, true, true) && Made(body)[x] == 0
    ensures var r := Did(body, o, scopes + [[]], |scopes|); N(r.ev, x) == if r.out.Returns? then 0 - Count(scopes, x) else 0
    decreases |o|, body, 2
  {
    hide Did, Leaves, Count, N, Made, Legal;
    Untouched(body, o, scopes + [[]], |scopes|, true, true, x);
    LeavesBody(Did(body, o, scopes + [[]], |scopes|).out, scopes, x);
  }

  lemma UntouchedTurn(cond: Expr, body: Stmt, incr: Option<Simple>, turn: Ran, scopes: Scopes, x: Obj)
    requires scopes != [] && Legal(body, true, true) && Objects(cond)[x] == 0 && Made(body)[x] == 0 && MadeOpt(incr)[x] == 0 && N(turn.ev, x) == 0
    ensures var r := NextTurn(cond, body, incr, turn, scopes + [[]]); N(r.ev, x) == if r.out.Returns? then 0 - Count(scopes, x) else 0
    decreases |turn.rest|, body, 3
  {
    hide OptRun, MadeOpt, Count, DidLoop, N, Made, Objects, Legal;
    var i := OptRun(incr, turn.rest, true);
    UntouchedOpt(incr, turn.rest, x);
    NThen(turn.ev, i.ev, x);
    if i.out == Normal {
      UntouchedLoop(cond, body, incr, i.rest, scopes, x);
      NThen(turn.ev + i.ev, DidLoop(cond, body, incr, i.rest, scopes + [[]]).ev, x);
    }
  }

  lemma UntouchedFor(s: Stmt, o: Answers, scopes: Scopes, index: nat, brk: bool, cont: bool, x: Obj)
    requires index < |scopes| && s.For? && Made(s)[x] == 0 && Legal(s, brk, cont)
    ensures var r := Did(s, o, scopes, index); N(r.ev, x) == Leaves(r.out, scopes, index, x)
    ensures var r := Did(s, o, scopes, index); !r.out.Breaks? && !r.out.Continues?
    decreases |o|, s, 0
  {
    hide OptRun, OptLocals, DidLoop, Dtors, MadeOpt, Count;
    assert Legal(s.fbody, true, true);
    var inner, first := scopes + [OptLocals(s.init)], OptRun(s.init, o, true);
    UntouchedOpt(s.init, o, x);
    UntouchedOpt(s.incr, o, x);
    if first.out == Normal {
      assert inner + [[]] == scopes + [OptLocals(s.init), []];
      CountScope(scopes, OptLocals(s.init), x);
      UntouchedLoop(s.fcond, s.fbody, s.incr, first.rest, inner, x);
      var r, objs := DidLoop(s.fcond, s.fbody, s.incr, first.rest, inner + [[]]), OptLocals(s.init) + OptLocals(s.incr);
      NThen(first.ev, r.ev, x);
      NThen(first.ev + r.ev, Dtors(objs), x);
      NDtors(objs, x);
    }
  }

  lemma UntouchedSwitch(s: Stmt, o: Answers, scopes: Scopes, index: nat, brk: bool, cont: bool, x: Obj)
    requires index < |scopes| && s.Switch? && Made(s)[x] == 0 && Legal(s, brk, cont)
    ensures var r := Did(s, o, scopes, index); N(r.ev, x) == Leaves(r.out, scopes, index, x)
    ensures !Did(s, o, scopes, index).out.Breaks? && !Did(s, o, scopes, index).out.Continues?
    decreases |o|, s, 0, |s.cases| + 2
  {
    hide Value, Dtors, Did, TempsOf, Inside, Made, Objects, Leaves, Count, Legal;
    LeavesNowhere(scopes, index, x);
    LegalInside(s, brk, cont);
    if o == [] {
      NoAnswer(s, scopes, index);
      return;
    }
    var objs, v := TempsOf(s.expr), Value(s.expr, o[0]);
    var r := Inside(s, o[1..], scopes + [objs]);
    SwitchObjects(s, x);
    UntouchedWork(s.expr, o[0], x);
    CountScope(scopes, objs, x);
    UntouchedInside(s, o[1..], scopes + [objs], x);
    SwitchParts(s, o, scopes, index);
    NThen(v, r.ev, x);
    NThen(v + r.ev, Dtors(objs), x);
    NDtors(objs, x);
    LeavesReturning(scopes, index, x);
  }

  lemma NoAnswer(s: Stmt, scopes: Scopes, index: nat)
    requires s.Switch? && scopes != []
    ensures Did(s, [], scopes, index) == Ran([], Pending, [])
  {
  }

  lemma SwitchObjects(s: Stmt, x: Obj)
    requires s.Switch?
    ensures Made(s)[x] == Objects(s.expr)[x] + MadeTests(s.cases)[x] + MadeFrom(s, 0)[x]
  {
  }

  lemma LegalInside(s: Stmt, brk: bool, cont: bool)
    requires s.Switch? && Legal(s, brk, cont)
    ensures Legal(s, false, false)
  {
  }

  lemma UntouchedInside(s: Stmt, o: Answers, scopes: Scopes, x: Obj)
    requires scopes != [] && s.Switch? && MadeTests(s.cases)[x] == 0 && MadeFrom(s, 0)[x] == 0 && Legal(s, false, false)
    ensures var r := Inside(s, o, scopes);
      !r.out.Breaks? && !r.out.Continues? && N(r.ev, x) == if r.out.Returns? then 0 - Count(scopes, x) else 0
    decreases |o|, s, 0, |s.cases| + 1
  {
    hide Dispatch, DidCases, Legal, Count;
    var d := Dispatch(s.cases, 0, o, true);
    assert s.cases[0..] == s.cases;
    NDispatch(s.cases, 0, o, x);
    if d.out != Pending && d.target < |s.cases| {
      MadeCase(s, 0, d.target);
      UntouchedCases(s, d.target, d.rest, scopes, x);
      NThen(d.ev, DidCases(s, d.target, d.rest, scopes).ev, x);
    } else {
      NThen(d.ev, [], x);
    }
  }

  lemma {:induction false} UntouchedCases(s: Stmt, c: nat, o: Answers, scopes: Scopes, x: Obj)
    requires scopes != [] && s.Switch? && c < |s.cases| && MadeFrom(s, c)[x] == 0 && Legal(s, false, false)
    ensures var r := DidCases(s, c, o, scopes);
      !r.out.Breaks? && !r.out.Continues? && N(r.ev, x) == if r.out.Returns? then 0 - Count(scopes, x) else 0
    decreases |o|, s, 0, |s.cases| - c
  {
    hide Count, Did, Leaves, Made, MadeFrom, Legal, N;
    var body := s.cases[c].cbody;
    var r := Did(body, o, scopes + [[]], |scopes|);
    CaseParts(s, c, x);
    Untouched(body, o, scopes + [[]], |scopes|, true, c + 1 < |s.cases|, x);
    LeavesBody(r.out, scopes, x);
    if r.out.Continues? {
      UntouchedCases(s, c + 1, r.rest, scopes, x);
      NThen(r.ev, DidCases(s, c + 1, r.rest, scopes).ev, x);
    }
  }

  lemma CaseParts(s: Stmt, c: nat, x: Obj)
    requires s.Switch? && c < |s.cases| && MadeFrom(s, c)[x] == 0 && Legal(s, false, false)
    ensures Made(s.cases[c].cbody)[x] == 0 && MadeFrom(s, c + 1)[x] == 0 && Legal(s.cases[c].cbody, true, c + 1 < |s.cases|)
  {
    hide Made;
  }

  /** The same where the object is not on the stack either. */
  lemma Unknown(s: Stmt, o: Answers, scopes: Scopes, index: nat, brk: bool, cont: bool, x: Obj)
    requires index < |scopes| && Made(s)[x] == 0 && Legal(s, brk, cont) && Count(scopes, x) == 0
    ensures N(Did(s, o, scopes, index).ev, x) == 0
  {
    hide Did, Made, Legal;
    Untouched(s, o, scopes, index, brk, cont, x);
    LeavesNone(Did(s, o, scopes, index).out, scopes, index, x);
  }

  // ---- more answers than a run needs

  lemma {:induction false} More(s: Stmt, o: Answers, more: Answers, scopes: Scopes, index: nat)
    requires scopes != []
    ensures var r := Did(s, o, scopes, index); r.out != Pending ==> Did(s, o + more, scopes, index) == r.(rest := r.rest + more)
    decreases |o|, s, 1
  {
    hide Wrote, Holds, Eval, OptRun, Drop;
    match s
    case Block(stats, terminate) => MoreSeq(stats, o, more, scopes + [[]], index);
    case If(cond, body, elseBody) =>
      if o != [] {
        assert (o + more)[1..] == o[1..] + more;
        if Holds(cond, o[0]) {
          More(body, o[1..], more, scopes, index);
        } else if elseBody.Some? {
          More(elseBody.value, o[1..], more, Push(scopes, Pushed(body)), index);
        }
      }
    case Switch(expr, cases, _) =>
      if o != [] {
        MoreSwitch(s, o, more, scopes, index);
      }
    case While(cond, body) => MoreLoop(cond, body, None, o, more, scopes + [[]]);
    case For(init, cond, incr, body) =>
      MoreOpt(init, o, more);
      MoreLoop(cond, body, incr, OptRun(init, o, true).rest, more, scopes + [OptLocals(init), []]);
    case Return(_) =>
      if o != [] {
        assert (o + more)[1..] == o[1..] + more;
      }
    case Plain(simple) => MoreOpt(Some(simple), o, more);
    case _ =>
  }

  lemma {:induction false} MoreSeq(stats: seq<Stmt>, o: Answers, more: Answers, scopes: Scopes, index: nat)
    requires scopes != []
    ensures var r := DidSeq(stats, o, scopes, index); r.out != Pending ==> DidSeq(stats, o + more, scopes, index) == r.(rest := r.rest + more)
    decreases |o|, stats
  {
    if stats != [] {
      var front, last := stats[..|stats| - 1], stats[|stats| - 1];
      var r := DidSeq(front, o, scopes, index);
      MoreSeq(front, o, more, scopes, index);
      if r.out == Normal {
        More(last, r.rest, more, Push(scopes, PushedAll(front)), index);
      }
    }
  }

  lemma MoreOpt(s: Option<Simple>, o: Answers, more: Answers)
    ensures var r := OptRun(s, o, true);
            r.out == Normal ==> OptRun(s, o + more, true) == r.(rest := r.rest + more)
    ensures OptRun(s, o, true).out == Pending ==> OptRun(s, o, true).ev == []
  {
    hide Wrote;
    if s.Some? && o != [] {
      assert (o + more)[1..] == o[1..] + more;
    }
  }

  lemma {:induction false} MoreLoop(cond: Expr, body: Stmt, incr: Option<Simple>, o: Answers, more: Answers, scopes: Scopes)
    requires scopes != []
    ensures var r := DidLoop(cond, body, incr, o, scopes); r.out != Pending ==>
      DidLoop(cond, body, incr, o + more, scopes) == r.(rest := r.rest + more)
    decreases |o|, body, 2
  {
    hide Did, Wrote, Holds, NextTurn, DidLoop;
    LoopIs(cond, body, incr, o, scopes);
    LoopIs(cond, body, incr, o + more, scopes);
    if o != [] {
      assert (o + more)[1..] == o[1..] + more;
      if Holds(cond, o[0]) {
        var r := Did(body, o[1..], scopes, |scopes| - 1);
        More(body, o[1..], more, scopes, |scopes| - 1);
        if r.out.Normal? || r.out.Continues? {
          MoreTurn(cond, body, incr, r.(ev := Wrote(Condition(cond), o[0]) + r.ev), more, scopes);
        }
      }
    }
  }

  lemma MoreTurn(cond: Expr, body: Stmt, incr: Option<Simple>, turn: Ran, more: Answers, scopes: Scopes)
    requires scopes != []
    ensures var r := NextTurn(cond, body, incr, turn, scopes); r.out != Pending ==>
      NextTurn(cond, body, incr, turn.(rest := turn.rest + more), scopes) == r.(rest := r.rest + more)
    decreases |turn.rest|, body, 3
  {
    hide DidLoop, OptRun;
    MoreOpt(incr, turn.rest, more);
    MoreLoop(cond, body, incr, OptRun(incr, turn.rest, true).rest, more, scopes);
  }

  lemma {:induction false} MoreDispatch(cases: seq<Case>, c: nat, o: Answers, more: Answers)
    requires c <= |cases|
    ensures var d := Dispatch(cases, c, o, true); d.out != Pending ==> Dispatch(cases, c, o + more, true) == d.(rest := d.rest + more)
    decreases |cases| - c
  {
    hide Wrote, Holds;
    if c < |cases| {
      if cases[c].test.None? {
        MoreDispatch(cases, c + 1, o, more);
      } else if o != [] {
        assert (o + more)[1..] == o[1..] + more;
        MoreDispatch(cases, c + 1, o[1..], more);
      }
    }
  }

  lemma MoreSwitch(s: Stmt, o: Answers, more: Answers, scopes: Scopes, index: nat)
    requires scopes != [] && s.Switch? && o != []
    ensures var r := Did(s, o, scopes, index); r.out != Pending ==> Did(s, o + more, scopes, index) == r.(rest := r.rest + more)
    decreases |o|, s, 0, |s.cases| + 1
  {
    hide Value, Dispatch, DidCases, TempsOf;
    var d, scopes' := Dispatch(s.cases, 0, o[1..], true), scopes + [TempsOf(s.expr)];
    assert (o + more)[1..] == o[1..] + more;
    MoreDispatch(s.cases, 0, o[1..], more);
    SwitchParts(s, o, scopes, index);
    SwitchParts(s, o + more, scopes, index);
    if d.out != Pending && d.target < |s.cases| {
      MoreCases(s, d.target, d.rest, more, scopes');
    }
  }

  lemma {:induction false} MoreCases(s: Stmt, c: nat, o: Answers, more: Answers, scopes: Scopes)
    requires s.Switch? && c < |s.cases|
    ensures var r := DidCases(s, c, o, scopes); r.out != Pending ==> DidCases(s, c, o + more, scopes) == r.(rest := r.rest + more)
    decreases |o|, s, 0, |s.cases| - c
  {
    hide Did;
    var r := Did(s.cases[c].cbody, o, scopes + [[]], |scopes|);
    More(s.cases[c].cbody, o, more, scopes + [[]], |scopes|);
    if r.out.Continues? && c + 1 < |s.cases| {
      MoreCases(s, c + 1, r.rest, more, scopes);
    }
  }

  // ---- answers that bring a run to its end

  /** There are answers that suffice for a run, and are all used. */
  lemma {:induction false} Finish(s: Stmt, scopes: Scopes, index: nat) returns (o: Answers)
    requires scopes != []
    ensures Did(s, o, scopes, index).out != Pending && Did(s, o, scopes, index).rest == []
    decreases s, 1
  {
    hide Wrote, Holds, Eval, OptRun, Drop, Force, OptAnswers;
    o := [];
    match s
    case Block(stats, _) => o := FinishSeq(stats, scopes + [[]], index);
    case If(cond, _, elseBody) =>
      ForcedHolds(cond, false);
      o := [Force(cond, false)];
      if elseBody.Some? {
        var o' := Finish(elseBody.value, Push(scopes, Pushed(s.body)), index);
        o := o + o';
        assert o[1..] == o';
      }
    case Switch(expr, cases, _) => o := FinishSwitch(s, scopes, index);
    case While(cond, _) =>
      ForcedHolds(cond, false);
      o := [Force(cond, false)];
    case For(init, cond, _, _) =>
      ForcedHolds(cond, false);
      o := OptAnswers(init) + [Force(cond, false)];
      OptSteady(init, [Force(cond, false)], true);
      assert [Force(cond, false)][1..] == [];
    case Return(_) => o := [YES];
    case Plain(simple) =>
      o := [YES];
      OneAnswer(simple);
    case _ =>
  }

  lemma OneAnswer(s: Simple)
    ensures OptRun(Some(s), [YES], true).out == Normal && OptRun(Some(s), [YES], true).rest == []
  {
    assert [YES][1..] == [];
  }

  lemma FinishSwitch(s: Stmt, scopes: Scopes, index: nat) returns (o: Answers)
    requires scopes != [] && s.Switch?
    ensures Did(s, o, scopes, index).out != Pending && Did(s, o, scopes, index).rest == []
    decreases s, 0, |s.cases| + 2
  {
    hide Value, Inside, TempsOf;
    var d := FinishTests(s.cases, 0);
    var o' := FinishInside(s, d, scopes + [TempsOf(s.expr)]);
    o := [YES] + (d + o');
    assert o[1..] == d + o';
    SwitchParts(s, o, scopes, index);
  }

  /** The end of a switch, once its tests have been decided. */
  lemma FinishInside(s: Stmt, d: Answers, scopes: Scopes) returns (o: Answers)
    requires s.Switch? && Dispatch(s.cases, 0, d, true).out == Normal && Dispatch(s.cases, 0, d, true).rest == []
    ensures Inside(s, d + o, scopes).out != Pending && Inside(s, d + o, scopes).rest == []
    ensures var r := Dispatch(s.cases, 0, d, true);
      Inside(s, d + o, scopes).ev == r.ev + if r.target < |s.cases| then DidCases(s, r.target, o, scopes).ev else []
    decreases s, 0, |s.cases| + 1
  {
    hide Dispatch, DidCases;
    var r := Dispatch(s.cases, 0, d, true);
    o := [];
    if r.target < |s.cases| {
      o := FinishCases(s, r.target, scopes);
    }
    MoreDispatch(s.cases, 0, d, o);
    assert [] + o == o;
  }

  lemma {:induction false} FinishSeq(stats: seq<Stmt>, scopes: Scopes, index: nat) returns (o: Answers)
    requires scopes != []
    ensures DidSeq(stats, o, scopes, index).out != Pending && DidSeq(stats, o, scopes, index).rest == []
    decreases stats
  {
    o := [];
    if stats != [] {
      var front, last := stats[..|stats| - 1], stats[|stats| - 1];
      o := FinishSeq(front, scopes, index);
      if DidSeq(front, o, scopes, index).out == Normal {
        var o' := Finish(last, Push(scopes, PushedAll(front)), index);
        MoreSeq(front, o, o', scopes, index);
        assert [] + o' == o';
        o := o + o';
      }
    }
  }

  /** All tests fail. */
  lemma {:induction false} FinishTests(cases: seq<Case>, c: nat) returns (o: Answers)
    requires c <= |cases|
    ensures Dispatch(cases, c, o, true).out == Normal && Dispatch(cases, c, o, true).rest == []
    decreases |cases| - c
  {
    hide Wrote, Holds, Force;
    o := [];
    if c < |cases| {
      o := FinishTests(cases, c + 1);
      if cases[c].test.Some? {
        var o', test := o, Given(cases[c].test.value);
        ForcedHolds(test, false);
        o := [Force(test, false)] + o';
        assert o[1..] == o';
      }
    }
  }

  lemma {:induction false} FinishCases(s: Stmt, c: nat, scopes: Scopes) returns (o: Answers)
    requires s.Switch? && c < |s.cases|
    ensures DidCases(s, c, o, scopes).out != Pending && DidCases(s, c, o, scopes).rest == []
    decreases s, 0, |s.cases| - c
  {
    var body := s.cases[c].cbody;
    o := Finish(body, scopes + [[]], |scopes|);
    if Did(body, o, scopes + [[]], |scopes|).out.Continues? && c + 1 < |s.cases| {
      var o' := FinishCases(s, c + 1, scopes);
      More(body, o, o', scopes + [[]], |scopes|);
      assert [] + o' == o';
      o := o + o';
    }
  }
}
