/** Whole functions: when every run of the code returns with every object destroyed
    once, in reverse order of construction. */
module StatFunction {
  import opened Wrappers
  import opened Lives
  import opened ExprSem
  import opened StatSem
  import opened StatWritten
  import opened StatRight
  import opened StatSound
  import opened StatReach
  import opened StatCount
  import opened StatWrong

  /** The statements of a function, in the scope of its parameters. */
  predicate LegalSeq(stats: seq<Stmt>) {
    forall k: nat :: k < |stats| ==> Legal(stats[k], false, false)
  }

  /** Declarations and temporaries at different places are different objects. */
  ghost predicate Distinct(stats: seq<Stmt>) {
    forall x: Obj :: MadeAll(stats)[x] <= 1
  }

  /** A run that has returned has destroyed what it constructed; one that waits for an
      answer has destroyed nothing else. */
  predicate CleanRun(r: Ran) {
    || (r.out == Returns && Replay(r.ev, NOTHING) == Some(NOTHING))
    || (r.out == Pending && Replay(r.ev, NOTHING).Some?)
  }

  function FunctionRun(stats: seq<Stmt>, o: Answers): Ran {
    DidSeq(stats, o, [[]], 0)
  }

  lemma Outermost(stats: seq<Stmt>)
    ensures SafeAtSeq(stats, [[]], [[]], 0) == SafeSeq(stats, FRESH, true, true)
    ensures Distinct(stats) ==> At(MadeAll(stats), [[]], [[]])
    ensures forall x: Obj :: Count([[]], x) == 0
  {
    hide SafeSeq, Made;
    FreshState();
    var none: Objs := [];
    forall x: Obj ensures Count([none], x) == 0 {
      CountScope([], none, x);
      assert [] + [none] == [none];
    }
  }

  lemma DropOutermost(objs: Objs)
    ensures Drop(Push([[]], objs), 0) == Dtors(objs)
  {
    var outermost: Scopes := [];
    DropScope(outermost, objs, 0);
    assert outermost + [[]] == [[]];
    assert Dtors(objs) + [] == Dtors(objs);
  }

  /** What satisfies the condition runs as it should. */
  lemma RightRuns(stats: seq<Stmt>, o: Answers)
    requires LegalSeq(stats) && Right(stats)
    ensures var e, r := ExecSeq(stats, o), FunctionRun(stats, o);
      && (e.out.Returns? || e.out.Pending?) && r.out == e.out && r.rest == e.rest
      && r.ev == LeaveScope(e).ev && CleanRun(r)
  {
    hide SafeAtSeq, SafeSeq, EndsSeq, ExecSeq, DidSeq, Part, State, Tidy, Drop, Legal;
    var e := ExecSeq(stats, o);
    Outermost(stats);
    FreshState();
    SeqSound(stats, o, [[]], [[]], 0, false, false);
    SeqJumpsLegal(stats, o, false, false);
    if e.out == Normal {
      SeqEnds(stats, o, [], []);
    }
    DropOutermost(e.locals);
    assert e.ev + [] == e.ev;
    SeqTidy(stats, o, NOTHING);
    TidyLeave(e, NOTHING);
    TidyIs(LeaveScope(e), NOTHING);
    assert WithObjs(NOTHING, []) == NOTHING;
  }

  lemma TidyIs(r: Course, a: Alive)
    requires Tidy(r, a)
    ensures Replay(r.ev, a).Some? && (r.out != Pending ==> Replay(r.ev, a) == Some(WithObjs(a, r.locals)))
  {
  }

  /** What does not has a run that goes wrong. */
  lemma WrongRuns(stats: seq<Stmt>) returns (o: Answers)
    requires LegalSeq(stats) && Distinct(stats) && !Right(stats)
    ensures !CleanRun(FunctionRun(stats, o))
  {
    hide SafeAtSeq, SafeSeq, EndsSeq, DidSeq, Part, State, Legal, At, Distinct;
    Outermost(stats);
    FreshState();
    if !SafeSeq(stats, FRESH, true, true) {
      var x;
      o, x := WrongSeq(stats, [[]], [[]], 0, false, false);
      FailsUnclean(FunctionRun(stats, o), x, MadeAll(stats) - multiset(PushedAll(stats)));
    } else {
      var g :| g in EndsSeq(stats, FRESH);
      o := RealiseSeq(stats, [], [], g, false, false);
      SeqSound(stats, o, [[]], [[]], 0, false, false);
    }
  }

  lemma FailsUnclean(r: Ran, x: Obj, made: multiset<Obj>)
    requires Fails(r, x, made, [[]])
    ensures !CleanRun(r)
  {
    Outermost([]);
    if Overdrawn(r.ev, [[]]) {
      var k: nat, y: Obj :| k <= |r.ev| && N(r.ev[..k], y) + Count([[]], y) < 0;
      NeverBelow(r.ev, k, y);
    } else if CleanRun(r) {
      NothingLeft(r.ev, x);
    }
  }

  /** The condition is exact. */
  lemma RightDecides(stats: seq<Stmt>)
    requires LegalSeq(stats) && Distinct(stats)
    ensures (forall o: Answers :: CleanRun(FunctionRun(stats, o))) <==> Right(stats)
  {
    if Right(stats) {
      forall o: Answers ensures CleanRun(FunctionRun(stats, o)) {
        RightRuns(stats, o);
      }
    } else {
      var o := WrongRuns(stats);
    }
  }

  // ---- trees of blocks

  /** Bodies are blocks, except that an if can stand behind else. Blocks that can be
      left at their end have a Terminate node, increments declare nothing, expressions
      are balanced, and `alwaysReturns` is true of the switch. */
  predicate Orderly(s: Stmt)
    decreases s
  {
    match s
    case Block(stats, terminate) =>
      && (forall k: nat :: k < |stats| ==> Orderly(stats[k]))
      && (terminate || PushedAll(stats) == [] || EndsSeq(stats, FRESH) == {})
    case If(cond, body, elseBody) =>
      Balanced(cond) && body.Block? && Orderly(body) && (elseBody.Some? ==> (elseBody.value.Block? || elseBody.value.If?) && Orderly(elseBody.value))
    case Switch(expr, cases, alwaysReturns) =>
      && Balanced(expr) && BalancedTests(cases)
      && (forall c: nat :: c < |cases| ==> cases[c].cbody.Block? && Orderly(cases[c].cbody))
      && (alwaysReturns && cases != [] ==> Ends(s, FRESH) == {})
    case Return(result) => Balanced(result)
    case While(cond, body) => Balanced(cond) && body.Block? && Orderly(body)
    case For(init, cond, incr, body) =>
      OptSettled(init) && Balanced(cond) && OptSettled(incr) && OptLocals(incr) == [] && body.Block? && Orderly(body)
    case Plain(simple) => Settled(SimpleWork(simple))
    case _ => true
  }

  /** Whatever is pushed has been constructed. */
  lemma {:induction false} OrderlyEnds(s: Stmt, h: Held, g: Held)
    requires Orderly(s) && h.whole && g in Ends(s, h)
    ensures g.whole && (Pushed(s) == [] ==> g == h)
    ensures s.Block? || s.If? ==> Pushed(s) == []
    decreases s
  {
    match s
    case If(_, body, elseBody) =>
      OrderlyPushes(s);
      if elseBody.Some? && g in Ends(elseBody.value, Grown(h, Pushed(body))) {
        OrderlyEnds(elseBody.value, Grown(h, Pushed(body)), g);
      } else if m :| m in Ends(body, h) && g == Grown(m, if elseBody.Some? then Pushed(elseBody.value) else []) {
        OrderlyEnds(body, h, m);
      }
    case _ =>
  }

  lemma {:induction false} OrderlyPushes(s: Stmt)
    requires Orderly(s) && (s.Block? || s.If?)
    ensures Pushed(s) == [] && (s.If? ==> Pushed(s.body) == [] && (s.elseBody.Some? ==> Pushed(s.elseBody.value) == []))
    decreases s
  {
    if s.If? {
      OrderlyPushes(s.body);
      if s.elseBody.Some? {
        OrderlyPushes(s.elseBody.value);
      }
    }
  }

  lemma {:induction false} OrderlySeqEnds(stats: seq<Stmt>, h: Held, g: Held)
    requires (forall k: nat :: k < |stats| ==> Orderly(stats[k])) && h.whole && g in EndsSeq(stats, h)
    ensures g.whole && (PushedAll(stats) == [] ==> g == h)
    decreases stats
  {
    if stats != [] {
      var front, last := stats[..|stats| - 1], stats[|stats| - 1];
      var m :| m in EndsSeq(front, h) && g in Ends(last, m);
      OrderlySeqEnds(front, h, m);
      OrderlyEnds(last, m, g);
    }
  }

  lemma {:induction false} OrderlySafe(s: Stmt, h: Held)
    requires Orderly(s) && h.whole
    ensures Safe(s, h, true, true)
    decreases s, 1
  {
    match s
    case Block(stats, terminate) =>
      OrderlySeqSafe(stats);
      forall g | g in EndsSeq(stats, FRESH) ensures if terminate then g.whole else g.none {
        OrderlySeqEnds(stats, FRESH, g);
      }
    case If(_, body, elseBody) =>
      OrderlyPushes(s);
      OrderlySafe(body, h);
      if elseBody.Some? {
        OrderlySafe(elseBody.value, Grown(h, Pushed(body)));
      }
    case Switch(_, cases, _) =>
      forall c: nat | c < |cases| ensures SafeBody(cases[c].cbody, true) {
        OrderlySafe(cases[c].cbody, FRESH);
      }
    case While(_, body) => OrderlySafe(body, FRESH);
    case For(_, _, _, body) => OrderlySafe(body, FRESH);
    case _ =>
  }

  lemma {:induction false} OrderlySeqSafe(stats: seq<Stmt>)
    requires forall k: nat :: k < |stats| ==> Orderly(stats[k])
    ensures SafeSeq(stats, FRESH, true, true)
    decreases stats
  {
    if stats != [] {
      var front, last := stats[..|stats| - 1], stats[|stats| - 1];
      OrderlySeqSafe(front);
      forall g | g in EndsSeq(front, FRESH) ensures Safe(last, g, true, true) {
        OrderlySeqEnds(front, FRESH, g);
        OrderlySafe(last, g);
      }
    }
  }

  /** Functions built of blocks, whose increments declare nothing, are compiled
      rightly. */
  lemma BlocksAreRight(stats: seq<Stmt>)
    requires (forall k: nat :: k < |stats| ==> Orderly(stats[k])) && EndsSeq(stats, FRESH) == {}
    ensures Right(stats)
  {
    OrderlySeqSafe(stats);
  }

  // ---- what the condition comes to in small functions

  lemma WithReturn(s: Stmt, t: Stmt)
    requires t.Return?
    ensures Right([s, t]) <==> Safe(s, FRESH, true, true) && forall g :: g in Ends(s, FRESH) ==> g.whole && Balanced(t.result)
  {
    hide Ends, Safe, Balanced;
    var stats := [s, t];
    OneSafe(s);
    assert stats[..|stats| - 1] == [s] && stats[|stats| - 1] == t;
    ReturnSafe(t);
  }

  lemma ReturnSafe(t: Stmt)
    requires t.Return?
    ensures forall g: Held :: Ends(t, g) == {} && Safe(t, g, true, true) == (g.whole && Balanced(t.result))
  {
  }

  lemma OneSafe(s: Stmt)
    ensures EndsSeq([s], FRESH) == Ends(s, FRESH) && SafeSeq([s], FRESH, true, true) == Safe(s, FRESH, true, true)
  {
    hide Ends, Safe;
    assert [s][..0] == [] && EndsSeq([], FRESH) == {FRESH};
    assert forall g :: g in EndsSeq([s], FRESH) <==> g in Ends(s, FRESH);
  }

  /** A `for` and a return: the increment declares nothing, expressions are balanced as
      far as they are reached, and the body, where it can be left at its end, leaves
      nothing in its scope. */
  lemma LoneFor(s: Stmt, t: Stmt)
    requires s.For? && t.Return?
    ensures Right([s, t]) <==>
      && OptSettled(s.init) && Balanced(s.fcond) && (GoesOn(s.fbody) ==> OptSettled(s.incr)) && Balanced(t.result)
      && OptLocals(s.incr) == [] && Safe(s.fbody, FRESH, true, true) && forall g :: g in Ends(s.fbody, FRESH) ==> g.none
  {
    hide Balanced, OptSettled, GoesOn;
    WithReturn(s, t);
    assert Ends(s, FRESH) == {FRESH};
  }

  lemma LoneWhile(s: Stmt, t: Stmt)
    requires s.While? && t.Return?
    ensures Right([s, t]) <==>
      && Balanced(s.wcond) && Balanced(t.result)
      && Safe(s.wbody, FRESH, true, true) && forall g :: g in Ends(s.wbody, FRESH) ==> g.none
  {
    hide Balanced;
    WithReturn(s, t);
    assert Ends(s, FRESH) == {FRESH};
  }

  /** An `if` without else and a return: the body pushes nothing. */
  lemma LoneIf(s: Stmt, t: Stmt)
    requires s.If? && s.elseBody.None? && t.Return?
    ensures Right([s, t]) <==>
      Balanced(s.cond) && Balanced(t.result) && Safe(s.body, FRESH, true, true) && Pushed(s.body) == []
  {
    hide Balanced;
    WithReturn(s, t);
    assert Grown(FRESH, Pushed(s.body)) in Ends(s, FRESH);
    if Pushed(s.body) == [] {
      forall g | g in Ends(s, FRESH) ensures g.whole {
        if m :| m in Ends(s.body, FRESH) && g == Grown(m, []) {
          PushesNothing(s.body, FRESH, m);
        }
      }
    }
  }

  lemma {:induction false} PushesNothing(s: Stmt, h: Held, g: Held)
    requires Pushed(s) == [] && g in Ends(s, h)
    ensures g == h
    decreases s
  {
    match s
    case If(_, body, elseBody) =>
      if elseBody.Some? && g in Ends(elseBody.value, Grown(h, Pushed(body))) {
        PushesNothing(elseBody.value, Grown(h, Pushed(body)), g);
      } else if m :| m in Ends(body, h) && g == Grown(m, if elseBody.Some? then Pushed(elseBody.value) else []) {
        PushesNothing(body, h, m);
      }
    case _ =>
  }

  /** A declaration as the increment of a `for`: if no turn is made, its variable is
      destroyed without having been constructed. */
  lemma IncrementNeverRuns(s: Stmt, t: Stmt)
    requires s.For? && t.Return? && OptLocals(s.incr) != [] && Distinct([s, t])
    ensures !CleanRun(FunctionRun([s, t], OptAnswers(s.init) + [Force(s.fcond, false)]))
  {
    hide Did, Made, OptAnswers, Force, At, MadeAll;
    var none: Scopes := [[]];
    var o := OptAnswers(s.init) + [Force(s.fcond, false)];
    TwoMade(s, t);
    var x := IncrementFails(s, none, none, 0);
    FirstOverdraws(s, t, o, x);
  }

  lemma TwoMade(s: Stmt, t: Stmt)
    requires Distinct([s, t])
    ensures At(Made(s), [[]], [[]])
  {
    hide Made, Part;
    var stats := [s, t];
    Outermost(stats);
    assert stats[..1] == [s] && [s][..0] == [];
    assert MadeAll([s]) == MadeAll([]) + Made(s) && MadeAll(stats) == MadeAll([s]) + Made(t);
    AtLess(MadeAll(stats), [[]], [[]], Made(s));
  }

  lemma FirstOverdraws(s: Stmt, t: Stmt, o: Answers, x: Obj)
    requires Overdrawn(Did(s, o, [[]], 0).ev, [[]])
    ensures !CleanRun(FunctionRun([s, t], o))
  {
    hide Did, Overdrawn;
    var none: Scopes := [[]];
    var stats := [s, t];
    assert stats[..1] == [s] && [s][..0] == [];
    var r := Did(s, o, none, 0);
    PushTwice(none, [], []);
    assert DidSeq([s], o, none, 0).ev == [] + r.ev == r.ev;
    var ev := FunctionRun(stats, o).ev;
    assert r.ev <= ev;
    OverdrawnThen(r.ev, ev[|r.ev|..], none);
    assert ev == r.ev + ev[|r.ev|..];
    FailsBy(FunctionRun(stats, o), x, multiset{}, none);
    FailsUnclean(FunctionRun(stats, o), x, multiset{});
  }

  /** `while (a && f().m) { }`: the condition destroys what it has not constructed when
      `a` is false. */
  lemma SkippedInLoop(id: nat, other: nat, t: Stmt)
    requires t.Return?
    ensures var loop := While(And(Atom, Member(New(Atom, id), other)), Block([], true));
      !Right([loop, t]) && !CleanRun(FunctionRun([loop, t], [Answer(false, [])]))
  {
    hide Wrote, Overdrawn, Did, FunctionRun, DidLoop;
    var e, a := And(Atom, Member(New(Atom, id), other)), Answer(false, []);
    var loop, x := While(e, Block([], true)), Temp(other);
    var none: Scopes := [[]];
    SkippedTemporary(id, other);
    LoneWhile(loop, t);
    WhileDid(loop, [a], none, 0);
    assert [a] + [] == [a];
    LoopStartsWith(e, Block([], true), None, a, [], none + [[]]);
    var ev := Did(loop, [a], none, 0).ev;
    assert [Dtor(x)] <= ev;
    NOne(Dtor(x), x);
    Outermost([]);
    OverdrawnBy([Dtor(x)], none, x);
    OverdrawnThen([Dtor(x)], ev[1..], none);
    assert ev == [Dtor(x)] + ev[1..];
    FirstOverdraws(loop, t, [a], x);
  }

  lemma WhileDid(s: Stmt, o: Answers, scopes: Scopes, index: nat)
    requires s.While? && scopes != []
    ensures Did(s, o, scopes, index) == DidLoop(s.wcond, s.wbody, None, o, scopes + [[]])
  {
  }
}
