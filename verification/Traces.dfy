/** What runs come to, event by event: the simple statements for all expressions, and
    programs that go through every way a statement can be left. */
module Traces {
  import opened Wrappers
  import opened Lives
  import opened ExprSem
  import opened StatSem
  import opened StatWritten
  import opened StatRight
  import opened StatFunction

  // ---- functions of one simple statement

  lemma AtomRun(given: bool, a: Answer)
    ensures Eval(Atom, given, a) == Got([], [], [], a.truth) && TempsOf(Atom) == [] && SlotOf(Atom) == [] && Balanced(Atom)
    ensures Eval(Given(Atom), given, a).ev == [] && TempsOf(Given(Atom)) == []
  {
    assert Eval(Given(Atom), given, a) == Plus(Used(Eval(Atom, true, Of(a, 0))), Used(Eval(Atom, true, Of(a, 1))), a.truth);
    assert TempsOf(Given(Atom)) == TempsOf(Atom) + TempsOf(Atom);
  }

  lemma OneRun(s: Simple, a: Answer, b: Answer)
    ensures FunctionRun([Plain(s), Return(Atom)], [a, b]) == Ran(Wrote(SimpleWork(s), a) + Dtors(SimpleLocals(s)), Returns, [])
  {
    hide Wrote, Eval, TempsOf, SimpleWork, SimpleLocals;
    var none: Scopes := [[]];
    var stats, objs := [Plain(s), Return(Atom)], SimpleLocals(s);
    AtomRun(false, b);
    PushTwice(none, objs, []);
    DropOutermost(objs);
    assert [Plain(s)][..0] == [] && stats[..1] == [Plain(s)] && [a, b][1..] == [b] && [b][1..] == [];
    PushTwice(none, [], []);
    assert PushedAll([Plain(s)]) == [] + objs == objs;
    assert Did(Plain(s), [a, b], none, 0) == Ran(Wrote(SimpleWork(s), a), Normal, [b]);
    assert DidSeq([Plain(s)], [a, b], none, 0) == Ran([] + Wrote(SimpleWork(s), a), Normal, [b]);
    assert [] + Wrote(SimpleWork(s), a) == Wrote(SimpleWork(s), a);
    assert Did(Return(Atom), [b], Push(none, objs), 0) == Ran([] + Dtors(objs), Returns, []);
    assert [] + Dtors(objs) == Dtors(objs);
  }

  lemma OneRight(s: Simple)
    ensures Right([Plain(s), Return(Atom)]) <==> Settled(SimpleWork(s))
  {
    hide Settled, SimpleWork;
    AtomRun(false, Answer(true, []));
    WithReturn(Plain(s), Return(Atom));
    forall g | g in Ends(Plain(s), FRESH) ensures g.whole {
    }
  }

  /** Both sides are evaluated, the left one first, then assigned. If the value is a new
      object it ends right behind that, and temporaries end after it. */
  lemma AssignRuns(dst: Expr, src: Expr, a: Answer, b: Answer)
    ensures var r := FunctionRun([Plain(Assign(dst, src)), Return(Atom)], [a, b]);
      var ev, temps := Eval(dst, false, Of(a, 0)).ev + Eval(src, false, Of(a, 1)).ev, Dtors(TempsOf(dst) + TempsOf(src));
      && r.out == Returns
      && (src.New? ==> r.ev == ev + [Act, Dtor(Temp(src.id))] + temps)
      && (src.Choose? && src.slot.Some? ==> r.ev == ev + [Act, Dtor(Temp(src.slot.value))] + temps)
      && (!IsNew(src) && !src.Set? ==> r.ev == ev + [Act] + temps)
    ensures Right([Plain(Assign(dst, src)), Return(Atom)]) <==> Balanced(dst) && Balanced(src) && SlotOf(dst) == []
  {
    hide Eval, TempsOf, FunctionRun, Right;
    OneRun(Assign(dst, src), a, b);
    OneRight(Assign(dst, src));
    SetRuns(dst, src, a);
    var ev, temps, slot := Eval(dst, false, Of(a, 0)).ev + Eval(src, false, Of(a, 1)).ev, TempsOf(dst) + TempsOf(src), SlotOf(src);
    assert Wrote(SimpleWork(Assign(dst, src)), a) == ev + ([Act] + Dtors(temps + slot));
    assert Dtors(temps + slot) == Dtors(slot) + Dtors(temps);
    assert Dtors([]) == [];
  }

  lemma SetRuns(dst: Expr, src: Expr, a: Answer)
    ensures Eval(Set(dst, src), false, a).ev == Eval(dst, false, Of(a, 0)).ev + Eval(src, false, Of(a, 1)).ev
    ensures TempsOf(Set(dst, src)) == TempsOf(dst) + TempsOf(src) && SlotOf(Set(dst, src)) == SlotOf(src)
    ensures Balanced(Set(dst, src)) <==> Balanced(dst) && Balanced(src) && SlotOf(dst) == []
  {
  }

  /** A call that stands alone leaves nothing behind but its temporaries to destroy: a
      new object that it returns is lost. */
  lemma CallRuns(call: Expr, a: Answer, b: Answer)
    ensures var r := FunctionRun([Plain(Call(call)), Return(Atom)], [a, b]);
      r.out == Returns && r.ev == Eval(call, false, a).ev + [Act] + Dtors(TempsOf(call))
    ensures Right([Plain(Call(call)), Return(Atom)]) <==> Balanced(call) && SlotOf(call) == []
  {
    hide Eval, TempsOf, SlotOf, FunctionRun, Right;
    OneRun(Call(call), a, b);
    OneRight(Call(call));
    var ev, temps := Eval(call, false, a).ev, TempsOf(call);
    assert Wrote(SimpleWork(Call(call)), a) == ev + ([Act] + Dtors(temps + []));
    assert temps + [] == temps && Dtors([]) == [];
    assert ev + [Act] + Dtors(temps) == ev + ([Act] + Dtors(temps)) + [];
  }

  /** The initial value is built in the variable, which is destroyed last. */
  lemma DeclareRuns(x: nat, start: Expr, a: Answer, b: Answer)
    ensures var r := FunctionRun([Plain(Declare(x, start)), Return(Atom)], [a, b]);
      r.out == Returns && r.ev == Eval(start, true, Of(a, 0)).ev + [Ctor(Local(x))] + Dtors(TempsOf(start)) + [Dtor(Local(x))]
    ensures Right([Plain(Declare(x, start)), Return(Atom)]) <==> Balanced(start)
  {
    hide Eval, TempsOf, FunctionRun, Right;
    OneRun(Declare(x, start), a, b);
    OneRight(Declare(x, start));
    GivenRuns(start, a);
    var ev, temps := Eval(start, true, Of(a, 0)).ev, TempsOf(start);
    assert Wrote(SimpleWork(Declare(x, start)), a) == ev + ([Ctor(Local(x))] + Dtors(temps + []));
    assert temps + [] == temps && Dtors([Local(x)]) == [Dtor(Local(x))];
    assert ev + [Ctor(Local(x))] + Dtors(temps) == ev + ([Ctor(Local(x))] + Dtors(temps));
  }

  lemma GivenRuns(e: Expr, a: Answer)
    ensures Eval(Given(e), false, a).ev == Eval(e, true, Of(a, 0)).ev
    ensures TempsOf(Given(e)) == TempsOf(e) && SlotOf(Given(e)) == [] && (Balanced(Given(e)) <==> Balanced(e))
  {
    hide Balanced;
    AtomRun(true, Of(a, 1));
    GivenMakes(e, a);
    var g := Eval(e, true, Of(a, 0));
    assert g.ev + [] == g.ev;
    assert Eval(Given(e), false, a).ev == g.ev + Eval(Atom, true, Of(a, 1)).ev;
  }

  /** The result is built where the caller wants it, and temporaries end before the
      function returns. */
  lemma ReturnRuns(e: Expr, a: Answer)
    ensures var r := FunctionRun([Return(e)], [a]); r.out == Returns && r.ev == Eval(e, true, Of(a, 0)).ev + Dtors(TempsOf(e))
    ensures Right([Return(e)]) <==> Balanced(e)
  {
    hide Eval, TempsOf, Balanced;
    var none: Scopes := [[]];
    assert [Return(e)][..0] == [] && [a][1..] == [];
    PushTwice(none, [], []);
    GivenRuns(e, a);
    DropOutermost(TempsOf(e));
    assert Did(Return(e), [a], none, 0) == Ran(Eval(e, true, Of(a, 0)).ev + Dtors(TempsOf(e)), Returns, []);
    assert DidSeq([], [a], none, 0) == Ran([], Normal, [a]);
    OneSafe(Return(e));
    ReturnSafe(Return(e));
  }

  /** `x = f();` destroys what `f` returned, once, and `f();` does not. */
  lemma AssignedAndDropped(id: nat, a: Answer, b: Answer)
    ensures FunctionRun([Plain(Assign(Atom, New(Atom, id))), Return(Atom)], [a, b]) ==
      Ran([Ctor(Temp(id)), Act, Dtor(Temp(id))], Returns, [])
    ensures Right([Plain(Assign(Atom, New(Atom, id))), Return(Atom)])
    ensures FunctionRun([Plain(Call(New(Atom, id))), Return(Atom)], [a, b]) == Ran([Ctor(Temp(id)), Act], Returns, [])
    ensures !Right([Plain(Call(New(Atom, id))), Return(Atom)])
  {
    hide FunctionRun, Right, Eval, SimpleWork, SimpleLocals, Wrote, Balanced;
    OneRun(Assign(Atom, New(Atom, id)), a, b);
    OneRun(Call(New(Atom, id)), a, b);
    AssignRuns(Atom, New(Atom, id), a, b);
    CallRuns(New(Atom, id), a, b);
    NewRuns(id, a);
    NewRuns(id, Of(a, 1));
    AtomRun(false, Of(a, 0));
    assert Dtors([]) == [] && Dtors([] + []) == [];
  }

  lemma NewRuns(id: nat, a: Answer)
    ensures Eval(New(Atom, id), false, a).ev == [Ctor(Temp(id))] && TempsOf(New(Atom, id)) == [] && Balanced(New(Atom, id))
    ensures SlotOf(New(Atom, id)) == [Temp(id)]
    ensures Eval(New(Atom, id), true, a).ev == []
  {
    AtomRun(true, Of(a, 0));
    assert Used(Eval(Atom, true, Of(a, 0))).ev == [];
  }

  // ---- expressions in statements

  lemma EmptyRuns(o: Answers, scopes: Scopes, index: nat)
    requires scopes != []
    ensures Did(Block([], true), o, scopes, index) == Ran([], Normal, o)
  {
    assert Dtors([]) == [];
  }

  lemma ThenReturn(s: Stmt, o: Answers, r: Ran, b: Answer)
    requires Did(s, o, [[]], 0) == r && r.out == Normal && r.rest == [b] && Pushed(s) == []
    ensures FunctionRun([s, Return(Atom)], o) == Ran(r.ev, Returns, [])
  {
    hide Did, Eval, TempsOf;
    var none: Scopes := [[]];
    var stats := [s, Return(Atom)];
    assert [s][..0] == [] && stats[..1] == [s] && [b][1..] == [];
    PushTwice(none, [], []);
    assert DidSeq([s], o, none, 0) == Ran([] + r.ev, Normal, [b]);
    assert [] + r.ev == r.ev;
    assert PushedAll([s]) == [] + [] == [];
    ReturnAtom(b);
    assert r.ev + [] == r.ev;
  }

  lemma ReturnAtom(b: Answer)
    ensures Did(Return(Atom), [b], [[]], 0) == Ran([], Returns, [])
  {
    AtomRun(false, b);
    PushTwice([[]], [], []);
    DropOutermost([]);
    assert Dtors([]) == [] && [b][1..] == [];
  }

  /** A condition is evaluated; a new object in its place ends as soon as its truth is
      known, and temporaries end before the branch. */
  lemma ConditionRuns(e: Expr, a: Answer, b: Answer)
    ensures var r := FunctionRun([If(e, Block([], true), None), Return(Atom)], [a, b]);
      && r.out == Returns
      && (e.New? ==> r.ev == Eval(e, false, a).ev + [Dtor(Temp(e.id))] + Dtors(TempsOf(e)))
      && (SlotOf(e) == [] ==> r.ev == Eval(e, false, a).ev + Dtors(TempsOf(e)))
  {
    hide Eval, TempsOf, FunctionRun, Wrote, Did, SlotOf;
    var s := If(e, Block([], true), None);
    EmptyIf(e, a, b);
    ConditionIs(e, a);
    ThenReturn(s, [a, b], Did(s, [a, b], [[]], 0), b);
  }

  lemma EmptyIf(e: Expr, a: Answer, b: Answer)
    ensures Did(If(e, Block([], true), None), [a, b], [[]], 0) == Ran(Wrote(Condition(e), a), Normal, [b])
    ensures Pushed(If(e, Block([], true), None)) == []
  {
    hide Wrote, Holds;
    EmptyRuns([b], [[]], 0);
    assert [a, b][1..] == [b];
    assert Wrote(Condition(e), a) + [] == Wrote(Condition(e), a);
  }

  lemma ConditionIs(e: Expr, a: Answer)
    ensures Wrote(Condition(e), a) == Eval(e, false, a).ev + Dtors(SlotOf(e)) + Dtors(TempsOf(e))
    ensures SlotOf(e) == [] ==> Wrote(Condition(e), a) == Eval(e, false, a).ev + Dtors(TempsOf(e))
    ensures e.New? ==> Wrote(Condition(e), a) == Eval(e, false, a).ev + [Dtor(Temp(e.id))] + Dtors(TempsOf(e))
  {
    hide Eval, TempsOf;
    var ev, temps, slot := Eval(e, false, a).ev, TempsOf(e), SlotOf(e);
    assert Wrote(Condition(e), a) == ev + ([] + Dtors(temps + slot));
    assert Dtors(temps + slot) == Dtors(slot) + Dtors(temps) && Dtors([]) == [];
    assert ev + Dtors(slot) + Dtors(temps) == ev + ([] + (Dtors(slot) + Dtors(temps)));
    assert ev + [] == ev;
  }

  /** The value of a switch is kept until its end; tests end one by one. */
  lemma SwitchRuns(e: Expr, test: Expr, a: Answer, b: Answer, c: Answer)
    ensures var r := FunctionRun([Switch(e, [Case(Some(test), Block([], true))], false), Return(Atom)], [a, b, c]);
      && r.out == Returns
      && r.ev == Eval(e, true, Of(a, 0)).ev + [Act] + Eval(test, true, Of(b, 0)).ev + Dtors(TempsOf(test)) + Dtors(TempsOf(e))
  {
    hide Eval, TempsOf, FunctionRun, Dispatch, Did, Value;
    var cases, none: Scopes := [Case(Some(test), Block([], true))], [[]];
    var s, o := Switch(e, cases, false), [a, b, c];
    var v, t := Value(e, a), Eval(test, true, Of(b, 0)).ev + Dtors(TempsOf(test));
    GivenRuns(e, a);
    GivenRuns(test, b);
    assert o[1..] == [b, c];
    assert v == Eval(e, true, Of(a, 0)).ev + [Act] by {
      ValueRuns(e, a);
    }
    TestRuns(test, b);
    OneTest(test, Block([], true), b, c);
    EmptyRuns([c], none + [TempsOf(e)] + [[]], 2);
    SwitchParts(s, o, none, 0);
    assert t + [] == t;
    assert Inside(s, [b, c], none + [TempsOf(e)]) == Ran(t, Normal, [c]);
    assert v + t + Dtors(TempsOf(e)) == Eval(e, true, Of(a, 0)).ev + [Act] + Eval(test, true, Of(b, 0)).ev + Dtors(TempsOf(test)) + Dtors(TempsOf(e));
    ThenReturn(s, o, Did(s, o, none, 0), c);
  }

  lemma ValueRuns(e: Expr, a: Answer)
    ensures Value(e, a) == Eval(e, true, Of(a, 0)).ev + [Act]
  {
    GivenRuns(e, a);
  }

  lemma OneTest(test: Expr, body: Stmt, b: Answer, c: Answer)
    ensures var d := Dispatch([Case(Some(test), body)], 0, [b, c], true);
      d.ev == Wrote(CaseTest(test), b) && d.out == Normal && d.rest == [c] && d.target <= 1
  {
    hide Holds, Wrote;
    var cases := [Case(Some(test), body)];
    assert [b, c][1..] == [c] && cases[1..] == [];
    assert Dispatch(cases, 1, [c], true) == Dispatched([], Normal, 1, [c]);
    assert Wrote(CaseTest(test), b) + [] == Wrote(CaseTest(test), b);
  }

  lemma TestRuns(test: Expr, b: Answer)
    ensures Wrote(CaseTest(test), b) == Eval(test, true, Of(b, 0)).ev + Dtors(TempsOf(test))
  {
    hide Eval, TempsOf;
    GivenRuns(test, b);
    var temps := TempsOf(test);
    assert temps + [] == temps && [] + Dtors(temps) == Dtors(temps);
  }

  // ---- expressions

  /** The order of evaluation: operands and arguments from the left, an object behind
      its parts, a member behind its object. */
  lemma OperandsRun(a: Answer)
    ensures var f, g := Member(New(Atom, 1), 2), Member(New(Atom, 3), 4);
      && Eval(f, false, a).ev == [Ctor(Temp(2))] && TempsOf(f) == [Temp(2)]
      && Eval(Both(f, g), false, a).ev == [Ctor(Temp(2)), Ctor(Temp(4))]
      && Eval(Args(f, g), true, a).ev == [Ctor(Temp(2)), Ctor(Temp(4))]
      && Eval(Set(f, g), false, a).ev == [Ctor(Temp(2)), Ctor(Temp(4))]
      && Eval(New(f, 5), false, a).ev == [Ctor(Temp(2)), Ctor(Temp(5))]
      && Eval(Member(New(f, 5), 6), false, a).ev == [Ctor(Temp(2)), Ctor(Temp(6))]
      && TempsOf(Member(New(f, 5), 6)) == [Temp(2), Temp(6)]
      && Eval(Member(Atom, 7), false, a).ev == [] && TempsOf(Member(Atom, 7)) == []
      && TempsOf(And(f, g)) == TempsOf(Or(f, g)) == TempsOf(Choose(Not(f), g, Atom, None)) == [Temp(2), Temp(4)]
  {
    hide Eval, TempsOf;
    VariableRuns(7, a);
    BranchTemps(Member(New(Atom, 1), 2), Member(New(Atom, 3), 4));
    forall given: bool, b: Answer
      ensures Eval(Member(New(Atom, 1), 2), given, b).ev == [Ctor(Temp(2))] && TempsOf(Member(New(Atom, 1), 2)) == [Temp(2)]
      ensures Eval(Member(New(Atom, 3), 4), given, b).ev == [Ctor(Temp(4))] && TempsOf(Member(New(Atom, 3), 4)) == [Temp(4)]
    {
      MemberRuns(1, 2, given, b);
      MemberRuns(3, 4, given, b);
    }
    PairRuns(Member(New(Atom, 1), 2), Member(New(Atom, 3), 4), a);
    PartsRun(Member(New(Atom, 1), 2), 5, 6, a);
  }

  /** A member of what has a place already makes no object. */
  lemma VariableRuns(other: nat, a: Answer)
    ensures Eval(Member(Atom, other), false, a).ev == [] && TempsOf(Member(Atom, other)) == []
  {
    AtomRun(true, Of(a, 0));
  }

  lemma BranchTemps(e: Expr, f: Expr)
    ensures TempsOf(And(e, f)) == TempsOf(Or(e, f)) == TempsOf(Choose(Not(e), f, Atom, None)) == TempsOf(e) + TempsOf(f)
  {
    ChoiceTemps(Not(e), f, Atom);
    NotTemps(e);
    var temps := TempsOf(e) + TempsOf(f);
    assert temps + [] == temps;
  }

  lemma ChoiceTemps(e: Expr, f: Expr, g: Expr)
    ensures TempsOf(Choose(e, f, g, None)) == TempsOf(e) + TempsOf(f) + TempsOf(g)
  {
  }

  lemma NotTemps(e: Expr)
    ensures TempsOf(Not(e)) == TempsOf(e) && TempsOf(Atom) == [] && TempsOf(e) + [] == TempsOf(e)
  {
  }

  lemma MemberRuns(id: nat, other: nat, given: bool, a: Answer)
    ensures var e := Member(New(Atom, id), other);
      Eval(e, given, a) == Got([Ctor(Temp(other))], [Temp(other)], [], a.truth) && TempsOf(e) == [Temp(other)]
  {
    NewRuns(id, Of(a, 0));
    EvalMakes(New(Atom, id), true, Of(a, 0));
    AtomRun(true, Of(Of(a, 0), 0));
    assert Eval(New(Atom, id), true, Of(a, 0)).made == [];
  }

  lemma PairRuns(e: Expr, f: Expr, a: Answer)
    ensures Eval(Both(e, f), false, a).ev == Eval(e, false, Of(a, 0)).ev + Eval(f, false, Of(a, 1)).ev
    ensures Eval(Set(e, f), false, a).ev == Eval(e, false, Of(a, 0)).ev + Eval(f, false, Of(a, 1)).ev
    ensures Eval(Args(e, f), true, a).ev == Eval(e, true, Of(a, 0)).ev + Eval(f, true, Of(a, 1)).ev
  {
  }

  lemma PartsRun(e: Expr, id: nat, other: nat, a: Answer)
    ensures Eval(New(e, id), false, a).ev == Eval(e, true, Of(a, 0)).ev + [Ctor(Temp(id))]
    ensures Eval(Member(New(e, id), other), false, a).ev == Eval(e, true, Of(Of(a, 0), 0)).ev + [Ctor(Temp(other))]
    ensures TempsOf(Member(New(e, id), other)) == TempsOf(e) + [Temp(other)]
  {
  }

  /** The right operand is evaluated only if the left one has not decided. */
  lemma ShortCircuits(p: Answer, q: Answer)
    ensures var f, g, a := Member(New(Atom, 1), 2), Member(New(Atom, 3), 4), Answer(true, [p, q]);
      && Eval(And(f, g), false, a).ev == (if p.truth then [Ctor(Temp(2)), Ctor(Temp(4))] else [Ctor(Temp(2))])
      && Eval(Or(f, g), false, a).ev == (if p.truth then [Ctor(Temp(2))] else [Ctor(Temp(2)), Ctor(Temp(4))])
      && Eval(And(f, g), false, a).truth == (p.truth && q.truth) && Eval(Or(f, g), false, a).truth == (p.truth || q.truth)
  {
    hide Eval, Of;
    var f, g, a := Member(New(Atom, 1), 2), Member(New(Atom, 3), 4), Answer(true, [p, q]);
    PartsOf(p, q);
    MemberTested(1, 2, p);
    MemberTested(3, 4, q);
    BranchesRun(f, g, a);
  }

  /** Where a truth is wanted, a new object ends at once. */
  lemma NegationRuns(p: Answer, q: Answer)
    ensures var a := Answer(true, [p, q]);
      && Eval(Not(Member(New(Atom, 1), 2)), false, a).ev == [Ctor(Temp(2))] && Eval(Not(Member(New(Atom, 1), 2)), false, a).truth == !p.truth
      && Eval(Not(New(Atom, 1)), false, a).ev == [Ctor(Temp(1)), Dtor(Temp(1))]
  {
    hide Eval, Of;
    var a := Answer(true, [p, q]);
    PartsOf(p, q);
    MemberTested(1, 2, p);
    BranchesRun(Member(New(Atom, 1), 2), Atom, a);
    BranchesRun(New(Atom, 1), Atom, a);
    NewRuns(1, p);
    EvalMakes(New(Atom, 1), false, p);
    assert Dtors([Temp(1)]) == [Dtor(Temp(1))];
  }

  lemma PartsOf(p: Answer, q: Answer)
    ensures Of(Answer(true, [p, q]), 0) == p && Of(Answer(true, [p, q]), 1) == q
  {
  }

  lemma MemberTested(id: nat, other: nat, a: Answer)
    ensures var g := Tested(Eval(Member(New(Atom, id), other), false, a)); g.ev == [Ctor(Temp(other))] && g.truth == a.truth
  {
    MemberRuns(id, other, false, a);
    assert Dtors([]) == [];
  }

  lemma BranchesRun(f: Expr, g: Expr, a: Answer)
    ensures var l, r := Tested(Eval(f, false, Of(a, 0))), Tested(Eval(g, false, Of(a, 1)));
      && Eval(And(f, g), false, a) == (if l.truth then Plus(l, r, r.truth) else l)
      && Eval(Or(f, g), false, a) == (if l.truth then l else Plus(l, r, r.truth))
      && Eval(Not(f), false, a) == l.(truth := !l.truth)
  {
  }

  /** Of the branches of a conditional one is evaluated, into the place of the result,
      which is a new object if there is nowhere else to put it. */
  lemma ConditionalRuns(t: Answer, p: Answer)
    ensures var f, g, a := Member(New(Atom, 1), 2), Member(New(Atom, 3), 4), Answer(true, [t, p, p]);
      && Eval(Choose(Atom, f, g, None), false, a).ev == (if t.truth then [Ctor(Temp(2))] else [Ctor(Temp(4))])
      && Eval(Choose(Atom, f, g, None), false, a).truth == p.truth
      && Eval(Choose(Atom, New(Atom, 1), New(Atom, 3), Some(5)), false, a).ev == [Ctor(Temp(5))]
      && Eval(Choose(Atom, New(Atom, 1), New(Atom, 3), Some(5)), true, a).ev == []
  {
    hide Eval;
    var f, g, a := Member(New(Atom, 1), 2), Member(New(Atom, 3), 4), Answer(true, [t, p, p]);
    assert Of(a, 0) == t && Of(a, 1) == p && Of(a, 2) == p;
    MemberRuns(1, 2, true, p);
    MemberRuns(3, 4, true, p);
    NewRuns(1, p);
    NewRuns(3, p);
    ChoiceRuns(f, g, None, false, a);
    ChoiceRuns(New(Atom, 1), New(Atom, 3), Some(5), false, a);
    ChoiceRuns(New(Atom, 1), New(Atom, 3), Some(5), true, a);
  }

  lemma ChoiceRuns(f: Expr, g: Expr, slot: Option<nat>, given: bool, a: Answer)
    ensures var branch := if Of(a, 0).truth then Eval(f, true, Of(a, 1)) else Eval(g, true, Of(a, 2));
      && Eval(Choose(Atom, f, g, slot), given, a).ev == branch.ev + (if given || slot.None? then [] else [Ctor(Temp(slot.value))])
      && Eval(Choose(Atom, f, g, slot), given, a).truth == branch.truth
  {
    hide Eval;
    hide Used, Plus, Tested, Of;
    var branch := if Of(a, 0).truth then Eval(f, true, Of(a, 1)) else Eval(g, true, Of(a, 2));
    ChooseIs(Choose(Atom, f, g, slot), given, a);
    AtomTested(Of(a, 0), branch);
  }

  lemma AtomTested(a: Answer, branch: Got)
    ensures var test := Tested(Eval(Atom, false, a)); test.truth == a.truth && Plus(test, Used(branch), branch.truth).ev == branch.ev
    ensures Used(branch).truth == branch.truth
  {
    AtomRun(false, a);
    assert Dtors([]) == [];
  }

  lemma ChooseIs(e: Expr, given: bool, a: Answer)
    requires e.Choose?
    ensures var g := Tested(Eval(e.test, false, Of(a, 0)));
      var h := Used(if g.truth then Eval(e.troo, true, Of(a, 1)) else Eval(e.fols, true, Of(a, 2)));
      && Eval(e, given, a).ev == Constructed(Plus(g, h, h.truth), if given then [] else SlotOf(e))
      && Eval(e, given, a).truth == h.truth
  {
  }

  // ---- statements

  /** The next answer. */
  function On(v: bool, o: Answers): (r: Answers)
    ensures r != [] && r[0].truth == v && r[1..] == o
  {
    [Answer(v, [])] + o
  }

  /** A block that only shows that it was run. */
  function Mark(k: nat): Stmt {
    Block([Plain(Declare(k, Atom))], true)
  }

  function Marked(k: nat): seq<Event> {
    [Ctor(Local(k)), Dtor(Local(k))]
  }

  /** `if (..) { jump; }`. */
  function JumpIf(jump: Stmt): Stmt {
    If(Atom, Block([jump], false), None)
  }

  lemma AtomExec(v: bool, o: Answers)
    ensures Holds(Atom, On(v, o)[0]) == v && Meant(Condition(Atom), On(v, o)[0]) == []
    ensures Holds(Given(Atom), On(v, o)[0]) == v && Meant(CaseTest(Atom), On(v, o)[0]) == []
  {
    AtomRun(false, On(v, o)[0]);
    AtomRun(true, Of(On(v, o)[0], 0));
    AtomRun(true, Of(On(v, o)[0], 1));
    assert Dtors([]) == [];
  }

  lemma OnAgain(v: bool, o: Answers)
    ensures On(v, o)[1..] == o && On(v, o) != []
  {
  }

  lemma MarkRuns(k: nat, v: bool, o: Answers)
    ensures Exec(Mark(k), On(v, o)) == Course(Marked(k), Normal, o, [])
  {
    hide Eval, TempsOf;
    var stats, a := [Plain(Declare(k, Atom))], On(v, o)[0];
    AtomRun(true, Of(a, 0));
    AtomRun(true, Of(a, 1));
    DeclareMeant(k, a);
    assert stats[..0] == [];
    assert Exec(stats[0], On(v, o)) == Course([Ctor(Local(k))], Normal, o, [Local(k)]);
    assert ExecSeq([], On(v, o)) == Course([], Normal, On(v, o), []);
    assert ExecSeq(stats, On(v, o)) == Course([] + [Ctor(Local(k))], Normal, o, [] + [Local(k)]);
    assert Dtors([Local(k)]) == [Dtor(Local(k))];
  }

  lemma DeclareMeant(k: nat, a: Answer)
    ensures Meant(SimpleWork(Declare(k, Atom)), a) == [Ctor(Local(k))]
  {
    AtomRun(true, Of(a, 0));
    AtomRun(true, Of(a, 1));
    AtomRun(false, a);
    GivenMakes(Atom, a);
    assert Dtors([]) == [];
  }

  lemma JumpIfRuns(jump: Stmt, v: bool, o: Answers)
    requires jump.Break? || jump.Continue?
    ensures Exec(JumpIf(jump), On(v, o)) == Course([], if !v then Normal else if jump.Break? then Breaks else Continues, o, [])
  {
    hide Eval, Meant, Holds;
    AtomExec(v, o);
    var block := Block([jump], false);
    assert [jump][..0] == [] && Dtors([]) == [];
    assert ExecSeq([], o) == Course([], Normal, o, []);
    assert ExecSeq([jump], o) == Exec(jump, o);
    assert Exec(block, o) == Exec(jump, o);
  }

  /** The last statement of a sequence. */
  lemma Last(front: seq<Stmt>, s: Stmt, stats: seq<Stmt>, o: Answers, r1: Course, r2: Course)
    requires stats == front + [s] && ExecSeq(front, o) == r1 && (r1.out == Normal ==> Exec(s, r1.rest) == r2)
    ensures ExecSeq(stats, o) == if r1.out == Normal then Then(r1, r2) else r1
  {
    hide Exec;
    assert (front + [s])[..|front|] == front;
  }

  /** `if (..) { continue; } { mark 1 } if (..) { break; } { mark 2 }`. */
  const TURN := Block([JumpIf(Continue), Mark(1), JumpIf(Break), Mark(2)], true)

  lemma TurnContinues(o: Answers)
    ensures Exec(TURN, On(true, o)) == Course([], Continues, o, [])
  {
    hide Exec, ExecSeq, JumpIf, Mark, On;
    var s, c, all := TURN.stats, Course([], Continues, o, []), On(true, o);
    Starts(all);
    JumpIfRuns(Continue, true, o);
    Last([], s[0], [s[0]], all, Course([], Normal, all, []), c);
    Last([s[0]], s[1], [s[0], s[1]], all, c, c);
    Last([s[0], s[1]], s[2], [s[0], s[1], s[2]], all, c, c);
    Last([s[0], s[1], s[2]], s[3], s, all, c, c);
    Leaves(s, all);
  }

  lemma Starts(o: Answers)
    ensures ExecSeq([], o) == Course([], Normal, o, [])
  {
  }

  lemma Leaves(stats: seq<Stmt>, o: Answers)
    ensures ExecSeq(stats, o).locals == [] ==> Exec(Block(stats, true), o) == ExecSeq(stats, o)
  {
    hide ExecSeq;
    assert Dtors([]) == [];
  }

  lemma TurnGoesOn(m: bool, brk: bool, o: Answers)
    ensures brk ==> Exec(TURN, On(false, On(m, On(brk, o)))) == Course(Marked(1), Breaks, o, [])
    ensures !brk ==> Exec(TURN, On(false, On(m, On(brk, On(m, o))))) == Course(Marked(1) + Marked(2), Normal, o, [])
  {
    hide Exec, ExecSeq, JumpIf, Mark, On, Marked;
    var s, rest := TURN.stats, if brk then o else On(m, o);
    var all := On(false, On(m, On(brk, rest)));
    var first, second := Course([], Normal, On(m, On(brk, rest)), []), Course(Marked(1), Normal, On(brk, rest), []);
    var third := Course(Marked(1), if brk then Breaks else Normal, rest, []);
    Starts(all);
    JumpIfRuns(Continue, false, On(m, On(brk, rest)));
    Last([], s[0], [s[0]], all, Course([], Normal, all, []), first);
    MarkRuns(1, m, On(brk, rest));
    Last([s[0]], s[1], [s[0], s[1]], all, first, second);
    assert Then(first, second) == second;
    JumpIfRuns(Break, brk, rest);
    Last([s[0], s[1]], s[2], [s[0], s[1], s[2]], all, second, third.(ev := []));
    assert Then(second, third.(ev := [])) == third;
    MarkRuns(2, m, o);
    Last([s[0], s[1], s[2]], s[3], s, all, third, Course(Marked(2), Normal, o, []));
    Leaves(s, all);
  }

  /** Behind the body, and behind a `continue`, comes the increment, then the condition. */
  lemma LoopGoesOn(body: Stmt, incr: Option<Simple>, i: bool, o: Answers, r: Course, rest: Answers)
    requires incr == None || incr == Some(Call(Atom))
    requires Exec(body, o) == r && r.locals == [] && (r.out == Normal || r.out == Continues)
    requires r.rest == if incr.Some? then On(i, rest) else rest
    ensures Loop(Atom, body, incr, On(true, o)) ==
      Then(Course(r.ev + if incr.Some? then [Act] else [], Normal, rest, []), Loop(Atom, body, incr, rest))
  {
    hide Exec, On, Meant, Holds, OptRun, Then;
    AtomExec(true, o);
    OnAgain(true, o);
    IncrRuns(incr, i, r.rest, rest);
    assert Dtors([]) == [];
    var turn := Course([] + (r.ev + []), r.out, r.rest, []);
    assert [] + (r.ev + []) == r.ev;
    assert Loop(Atom, body, incr, On(true, o)) == NextLoop(Atom, body, incr, turn);
    NextIs(body, incr, turn, rest);
  }

  lemma IncrRuns(incr: Option<Simple>, i: bool, o: Answers, rest: Answers)
    requires incr == None || incr == Some(Call(Atom))
    requires o == if incr.Some? then On(i, rest) else rest
    ensures OptRun(incr, o, false) == Course(if incr.Some? then [Act] else [], Normal, rest, [])
  {
    if incr.Some? {
      AtomRun(false, o[0]);
      assert Dtors([]) == [];
    }
  }

  lemma NextIs(body: Stmt, incr: Option<Simple>, turn: Course, rest: Answers)
    requires turn.locals == []
    requires OptRun(incr, turn.rest, false) == Course(if incr.Some? then [Act] else [], Normal, rest, [])
    ensures NextLoop(Atom, body, incr, turn) ==
      Then(Course(turn.ev + if incr.Some? then [Act] else [], Normal, rest, []), Loop(Atom, body, incr, rest))
  {
    hide OptRun, Loop;
    assert Dtors([]) == [];
    var act := if incr.Some? then [Act] else [];
    assert act + [] == act;
  }

  lemma LoopStops(body: Stmt, incr: Option<Simple>, o: Answers, ev: seq<Event>, rest: Answers)
    ensures Loop(Atom, body, incr, On(false, o)) == Course([], Normal, o, [])
    ensures Exec(body, o) == Course(ev, Breaks, rest, []) ==> Loop(Atom, body, incr, On(true, o)) == Course(ev, Normal, rest, [])
  {
    hide Exec, On, Meant, Holds, OptRun, Then, NextLoop;
    AtomExec(false, o);
    AtomExec(true, o);
    OnAgain(true, o);
    OnAgain(false, o);
    assert Dtors([]) == [] && [] + (ev + []) == ev;
  }

  /** A loop of three turns: one that continues, one that goes on to its end, and one
      that breaks. */
  lemma WhileRuns(m: bool, o: Answers)
    ensures Exec(While(Atom, TURN), On(true, On(true, On(true, On(false, On(m, On(false, On(m, On(true, On(false, On(m, On(true, o)))))))))))) ==
      Course([Ctor(Local(1)), Dtor(Local(1)), Ctor(Local(2)), Dtor(Local(2)), Ctor(Local(1)), Dtor(Local(1))], Normal, o, [])
  {
    hide Exec, Loop, On, TURN;
    var o3 := On(true, On(false, On(m, On(true, o))));
    var o2 := On(true, On(false, On(m, On(false, On(m, o3)))));
    TurnGoesOn(m, true, o);
    LoopStops(TURN, None, o3[1..], Marked(1), o);
    OnAgain(true, On(false, On(m, On(true, o))));
    TurnGoesOn(m, false, o3);
    LoopGoesOn(TURN, None, m, On(false, On(m, On(false, On(m, o3)))), Course(Marked(1) + Marked(2), Normal, o3, []), o3);
    TurnContinues(o2);
    LoopGoesOn(TURN, None, m, On(true, o2), Course([], Continues, o2, []), o2);
    WhileIs(TURN, On(true, On(true, o2)));
  }

  lemma WhileIs(body: Stmt, o: Answers)
    ensures Exec(While(Atom, body), o) == Loop(Atom, body, None, o)
  {
  }

  /** The increment is run behind every turn, also one that continues, and what the
      start declares ends with the loop. */
  lemma ForRuns(m: bool, o: Answers)
    ensures Exec(For(Some(Declare(0, Atom)), Atom, Some(Call(Atom)), TURN),
                 On(m, On(true, On(true, On(m, On(true, On(false, On(m, On(false, On(m, On(m, On(false, o)))))))))))) ==
      Course([Ctor(Local(0)), Act, Ctor(Local(1)), Dtor(Local(1)), Ctor(Local(2)), Dtor(Local(2)), Act, Dtor(Local(0))], Normal, o, [])
  {
    hide Exec, Loop, On, TURN;
    var o2 := On(true, On(false, On(m, On(false, On(m, On(m, On(false, o)))))));
    TurnsRun(m, o);
    ForIs(TURN, Some(Call(Atom)), m, On(true, On(true, On(m, o2))));
  }

  lemma TurnsRun(m: bool, o: Answers)
    ensures Loop(Atom, TURN, Some(Call(Atom)), On(true, On(true, On(m, On(true, On(false, On(m, On(false, On(m, On(m, On(false, o))))))))))) ==
      Course([Act, Ctor(Local(1)), Dtor(Local(1)), Ctor(Local(2)), Dtor(Local(2)), Act], Normal, o, [])
  {
    hide Exec, Loop, On, TURN, Marked;
    var incr := Some(Call(Atom));
    var o3 := On(false, o);
    var body2 := On(false, On(m, On(false, On(m, On(m, o3)))));
    var o2 := On(true, body2);
    LoopStops(TURN, incr, o, [], []);
    TurnGoesOn(m, false, On(m, o3));
    LoopGoesOn(TURN, incr, m, body2, Course(Marked(1) + Marked(2), Normal, On(m, o3), []), o3);
    assert Loop(Atom, TURN, incr, o2) == Course(Marked(1) + Marked(2) + [Act], Normal, o, []);
    TurnContinues(On(m, o2));
    LoopGoesOn(TURN, incr, m, On(true, On(m, o2)), Course([], Continues, On(m, o2), []), o2);
    TwoMarked();
  }

  lemma TwoMarked()
    ensures [] + [Act] + (Marked(1) + Marked(2) + [Act]) == [Act, Ctor(Local(1)), Dtor(Local(1)), Ctor(Local(2)), Dtor(Local(2)), Act]
  {
  }

  lemma ForIs(body: Stmt, incr: Option<Simple>, m: bool, o: Answers)
    requires Loop(Atom, body, incr, o).out == Normal && Loop(Atom, body, incr, o).locals == []
    ensures var l := Loop(Atom, body, incr, o);
      Exec(For(Some(Declare(0, Atom)), Atom, incr, body), On(m, o)) == Course([Ctor(Local(0))] + l.ev + [Dtor(Local(0))], Normal, l.rest, [])
  {
    hide Loop, Meant;
    var l := Loop(Atom, body, incr, o);
    OnAgain(m, o);
    DeclareMeant(0, On(m, o)[0]);
    assert [Local(0)] + [] == [Local(0)] && Dtors([Local(0)]) == [Dtor(Local(0))];
  }

  /** One branch or the other. */
  lemma IfRuns(m: bool, o: Answers)
    ensures Exec(If(Atom, Mark(1), Some(Mark(2))), On(true, On(m, o))) == Course([Ctor(Local(1)), Dtor(Local(1))], Normal, o, [])
    ensures Exec(If(Atom, Mark(1), Some(Mark(2))), On(false, On(m, o))) == Course([Ctor(Local(2)), Dtor(Local(2))], Normal, o, [])
    ensures Exec(If(Atom, Mark(1), None), On(false, o)) == Course([], Normal, o, [])
  {
    hide Mark, On, Meant, Holds;
    AtomExec(true, On(m, o));
    AtomExec(false, On(m, o));
    AtomExec(false, o);
    OnAgain(true, On(m, o));
    OnAgain(false, On(m, o));
    OnAgain(false, o);
    MarkRuns(1, m, o);
    MarkRuns(2, m, o);
    assert [] + Marked(1) == Marked(1) && Marked(2) == [] + Marked(2);
  }

  /** `{ mark } return;` in a loop in a block: returning leaves all scopes, the innermost
      one first. */
  lemma ReturnLeavesAll(m: bool, o: Answers)
    ensures var inner := Block([Plain(Declare(2, Atom)), Return(Atom)], false);
      Exec(Block([Plain(Declare(1, Atom)), While(Atom, inner)], true), On(m, On(true, On(m, On(m, o))))) ==
        Course([Ctor(Local(1)), Ctor(Local(2)), Dtor(Local(2)), Dtor(Local(1))], Returns, o, [])
  {
    hide Exec, ExecSeq, Loop, On;
    var s := [Plain(Declare(2, Atom)), Return(Atom)];
    var inner := Block(s, false);
    var t, all := [Plain(Declare(1, Atom)), While(Atom, inner)], On(m, On(true, On(m, On(m, o))));
    DeclareRun(2, m, On(m, o));
    ReturnRun(m, o);
    Starts(On(m, On(m, o)));
    Last([], s[0], [s[0]], On(m, On(m, o)), Course([], Normal, On(m, On(m, o)), []), Course([Ctor(Local(2))], Normal, On(m, o), [Local(2)]));
    Last([s[0]], s[1], s, On(m, On(m, o)), Course([Ctor(Local(2))], Normal, On(m, o), [Local(2)]), Course([], Returns, o, []));
    BlockIs(s, false, On(m, On(m, o)));
    assert Dtors([Local(2)]) == [Dtor(Local(2))] && Dtors([Local(1)]) == [Dtor(Local(1))];
    LoopReturns(inner, On(m, On(m, o)));
    WhileIs(inner, On(true, On(m, On(m, o))));
    DeclareRun(1, m, On(true, On(m, On(m, o))));
    Starts(all);
    Last([], t[0], [t[0]], all, Course([], Normal, all, []), Course([Ctor(Local(1))], Normal, On(true, On(m, On(m, o))), [Local(1)]));
    Last([t[0]], t[1], t, all, Course([Ctor(Local(1))], Normal, On(true, On(m, On(m, o))), [Local(1)]),
         Course([Ctor(Local(2)), Dtor(Local(2))], Returns, o, []));
    BlockIs(t, true, all);
  }

  lemma DeclareRun(k: nat, m: bool, o: Answers)
    ensures Exec(Plain(Declare(k, Atom)), On(m, o)) == Course([Ctor(Local(k))], Normal, o, [Local(k)])
  {
    hide Meant;
    DeclareMeant(k, On(m, o)[0]);
    OnAgain(m, o);
  }

  lemma ReturnRun(m: bool, o: Answers)
    ensures Exec(Return(Atom), On(m, o)) == Course([], Returns, o, [])
  {
    OnAgain(m, o);
    AtomRun(false, On(m, o)[0]);
    GivenMakes(Atom, On(m, o)[0]);
  }

  lemma BlockIs(stats: seq<Stmt>, terminate: bool, o: Answers)
    ensures Exec(Block(stats, terminate), o) == LeaveScope(ExecSeq(stats, o))
  {
  }

  lemma LoopReturns(body: Stmt, o: Answers)
    requires Exec(body, o).out == Returns && Exec(body, o).locals == []
    ensures Loop(Atom, body, None, On(true, o)) == Exec(body, o)
  {
    hide Exec, Meant, Holds;
    AtomExec(true, o);
    OnAgain(true, o);
    var r := Exec(body, o);
    assert Dtors([]) == [] && [] + (r.ev + []) == r.ev;
  }

  /** A switch that starts with its default case, goes on from its second case to the
      third, and breaks out of its last. */
  const CASES := [Case(None, Mark(0)), Case(Some(Atom), Block([Plain(Declare(1, Atom)), Continue], false)),
                  Case(Some(Atom), Mark(2)), Case(Some(Atom), Block([Break], false))]

  /** The default case is only for when no test succeeds, wherever it stands; a case ends
      the switch unless it continues. */
  lemma CasesRun(v: bool, m: bool, o: Answers)
    ensures var s := Switch(Atom, CASES, false);
      && Exec(s, On(v, On(false, On(false, On(false, On(m, o)))))) == Course([Act, Ctor(Local(0)), Dtor(Local(0))], Normal, o, [])
      && Exec(s, On(v, On(true, On(m, On(m, o))))) == Course([Act, Ctor(Local(1)), Dtor(Local(1)), Ctor(Local(2)), Dtor(Local(2))], Normal, o, [])
      && Exec(s, On(v, On(false, On(true, On(m, o))))) == Course([Act, Ctor(Local(2)), Dtor(Local(2))], Normal, o, [])
      && Exec(s, On(v, On(false, On(false, On(true, o))))) == Course([Act], Normal, o, [])
  {
    hide Exec, On, Mark, Dispatch, ExecCases, CASES;
    var s := Switch(Atom, CASES, false);
    assert |CASES| == 4 by {
      FourCases();
    }
    CasesAre(m, o);
    Tests(On(m, o));
    Tests(On(m, On(m, o)));
    Tests(o);
    SwitchIs(s, v, On(false, On(false, On(false, On(m, o)))), 0, On(m, o));
    SwitchIs(s, v, On(true, On(m, On(m, o))), 1, On(m, On(m, o)));
    SwitchIs(s, v, On(false, On(true, On(m, o))), 2, On(m, o));
    SwitchIs(s, v, On(false, On(false, On(true, o))), 3, o);
  }

  lemma FourCases()
    ensures |CASES| == 4
  {
  }

  lemma Tests(o: Answers)
    ensures Dispatch(CASES, 0, On(false, On(false, On(false, o))), false) == Dispatched([], Normal, 0, o)
    ensures Dispatch(CASES, 0, On(true, o), false) == Dispatched([], Normal, 1, o)
    ensures Dispatch(CASES, 0, On(false, On(true, o)), false) == Dispatched([], Normal, 2, o)
    ensures Dispatch(CASES, 0, On(false, On(false, On(true, o))), false) == Dispatched([], Normal, 3, o)
  {
    hide On, Meant, Holds, Mark, Dispatch;
    TestNext(1, On(false, On(false, o)), o);
    TestNext(1, On(false, On(true, o)), o);
    TestNext(1, On(true, o), o);
    TestNext(1, o, o);
    TestNext(2, On(false, o), o);
    TestNext(2, On(true, o), o);
    TestNext(2, o, o);
    TestNext(3, o, o);
    TestEnds(o);
    TestEnds(On(false, On(false, On(false, o))));
    TestEnds(On(true, o));
    TestEnds(On(false, On(true, o)));
    TestEnds(On(false, On(false, On(true, o))));
  }

  lemma TestNext(c: nat, o: Answers, more: Answers)
    requires 0 < c < 4
    ensures Dispatch(CASES, c, On(true, o), false) == Dispatched([], Normal, c, o)
    ensures Dispatch(CASES, c, On(false, o), false) == Dispatch(CASES, c + 1, o, false)
  {
    hide Meant, Holds, Mark, On;
    AtomExec(true, o);
    AtomExec(false, o);
    OnAgain(true, o);
    OnAgain(false, o);
    var d := Dispatch(CASES, c + 1, o, false);
    assert [] + d.ev == d.ev;
  }

  lemma TestEnds(o: Answers)
    ensures Dispatch(CASES, 4, o, false) == Dispatched([], Normal, 0, o)
    ensures Dispatch(CASES, 0, o, false) == Dispatch(CASES, 1, o, false)
  {
    hide Meant, Holds, Mark;
    assert DefaultIndex(CASES) == 0;
  }

  lemma CasesAre(m: bool, o: Answers)
    ensures var s := Switch(Atom, CASES, false);
      && ExecCases(s, 0, On(m, o)) == Course([Ctor(Local(0)), Dtor(Local(0))], Normal, o, [])
      && ExecCases(s, 2, On(m, o)) == Course([Ctor(Local(2)), Dtor(Local(2))], Normal, o, [])
      && ExecCases(s, 1, On(m, On(m, o))) == Course([Ctor(Local(1)), Dtor(Local(1)), Ctor(Local(2)), Dtor(Local(2))], Normal, o, [])
      && ExecCases(s, 3, o) == Course([], Normal, o, [])
  {
    hide Exec, On, Mark, ExecSeq;
    var s := Switch(Atom, CASES, false);
    MarkRuns(0, m, o);
    MarkRuns(2, m, o);
    ContinueCase(m, On(m, o));
    BreakCase(o);
    assert Dtors([]) == [];
  }

  lemma ContinueCase(m: bool, o: Answers)
    ensures Exec(Block([Plain(Declare(1, Atom)), Continue], false), On(m, o)) == Course([Ctor(Local(1)), Dtor(Local(1))], Continues, o, [])
  {
    hide ExecSeq, On;
    var s := [Plain(Declare(1, Atom)), Continue];
    DeclareRun(1, m, o);
    Starts(On(m, o));
    Last([], s[0], [s[0]], On(m, o), Course([], Normal, On(m, o), []), Course([Ctor(Local(1))], Normal, o, [Local(1)]));
    Last([s[0]], s[1], s, On(m, o), Course([Ctor(Local(1))], Normal, o, [Local(1)]), Course([], Continues, o, []));
    assert Dtors([Local(1)]) == [Dtor(Local(1))];
  }

  lemma BreakCase(o: Answers)
    ensures Exec(Block([Break], false), o) == Course([], Breaks, o, [])
  {
    assert [Break][..0] == [] && Dtors([]) == [];
    Starts(o);
    Last([], Break, [Break], o, Course([], Normal, o, []), Course([], Breaks, o, []));
  }

  lemma SwitchIs(s: Stmt, v: bool, o: Answers, c: nat, rest: Answers)
    requires s.Switch? && s.expr == Atom && c < |s.cases| && Dispatch(s.cases, 0, o, false) == Dispatched([], Normal, c, rest)
    requires ExecCases(s, c, rest).out == Normal && ExecCases(s, c, rest).locals == []
    ensures Exec(s, On(v, o)) == ExecCases(s, c, rest).(ev := [Act] + ExecCases(s, c, rest).ev)
  {
    hide ExecCases, Dispatch, Eval;
    OnAgain(v, o);
    ValueMeant(On(v, o)[0]);
    var r := ExecCases(s, c, rest);
    assert [] + [Act] + ([] + r.ev) + [] == [Act] + r.ev && Dtors([]) == [];
  }

  lemma ValueMeant(a: Answer)
    ensures Eval(Given(Atom), false, a).ev == [] && Eval(Given(Atom), false, a).made == []
  {
    AtomRun(false, a);
    GivenMakes(Atom, a);
  }
}
