/** Expressions, as far as they make objects or decide what is evaluated. Code
    generation registers the temporaries of an expression, on whichever path they are
    constructed, with the scope around it, which destroys them on every path. */
module ExprSem {
  import opened Wrappers
  import opened Lives

  datatype Expr =
    | Atom                                // a variable, a literal, or a call that makes no object
    | Both(first: Expr, second: Expr)     // operands that are visited for their values
    | Args(first: Expr, second: Expr)     // arguments or parts, which are given an address
    | Set(first: Expr, second: Expr)      // the two sides of an assignment, which takes over the second
    | New(parts: Expr, id: nat)           // a new object: a call that returns it, or a literal
    | Member(whole: Expr, id: nat)        // a member of an object, or an element
    | And(left: Expr, right: Expr)
    | Or(left: Expr, right: Expr)
    | Not(arg: Expr)
    | Choose(test: Expr, troo: Expr, fols: Expr, slot: Option<nat>)  // with a slot if the result is a new object

  /** Whether the value is a new object, for which somebody has to provide room. */
  predicate IsNew(e: Expr) {
    e.New? || (e.Choose? && e.slot.Some?)
  }

  /** The object made by an expression that is not given an address. It is in no scope. */
  function SlotOf(e: Expr): Objs {
    match e
    case New(_, id) => [Temp(id)]
    case Choose(_, _, _, slot) => if slot.Some? then [Temp(slot.value)] else []
    case Set(_, second) => SlotOf(second)
    case _ => []
  }

  /** The temporaries that are registered while the expression is generated: an object
      with a member that is used. */
  function TempsOf(e: Expr): Objs {
    match e
    case Atom => []
    case Both(first, second) => TempsOf(first) + TempsOf(second)
    case Args(first, second) => TempsOf(first) + TempsOf(second)
    case Set(first, second) => TempsOf(first) + TempsOf(second)
    case New(parts, _) => TempsOf(parts)
    case Member(whole, id) => TempsOf(whole) + (if IsNew(whole) then [Temp(id)] else [])
    case And(left, right) => TempsOf(left) + TempsOf(right)
    case Or(left, right) => TempsOf(left) + TempsOf(right)
    case Not(arg) => TempsOf(arg)
    case Choose(test, troo, fols, _) => TempsOf(test) + TempsOf(troo) + TempsOf(fols)
  }

  // ---- runs

  /** How an evaluation goes: the truth of the whole and of its parts. Parts that are
      not mentioned are as the whole. */
  datatype Answer = Answer(truth: bool, parts: seq<Answer>)

  function Of(a: Answer, i: nat): Answer {
    if i < |a.parts| then a.parts[i] else a
  }

  /** `made` and `slot` are the objects alive at the end of the evaluation; `slot` is the
      value itself, if that is a new object without an address. */
  datatype Got = Got(ev: seq<Event>, made: Objs, slot: Objs, truth: bool)

  /** One evaluation behind another. */
  function Plus(g: Got, h: Got, truth: bool): Got {
    Got(g.ev + h.ev, g.made + h.made, h.slot, truth)
  }

  /** The value is used, and the object stays where it is. */
  function Used(g: Got): Got {
    Got(g.ev, g.made + g.slot, [], g.truth)
  }

  /** Where a truth value is wanted, a new object is destroyed once that is known. */
  function Tested(g: Got): Got {
    Got(g.ev + Dtors(g.slot), g.made, [], g.truth)
  }

  function Constructed(g: Got, objs: Objs): seq<Event> {
    if objs == [] then g.ev else g.ev + [Ctor(objs[0])]
  }

  /** `given`: whoever evaluates the expression has an address for a new object, and
      counts it as its own. */
  function Eval(e: Expr, given: bool, a: Answer): Got {
    match e
    case Atom => Got([], [], [], a.truth)
    case Both(first, second) => Plus(Used(Eval(first, false, Of(a, 0))), Used(Eval(second, false, Of(a, 1))), a.truth)
    case Args(first, second) => Plus(Used(Eval(first, true, Of(a, 0))), Used(Eval(second, true, Of(a, 1))), a.truth)
    case Set(first, second) => Plus(Used(Eval(first, false, Of(a, 0))), Eval(second, given, Of(a, 1)), a.truth)
    case New(parts, id) =>
      var g, slot := Used(Eval(parts, true, Of(a, 0))), if given then [] else [Temp(id)];
      Got(Constructed(g, slot), g.made, slot, a.truth)
    case Member(whole, id) =>
      var g, whole' := Used(Eval(whole, true, Of(a, 0))), if IsNew(whole) then [Temp(id)] else [];
      Got(Constructed(g, whole'), g.made + whole', [], a.truth)
    case And(left, right) =>
      var g := Tested(Eval(left, false, Of(a, 0)));
      if !g.truth then g else var h := Tested(Eval(right, false, Of(a, 1))); Plus(g, h, h.truth)
    case Or(left, right) =>
      var g := Tested(Eval(left, false, Of(a, 0)));
      if g.truth then g else var h := Tested(Eval(right, false, Of(a, 1))); Plus(g, h, h.truth)
    case Not(arg) => var g := Tested(Eval(arg, false, Of(a, 0))); g.(truth := !g.truth)
    case Choose(test, troo, fols, _) =>
      var g := Tested(Eval(test, false, Of(a, 0)));
      var h := Used(if g.truth then Eval(troo, true, Of(a, 1)) else Eval(fols, true, Of(a, 2)));
      var both, slot := Plus(g, h, h.truth), if given then [] else SlotOf(e);
      Got(Constructed(both, slot), both.made, slot, h.truth)
  }

  /** Nothing but temporaries is made, and the value is what it is said to be. */
  lemma {:induction false} EvalMakes(e: Expr, given: bool, a: Answer)
    ensures var g := Eval(e, given, a);
      (forall x :: x in g.made || x in g.slot ==> x.Temp?) && g.slot == (if given then [] else SlotOf(e)) && |g.slot| <= 1
    decreases e
  {
    match e
    case Atom =>
    case Both(first, second) =>
      EvalMakes(first, false, Of(a, 0));
      EvalMakes(second, false, Of(a, 1));
    case Args(first, second) =>
      EvalMakes(first, true, Of(a, 0));
      EvalMakes(second, true, Of(a, 1));
    case Set(first, second) =>
      EvalMakes(first, false, Of(a, 0));
      EvalMakes(second, given, Of(a, 1));
    case New(parts, _) => EvalMakes(parts, true, Of(a, 0));
    case Member(whole, _) => EvalMakes(whole, true, Of(a, 0));
    case And(left, right) =>
      EvalMakes(left, false, Of(a, 0));
      EvalMakes(right, false, Of(a, 1));
    case Or(left, right) =>
      EvalMakes(left, false, Of(a, 0));
      EvalMakes(right, false, Of(a, 1));
    case Not(arg) => EvalMakes(arg, false, Of(a, 0));
    case Choose(test, troo, fols, _) =>
      EvalMakes(test, false, Of(a, 0));
      EvalMakes(troo, true, Of(a, 1));
      EvalMakes(fols, true, Of(a, 2));
  }

  /** The events of an evaluation are those of the objects it has made. */
  ghost predicate Tells(g: Got, al: Alive) {
    Replay(g.ev, al) == Some(WithObjs(al, g.made + g.slot))
  }

  lemma TellsPlus(g: Got, h: Got, truth: bool, al: Alive)
    requires g.slot == [] && Tells(g, al) && Tells(h, WithObjs(al, g.made))
    ensures Tells(Plus(g, h, truth), al)
  {
    assert g.made + [] == g.made;
    ReplayThen(g.ev, h.ev, al);
    WithObjsThen(al, g.made, h.made + h.slot);
    assert g.made + (h.made + h.slot) == g.made + h.made + h.slot;
  }

  lemma TellsUsed(g: Got, al: Alive)
    requires Tells(g, al)
    ensures Tells(Used(g), al)
  {
    assert g.made + g.slot + [] == g.made + g.slot;
  }

  lemma TellsTested(g: Got, al: Alive)
    requires Tells(g, al)
    ensures Tells(Tested(g), al)
  {
    WithObjsThen(al, g.made, g.slot);
    ReplayThen(g.ev, Dtors(g.slot), al);
    ReplayDtors(g.slot, WithObjs(al, g.made));
    assert g.made + [] == g.made;
  }

  /** An object is constructed behind everything else. */
  lemma TellsMore(g: Got, objs: Objs, h: Got, al: Alive)
    requires Tells(g, al) && g.slot == [] && |objs| <= 1
    requires h.ev == Constructed(g, objs) && h.made + h.slot == g.made + objs
    ensures Tells(h, al)
  {
    assert g.made + [] == g.made;
    if objs != [] {
      assert objs == [objs[0]];
      ReplayThen(g.ev, [Ctor(objs[0])], al);
      ReplayOne(Ctor(objs[0]), WithObjs(al, g.made));
      WithObjsThen(al, g.made, objs);
    }
  }

  lemma {:induction false} EvalTells(e: Expr, given: bool, a: Answer, al: Alive)
    ensures Tells(Eval(e, given, a), al)
    decreases e, 1
  {
    hide Tells;
    match e
    case Atom => AtomTells(a, al);
    case Both(_, _) => PairTells(e, given, a, al);
    case Args(_, _) => PairTells(e, given, a, al);
    case Set(_, _) => PairTells(e, given, a, al);
    case New(parts, id) =>
      var g := Eval(parts, true, Of(a, 0));
      EvalTells(parts, true, Of(a, 0), al);
      TellsUsed(g, al);
      TellsMore(Used(g), if given then [] else [Temp(id)], Eval(e, given, a), al);
    case Member(whole, id) =>
      var g := Eval(whole, true, Of(a, 0));
      EvalTells(whole, true, Of(a, 0), al);
      TellsUsed(g, al);
      var objs := if IsNew(whole) then [Temp(id)] else [];
      assert g.made + g.slot + objs + [] == g.made + g.slot + objs;
      TellsMore(Used(g), objs, Eval(e, given, a), al);
    case And(_, _) => ShortTells(e, given, a, al);
    case Or(_, _) => ShortTells(e, given, a, al);
    case Not(arg) =>
      EvalTells(arg, false, Of(a, 0), al);
      TellsTested(Eval(arg, false, Of(a, 0)), al);
      TellsTruth(Tested(Eval(arg, false, Of(a, 0))), Eval(e, given, a), al);
    case Choose(_, _, _, _) => ChooseTells(e, given, a, al);
  }

  lemma AtomTells(a: Answer, al: Alive)
    ensures Tells(Eval(Atom, true, a), al) && Tells(Eval(Atom, false, a), al)
  {
  }

  lemma TellsTruth(g: Got, h: Got, al: Alive)
    requires Tells(g, al) && h == g.(truth := h.truth)
    ensures Tells(h, al)
  {
  }

  lemma PairTells(e: Expr, given: bool, a: Answer, al: Alive)
    requires e.Both? || e.Args? || e.Set?
    ensures Tells(Eval(e, given, a), al)
    decreases e, 0
  {
    hide Tells;
    var g, h := Eval(e.first, e.Args?, Of(a, 0)), Eval(e.second, e.Args? || (e.Set? && given), Of(a, 1));
    EvalTells(e.first, e.Args?, Of(a, 0), al);
    TellsUsed(g, al);
    var al' := WithObjs(al, Used(g).made);
    EvalTells(e.second, e.Args? || (e.Set? && given), Of(a, 1), al');
    TellsUsed(h, al');
    TellsPlus(Used(g), if e.Set? then h else Used(h), a.truth, al);
  }

  lemma ShortTells(e: Expr, given: bool, a: Answer, al: Alive)
    requires e.And? || e.Or?
    ensures Tells(Eval(e, given, a), al)
    decreases e, 0
  {
    hide Tells;
    var g, h := Tested(Eval(e.left, false, Of(a, 0))), Tested(Eval(e.right, false, Of(a, 1)));
    EvalTells(e.left, false, Of(a, 0), al);
    TellsTested(Eval(e.left, false, Of(a, 0)), al);
    if g.truth == e.And? {
      EvalTells(e.right, false, Of(a, 1), WithObjs(al, g.made));
      TellsTested(Eval(e.right, false, Of(a, 1)), WithObjs(al, g.made));
      TellsPlus(g, h, h.truth, al);
    }
  }

  lemma ChooseTells(e: Expr, given: bool, a: Answer, al: Alive)
    requires e.Choose?
    ensures Tells(Eval(e, given, a), al)
    decreases e, 0
  {
    hide Tells;
    var g := Tested(Eval(e.test, false, Of(a, 0)));
    EvalTells(e.test, false, Of(a, 0), al);
    TellsTested(Eval(e.test, false, Of(a, 0)), al);
    var branch, part := if g.truth then e.troo else e.fols, if g.truth then Of(a, 1) else Of(a, 2);
    var h := Used(Eval(branch, true, part));
    EvalTells(branch, true, part, WithObjs(al, g.made));
    TellsUsed(Eval(branch, true, part), WithObjs(al, g.made));
    TellsPlus(g, h, h.truth, al);
    TellsMore(Plus(g, h, h.truth), if given then [] else SlotOf(e), Eval(e, given, a), al);
  }

  lemma NEval(e: Expr, given: bool, a: Answer, x: Obj)
    ensures var g := Eval(e, given, a); N(g.ev, x) == multiset(g.made)[x] + multiset(g.slot)[x]
  {
    hide Eval;
    var g := Eval(e, given, a);
    EvalTells(e, given, a, NOTHING);
    ReplayCounts(g.ev, NOTHING, x);
    WithCounts(NOTHING, g.made + g.slot, x);
  }

  // ---- when the objects registered are those that are made

  /** No operand that may be skipped has temporaries. */
  predicate Certain(e: Expr) {
    match e
    case Atom => true
    case Both(first, second) => Certain(first) && Certain(second)
    case Args(first, second) => Certain(first) && Certain(second)
    case Set(first, second) => Certain(first) && Certain(second)
    case New(parts, _) => Certain(parts)
    case Member(whole, _) => Certain(whole)
    case And(left, right) => Certain(left) && Certain(right) && TempsOf(right) == []
    case Or(left, right) => Certain(left) && Certain(right) && TempsOf(right) == []
    case Not(arg) => Certain(arg)
    case Choose(test, troo, fols, _) =>
      Certain(test) && Certain(troo) && Certain(fols) && TempsOf(troo) == [] && TempsOf(fols) == []
  }

  /** No new object is visited for its value. */
  predicate Owned(e: Expr) {
    match e
    case Atom => true
    case Both(first, second) => Owned(first) && Owned(second) && SlotOf(first) == [] && SlotOf(second) == []
    case Args(first, second) => Owned(first) && Owned(second)
    case Set(first, second) => Owned(first) && Owned(second) && SlotOf(first) == []
    case New(parts, _) => Owned(parts)
    case Member(whole, _) => Owned(whole)
    case And(left, right) => Owned(left) && Owned(right)
    case Or(left, right) => Owned(left) && Owned(right)
    case Not(arg) => Owned(arg)
    case Choose(test, troo, fols, _) => Owned(test) && Owned(troo) && Owned(fols)
  }

  predicate Balanced(e: Expr) {
    Certain(e) && Owned(e)
  }

  /** What the parts of an expression make. */
  lemma PartsMake(e: Expr, given: bool, a: Answer)
    ensures e.Atom? ==> Eval(e, given, a).made == []
    ensures e.Both? ==> Eval(e, given, a).made == Whole(e.first, false, Of(a, 0)) + Whole(e.second, false, Of(a, 1))
    ensures e.Args? ==> Eval(e, given, a).made == Whole(e.first, true, Of(a, 0)) + Whole(e.second, true, Of(a, 1))
    ensures e.Set? ==> Eval(e, given, a).made == Whole(e.first, false, Of(a, 0)) + Eval(e.second, given, Of(a, 1)).made
    ensures e.New? ==> Eval(e, given, a).made == Whole(e.parts, true, Of(a, 0))
    ensures e.Member? ==> Eval(e, given, a).made == Whole(e.whole, true, Of(a, 0)) + if IsNew(e.whole) then [Temp(e.id)] else []
    ensures e.And? || e.Or? ==>
      var g := Eval(e.left, false, Of(a, 0));
      Eval(e, given, a).made == g.made + if g.truth == e.And? then Eval(e.right, false, Of(a, 1)).made else []
    ensures e.Not? ==> Eval(e, given, a).made == Eval(e.arg, false, Of(a, 0)).made
    ensures e.Choose? ==>
      var g := Eval(e.test, false, Of(a, 0));
      Eval(e, given, a).made == g.made + if g.truth then Whole(e.troo, true, Of(a, 1)) else Whole(e.fols, true, Of(a, 2))
  {
  }

  /** All objects that are alive at the end of an evaluation. */
  function Whole(e: Expr, given: bool, a: Answer): Objs {
    Eval(e, given, a).made + Eval(e, given, a).slot
  }

  /** Then the objects made are those that were registered, on every path. */
  lemma {:induction false} BalancedMakes(e: Expr, given: bool, a: Answer)
    requires Balanced(e)
    ensures Eval(e, given, a).made == TempsOf(e)
    decreases e, 0
  {
    hide Eval, Whole;
    PartsMake(e, given, a);
    match e
    case Atom =>
    case Both(first, second) =>
      BalancedWhole(first, false, Of(a, 0));
      BalancedWhole(second, false, Of(a, 1));
    case Args(first, second) =>
      BalancedWhole(first, true, Of(a, 0));
      BalancedWhole(second, true, Of(a, 1));
    case Set(first, second) =>
      BalancedWhole(first, false, Of(a, 0));
      BalancedMakes(second, given, Of(a, 1));
    case New(parts, _) => BalancedWhole(parts, true, Of(a, 0));
    case Member(whole, _) => BalancedWhole(whole, true, Of(a, 0));
    case And(left, right) =>
      BalancedMakes(left, false, Of(a, 0));
      BalancedMakes(right, false, Of(a, 1));
    case Or(left, right) =>
      BalancedMakes(left, false, Of(a, 0));
      BalancedMakes(right, false, Of(a, 1));
    case Not(arg) => BalancedMakes(arg, false, Of(a, 0));
    case Choose(test, troo, fols, _) =>
      BalancedMakes(test, false, Of(a, 0));
      BalancedWhole(troo, true, Of(a, 1));
      BalancedWhole(fols, true, Of(a, 2));
  }

  lemma BalancedWhole(e: Expr, given: bool, a: Answer)
    requires Balanced(e) && (given || SlotOf(e) == [])
    ensures Whole(e, given, a) == TempsOf(e)
    decreases e, 1
  {
    BalancedMakes(e, given, a);
    EvalMakes(e, given, a);
  }

  // ---- the objects of an expression

  function Objects(e: Expr): multiset<Obj> {
    match e
    case Atom => multiset{}
    case Both(first, second) => Objects(first) + Objects(second)
    case Args(first, second) => Objects(first) + Objects(second)
    case Set(first, second) => Objects(first) + Objects(second)
    case New(parts, id) => Objects(parts) + multiset{Temp(id)}
    case Member(whole, id) => Objects(whole) + multiset{Temp(id)}
    case And(left, right) => Objects(left) + Objects(right)
    case Or(left, right) => Objects(left) + Objects(right)
    case Not(arg) => Objects(arg)
    case Choose(test, troo, fols, _) => Objects(test) + (Objects(troo) + Objects(fols) + multiset(SlotOf(e)))
  }

  lemma {:induction false} KnownAt(e: Expr, x: Obj)
    ensures multiset(TempsOf(e))[x] + multiset(SlotOf(e))[x] <= Objects(e)[x]
    decreases e
  {
    match e
    case Both(first, second) => KnownAt(first, x); KnownAt(second, x);
    case Args(first, second) => KnownAt(first, x); KnownAt(second, x);
    case Set(first, second) => KnownAt(first, x); KnownAt(second, x);
    case New(parts, _) => KnownAt(parts, x);
    case Member(whole, _) => KnownAt(whole, x);
    case Not(arg) => KnownAt(arg, x);
    case Choose(test, troo, fols, _) => KnownAt(test, x); KnownAt(troo, x); KnownAt(fols, x); ChoiceCounts(e, x);
    case Atom =>
    case _ => KnownAt(e.left, x); KnownAt(e.right, x);
  }

  lemma ChoiceCounts(e: Expr, x: Obj)
    requires e.Choose?
    ensures multiset(TempsOf(e))[x] == multiset(TempsOf(e.test))[x] + multiset(TempsOf(e.troo))[x] + multiset(TempsOf(e.fols))[x]
    ensures Objects(e)[x] == Objects(e.test)[x] + Objects(e.troo)[x] + Objects(e.fols)[x] + multiset(SlotOf(e))[x]
  {
    hide SlotOf;
    var (a, b, c) := (TempsOf(e.test), TempsOf(e.troo), TempsOf(e.fols));
    assert multiset(a + b + c) == multiset(a + b) + multiset(c);
  }

  lemma KnownWithin(e: Expr)
    ensures multiset(TempsOf(e)) + multiset(SlotOf(e)) <= Objects(e)
  {
    forall x: Obj ensures (multiset(TempsOf(e)) + multiset(SlotOf(e)))[x] <= Objects(e)[x] {
      KnownAt(e, x);
    }
  }

  lemma {:induction false} MadeWithin(e: Expr, given: bool, a: Answer)
    ensures multiset(Eval(e, given, a).made) + multiset(SlotOf(e)) <= Objects(e)
    decreases e, 0
  {
    hide Eval, Whole;
    PartsMake(e, given, a);
    match e
    case Atom =>
    case Both(first, second) =>
      WholeWithin(first, false, Of(a, 0));
      WholeWithin(second, false, Of(a, 1));
    case Args(first, second) =>
      WholeWithin(first, true, Of(a, 0));
      WholeWithin(second, true, Of(a, 1));
    case Set(first, second) =>
      WholeWithin(first, false, Of(a, 0));
      MadeWithin(second, given, Of(a, 1));
    case New(parts, _) => WholeWithin(parts, true, Of(a, 0));
    case Member(whole, _) => WholeWithin(whole, true, Of(a, 0));
    case And(left, right) =>
      MadeWithin(left, false, Of(a, 0));
      MadeWithin(right, false, Of(a, 1));
    case Or(left, right) =>
      MadeWithin(left, false, Of(a, 0));
      MadeWithin(right, false, Of(a, 1));
    case Not(arg) => MadeWithin(arg, false, Of(a, 0));
    case Choose(test, troo, fols, _) =>
      MadeWithin(test, false, Of(a, 0));
      WholeWithin(troo, true, Of(a, 1));
      WholeWithin(fols, true, Of(a, 2));
  }

  lemma WholeWithin(e: Expr, given: bool, a: Answer)
    ensures multiset(Whole(e, given, a)) <= Objects(e)
    decreases e, 1
  {
    MadeWithin(e, given, a);
    EvalMakes(e, given, a);
  }

  // ---- evaluations of a given truth

  function Force(e: Expr, v: bool): Answer {
    match e
    case And(left, right) => Answer(v, [Force(left, true), Force(right, v)])
    case Or(left, right) => Answer(v, [Force(left, false), Force(right, v)])
    case Not(arg) => Answer(v, [Force(arg, !v)])
    case Choose(test, troo, _, _) => Answer(v, [Force(test, true), Force(troo, v)])
    case _ => Answer(v, [])
  }

  lemma {:induction false} Forced(e: Expr, given: bool, v: bool)
    ensures Eval(e, given, Force(e, v)).truth == v
    decreases e
  {
    match e
    case And(left, right) =>
      Forced(left, false, true);
      Forced(right, false, v);
    case Or(left, right) =>
      Forced(left, false, false);
      Forced(right, false, v);
    case Not(arg) => Forced(arg, false, !v);
    case Choose(test, troo, _, _) =>
      Forced(test, false, true);
      Forced(troo, true, v);
    case _ =>
  }

  // ---- what goes wrong otherwise

  /** Different parts of an expression make different objects. */
  ghost predicate Apart(e: Expr) {
    forall x: Obj :: Objects(e)[x] <= 1
  }

  lemma PartsApart(e: Expr)
    requires Apart(e)
    ensures e.Both? || e.Args? || e.Set? ==> Apart(e.first) && Apart(e.second)
    ensures e.New? ==> Apart(e.parts)
    ensures e.Member? ==> Apart(e.whole)
    ensures e.And? || e.Or? ==> Apart(e.left) && Apart(e.right)
    ensures e.Not? ==> Apart(e.arg)
    ensures e.Choose? ==> Apart(e.test) && Apart(e.troo) && Apart(e.fols)
  {
    PartsWithin(e);
    forall x: Obj ensures Objects(e)[x] <= 1 {
    }
  }

  lemma PartsWithin(e: Expr)
    ensures e.Both? || e.Args? || e.Set? ==> Objects(e.first) <= Objects(e) && Objects(e.second) <= Objects(e)
    ensures e.New? ==> Objects(e.parts) <= Objects(e)
    ensures e.Member? ==> Objects(e.whole) <= Objects(e)
    ensures e.And? || e.Or? ==> Objects(e.left) <= Objects(e) && Objects(e.right) <= Objects(e)
    ensures e.Not? ==> Objects(e.arg) <= Objects(e)
    ensures e.Choose? ==> Objects(e.test) <= Objects(e) && Objects(e.troo) <= Objects(e) && Objects(e.fols) <= Objects(e)
  {
  }

  lemma InObjects(e: Expr, given: bool, a: Answer, x: Obj)
    ensures x in Eval(e, given, a).made || x in TempsOf(e) || x in SlotOf(e) ==> Objects(e)[x] >= 1
    ensures Apart(e) ==> multiset(TempsOf(e))[x] + multiset(SlotOf(e))[x] <= 1
  {
    hide Eval, TempsOf, SlotOf, Objects;
    MadeWithin(e, given, a);
    KnownWithin(e);
    assert x in TempsOf(e) ==> multiset(TempsOf(e))[x] >= 1;
    assert x in SlotOf(e) ==> multiset(SlotOf(e))[x] >= 1;
    assert x in Eval(e, given, a).made ==> multiset(Eval(e, given, a).made)[x] >= 1;
    assert (multiset(TempsOf(e)) + multiset(SlotOf(e)))[x] <= Objects(e)[x];
    assert (multiset(Eval(e, given, a).made) + multiset(SlotOf(e)))[x] <= Objects(e)[x];
  }

  /** Some evaluation does not make a temporary that is registered. */
  lemma {:induction false} Misses(e: Expr, given: bool) returns (a: Answer, x: Obj)
    requires !Certain(e) && Apart(e)
    ensures x in TempsOf(e) && x !in Eval(e, given, a).made
    decreases e, 1
  {
    PartsApart(e);
    match e
    case Both(_, _) => a, x := MissesPair(e, given);
    case Args(_, _) => a, x := MissesPair(e, given);
    case Set(_, _) => a, x := MissesPair(e, given);
    case New(parts, _) =>
      hide Eval, Whole;
      var b;
      b, x := Misses(parts, true);
      a := Answer(true, [b]);
      PartsMake(e, given, a);
      WholeMisses(parts, true, b, x);
    case Member(whole, _) =>
      hide Eval, Whole;
      var b;
      b, x := Misses(whole, true);
      a := Answer(true, [b]);
      PartsMake(e, given, a);
      WholeMisses(whole, true, b, x);
      InObjects(whole, true, b, x);
      assert Objects(e)[x] <= 1;
    case And(_, _) => a, x := MissesShort(e, given);
    case Or(_, _) => a, x := MissesShort(e, given);
    case Not(arg) =>
      var b;
      b, x := Misses(arg, false);
      a := Answer(true, [b]);
    case Choose(_, _, _, _) => a, x := MissesChoice(e, given);
  }

  lemma WholeMisses(e: Expr, given: bool, a: Answer, x: Obj)
    requires x !in Eval(e, given, a).made && (given || x !in SlotOf(e))
    ensures x !in Whole(e, given, a)
  {
    EvalMakes(e, given, a);
  }

  /** What belongs to one part of an expression does not belong to another. */
  lemma Foreign(e: Expr, given: bool, a: Answer, x: Obj)
    requires Objects(e)[x] == 0
    ensures x !in TempsOf(e) && x !in SlotOf(e) && x !in Eval(e, given, a).made && x !in Whole(e, given, a)
  {
    InObjects(e, given, a, x);
    EvalMakes(e, given, a);
  }

  lemma MissesPair(e: Expr, given: bool) returns (a: Answer, x: Obj)
    requires (e.Both? || e.Args? || e.Set?) && !Certain(e) && Apart(e)
    ensures x in TempsOf(e) && x !in Eval(e, given, a).made
    decreases e, 0
  {
    PartsApart(e);
    hide Eval, Whole;
    var g, h := e.Args?, e.Args? || (e.Set? && given);
    assert Objects(e) == Objects(e.first) + Objects(e.second);
    var b;
    if !Certain(e.first) {
      b, x := Misses(e.first, g);
      a := Answer(true, [b, b]);
      InObjects(e.first, g, b, x);
      assert Objects(e)[x] <= 1;
      WholeMisses(e.first, g, b, x);
      Foreign(e.second, h, b, x);
    } else {
      b, x := Misses(e.second, h);
      a := Answer(true, [b, b]);
      InObjects(e.second, h, b, x);
      assert Objects(e)[x] <= 1;
      WholeMisses(e.second, h, b, x);
      Foreign(e.first, g, b, x);
    }
    PartsMake(e, given, a);
  }

  lemma MissesShort(e: Expr, given: bool) returns (a: Answer, x: Obj)
    requires (e.And? || e.Or?) && !Certain(e) && Apart(e)
    ensures x in TempsOf(e) && x !in Eval(e, given, a).made
    decreases e, 0
  {
    PartsApart(e);
    hide Eval, Whole;
    assert Objects(e) == Objects(e.left) + Objects(e.right);
    var b;
    if TempsOf(e.right) != [] {
      x := TempsOf(e.right)[0];
      b := Force(e.left, !e.And?);
      Forced(e.left, false, !e.And?);
      a := Answer(true, [b]);
      InObjects(e.right, false, b, x);
      assert Objects(e)[x] <= 1;
      Foreign(e.left, false, b, x);
    } else if !Certain(e.left) {
      b, x := Misses(e.left, false);
      a := Answer(true, [b, b]);
      InObjects(e.left, false, b, x);
      assert Objects(e)[x] <= 1;
      Foreign(e.right, false, b, x);
    } else {
      b, x := Misses(e.right, false);
      assert false;
    }
    PartsMake(e, given, a);
  }

  lemma ChoiceParts(e: Expr, x: Obj)
    requires e.Choose?
    ensures Objects(e)[x] == Objects(e.test)[x] + Objects(e.troo)[x] + Objects(e.fols)[x] + multiset(SlotOf(e))[x]
    ensures x in TempsOf(e) <==> x in TempsOf(e.test) || x in TempsOf(e.troo) || x in TempsOf(e.fols)
    ensures x in SlotOf(e) <==> multiset(SlotOf(e))[x] >= 1
  {
  }

  lemma MissesChoice(e: Expr, given: bool) returns (a: Answer, x: Obj)
    requires e.Choose? && !Certain(e) && Apart(e)
    ensures x in TempsOf(e) && x !in Eval(e, given, a).made
    decreases e, 0
  {
    hide Eval, Whole, TempsOf, SlotOf, Objects;
    PartsApart(e);
    var b;
    if TempsOf(e.troo) != [] || TempsOf(e.fols) != [] {
      var v := TempsOf(e.troo) == [];
      x := (if v then TempsOf(e.fols) else TempsOf(e.troo))[0];
      b := Force(e.test, v);
      Forced(e.test, false, v);
    } else {
      if Certain(e.test) {
        b, x := Misses(if Certain(e.troo) then e.fols else e.troo, true);
        assert false;
      }
      b, x := Misses(e.test, false);
    }
    a := Answer(true, [b, b, b]);
    assert Objects(e)[x] <= 1;
    ChoiceParts(e, x);
    InObjects(e.test, false, b, x);
    InObjects(e.troo, true, b, x);
    InObjects(e.fols, true, b, x);
    EvalMakes(e.troo, true, b);
    EvalMakes(e.fols, true, b);
    PartsMake(e, given, a);
    ChoiceWhole(e, b);
  }

  lemma ChoiceWhole(e: Expr, b: Answer)
    requires e.Choose?
    ensures Whole(e.troo, true, b) == Eval(e.troo, true, b).made && Whole(e.fols, true, b) == Eval(e.fols, true, b).made
  {
    EvalMakes(e.troo, true, b);
    EvalMakes(e.fols, true, b);
  }

  /** Some evaluation, of whichever truth is wanted, makes an object that nobody knows. */
  lemma {:induction false} LosesObject(e: Expr, given: bool, v: bool) returns (a: Answer, x: Obj)
    requires !Owned(e) && Apart(e)
    ensures Eval(e, given, a).truth == v && x in Eval(e, given, a).made && x !in TempsOf(e) && x !in SlotOf(e)
    decreases e, 1
  {
    PartsApart(e);
    match e
    case Both(_, _) => a, x := LosesPair(e, given, v);
    case Args(_, _) => a, x := LosesPair(e, given, v);
    case Set(_, _) => a, x := LosesPair(e, given, v);
    case New(parts, _) =>
      hide Eval;
      var b;
      b, x := LosesObject(parts, true, true);
      a := Answer(v, [b]);
      PartsMake(e, given, a);
      TruthIs(e, given, a);
      InObjects(parts, true, b, x);
      assert Objects(e)[x] <= 1;
    case Member(whole, _) =>
      hide Eval;
      var b;
      b, x := LosesObject(whole, true, true);
      a := Answer(v, [b]);
      PartsMake(e, given, a);
      TruthIs(e, given, a);
      InObjects(whole, true, b, x);
      assert Objects(e)[x] <= 1;
    case And(_, _) => a, x := LosesShort(e, given, v);
    case Or(_, _) => a, x := LosesShort(e, given, v);
    case Not(arg) =>
      var b;
      b, x := LosesObject(arg, false, !v);
      a := Answer(true, [b]);
    case Choose(_, _, _, _) => a, x := LosesChoice(e, given, v);
  }

  lemma TruthIs(e: Expr, given: bool, a: Answer)
    ensures e.Both? || e.Args? || e.Set? || e.New? || e.Member? ==> Eval(e, given, a).truth == a.truth
    ensures e.And? || e.Or? ==> var g := Eval(e.left, false, Of(a, 0)).truth;
      Eval(e, given, a).truth == if g == e.And? then Eval(e.right, false, Of(a, 1)).truth else g
    ensures e.Choose? ==>
      var g := Eval(e.test, false, Of(a, 0)).truth;
      Eval(e, given, a).truth == if g then Eval(e.troo, true, Of(a, 1)).truth else Eval(e.fols, true, Of(a, 2)).truth
  {
  }

  lemma PairParts(e: Expr, x: Obj)
    requires e.Both? || e.Args? || e.Set?
    ensures Objects(e)[x] == Objects(e.first)[x] + Objects(e.second)[x]
    ensures x in TempsOf(e) <==> x in TempsOf(e.first) || x in TempsOf(e.second)
    ensures SlotOf(e) == if e.Set? then SlotOf(e.second) else []
    ensures x in SlotOf(e.first) <==> multiset(SlotOf(e.first))[x] >= 1
    ensures x in SlotOf(e.second) <==> multiset(SlotOf(e.second))[x] >= 1
  {
  }

  lemma LosesPair(e: Expr, given: bool, v: bool) returns (a: Answer, x: Obj)
    requires (e.Both? || e.Args? || e.Set?) && !Owned(e) && Apart(e)
    ensures Eval(e, given, a).truth == v && x in Eval(e, given, a).made && x !in TempsOf(e) && x !in SlotOf(e)
    decreases e, 0
  {
    hide Eval, TempsOf, SlotOf, Objects;
    PartsApart(e);
    var g, h := e.Args?, e.Args? || (e.Set? && given);
    var b := Answer(v, []);
    if !Owned(e.first) {
      b, x := LosesObject(e.first, g, true);
    } else if !Owned(e.second) {
      b, x := LosesObject(e.second, h, true);
    } else {
      x := if SlotOf(e.first) != [] then SlotOf(e.first)[0] else SlotOf(e.second)[0];
      EvalMakes(e.first, g, b);
      EvalMakes(e.second, h, b);
    }
    a := Answer(v, [b, b]);
    assert Objects(e)[x] <= 1;
    PairParts(e, x);
    InObjects(e.first, g, b, x);
    InObjects(e.second, h, b, x);
    PartsMake(e, given, a);
    TruthIs(e, given, a);
  }

  lemma LosesShort(e: Expr, given: bool, v: bool) returns (a: Answer, x: Obj)
    requires (e.And? || e.Or?) && !Owned(e) && Apart(e)
    ensures Eval(e, given, a).truth == v && x in Eval(e, given, a).made && x !in TempsOf(e) && x !in SlotOf(e)
    decreases e, 0
  {
    PartsApart(e);
    hide Eval;
    assert Objects(e) == Objects(e.left) + Objects(e.right);
    var b, c;
    if !Owned(e.left) {
      b, x := LosesObject(e.left, false, e.And?);
      c := Force(e.right, v);
      Forced(e.right, false, v);
    } else {
      b := Force(e.left, e.And?);
      Forced(e.left, false, e.And?);
      c, x := LosesObject(e.right, false, v);
    }
    a := Answer(v, [b, c]);
    assert Objects(e)[x] <= 1;
    InObjects(e.left, false, b, x);
    InObjects(e.right, false, c, x);
    PartsMake(e, given, a);
    TruthIs(e, given, a);
  }

  lemma LosesChoice(e: Expr, given: bool, v: bool) returns (a: Answer, x: Obj)
    requires e.Choose? && !Owned(e) && Apart(e)
    ensures Eval(e, given, a).truth == v && x in Eval(e, given, a).made && x !in TempsOf(e) && x !in SlotOf(e)
    decreases e, 0
  {
    hide Eval, TempsOf, SlotOf, Objects;
    PartsApart(e);
    var b, c;
    if !Owned(e.test) {
      b, x := LosesObject(e.test, false, true);
      c := Force(e.troo, v);
      Forced(e.troo, true, v);
    } else {
      var troo := !Owned(e.troo);
      b := Force(e.test, troo);
      Forced(e.test, false, troo);
      c, x := LosesObject(if troo then e.troo else e.fols, true, v);
    }
    a := Answer(v, [b, c, c]);
    assert Objects(e)[x] <= 1;
    ChoiceParts(e, x);
    InObjects(e.test, false, b, x);
    InObjects(e.troo, true, c, x);
    InObjects(e.fols, true, c, x);
    PartsMake(e, given, a);
    TruthIs(e, given, a);
  }

  // ---- expressions in statements

  /** What a statement does with an expression: `act` is its own work, `slot` the value
      itself where that is a new object which the statement destroys. */
  datatype Work = Work(expr: Expr, act: seq<Event>, slot: Objs)

  /** What is written behind the expression: its temporaries end with the statement. */
  function Tail(w: Work): seq<Event> {
    w.act + Dtors(TempsOf(w.expr) + w.slot)
  }

  function Wrote(w: Work, a: Answer): seq<Event> {
    Eval(w.expr, false, a).ev + Tail(w)
  }

  /** What was meant: whatever has been made is destroyed. */
  function Meant(w: Work, a: Answer): seq<Event> {
    Eval(w.expr, false, a).ev + (w.act + Dtors(Whole(w.expr, false, a)))
  }

  predicate Settled(w: Work) {
    Balanced(w.expr) && SlotOf(w.expr) == w.slot
  }

  function Condition(e: Expr): Work {
    Work(e, [], SlotOf(e))
  }

  /** An expression that is given an address for its value. */
  function Given(e: Expr): Expr {
    Args(e, Atom)
  }

  lemma SettledMeans(w: Work, a: Answer)
    requires Settled(w)
    ensures Wrote(w, a) == Meant(w, a)
  {
    BalancedMakes(w.expr, false, a);
    EvalMakes(w.expr, false, a);
  }

  lemma GivenMakes(e: Expr, a: Answer)
    ensures SlotOf(Given(e)) == [] && TempsOf(Given(e)) == TempsOf(e) && (Balanced(Given(e)) <==> Balanced(e))
    ensures Objects(Given(e)) == Objects(e)
    ensures Whole(Given(e), false, a) == Eval(Given(e), false, a).made
    ensures Balanced(e) ==> Eval(Given(e), false, a).made == TempsOf(e)
  {
    EvalMakes(Given(e), false, a);
    assert TempsOf(Atom) == [] && Balanced(Atom);
    if Balanced(e) {
      BalancedMakes(Given(e), false, a);
    }
  }

  /** The work of a statement constructs one variable or none. */
  predicate Plainly(act: seq<Event>) {
    act == [] || act == [Act] || (|act| == 1 && act[0].Ctor? && act[0].obj.Local?)
  }

  function Begun(act: seq<Event>): Objs {
    if act != [] && act[0].Ctor? then [act[0].obj] else []
  }

  /** What was meant begins only what the statement declares. */
  lemma ReplayMeant(w: Work, a: Answer, al: Alive)
    requires Plainly(w.act)
    ensures Replay(Meant(w, a), al) == Some(WithObjs(al, Begun(w.act)))
  {
    hide Eval;
    var ev, objs := Eval(w.expr, false, a).ev, Whole(w.expr, false, a);
    EvalTells(w.expr, false, a, al);
    EvalMakes(w.expr, false, a);
    ReplayThen(ev, w.act + Dtors(objs), al);
    ReplayThen(w.act, Dtors(objs), WithObjs(al, objs));
    ReplayDtors(objs, al);
    if Begun(w.act) != [] {
      ReplayOne(w.act[0], WithObjs(al, objs));
      assert w.act == [w.act[0]];
      TempsBeside(al, objs, w.act[0].obj);
      ReplayDtors(objs, WithObjs(al, Begun(w.act)));
    } else if w.act == [Act] {
      ReplayOne(Act, WithObjs(al, objs));
    }
  }

  lemma NWrote(w: Work, a: Answer, x: Obj)
    ensures N(Wrote(w, a), x) ==
      multiset(Eval(w.expr, false, a).made)[x] + multiset(SlotOf(w.expr))[x] + N(w.act, x) - multiset(TempsOf(w.expr))[x] - multiset(w.slot)[x]
  {
    hide Eval, TempsOf, SlotOf;
    var ev, objs := Eval(w.expr, false, a).ev, TempsOf(w.expr) + w.slot;
    EvalMakes(w.expr, false, a);
    NEval(w.expr, false, a, x);
    NThen(ev, Tail(w), x);
    NThen(w.act, Dtors(objs), x);
    NDtors(objs, x);
  }

  /** What belongs to neither is not touched. */
  lemma NElsewhere(w: Work, a: Answer, x: Obj)
    requires Objects(w.expr)[x] == 0 && (w.slot == [] || w.slot == SlotOf(w.expr))
    ensures N(Wrote(w, a), x) == N(w.act, x)
  {
    hide Eval, TempsOf, SlotOf, Objects;
    NWrote(w, a, x);
    Foreign(w.expr, false, a, x);
  }

  lemma NSettled(w: Work, a: Answer, x: Obj)
    requires Settled(w)
    ensures N(Wrote(w, a), x) == N(w.act, x)
  {
    NWrote(w, a, x);
    BalancedMakes(w.expr, false, a);
  }

  /** Otherwise some evaluation destroys what it has not made, or loses an object; a
      loss can be had with any truth. */
  lemma Unsettled(w: Work, v: bool) returns (a: Answer, x: Obj)
    requires !Settled(w) && Apart(w.expr) && (w.slot == [] || w.slot == SlotOf(w.expr)) && Plainly(w.act)
    ensures Objects(w.expr)[x] == 1 && x.Temp?
    ensures N(Wrote(w, a), x) < 0 || (N(Wrote(w, a), x) > 0 && x !in TempsOf(w.expr) && Eval(w.expr, false, a).truth == v)
  {
    hide Eval, TempsOf, SlotOf, Objects, Certain, Owned, Force;
    var e := w.expr;
    if !Certain(e) {
      a, x := Misses(e, false);
      assert multiset(TempsOf(e))[x] >= 1;
    } else if !Owned(e) {
      a, x := LosesObject(e, false, v);
      assert multiset(Eval(e, false, a).made)[x] >= 1;
    } else {
      a := Force(e, v);
      Forced(e, false, v);
      x := SlotOf(e)[0];
      assert multiset(SlotOf(e))[x] >= 1;
    }
    InObjects(e, false, a, x);
    assert Objects(e)[x] <= 1;
    AllTemps(e, x);
    NWrote(w, a, x);
    NActs(w.act, x);
  }

  lemma NActs(act: seq<Event>, x: Obj)
    requires Plainly(act) && x.Temp?
    ensures N(act, x) == 0
  {
    if act != [] {
      assert act == [act[0]];
      NOne(act[0], x);
    }
  }

  lemma {:induction false} AllTemps(e: Expr, x: Obj)
    ensures Objects(e)[x] >= 1 ==> x.Temp?
    decreases e
  {
    match e
    case Atom =>
    case Both(first, second) => AllTemps(first, x); AllTemps(second, x);
    case Args(first, second) => AllTemps(first, x); AllTemps(second, x);
    case Set(first, second) => AllTemps(first, x); AllTemps(second, x);
    case New(parts, _) => AllTemps(parts, x);
    case Member(whole, _) => AllTemps(whole, x);
    case Not(arg) => AllTemps(arg, x);
    case Choose(test, troo, fols, _) =>
      AllTemps(test, x);
      AllTemps(troo, x);
      AllTemps(fols, x);
      ChoiceParts(e, x);
      EvalMakes(e, false, Answer(true, []));
    case _ => AllTemps(e.left, x); AllTemps(e.right, x);
  }

  // ---- the conditions are exact

  /** A condition destroys exactly what it has constructed, on every path and in reverse
      order, if and only if no operand that may be skipped makes a temporary and no new
      object is visited for its value. */
  lemma BalancedDecides(e: Expr)
    requires Apart(e)
    ensures (forall a: Answer :: Replay(Wrote(Condition(e), a), NOTHING) == Some(NOTHING)) <==> Balanced(e)
  {
    var w := Condition(e);
    if Balanced(e) {
      forall a: Answer ensures Replay(Wrote(w, a), NOTHING) == Some(NOTHING) {
        SettledMeans(w, a);
        ReplayMeant(w, a, NOTHING);
      }
    } else {
      var a, x := Unsettled(w, true);
      if Replay(Wrote(w, a), NOTHING) == Some(NOTHING) {
        NothingLeft(Wrote(w, a), x);
      }
    }
  }

  lemma {:induction false} CertainMakes(e: Expr, given: bool, a: Answer)
    requires Certain(e)
    ensures multiset(TempsOf(e)) <= multiset(Eval(e, given, a).made)
    decreases e
  {
    hide Eval;
    PartsMake(e, given, a);
    match e
    case Atom =>
    case Both(first, second) =>
      CertainMakes(first, false, Of(a, 0));
      CertainMakes(second, false, Of(a, 1));
    case Args(first, second) =>
      CertainMakes(first, true, Of(a, 0));
      CertainMakes(second, true, Of(a, 1));
    case Set(first, second) =>
      CertainMakes(first, false, Of(a, 0));
      CertainMakes(second, given, Of(a, 1));
    case New(parts, _) => CertainMakes(parts, true, Of(a, 0));
    case Member(whole, _) => CertainMakes(whole, true, Of(a, 0));
    case Not(arg) => CertainMakes(arg, false, Of(a, 0));
    case Choose(test, _, _, _) => CertainMakes(test, false, Of(a, 0));
    case _ => CertainMakes(e.left, false, Of(a, 0));
  }

  lemma {:induction false} OwnedMakes(e: Expr, given: bool, a: Answer)
    requires Owned(e)
    ensures multiset(Eval(e, given, a).made) <= multiset(TempsOf(e))
    decreases e, 0
  {
    hide Eval, Whole;
    PartsMake(e, given, a);
    match e
    case Atom =>
    case Both(first, second) =>
      OwnedWhole(first, false, Of(a, 0));
      OwnedWhole(second, false, Of(a, 1));
    case Args(first, second) =>
      OwnedWhole(first, true, Of(a, 0));
      OwnedWhole(second, true, Of(a, 1));
    case Set(first, second) =>
      OwnedWhole(first, false, Of(a, 0));
      OwnedMakes(second, given, Of(a, 1));
    case New(parts, _) => OwnedWhole(parts, true, Of(a, 0));
    case Member(whole, _) => OwnedWhole(whole, true, Of(a, 0));
    case Not(arg) => OwnedMakes(arg, false, Of(a, 0));
    case Choose(test, troo, fols, _) =>
      OwnedMakes(test, false, Of(a, 0));
      OwnedWhole(troo, true, Of(a, 1));
      OwnedWhole(fols, true, Of(a, 2));
    case _ =>
      OwnedMakes(e.left, false, Of(a, 0));
      OwnedMakes(e.right, false, Of(a, 1));
  }

  lemma OwnedWhole(e: Expr, given: bool, a: Answer)
    requires Owned(e) && (given || SlotOf(e) == [])
    ensures multiset(Whole(e, given, a)) <= multiset(TempsOf(e))
    decreases e, 1
  {
    OwnedMakes(e, given, a);
    EvalMakes(e, given, a);
  }

  /** Nothing is destroyed that was not constructed if and only if no operand that may be
      skipped makes a temporary. */
  lemma CertainDecides(e: Expr)
    requires Apart(e)
    ensures (forall a: Answer, x: Obj :: N(Wrote(Condition(e), a), x) >= 0) <==> Certain(e)
  {
    var w := Condition(e);
    if Certain(e) {
      forall a: Answer, x: Obj ensures N(Wrote(w, a), x) >= 0 {
        NWrote(w, a, x);
        CertainMakes(e, false, a);
      }
    } else {
      var a, x := Misses(e, false);
      NWrote(w, a, x);
      assert multiset(TempsOf(e))[x] >= 1;
    }
  }

  /** An expression leaks nothing if and only if no new object is visited for its value. */
  lemma OwnedDecides(e: Expr)
    requires Apart(e)
    ensures (forall a: Answer, x: Obj :: N(Wrote(Condition(e), a), x) <= 0) <==> Owned(e)
  {
    var w := Condition(e);
    if Owned(e) {
      forall a: Answer, x: Obj ensures N(Wrote(w, a), x) <= 0 {
        NWrote(w, a, x);
        OwnedMakes(e, false, a);
      }
    } else {
      var a, x := LosesObject(e, false, true);
      NWrote(w, a, x);
      assert multiset(Eval(e, false, a).made)[x] >= 1;
    }
  }

  // ---- two conditions that go wrong

  /** `a && f().m`: if `a` is false, the object that `f` would return is destroyed. */
  lemma SkippedTemporary(id: nat, other: nat)
    ensures var e := And(Atom, Member(New(Atom, id), other));
      Wrote(Condition(e), Answer(false, [])) == [Dtor(Temp(other))] && !Certain(e)
  {
    var w, a := Condition(And(Atom, Member(New(Atom, id), other))), Answer(false, []);
    var m := Member(New(Atom, id), other);
    assert TempsOf(New(Atom, id)) == [] && IsNew(New(Atom, id));
    assert TempsOf(m) == [] + [Temp(other)] == [Temp(other)];
    assert TempsOf(w.expr) == [Temp(other)] && SlotOf(w.expr) == [];
    assert Dtors([]) == [] && Dtors([Temp(other)]) == [Dtor(Temp(other))];
    assert Tested(Eval(Atom, false, Of(a, 0))) == Got([], [], [], false);
    assert Eval(w.expr, false, a).ev == [];
  }

  /** `f() == g()`: nobody destroys what `f` and `g` return. */
  lemma OperandsLost(id: nat, other: nat)
    ensures var e := Both(New(Atom, id), New(Atom, other));
      (forall a: Answer :: Wrote(Condition(e), a) == [Ctor(Temp(id)), Ctor(Temp(other))]) && !Owned(e)
  {
    var e := Both(New(Atom, id), New(Atom, other));
    forall a: Answer ensures Wrote(Condition(e), a) == [Ctor(Temp(id)), Ctor(Temp(other))] {
      assert Eval(e.first, false, Of(a, 0)).ev == [Ctor(Temp(id))];
      assert Eval(e.second, false, Of(a, 1)).ev == [Ctor(Temp(other))];
      assert Eval(e, false, a).ev == [Ctor(Temp(id)), Ctor(Temp(other))];
      assert TempsOf(Atom) == [] && TempsOf(New(Atom, id)) == [] && TempsOf(New(Atom, other)) == [];
      assert TempsOf(e) == [] + [] == [] && SlotOf(e) == [];
      assert Tail(Condition(e)) == [];
    }
  }
}
