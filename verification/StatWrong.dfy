/** A function that does not satisfy the condition is compiled wrongly: some run of
    its code destroys an object that is not there, loses one, or ends otherwise than
    by return. */
module StatWrong {
  import opened Wrappers
  import opened Lives
  import opened ExprSem
  import opened StatSem
  import opened StatWritten
  import opened StatRight
  import opened StatSound
  import opened StatReach
  import opened StatCount

  // ---- how a run can fail

  /** Something is destroyed that is not alive. */
  ghost predicate Overdrawn(ev: seq<Event>, alive: Scopes) {
    exists k: nat, x: Obj :: k <= |ev| && N(ev[..k], x) + Count(alive, x) < 0
  }

  /** The run ends, and nobody will destroy `x`. */
  predicate Loses(r: Ran, x: Obj) {
    r.out != Pending && r.rest == [] && N(r.ev, x) >= 1
  }

  ghost predicate Crashes(r: Ran, alive: Scopes) {
    r.out == Stuck || Overdrawn(r.ev, alive)
  }

  ghost predicate Fails(r: Ran, x: Obj, made: multiset<Obj>, alive: Scopes) {
    Crashes(r, alive) || (x in made && Loses(r, x))
  }

  lemma OverdrawnBy(ev: seq<Event>, alive: Scopes, x: Obj)
    requires N(ev, x) + Count(alive, x) < 0
    ensures Overdrawn(ev, alive)
  {
    assert ev[..|ev|] == ev;
  }

  /** A run that has come to its end, and has not destroyed an object as often as it has
      constructed it. */
  lemma EndFails(r: Ran, x: Obj, made: multiset<Obj>, alive: Scopes)
    requires r.out != Pending && r.rest == [] && Count(alive, x) == 0
    requires r.out == Stuck || N(r.ev, x) < 0 || (N(r.ev, x) > 0 && x in made)
    ensures Fails(r, x, made, alive)
  {
    if N(r.ev, x) < 0 {
      OverdrawnBy(r.ev, alive, x);
    }
  }

  /** A run that has begun by destroying what is not there. */
  lemma StartFails(r: Ran, ev: seq<Event>, x: Obj, made: multiset<Obj>, alive: Scopes)
    requires ev <= r.ev && N(ev, x) < 0 && Count(alive, x) == 0
    ensures Fails(r, x, made, alive)
  {
    OverdrawnBy(ev, alive, x);
    OverdrawnThen(ev, r.ev[|ev|..], alive);
    assert r.ev == ev + r.ev[|ev|..];
  }

  lemma OverdrawnThen(ev: seq<Event>, more: seq<Event>, alive: Scopes)
    requires Overdrawn(ev, alive)
    ensures Overdrawn(ev + more, alive)
  {
    var k: nat, x: Obj :| k <= |ev| && N(ev[..k], x) + Count(alive, x) < 0;
    assert (ev + more)[..k] == ev[..k];
  }

  lemma OverdrawnAfter(ev: seq<Event>, more: seq<Event>, alive: Scopes, alive': Scopes)
    requires Overdrawn(more, alive') && forall x: Obj :: N(ev, x) + Count(alive, x) == Count(alive', x)
    ensures Overdrawn(ev + more, alive)
  {
    var k: nat, x: Obj :| k <= |more| && N(more[..k], x) + Count(alive', x) < 0;
    assert (ev + more)[..|ev| + k] == ev + more[..k];
    NThen(ev, more[..k], x);
  }

  lemma OverdrawnWithin(ev: seq<Event>, alive: Scopes)
    requires Overdrawn(ev, alive + [[]])
    ensures Overdrawn(ev, alive)
  {
    var k: nat, x: Obj :| k <= |ev| && N(ev[..k], x) + Count(alive + [[]], x) < 0;
    CountScope(alive, [], x);
  }

  // ---- where a statement stands

  /** All objects are different, and of each scope all or only some are alive. */
  ghost predicate At(made: multiset<Obj>, alive: Scopes, scopes: Scopes) {
    && |alive| == |scopes| > 0
    && (forall k: nat :: k < |scopes| ==> Part(alive[k], scopes[k]))
    && forall x: Obj :: made[x] + Count(scopes, x) <= 1
  }

  lemma AtScope(made: multiset<Obj>, alive: Scopes, scopes: Scopes, objs: Objs, made': multiset<Obj>)
    requires At(made, alive, scopes) && made' + multiset(objs) <= made
    ensures At(made', alive + [objs], scopes + [objs])
  {
    forall x: Obj ensures made'[x] + Count(scopes + [objs], x) <= 1 {
      CountScope(scopes, objs, x);
      assert (made' + multiset(objs))[x] <= made[x];
    }
  }

  lemma AtPush(made: multiset<Obj>, alive: Scopes, scopes: Scopes, a: Objs, o: Objs, made': multiset<Obj>)
    requires At(made, alive, scopes) && Part(a, o) && made' + multiset(o) <= made
    ensures At(made', Push(alive, a), Push(scopes, o))
  {
    var n := |alive| - 1;
    PartThen(alive[n], scopes[n], a, o);
    forall x: Obj ensures made'[x] + Count(Push(scopes, o), x) <= 1 {
      CountPush(scopes, o, x);
      assert (made' + multiset(o))[x] <= made[x];
    }
  }

  /** Expressions make different objects, none of which is alive. */
  lemma AtParts(made: multiset<Obj>, alive: Scopes, scopes: Scopes, e: Expr)
    requires At(made, alive, scopes) && Objects(e) <= made
    ensures Apart(e) && forall x: Obj :: Objects(e)[x] >= 1 ==> made[x] == 1 && Count(alive, x) == 0 && Count(scopes, x) == 0
  {
    forall x: Obj ensures Objects(e)[x] <= 1 && Count(alive, x) <= Count(scopes, x) {
      assert made[x] + Count(scopes, x) <= 1;
      CountLess(alive, scopes, x);
    }
  }

  lemma AtLess(made: multiset<Obj>, alive: Scopes, scopes: Scopes, made': multiset<Obj>)
    requires At(made, alive, scopes) && made' <= made
    ensures At(made', alive, scopes)
  {
  }

  lemma AtMost(a: multiset<Obj>, b: multiset<Obj>)
    requires forall y: Obj :: a[y] <= b[y]
    ensures a <= b && |a| <= |b|
  {
    assert b == a + (b - a);
  }

  lemma MissingObj(alive: Objs, objs: Objs) returns (x: Obj)
    requires Part(alive, objs) && alive != objs
    ensures multiset(alive)[x] < multiset(objs)[x]
  {
    if forall y: Obj :: multiset(alive)[y] >= multiset(objs)[y] {
      AtMost(multiset(objs), multiset(alive));
    }
    x :| multiset(alive)[x] < multiset(objs)[x];
  }

  lemma {:induction false} CountLess(alive: Scopes, scopes: Scopes, x: Obj)
    requires |alive| == |scopes| && forall k: nat :: k < |scopes| ==> Part(alive[k], scopes[k])
    ensures Count(alive, x) <= Count(scopes, x)
    ensures forall k: nat :: k < |scopes| && multiset(alive[k])[x] < multiset(scopes[k])[x] ==> Count(alive, x) < Count(scopes, x)
    decreases |scopes|
  {
    if scopes != [] {
      var n := |scopes| - 1;
      CountLess(alive[..n], scopes[..n], x);
      assert multiset(alive[n])[x] <= multiset(scopes[n])[x];
      forall k: nat | k < |scopes| && multiset(alive[k])[x] < multiset(scopes[k])[x] ensures Count(alive, x) < Count(scopes, x) {
        if k < n {
          assert alive[..n][k] == alive[k] && scopes[..n][k] == scopes[k];
        }
      }
    }
  }

  lemma {:induction false} CountApart(scopes: Scopes, index: nat, k: nat, x: Obj)
    requires index <= k < |scopes|
    ensures Count(scopes[..index], x) + multiset(scopes[k])[x] <= Count(scopes, x)
    decreases |scopes|
  {
    var n := |scopes| - 1;
    if k < n {
      assert scopes[..n][..index] == scopes[..index] && scopes[..n][k] == scopes[k];
      CountApart(scopes[..n], index, k, x);
    } else {
      assert scopes[..n][..index] == scopes[..index];
      CountFront(scopes[..n], index, x);
    }
  }

  /** Destroying scopes that are not whole destroys something that is not there. */
  lemma DropMissing(made: multiset<Obj>, alive: Scopes, scopes: Scopes, index: nat) returns (x: Obj)
    requires At(made, alive, scopes) && index <= |alive| && alive[index..] != scopes[index..]
    ensures N(Drop(scopes, index), x) + Count(alive, x) < 0 && made[x] == 0
  {
    var k: nat :| index <= k < |alive| && alive[k] != scopes[k];
    x := MissingObj(alive[k], scopes[k]);
    CountLess(alive, scopes, x);
    CountApart(scopes, index, k, x);
    NDrop(scopes, index, x);
  }

  // ---- statements that fail

  lemma {:induction false} Wrong(s: Stmt, alive: Scopes, scopes: Scopes, index: nat, brk: bool, cont: bool) returns (o: Answers, x: Obj)
    requires At(Made(s), alive, scopes) && index < |scopes| && !SafeAt(s, alive, scopes, index) && Legal(s, brk, cont)
    ensures Fails(Did(s, o, scopes, index), x, Made(s) - multiset(Pushed(s)), alive)
    decreases s, 3
  {
    match s
    case Block(_, _) => o, x := WrongBlock(s, alive, scopes, index, brk, cont);
    case If(_, _, _) => o, x := WrongIf(s, alive, scopes, index, brk, cont);
    case Switch(_, _, _) => o, x := WrongSwitch(s, alive, scopes, index, brk, cont);
    case While(_, _) => o, x := WrongWhile(s, alive, scopes, index);
    case For(_, _, _, _) => o, x := WrongFor(s, alive, scopes, index);
    case Return(_) => o, x := WrongReturn(s, alive, scopes, index);
    case Plain(_) => o, x := WrongPlain(s, alive, scopes, index);
    case _ =>
      o := [];
      x := WrongJump(s, alive, scopes, index);
  }

  lemma WrongJump(s: Stmt, alive: Scopes, scopes: Scopes, index: nat) returns (x: Obj)
    requires s.Break? || s.Continue?
    requires At(Made(s), alive, scopes) && index < |scopes| && !SafeAt(s, alive, scopes, index)
    ensures Overdrawn(Did(s, [], scopes, index).ev, alive)
  {
    WholeThen(alive, scopes, index);
    x := DropMissing(Made(s), alive, scopes, index);
    OverdrawnBy(Drop(scopes, index), alive, x);
  }

  lemma WrongPlain(s: Stmt, alive: Scopes, scopes: Scopes, index: nat) returns (o: Answers, x: Obj)
    requires s.Plain? && At(Made(s), alive, scopes) && index < |scopes| && !SafeAt(s, alive, scopes, index)
    ensures Fails(Did(s, o, scopes, index), x, Made(s) - multiset(Pushed(s)), alive)
  {
    hide Wrote, Objects, Part;
    var w := SimpleWork(s.simple);
    var a;
    AtParts(Made(s), alive, scopes, w.expr);
    a, x := Unsettled(w, true);
    o := [a];
    assert o[1..] == [];
    EndFails(Did(s, o, scopes, index), x, Made(s) - multiset(Pushed(s)), alive);
  }

  /** A return whose expression is not balanced, or that leaves scopes that are not
      whole. */
  lemma WrongReturn(s: Stmt, alive: Scopes, scopes: Scopes, index: nat) returns (o: Answers, x: Obj)
    requires s.Return? && At(Made(s), alive, scopes) && index < |scopes| && !SafeAt(s, alive, scopes, index)
    ensures Fails(Did(s, o, scopes, index), x, Made(s) - multiset(Pushed(s)), alive)
  {
    hide Eval, Objects, TempsOf, Drop, Count, Part;
    var a, objs, w := YES, TempsOf(s.result), Work(Given(s.result), [], []);
    GivenMakes(s.result, a);
    if !Balanced(s.result) {
      AtParts(Made(s), alive, scopes, w.expr);
      a, x := Unsettled(w, true);
      ReturnCounts(s, a, scopes, index, x);
      NWork(w, a, x);
    } else {
      WholeThen(alive, scopes, 0);
      assert alive[0..] == alive && scopes[0..] == scopes;
      assert alive[0..|alive| - 1] == alive[..|alive| - 1] && scopes[0..|alive| - 1] == scopes[..|alive| - 1];
      x := DropMissing(Made(s), alive, scopes, 0);
      UntouchedWork(s.result, a, x);
      ReturnCounts(s, a, scopes, index, x);
      NDrop(scopes, 0, x);
      CountNone(x);
    }
    o := [a];
    assert o[1..] == [];
    ReturnFails(s, a, x, objs, alive, scopes, index);
  }

  lemma ReturnFails(s: Stmt, a: Answer, x: Obj, objs: Objs, alive: Scopes, scopes: Scopes, index: nat)
    requires s.Return? && scopes != [] && objs == TempsOf(s.result)
    requires var ev := Did(s, [a], scopes, index).ev;
      N(ev, x) + Count(alive, x) < 0 || (N(ev, x) > 0 && Made(s)[x] >= 1 && x !in objs)
    ensures Fails(Did(s, [a], scopes, index), x, Made(s) - multiset(Pushed(s)), alive)
  {
    hide Eval, Drop, Objects, TempsOf;
    assert [a][1..] == [];
    var r := Did(s, [a], scopes, index);
    if N(r.ev, x) + Count(alive, x) < 0 {
      OverdrawnBy(r.ev, alive, x);
    }
  }

  lemma ReturnCounts(s: Stmt, a: Answer, scopes: Scopes, index: nat, x: Obj)
    requires s.Return? && scopes != []
    ensures N(Did(s, [a], scopes, index).ev, x) ==
      N(Eval(Given(s.result), false, a).ev, x) - multiset(TempsOf(s.result))[x] - Count(scopes, x)
  {
    hide Eval, TempsOf, Drop, Count;
    var objs := TempsOf(s.result);
    NThen(Eval(Given(s.result), false, a).ev, Drop(Push(scopes, objs), 0), x);
    CountPush(scopes, objs, x);
    NDrop(Push(scopes, objs), 0, x);
    CountNone(x);
  }

  lemma NWork(w: Work, a: Answer, x: Obj)
    requires w.act == [] && w.slot == []
    ensures N(Wrote(w, a), x) == N(Eval(w.expr, false, a).ev, x) - multiset(TempsOf(w.expr))[x]
  {
    hide Eval, TempsOf;
    var ev, objs := Eval(w.expr, false, a).ev, TempsOf(w.expr);
    assert [] + Dtors(objs + []) == Dtors(objs) by {
      assert objs + [] == objs;
    }
    NThen(ev, Dtors(objs), x);
    NDtors(objs, x);
  }

  lemma {:induction false} WrongSeq(stats: seq<Stmt>, alive: Scopes, scopes: Scopes, index: nat, brk: bool, cont: bool) returns (o: Answers, x: Obj)
    requires At(MadeAll(stats), alive, scopes) && index < |scopes| && !SafeAtSeq(stats, alive, scopes, index)
    requires forall k: nat :: k < |stats| ==> Legal(stats[k], brk, cont)
    ensures Fails(DidSeq(stats, o, scopes, index), x, MadeAll(stats) - multiset(PushedAll(stats)), alive)
    decreases stats, 3
  {
    hide Part, State, Fails, Did, DidSeq, Legal, Ends, EndsSeq, PushedAll, Pushed, At, SafeAt, SafeAtSeq, SafeSeq, Safe;
    AtMakes(MadeAll(stats), alive, scopes);
    NotEmpty(stats, alive, scopes, index);
    var front, last, n := stats[..|stats| - 1], stats[|stats| - 1], |alive| - 1;
    if !SafeAtSeq(front, alive, scopes, index) {
      AtLess(MadeAll(stats), alive, scopes, MadeAll(front));
      o, x := WrongSeq(front, alive, scopes, index, brk, cont);
      o := FrontFails(stats, o, x, alive, scopes, index, brk, cont);
    } else {
      var g := SeqUnsafe(stats, alive, scopes, index);
      var o1 := RealiseSeq(front, alive[n], scopes[n], g, brk, cont);
      var l := ExecSeq(front, o1).locals;
      SeqEnds(front, o1, alive[n], scopes[n]);
      PushedAllMade(front);
      AtPush(MadeAll(stats), alive, scopes, l, PushedAll(front), Made(last));
      LastUnsafe(last, g, alive, scopes, l, PushedAll(front), index);
      var o2;
      o2, x := Wrong(last, Push(alive, l), Push(scopes, PushedAll(front)), index, brk, cont);
      o := o1 + o2;
      LastFails(stats, o1, o2, x, alive, scopes, index, brk, cont);
    }
  }

  lemma NotEmpty(stats: seq<Stmt>, alive: Scopes, scopes: Scopes, index: nat)
    requires |alive| == |scopes| && index < |scopes| && Part(alive[|alive| - 1], scopes[|alive| - 1])
    requires !SafeAtSeq(stats, alive, scopes, index)
    ensures stats != []
  {
  }

  lemma SeqUnsafe(stats: seq<Stmt>, alive: Scopes, scopes: Scopes, index: nat) returns (g: Held)
    requires stats != [] && !SafeAtSeq(stats, alive, scopes, index) && SafeAtSeq(stats[..|stats| - 1], alive, scopes, index)
    ensures var n := |alive| - 1;
      && g in EndsSeq(stats[..|stats| - 1], State(alive[n], scopes[n]))
      && !Safe(stats[|stats| - 1], g, alive[index..n] == scopes[index..n], alive[..n] == scopes[..n])
  {
    hide Part, State, EndsSeq, Safe;
    var front, last, n := stats[..|stats| - 1], stats[|stats| - 1], |alive| - 1;
    g :| g in EndsSeq(front, State(alive[n], scopes[n])) &&
      !Safe(last, g, alive[index..n] == scopes[index..n], alive[..n] == scopes[..n]);
  }

  lemma LastUnsafe(last: Stmt, g: Held, alive: Scopes, scopes: Scopes, l: Objs, p: Objs, index: nat)
    requires |alive| == |scopes| && index < |scopes|
    requires var n := |alive| - 1;
      g == State(alive[n] + l, scopes[n] + p) && !Safe(last, g, alive[index..n] == scopes[index..n], alive[..n] == scopes[..n])
    ensures !SafeAt(last, Push(alive, l), Push(scopes, p), index)
  {
    hide Part, State, Safe;
    Pushing(alive, scopes, l, p, index);
  }

  /** The failure of the statements in front stays a failure, with answers that bring
      the last one to its end. */
  lemma FrontFails(stats: seq<Stmt>, o: Answers, x: Obj, alive: Scopes, scopes: Scopes, index: nat, brk: bool, cont: bool) returns (o': Answers)
    requires stats != [] && Legal(stats[|stats| - 1], brk, cont) && At(MadeAll(stats), alive, scopes) && index < |scopes|
    requires var front := stats[..|stats| - 1];
             Fails(DidSeq(front, o, scopes, index), x, MadeAll(front) - multiset(PushedAll(front)), alive)
    ensures Fails(DidSeq(stats, o', scopes, index), x, MadeAll(stats) - multiset(PushedAll(stats)), alive)
  {
    hide Did, Part, Overdrawn, Pushed, Legal;
    var front, last := stats[..|stats| - 1], stats[|stats| - 1];
    var r, scopes' := DidSeq(front, o, scopes, index), Push(scopes, PushedAll(front));
    PushedMade(last);
    o' := o;
    if r.out == Normal {
      if Overdrawn(r.ev, alive) {
        OverdrawnThen(r.ev, Did(last, r.rest, scopes', index).ev, alive);
      } else {
        var o2 := Finish(last, scopes', index);
        o' := o + o2;
        MoreSeq(front, o, o2, scopes, index);
        assert [] + o2 == o2;
        CountPush(scopes, PushedAll(front), x);
        Unknown(last, o2, scopes', index, brk, cont, x);
        NThen(r.ev, Did(last, o2, scopes', index).ev, x);
      }
    }
  }

  lemma LastFails(stats: seq<Stmt>, o1: Answers, o2: Answers, x: Obj, alive: Scopes, scopes: Scopes, index: nat, brk: bool, cont: bool)
    requires stats != [] && At(MadeAll(stats), alive, scopes) && forall k: nat :: k < |stats| ==> Legal(stats[k], brk, cont)
    requires var front, last := stats[..|stats| - 1], stats[|stats| - 1]; var l := ExecSeq(front, o1).locals;
      && SafeAtSeq(front, alive, scopes, index) && SteadySeq(front, o1) && ExecSeq(front, o1).out == Normal
      && Fails(Did(last, o2, Push(scopes, PushedAll(front)), index), x, Made(last) - multiset(Pushed(last)), Push(alive, l))
    ensures Fails(DidSeq(stats, o1 + o2, scopes, index), x, MadeAll(stats) - multiset(PushedAll(stats)), alive)
  {
    hide Did, Part, Overdrawn, Pushed, ExecSeq, Legal, Tidy, Safe, SafeSeq, State;
    var front, last := stats[..|stats| - 1], stats[|stats| - 1];
    var e, r1, scopes' := ExecSeq(front, o1), DidSeq(front, o1, scopes, index), Push(scopes, PushedAll(front));
    SteadySeqMore(front, o1, []);
    assert o1 + [] == o1;
    SeqSound(front, o1, alive, scopes, index, brk, cont);
    assert e.ev + [] == e.ev;
    MoreSeq(front, o1, o2, scopes, index);
    assert [] + o2 == o2;
    var r2 := Did(last, o2, scopes', index);
    SeqTidy(front, o1, NOTHING);
    forall y: Obj ensures N(e.ev, y) + Count(alive, y) == Count(Push(alive, e.locals), y) {
      CourseCounts(e, y);
      CountPush(alive, e.locals, y);
    }
    if Overdrawn(r2.ev, Push(alive, e.locals)) {
      OverdrawnAfter(e.ev, r2.ev, alive, Push(alive, e.locals));
    } else if r2.out != Stuck {
      NThen(e.ev, r2.ev, x);
      PushedAllMade(front);
    }
  }

  lemma WrongBlock(s: Stmt, alive: Scopes, scopes: Scopes, index: nat, brk: bool, cont: bool) returns (o: Answers, x: Obj)
    requires s.Block? && At(Made(s), alive, scopes) && index < |scopes| && !SafeAt(s, alive, scopes, index) && Legal(s, brk, cont)
    ensures Fails(Did(s, o, scopes, index), x, Made(s) - multiset(Pushed(s)), alive)
    decreases s, 2
  {
    hide Fails, Part, EndsSeq, Did, SafeSeq;
    BlockInside(s, alive, scopes, index);
    AtScope(Made(s), alive, scopes, [], Made(s));
    if !SafeAtSeq(s.stats, alive + [[]], scopes + [[]], index) {
      o, x := WrongSeq(s.stats, alive + [[]], scopes + [[]], index, brk, cont);
      BlockFails(s, o, x, alive, scopes, index);
    } else {
      var g :| g in EndsSeq(s.stats, FRESH) && !(if s.terminate then g.whole else g.none);
      FreshState();
      o := RealiseSeq(s.stats, [], [], g, brk, cont);
      x := BlockLoses(s, o, alive, scopes, index, brk, cont);
    }
  }

  lemma BlockFails(s: Stmt, o: Answers, x: Obj, alive: Scopes, scopes: Scopes, index: nat)
    requires s.Block? && At(Made(s), alive, scopes) && scopes != []
    requires Fails(DidSeq(s.stats, o, scopes + [[]], index), x, MadeAll(s.stats) - multiset(PushedAll(s.stats)), alive + [[]])
    ensures Fails(Did(s, o, scopes, index), x, Made(s) - multiset(Pushed(s)), alive)
  {
    hide DidSeq, Overdrawn, PushedAll, Part;
    var r, objs := DidSeq(s.stats, o, scopes + [[]], index), PushedAll(s.stats);
    PushedAllMade(s.stats);
    if Overdrawn(r.ev, alive + [[]]) {
      OverdrawnWithin(r.ev, alive);
      OverdrawnThen(r.ev, Dtors(objs), alive);
    } else {
      NThen(r.ev, Dtors(objs), x);
      NDtors(objs, x);
    }
  }

  /** A block whose end destroys what is not there, or leaves what nobody destroys. */
  lemma BlockLoses(s: Stmt, o: Answers, alive: Scopes, scopes: Scopes, index: nat, brk: bool, cont: bool) returns (x: Obj)
    requires s.Block? && At(Made(s), alive, scopes) && index < |scopes| && Legal(s, brk, cont)
    requires SafeAtSeq(s.stats, alive + [[]], scopes + [[]], index) && SteadySeq(s.stats, o)
    requires var e := ExecSeq(s.stats, o); e.out == Normal && if s.terminate then e.locals != PushedAll(s.stats) else e.locals != []
    ensures Fails(Did(s, o, scopes, index), x, Made(s) - multiset(Pushed(s)), alive)
  {
    hide Overdrawn, PushedAll, ExecSeq, DidSeq, Tidy, SafeAtSeq, Part, Legal;
    var e, r, objs := ExecSeq(s.stats, o), DidSeq(s.stats, o, scopes + [[]], index), PushedAll(s.stats);
    assert forall k: nat :: k < |s.stats| ==> Legal(s.stats[k], brk, cont) by {
      BlockLegal(s, brk, cont);
    }
    SeqSound(s.stats, o, alive + [[]], scopes + [[]], index, brk, cont);
    SteadySeqMore(s.stats, o, []);
    assert o + [] == o && e.ev + [] == e.ev;
    SeqTidy(s.stats, o, NOTHING);
    FreshState();
    SeqEnds(s.stats, o, [], []);
    PushedAllMade(s.stats);
    if s.terminate {
      x := MissingObj(e.locals, objs);
      CourseCounts(e, x);
      NThen(r.ev, Dtors(objs), x);
      NDtors(objs, x);
      CountLess(alive, scopes, x);
      OverdrawnBy(r.ev + Dtors(objs), alive, x);
    } else {
      x := e.locals[0];
      CourseCounts(e, x);
      PartIn(e.locals, objs, x);
    }
  }

  lemma BlockLegal(s: Stmt, brk: bool, cont: bool)
    requires s.Block? && Legal(s, brk, cont)
    ensures forall k: nat :: k < |s.stats| ==> Legal(s.stats[k], brk, cont)
  {
  }

  lemma PartIn(alive: Objs, objs: Objs, x: Obj)
    requires Part(alive, objs) && x in alive
    ensures 1 <= multiset(alive)[x] <= multiset(objs)[x]
  {
    assert x in multiset(alive);
  }

  lemma WrongIf(s: Stmt, alive: Scopes, scopes: Scopes, index: nat, brk: bool, cont: bool) returns (o: Answers, x: Obj)
    requires s.If? && At(Made(s), alive, scopes) && index < |scopes| && !SafeAt(s, alive, scopes, index) && Legal(s, brk, cont)
    ensures Fails(Did(s, o, scopes, index), x, Made(s) - multiset(Pushed(s)), alive)
    decreases s, 2
  {
    hide Fails, Part, Did, State, At, SafeAt, Objects, Force;
    PushedMade(s.body);
    AtMakes(Made(s), alive, scopes);
    var o';
    if !Balanced(s.cond) {
      o, x := ConditionFails(s, alive, scopes, index, brk, cont);
    } else if !SafeAt(s.body, alive, scopes, index) {
      AtLess(Made(s), alive, scopes, Made(s.body));
      o', x := Wrong(s.body, alive, scopes, index, brk, cont);
      o := [Force(s.cond, true)] + o';
      BranchDid(s, true, o', scopes, index);
      BranchFails(s, Force(s.cond, true), o, Did(s.body, o', scopes, index), x, Made(s.body) - multiset(Pushed(s.body)), alive, scopes, index);
    } else {
      ElseUnsafe(s, alive, scopes, index);
      var scopes', last := Push(scopes, Pushed(s.body)), s.elseBody.value;
      PushedMade(last);
      o', x := Wrong(last, alive, scopes', index, brk, cont);
      o := [Force(s.cond, false)] + o';
      BranchDid(s, false, o', scopes, index);
      BranchFails(s, Force(s.cond, false), o, Did(last, o', scopes', index), x, Made(last) - multiset(Pushed(last)), alive, scopes, index);
    }
  }

  /** A condition that is not balanced, with answers that bring the branch taken to its
      end. */
  lemma ConditionFails(s: Stmt, alive: Scopes, scopes: Scopes, index: nat, brk: bool, cont: bool) returns (o: Answers, x: Obj)
    requires s.If? && At(Made(s), alive, scopes) && index < |scopes| && !Balanced(s.cond) && Legal(s, brk, cont)
    ensures Fails(Did(s, o, scopes, index), x, Made(s) - multiset(Pushed(s)), alive)
  {
    hide Wrote, Objects, Holds, Part, Fails, Count;
    var w := Condition(s.cond);
    var a;
    AtParts(Made(s), alive, scopes, s.cond);
    a, x := Unsettled(w, true);
    PushedMade(s);
    PushedMade(s.body);
    o := [a];
    assert o[1..] == [];
    var r := Ran([], Normal, []);
    if Holds(s.cond, a) || s.elseBody.Some? {
      var branch, scopes' := if Holds(s.cond, a) then s.body else s.elseBody.value,
                             if Holds(s.cond, a) then scopes else Push(scopes, Pushed(s.body));
      CountPush(scopes, Pushed(s.body), x);
      var o' := Finish(branch, scopes', index);
      Unknown(branch, o', scopes', index, brk, cont, x);
      r := Did(branch, o', scopes', index);
      o := [a] + o';
      assert o[1..] == o';
    }
    NThen(Wrote(w, a), r.ev, x);
    ConditionObject(s, x);
    EndFails(Did(s, o, scopes, index), x, Made(s) - multiset(Pushed(s)), alive);
  }

  /** What a condition makes belongs to no branch. */
  lemma ConditionObject(s: Stmt, x: Obj)
    requires s.If? && Objects(s.cond)[x] == 1 && Made(s)[x] == 1
    ensures x in Made(s) - multiset(Pushed(s))
  {
    hide Objects;
    PushedMade(s.body);
    if s.elseBody.Some? {
      PushedMade(s.elseBody.value);
    }
  }

  lemma AtMakes(made: multiset<Obj>, alive: Scopes, scopes: Scopes)
    requires At(made, alive, scopes)
    ensures |alive| == |scopes| > 0 && Part(alive[|alive| - 1], scopes[|alive| - 1])
  {
  }

  lemma ElseUnsafe(s: Stmt, alive: Scopes, scopes: Scopes, index: nat)
    requires s.If? && At(Made(s), alive, scopes) && index < |scopes|
    requires !SafeAt(s, alive, scopes, index) && SafeAt(s.body, alive, scopes, index) && Balanced(s.cond)
    ensures s.elseBody.Some?
    ensures At(Made(s.elseBody.value), alive, Push(scopes, Pushed(s.body))) && index < |Push(scopes, Pushed(s.body))|
    ensures !SafeAt(s.elseBody.value, alive, Push(scopes, Pushed(s.body)), index)
  {
    hide Part, State, Balanced, At;
    var n := |alive| - 1;
    AtMakes(Made(s), alive, scopes);
    PartMore(alive[n], scopes[n], Pushed(s.body));
    assert alive[n] + [] == alive[n];
    Pushing(alive, scopes, [], Pushed(s.body), index);
    PushTwice(alive, [], []);
    NonePart(Pushed(s.body));
    ElseMade(s);
    AtPush(Made(s), alive, scopes, [], Pushed(s.body), Made(s.elseBody.value));
  }

  lemma ElseMade(s: Stmt)
    requires s.If? && s.elseBody.Some?
    ensures Made(s.elseBody.value) + multiset(Pushed(s.body)) <= Made(s)
  {
    hide Objects;
    PushedMade(s.body);
  }

  lemma NonePart(objs: Objs)
    ensures Part([], objs)
  {
  }

  lemma BranchDid(s: Stmt, b: bool, o: Answers, scopes: Scopes, index: nat)
    requires s.If? && scopes != [] && (b || s.elseBody.Some?)
    ensures var r := if b then Did(s.body, o, scopes, index) else Did(s.elseBody.value, o, Push(scopes, Pushed(s.body)), index);
            Did(s, [Force(s.cond, b)] + o, scopes, index) == r.(ev := Wrote(Condition(s.cond), Force(s.cond, b)) + r.ev)
  {
    hide Wrote, Holds, Force;
    ForcedHolds(s.cond, b);
    assert ([Force(s.cond, b)] + o)[1..] == o;
  }

  lemma BranchFails(s: Stmt, a: Answer, o: Answers, r: Ran, x: Obj, made: multiset<Obj>, alive: Scopes, scopes: Scopes, index: nat)
    requires s.If? && scopes != [] && Fails(r, x, made, alive) && Balanced(s.cond)
    requires Did(s, o, scopes, index) == r.(ev := Wrote(Condition(s.cond), a) + r.ev)
    requires made + multiset(Pushed(s.body)) <= Made(s.body) ||
      (s.elseBody.Some? && made + multiset(Pushed(s.elseBody.value)) <= Made(s.elseBody.value))
    ensures Fails(Did(s, o, scopes, index), x, Made(s) - multiset(Pushed(s)), alive)
  {
    hide Did, Wrote, Overdrawn, Objects;
    PushedMade(s.body);
    if s.elseBody.Some? {
      PushedMade(s.elseBody.value);
    }
    var ev := Wrote(Condition(s.cond), a);
    forall y: Obj ensures N(ev, y) == 0 {
      NSettled(Condition(s.cond), a, y);
    }
    if Overdrawn(r.ev, alive) {
      OverdrawnAfter(ev, r.ev, alive, alive);
    } else {
      NThen(ev, r.ev, x);
      assert (made + multiset(Pushed(s.body)))[x] == made[x] + multiset(Pushed(s.body))[x];
    }
  }

  // ---- loops

  lemma {:induction false} WrongBody(body: Stmt, alive: Scopes, scopes: Scopes, cont: bool) returns (o: Answers, x: Obj)
    requires At(Made(body), alive, scopes) && !BodySafeAt(body, alive, scopes) && Legal(body, true, cont)
    ensures Fails(Did(body, o, scopes + [[]], |scopes|), x, Made(body), alive)
    decreases body, 4
  {
    hide Part, Did, State, SafeAt, Overdrawn, Safe;
    BodyAt(body, alive, scopes);
    if !Safe(body, FRESH, true, alive == scopes) {
      AtScope(Made(body), alive, scopes, [], Made(body));
      o, x := Wrong(body, alive + [[]], scopes + [[]], |scopes|, true, cont);
      var ev := Did(body, o, scopes + [[]], |scopes|).ev;
      if Overdrawn(ev, alive + [[]]) {
        OverdrawnWithin(ev, alive);
      }
    } else {
      var g :| g in Ends(body, FRESH) && !g.none;
      FreshState();
      o := Realise(body, [], [], g, true, cont);
      StateIs([] + Exec(body, o).locals, [] + Pushed(body));
      x := BodyLoses(body, o, alive, scopes, cont);
    }
  }

  lemma BodyLoses(body: Stmt, o: Answers, alive: Scopes, scopes: Scopes, cont: bool) returns (x: Obj)
    requires At(Made(body), alive, scopes) && SafeAt(body, alive + [[]], scopes + [[]], |scopes|) && Legal(body, true, cont)
    requires Steady(body, o) && Exec(body, o).out == Normal && [] + Exec(body, o).locals != []
    ensures x in Made(body) && Loses(Did(body, o, scopes + [[]], |scopes|), x)
  {
    hide Part, Exec, Did, SafeAt, Tidy;
    var e := Exec(body, o);
    SteadyMore(body, o, []);
    assert o + [] == o && e.ev + [] == e.ev;
    Sound(body, o, alive + [[]], scopes + [[]], |scopes|, true, cont);
    FreshState();
    RunEnds(body, o, [], []);
    x := e.locals[0];
    PartIn(e.locals, Pushed(body), x);
    PushedMade(body);
    ExecTidy(body, o, NOTHING);
    CourseCounts(e, x);
  }

  /** The loop in its scopes is wrong: its condition, its body, or its increment. */
  lemma WrongLoop(cond: Expr, body: Stmt, incr: Option<Simple>, alive: Scopes, scopes: Scopes) returns (o: Answers, x: Obj)
    requires At(Objects(cond) + MadeOpt(incr) + Made(body), alive, scopes) && !LoopSafe(cond, body, incr, alive, scopes)
    requires OptLocals(incr) == [] && Legal(body, true, true)
    ensures Fails(DidLoop(cond, body, incr, o, scopes + [[]]), x, Objects(cond) + MadeOpt(incr) + Made(body), alive)
    decreases body, 5
  {
    hide BodySafeAt, Legal, Did, At, Overdrawn, Balanced, Objects, MadeOpt, OptSettled, DidLoop, GoesOn, Fails;
    var made := Objects(cond) + MadeOpt(incr) + Made(body);
    if !Balanced(cond) {
      AtLess(made, alive, scopes, Objects(cond));
      o, x := LoopConditionFails(cond, body, incr, made, alive, scopes);
    } else if !BodySafeAt(body, alive, scopes) {
      AtLess(made, alive, scopes, Made(body));
      var o';
      o', x := WrongBody(body, alive, scopes, true);
      o := TurnFails(cond, body, incr, o', x, made, alive, scopes);
    } else {
      o, x := IncrementUnsettled(cond, body, incr, alive, scopes);
    }
  }

  lemma LoopConditionFails(cond: Expr, body: Stmt, incr: Option<Simple>, made: multiset<Obj>, alive: Scopes, scopes: Scopes) returns (o: Answers, x: Obj)
    requires At(made, alive, scopes) && Objects(cond) <= made && !Balanced(cond)
    ensures Fails(DidLoop(cond, body, incr, o, scopes + [[]]), x, made, alive)
  {
    hide Wrote, Eval, Objects, Part, Did, NextTurn, Fails, Count, DidLoop;
    var a;
    AtParts(made, alive, scopes, cond);
    a, x := Unsettled(Condition(cond), false);
    o := [a];
    assert o[1..] == [] && [a] + [] == o;
    var ev, d := Wrote(Condition(cond), a), DidLoop(cond, body, incr, o, scopes + [[]]);
    LoopIs(cond, body, incr, o, scopes + [[]]);
    if N(ev, x) < 0 {
      LoopStartsWith(cond, body, incr, a, [], scopes + [[]]);
      StartFails(d, ev, x, made, alive);
    } else {
      EndFails(d, x, made, alive);
    }
  }

  lemma LoopStartsWith(cond: Expr, body: Stmt, incr: Option<Simple>, a: Answer, o: Answers, scopes: Scopes)
    requires scopes != []
    ensures Wrote(Condition(cond), a) <= DidLoop(cond, body, incr, [a] + o, scopes).ev
    ensures Holds(cond, a) ==>
      Wrote(Condition(cond), a) + Did(body, o, scopes, |scopes| - 1).ev <= DidLoop(cond, body, incr, [a] + o, scopes).ev
  {
    hide Wrote, Holds, Did, DidLoop;
    LoopIs(cond, body, incr, [a] + o, scopes);
    assert ([a] + o)[1..] == o;
  }

  /** A turn of a loop that fails, and the answers that end the loop. */
  lemma TurnFails(cond: Expr, body: Stmt, incr: Option<Simple>, o: Answers, x: Obj, made: multiset<Obj>, alive: Scopes, scopes: Scopes)
      returns (o': Answers)
    requires At(made, alive, scopes) && made == Objects(cond) + MadeOpt(incr) + Made(body) && Balanced(cond) && OptLocals(incr) == []
    requires Fails(Did(body, o, scopes + [[]], |scopes|), x, Made(body), alive)
    ensures Fails(DidLoop(cond, body, incr, o', scopes + [[]]), x, made, alive)
  {
    hide Did, Wrote, Overdrawn, DidLoop, N, Holds, Objects, MadeOpt, Part, OptRun, Force, OptAnswers, NextTurn;
    var inner, troo, fols := scopes + [[]], Force(cond, true), Force(cond, false);
    var r, w := Did(body, o, inner, |scopes|), Condition(cond);
    ForcedHolds(cond, true);
    ForcedHolds(cond, false);
    LoopStartsWith(cond, body, incr, troo, o, inner);
    o' := [troo] + o;
    if Overdrawn(r.ev, alive) {
      TurnOverdrawn(Wrote(w, troo), r.ev, DidLoop(cond, body, incr, o', inner).ev, alive, cond, troo);
    } else {
      LoopIs(cond, body, incr, o', inner);
      assert o'[1..] == o;
      NSettled(w, troo, x);
      NThen(Wrote(w, troo), r.ev, x);
      if r.out.Normal? || r.out.Continues? {
        o' := [troo] + (o + (OptAnswers(incr) + [fols]));
        OptSteady(incr, [fols], true);
        TurnEnds(cond, body, incr, troo, o, OptAnswers(incr), fols, inner);
        IncrementObject(cond, body, incr, made, alive, scopes, x);
        UntouchedOpt(incr, OptAnswers(incr) + [fols], x);
        NSettled(w, fols, x);
        NNone(x);
        var i := OptRun(incr, OptAnswers(incr) + [fols], true).ev;
        NThen(Wrote(w, troo) + r.ev, i, x);
        NThen(Wrote(w, troo) + r.ev + i, Wrote(w, fols), x);
        assert Loses(DidLoop(cond, body, incr, o', inner), x);
      } else {
        NNone(x);
        assert Crashes(DidLoop(cond, body, incr, o', inner), alive) || Loses(DidLoop(cond, body, incr, o', inner), x);
      }
    }
  }

  lemma IncrementObject(cond: Expr, body: Stmt, incr: Option<Simple>, made: multiset<Obj>, alive: Scopes, scopes: Scopes, x: Obj)
    requires At(made, alive, scopes) && made == Objects(cond) + MadeOpt(incr) + Made(body)
    ensures Made(body)[x] >= 1 ==> MadeOpt(incr)[x] == 0
    ensures MadeOpt(incr)[x] >= 1 ==> Made(body)[x] == 0 && Objects(cond)[x] == 0
  {
    assert made[x] + Count(scopes, x) <= 1;
  }

  lemma TurnOverdrawn(before: seq<Event>, turn: seq<Event>, ev: seq<Event>, alive: Scopes, cond: Expr, a: Answer)
    requires Overdrawn(turn, alive) && Balanced(cond) && before == Wrote(Condition(cond), a) && before + turn <= ev
    ensures Overdrawn(ev, alive)
  {
    hide Wrote, Overdrawn;
    forall y: Obj ensures N(before, y) == 0 {
      NSettled(Condition(cond), a, y);
    }
    OverdrawnAfter(before, turn, alive, alive);
    OverdrawnThen(before + turn, ev[|before + turn|..], alive);
    assert ev == before + turn + ev[|before + turn|..];
  }

  /** One turn that goes on, the increment, and the end of the loop. */
  lemma TurnEnds(cond: Expr, body: Stmt, incr: Option<Simple>, troo: Answer, o: Answers, more: Answers, fols: Answer, scopes: Scopes)
    requires scopes != [] && Holds(cond, troo) && !Holds(cond, fols)
    requires var r := Did(body, o, scopes, |scopes| - 1); (r.out.Normal? || r.out.Continues?) && r.rest == []
    requires OptRun(incr, more + [fols], true).out == Normal && OptRun(incr, more + [fols], true).rest == [fols]
    ensures var r, i := Did(body, o, scopes, |scopes| - 1), OptRun(incr, more + [fols], true);
      DidLoop(cond, body, incr, [troo] + (o + (more + [fols])), scopes) ==
        Ran(Wrote(Condition(cond), troo) + r.ev + i.ev + Wrote(Condition(cond), fols), Normal, [])
  {
    hide Did, Wrote, Holds, DidLoop, OptRun;
    var all := [troo] + (o + (more + [fols]));
    assert all[1..] == o + (more + [fols]);
    More(body, o, more + [fols], scopes, |scopes| - 1);
    assert [] + (more + [fols]) == more + [fols] && [fols][1..] == [];
    LoopIs(cond, body, incr, all, scopes);
    LoopIs(cond, body, incr, [fols], scopes);
  }

  /** A body that goes on, followed by an increment that is not settled. */
  lemma IncrementUnsettled(cond: Expr, body: Stmt, incr: Option<Simple>, alive: Scopes, scopes: Scopes) returns (o: Answers, x: Obj)
    requires At(Objects(cond) + MadeOpt(incr) + Made(body), alive, scopes)
    requires Balanced(cond) && BodySafeAt(body, alive, scopes) && Legal(body, true, true)
    requires GoesOn(body) && !OptSettled(incr) && OptLocals(incr) == []
    ensures Fails(DidLoop(cond, body, incr, o, scopes + [[]]), x, Objects(cond) + MadeOpt(incr) + Made(body), alive)
  {
    hide Did, Wrote, Overdrawn, DidLoop, Holds, Objects, Part, Force, BodySafeAt, Legal, Balanced, GoesOn, Fails, Exec, Made, Count;
    var made, inner, w, s := Objects(cond) + MadeOpt(incr) + Made(body), scopes + [[]], Condition(cond), SimpleWork(incr.value);
    var troo, fols, a := Force(cond, true), Force(cond, false), YES;
    ForcedHolds(cond, true);
    ForcedHolds(cond, false);
    assert Objects(s.expr) <= made;
    AtParts(made, alive, scopes, s.expr);
    a, x := Unsettled(s, true);
    var o' := GoingOn(body, alive, scopes);
    o := [troo] + (o' + ([a] + [fols]));
    assert ([a] + [fols])[1..] == [fols];
    TurnEnds(cond, body, incr, troo, o', [a], fols, inner);
    IncrementObject(cond, body, incr, made, alive, scopes, x);
    CountScope(scopes, [], x);
    Unknown(body, o', inner, |scopes|, true, true, x);
    NSettled(w, troo, x);
    NSettled(w, fols, x);
    var r, i := Did(body, o', inner, |scopes|).ev, OptRun(incr, [a] + [fols], true).ev;
    assert i == Wrote(s, a);
    NThen(Wrote(w, troo), r, x);
    NThen(Wrote(w, troo) + r, i, x);
    NThen(Wrote(w, troo) + r + i, Wrote(w, fols), x);
    EndFails(DidLoop(cond, body, incr, o, inner), x, made, alive);
  }

  /** Answers with which a body goes on. */
  lemma GoingOn(body: Stmt, alive: Scopes, scopes: Scopes) returns (o: Answers)
    requires alive != [] && BodySafeAt(body, alive, scopes) && Legal(body, true, true) && GoesOn(body)
    ensures var r := Did(body, o, scopes + [[]], |scopes|); (r.out.Normal? || r.out.Continues?) && r.rest == []
  {
    hide Did, Exec, Legal, BodySafeAt, Ends;
    if MayJump(body, Continue) {
      o := RealiseJump(body, Continue, true, true);
    } else {
      var g :| g in Ends(body, FRESH);
      FreshState();
      o := Realise(body, [], [], g, true, true);
    }
    SteadyMore(body, o, []);
    assert o + [] == o;
    BodySound(body, o, alive, scopes, true);
    LeavesScope(Exec(body, o));
  }

  lemma WrongWhile(s: Stmt, alive: Scopes, scopes: Scopes, index: nat) returns (o: Answers, x: Obj)
    requires s.While? && At(Made(s), alive, scopes) && index < |scopes| && !SafeAt(s, alive, scopes, index) && Legal(s.wbody, true, true)
    ensures Fails(Did(s, o, scopes, index), x, Made(s) - multiset(Pushed(s)), alive)
    decreases s, 2
  {
    hide BodySafeAt, SafeBody, Legal, DidLoop, Part, State;
    BodyInside(s.wbody, alive, scopes, []);
    assert Objects(s.wcond) + MadeOpt(None) + Made(s.wbody) == Made(s);
    o, x := WrongLoop(s.wcond, s.wbody, None, alive, scopes);
    assert Made(s) - multiset{} == Made(s);
  }

  lemma WrongFor(s: Stmt, alive: Scopes, scopes: Scopes, index: nat) returns (o: Answers, x: Obj)
    requires s.For? && At(Made(s), alive, scopes) && index < |scopes| && !SafeAt(s, alive, scopes, index) && Legal(s.fbody, true, true)
    ensures Fails(Did(s, o, scopes, index), x, Made(s) - multiset(Pushed(s)), alive)
    decreases s, 2
  {
    hide BodySafeAt, SafeBody, Legal, DidLoop, Part, State, Fails, OptLocals, Did, Objects, GoesOn, OptSettled, Balanced;
    var objs := OptLocals(s.init);
    BodyInside(s.fbody, alive, scopes, objs);
    if !OptSettled(s.init) {
      o, x := InitUnsettled(s, alive, scopes, index);
    } else if OptLocals(s.incr) != [] {
      o := OptAnswers(s.init) + [Force(s.fcond, false)];
      x := IncrementFails(s, alive, scopes, index);
      assert Fails(Did(s, o, scopes, index), x, Made(s) - multiset(Pushed(s)), alive) by {
        FailsBy(Did(s, o, scopes, index), x, Made(s) - multiset(Pushed(s)), alive);
      }
    } else {
      ForParts(s);
      var inside := Objects(s.fcond) + MadeOpt(s.incr) + Made(s.fbody);
      AtScope(Made(s), alive, scopes, objs, inside);
      o, x := WrongLoop(s.fcond, s.fbody, s.incr, alive + [objs], scopes + [objs]);
      o := ForFails(s, o, x, alive, scopes, index);
    }
  }

  lemma ForParts(s: Stmt)
    requires s.For?
    ensures Objects(s.fcond) + MadeOpt(s.incr) + Made(s.fbody) + multiset(OptLocals(s.init)) <= Made(s)
    ensures MadeOpt(s.init) + multiset(OptLocals(s.incr)) <= Made(s) && Pushed(s) == []
    ensures s.init.Some? ==> Objects(SimpleWork(s.init.value).expr) + (Objects(s.fcond) + multiset(OptLocals(s.incr))) <= Made(s)
    ensures Objects(s.fcond) <= Made(s)
  {
    hide Objects;
  }

  lemma FailsBy(r: Ran, x: Obj, made: multiset<Obj>, alive: Scopes)
    requires Overdrawn(r.ev, alive)
    ensures Fails(r, x, made, alive)
  {
  }

  /** The run of a `for` whose condition fails at once. */
  lemma NoTurns(s: Stmt, first: Answers, a: Answer, scopes: Scopes, index: nat)
    requires s.For? && scopes != [] && !Holds(s.fcond, a)
    requires OptRun(s.init, first + [a], true).out == Normal && OptRun(s.init, first + [a], true).rest == [a]
    ensures Did(s, first + [a], scopes, index) ==
      Ran(OptRun(s.init, first + [a], true).ev + Wrote(Condition(s.fcond), a) + Dtors(OptLocals(s.init) + OptLocals(s.incr)), Normal, [])
  {
    hide Wrote, Holds, OptRun, OptLocals, Dtors;
    assert [a][1..] == [];
  }

  lemma InitUnsettled(s: Stmt, alive: Scopes, scopes: Scopes, index: nat) returns (o: Answers, x: Obj)
    requires s.For? && At(Made(s), alive, scopes) && scopes != [] && !OptSettled(s.init)
    ensures Fails(Did(s, o, scopes, index), x, Made(s) - multiset(Pushed(s)), alive)
  {
    hide Wrote, Holds, Objects, Part, Force, Did, Fails, Dtors, Count, Settled, Made, N, At, Eval, TempsOf;
    var w, fols, a := SimpleWork(s.init.value), Force(s.fcond, false), YES;
    ForcedHolds(s.fcond, false);
    ForParts(s);
    AtParts(Made(s), alive, scopes, w.expr);
    a, x := Unsettled(w, true);
    o := [a] + [fols];
    assert o[1..] == [fols];
    NoTurns(s, [a], fols, scopes, index);
    var objs, ev := OptLocals(s.init) + OptLocals(s.incr), Wrote(Condition(s.fcond), fols);
    InitObject(s, x);
    UntouchedWork(s.fcond, fols, x);
    NDtors(objs, x);
    NThen(Wrote(w, a), ev, x);
    NThen(Wrote(w, a) + ev, Dtors(objs), x);
    EndFails(Did(s, o, scopes, index), x, Made(s) - multiset(Pushed(s)), alive);
  }

  lemma InitObject(s: Stmt, x: Obj)
    requires s.For? && s.init.Some? && x.Temp? && Objects(SimpleWork(s.init.value).expr)[x] == 1 && Made(s)[x] == 1
    ensures Objects(s.fcond)[x] == 0 && multiset(OptLocals(s.init) + OptLocals(s.incr))[x] == 0 && Pushed(s) == []
  {
    hide Objects;
    assert x !in OptLocals(s.init) && x !in OptLocals(s.incr);
  }

  /** If no turn is made, a variable of the increment is destroyed all the same. */
  lemma IncrementFails(s: Stmt, alive: Scopes, scopes: Scopes, index: nat) returns (x: Obj)
    requires s.For? && At(Made(s), alive, scopes) && OptLocals(s.incr) != []
    ensures Overdrawn(Did(s, OptAnswers(s.init) + [Force(s.fcond, false)], scopes, index).ev, alive)
  {
    hide OptRun, OptLocals, Wrote, Dtors, Part, Force, Holds, OptAnswers, Objects, Count, Did;
    x := OptLocals(s.incr)[0];
    var objs, fols := OptLocals(s.init) + OptLocals(s.incr), Force(s.fcond, false);
    var o := OptAnswers(s.init) + [fols];
    ForcedHolds(s.fcond, false);
    OptSteady(s.init, [fols], true);
    NoTurns(s, OptAnswers(s.init), fols, scopes, index);
    var ev := OptRun(s.init, o, true).ev;
    InIncrement(s, x);
    NLocal(s.init, o, x);
    NDtors(objs, x);
    CountLess(alive, scopes, x);
    assert Made(s)[x] + Count(scopes, x) <= 1;
    UntouchedWork(s.fcond, fols, x);
    NThen(ev, Wrote(Condition(s.fcond), fols), x);
    NThen(ev + Wrote(Condition(s.fcond), fols), Dtors(objs), x);
    OverdrawnBy(ev + Wrote(Condition(s.fcond), fols) + Dtors(objs), alive, x);
  }

  /** What a settled statement leaves is what it declares. */
  lemma NSettledOpt(s: Option<Simple>, o: Answers, x: Obj)
    requires OptSettled(s)
    ensures var r := OptRun(s, o, true); N(r.ev, x) == if r.out == Normal then multiset(OptLocals(s))[x] else 0
  {
    hide Wrote;
    if s.Some? && o != [] {
      NSettled(SimpleWork(s.value), o[0], x);
      NAct(s.value, x);
    }
  }

  lemma NLocal(s: Option<Simple>, o: Answers, x: Obj)
    requires x.Local?
    ensures var r := OptRun(s, o, true); N(r.ev, x) == if r.out == Normal then multiset(OptLocals(s))[x] else 0
  {
    hide OptRun, Objects;
    if s.Some? {
      AllTemps(SimpleWork(s.value).expr, x);
    }
    NOpt(s, o, x);
  }

  lemma InIncrement(s: Stmt, x: Obj)
    requires s.For? && x in OptLocals(s.incr)
    ensures Made(s)[x] >= 1 && multiset(OptLocals(s.init) + OptLocals(s.incr))[x] == multiset(OptLocals(s.init))[x] + multiset(OptLocals(s.incr))[x]
    ensures multiset(OptLocals(s.incr))[x] >= 1 && x.Local?
    ensures Made(s)[x] <= 1 ==> Objects(s.fcond)[x] == 0
  {
    hide Objects;
    assert x in multiset(OptLocals(s.incr));
    ForParts(s);
  }

  lemma ForFails(s: Stmt, o: Answers, x: Obj, alive: Scopes, scopes: Scopes, index: nat) returns (o': Answers)
    requires s.For? && At(Made(s), alive, scopes) && OptSettled(s.init) && OptLocals(s.incr) == []
    requires var objs := OptLocals(s.init);
      Fails(DidLoop(s.fcond, s.fbody, s.incr, o, scopes + [objs] + [[]]), x, Objects(s.fcond) + MadeOpt(s.incr) + Made(s.fbody), alive + [objs])
    ensures Fails(Did(s, o', scopes, index), x, Made(s) - multiset(Pushed(s)), alive)
  {
    hide OptRun, OptLocals, Dtors, Did, DidLoop, Overdrawn, Part, OptAnswers, Objects, MadeOpt;
    var objs := OptLocals(s.init);
    o' := OptAnswers(s.init) + o;
    OptSteady(s.init, o, true);
    ForIs(s, o', scopes, index);
    var ev := OptRun(s.init, o', true).ev;
    assert scopes + [objs] + [[]] == scopes + [objs, []];
    assert objs + OptLocals(s.incr) == objs;
    var r := DidLoop(s.fcond, s.fbody, s.incr, o, scopes + [objs, []]);
    forall y: Obj ensures N(ev, y) + Count(alive, y) == Count(alive + [objs], y) {
      NSettledOpt(s.init, o', y);
      CountScope(alive, objs, y);
    }
    if Overdrawn(r.ev, alive + [objs]) {
      OverdrawnAfter(ev, r.ev, alive, alive + [objs]);
      OverdrawnThen(ev + r.ev, Dtors(objs), alive);
    } else {
      ForParts(s);
      assert Made(s)[x] + Count(scopes, x) <= 1;
      NSettledOpt(s.init, o', x);
      NThen(ev, r.ev, x);
      NThen(ev + r.ev, Dtors(objs), x);
      NDtors(objs, x);
    }
  }

  // ---- switches

  lemma WrongSwitch(s: Stmt, alive: Scopes, scopes: Scopes, index: nat, brk: bool, cont: bool) returns (o: Answers, x: Obj)
    requires s.Switch? && At(Made(s), alive, scopes) && index < |scopes| && !SafeAt(s, alive, scopes, index) && Legal(s, brk, cont)
    ensures Fails(Did(s, o, scopes, index), x, Made(s) - multiset(Pushed(s)), alive)
    decreases s, 2
  {
    hide BodySafeAt, Did, DidCases, Fails, Part, At, Dispatch, Selects, TempsOf, Balanced, BalancedTests, Legal;
    AtMakes(Made(s), alive, scopes);
    LegalInside(s, brk, cont);
    var objs := TempsOf(s.expr);
    var alive', scopes' := alive + [objs], scopes + [objs];
    if !Balanced(s.expr) {
      o, x := SwitchValueFails(s, alive, scopes, index);
    } else if !BalancedTests(s.cases) {
      o, x := SwitchTestFails(s, alive, scopes, index);
    } else if c: nat :| c < |s.cases| && !BodySafeAt(s.cases[c].cbody, alive', scopes') {
      var body := s.cases[c].cbody;
      CaseAt(s, c, alive, scopes);
      CaseLegal(s, c, brk, cont);
      var o2;
      o2, x := WrongBody(body, alive', scopes', c + 1 < |s.cases|);
      o2 := CaseFails(s, c, o2, x, alive', scopes');
      var o1, ev := Chooses(s.cases, 0, c, true);
      SelectsMore(s.cases, 0, c, o1, ev, true, o2);
      o := [YES] + (o1 + o2);
      SwitchFails(s, c, o1 + o2, ev, o2, x, alive, scopes, index);
    } else {
      SwitchUnsafe(s, alive, scopes, index);
      o := RealiseSwitch(s, FRESH, brk, cont);
      SwitchStuck(s, o, alive, scopes, index, brk, cont);
      x := Temp(0);
      StuckFails(Did(s, o, scopes, index), x, Made(s) - multiset(Pushed(s)), alive);
    }
  }

  lemma StuckFails(r: Ran, x: Obj, made: multiset<Obj>, alive: Scopes)
    requires r.out == Stuck
    ensures Fails(r, x, made, alive)
  {
  }

  /** The value of a switch is not balanced: its scope is destroyed where the switch
      ends, or by a return. */
  lemma SwitchValueFails(s: Stmt, alive: Scopes, scopes: Scopes, index: nat) returns (o: Answers, x: Obj)
    requires s.Switch? && At(Made(s), alive, scopes) && index < |scopes| && Legal(s, false, false) && !Balanced(s.expr)
    ensures Fails(Did(s, o, scopes, index), x, Made(s) - multiset(Pushed(s)), alive)
  {
    hide Wrote, Value, Objects, Part, Did, Inside, TempsOf, Fails, Count, Dispatch, DidCases, Made, Legal, Dtors;
    var w, objs := Work(Given(s.expr), [Act], []), TempsOf(s.expr);
    var a := YES;
    GivenMakes(s.expr, a);
    AtSwitch(s, alive, scopes);
    AtParts(Made(s), alive, scopes, w.expr);
    a, x := Unsettled(w, true);
    var d := FinishTests(s.cases, 0);
    var o' := FinishInside(s, d, scopes + [objs]);
    o := [a] + (d + o');
    assert o[1..] == d + o';
    SwitchObjects(s, x);
    var r := Inside(s, d + o', scopes + [objs]);
    UntouchedInside(s, d + o', scopes + [objs], x);
    CountScope(scopes, objs, x);
    SwitchParts(s, o, scopes, index);
    NValue(s.expr, a, x);
    NThen(Value(s.expr, a), r.ev, x);
    NThen(Value(s.expr, a) + r.ev, Dtors(objs), x);
    NDtors(objs, x);
    SwitchPushes(s);
    EndFails(Did(s, o, scopes, index), x, Made(s) - multiset(Pushed(s)), alive);
  }

  lemma AtSwitch(s: Stmt, alive: Scopes, scopes: Scopes)
    requires s.Switch? && At(Made(s), alive, scopes)
    ensures Objects(s.expr) <= Made(s)
    ensures forall x: Obj :: MadeTests(s.cases)[x] <= Made(s)[x] <= 1
    ensures forall x: Obj :: Made(s)[x] >= 1 ==> Count(alive, x) == 0 && Count(scopes, x) == 0
  {
    hide Objects, Part, Made, MadeTests;
    SwitchHolds(s);
    forall x: Obj ensures MadeTests(s.cases)[x] <= Made(s)[x] <= 1 && Count(alive, x) <= Count(scopes, x) <= 1 - Made(s)[x] {
      SwitchObjects(s, x);
      CountLess(alive, scopes, x);
      assert Made(s)[x] + Count(scopes, x) <= 1;
    }
  }

  lemma SwitchHolds(s: Stmt)
    requires s.Switch?
    ensures Objects(s.expr) <= Made(s)
  {
  }

  lemma NValue(e: Expr, a: Answer, x: Obj)
    ensures N(Value(e, a), x) == N(Wrote(Work(Given(e), [Act], []), a), x) + multiset(TempsOf(e))[x]
    ensures Balanced(e) ==> N(Value(e, a), x) == multiset(TempsOf(e))[x]
  {
    hide Eval, TempsOf, SlotOf, Balanced;
    var w, ev := Work(Given(e), [Act], []), Eval(Given(e), false, a).ev;
    GivenMakes(e, a);
    NThen(ev, [Act], x);
    NOne(Act, x);
    NWrote(w, a, x);
    NEval(Given(e), false, a, x);
    EvalMakes(Given(e), false, a);
  }

  /** A test that is not balanced, behind tests that fail. */
  lemma {:induction false} TestFails(cases: seq<Case>, c: nat, k: nat) returns (o: Answers, x: Obj)
    requires c <= k < |cases| && cases[k].test.Some? && !Balanced(cases[k].test.value)
    requires forall x: Obj :: MadeTests(cases[c..])[x] <= 1
    ensures var d := Dispatch(cases, c, o, true); d.out == Normal && d.rest == [] && N(d.ev, x) != 0
    ensures MadeTests(cases[c..])[x] == 1
    decreases |cases| - c
  {
    hide Wrote, Holds, Objects, Force, TempsOf, SlotOf, Balanced;
    assert cases[c..][0] == cases[c] && cases[c..][1..] == cases[c + 1..];
    var rest := MadeTests(cases[c + 1..]);
    assert rest <= MadeTests(cases[c..]);
    forall y: Obj ensures rest[y] <= 1 {
      assert MadeTests(cases[c..])[y] <= 1;
    }
    if cases[c].test.None? {
      o, x := TestFails(cases, c + 1, k);
    } else {
      var test := cases[c].test.value;
      var w, a := CaseTest(test), Force(Given(test), false);
      GivenMakes(test, a);
      ForcedHolds(Given(test), false);
      var o';
      if c < k {
        o', x := TestFails(cases, c + 1, k);
        assert MadeTests(cases[c..])[x] <= 1;
        UntouchedWork(test, a, x);
      } else {
        TestsApart(cases, c);
        a, x := Unsettled(w, true);
        assert MadeTests(cases[c..])[x] <= 1;
        o' := FinishTests(cases, c + 1);
        NDispatch(cases, c + 1, o', x);
      }
      o := [a];
      assert o[1..] == [];
      if !Holds(Given(test), a) {
        o := [a] + o';
        assert o[1..] == o';
        NThen(Wrote(w, a), Dispatch(cases, c + 1, o', true).ev, x);
      }
    }
  }

  lemma TestsApart(cases: seq<Case>, c: nat)
    requires c < |cases| && cases[c].test.Some? && forall x: Obj :: MadeTests(cases[c..])[x] <= 1
    ensures Apart(Given(cases[c].test.value))
  {
    hide Objects;
    GivenMakes(cases[c].test.value, YES);
    forall x: Obj ensures Objects(Given(cases[c].test.value))[x] <= 1 {
      assert MadeTests(cases[c..])[x] <= 1;
    }
  }

  lemma SwitchTestFails(s: Stmt, alive: Scopes, scopes: Scopes, index: nat) returns (o: Answers, x: Obj)
    requires s.Switch? && At(Made(s), alive, scopes) && index < |scopes| && Legal(s, false, false) && !BalancedTests(s.cases)
    ensures Fails(Did(s, o, scopes, index), x, Made(s) - multiset(Pushed(s)), alive)
  {
    hide Part, Did, Fails, Count, Dispatch, Made, Legal, Balanced, MadeTests, At, Inside, N;
    AtSwitch(s, alive, scopes);
    var k: nat :| k < |s.cases| && s.cases[k].test.Some? && !Balanced(s.cases[k].test.value);
    assert s.cases[0..] == s.cases;
    var d, y := TestFails(s.cases, 0, k);
    x := y;
    assert MadeTests(s.cases)[x] <= Made(s)[x] <= 1;
    o := TestsCount(s, d, scopes, index, x);
    SwitchPushes(s);
    EndFails(Did(s, o, scopes, index), x, Made(s) - multiset(Pushed(s)), alive);
  }

  /** A run that does to an object what the tests of a switch do. */
  lemma TestsCount(s: Stmt, d: Answers, scopes: Scopes, index: nat, x: Obj) returns (o: Answers)
    requires s.Switch? && index < |scopes| && Legal(s, false, false)
    requires MadeTests(s.cases)[x] == Made(s)[x] == 1 && Count(scopes, x) == 0
    requires Dispatch(s.cases, 0, d, true).out == Normal && Dispatch(s.cases, 0, d, true).rest == []
    ensures var r := Did(s, o, scopes, index);
      r.out != Pending && r.rest == [] && N(r.ev, x) == N(Dispatch(s.cases, 0, d, true).ev, x)
  {
    hide Value, Objects, Did, Inside, TempsOf, Count, Dispatch, DidCases, Made, Legal, Dtors, MadeTests, N;
    var objs := TempsOf(s.expr);
    var o' := FinishInside(s, d, scopes + [objs]);
    o := [YES] + (d + o');
    assert o[1..] == d + o';
    SwitchObjects(s, x);
    CountScope(scopes, objs, x);
    UntouchedWork(s.expr, YES, x);
    var r, t := Inside(s, d + o', scopes + [objs]), Dispatch(s.cases, 0, d, true);
    NNone(x);
    if t.target < |s.cases| {
      NoneFrom(s, t.target, x);
      UntouchedCases(s, t.target, o', scopes + [objs], x);
      NThen(t.ev, DidCases(s, t.target, o', scopes + [objs]).ev, x);
    } else {
      NThen(t.ev, [], x);
    }
    SwitchParts(s, o, scopes, index);
    NThen(Value(s.expr, YES), r.ev, x);
    NThen(Value(s.expr, YES) + r.ev, Dtors(objs), x);
    NDtors(objs, x);
  }

  lemma NoneFrom(s: Stmt, c: nat, x: Obj)
    requires s.Switch? && c < |s.cases| && MadeFrom(s, 0)[x] == 0
    ensures MadeFrom(s, c)[x] == 0
  {
    hide Made;
    MadeCase(s, 0, c);
    assert MadeFrom(s, c) == Made(s.cases[c].cbody) + MadeFrom(s, c + 1);
  }

  lemma SwitchPushes(s: Stmt)
    requires s.Switch?
    ensures Made(s) - multiset(Pushed(s)) == Made(s)
  {
    hide Made;
  }

  lemma CaseAt(s: Stmt, c: nat, alive: Scopes, scopes: Scopes)
    requires s.Switch? && c < |s.cases| && At(Made(s), alive, scopes)
    ensures At(Made(s.cases[c].cbody), alive + [TempsOf(s.expr)], scopes + [TempsOf(s.expr)])
    ensures forall y: Obj :: MadeFrom(s, c)[y] + Count(scopes + [TempsOf(s.expr)], y) <= 1
  {
    hide Part, TempsOf, Objects;
    MadeCase(s, 0, c);
    KnownWithin(s.expr);
    assert MadeFrom(s, c) == Made(s.cases[c].cbody) + MadeFrom(s, c + 1);
    AtScope(Made(s), alive, scopes, TempsOf(s.expr), MadeFrom(s, c));
    AtScope(Made(s), alive, scopes, TempsOf(s.expr), Made(s.cases[c].cbody));
  }

  lemma CaseLegal(s: Stmt, c: nat, brk: bool, cont: bool)
    requires s.Switch? && c < |s.cases| && Legal(s, brk, cont)
    ensures Legal(s.cases[c].cbody, true, c + 1 < |s.cases|) && (s.cases[c].test.None? ==> c == DefaultIndex(s.cases))
  {
    DefaultIsOne(s, c, brk, cont);
  }

  lemma SwitchUnsafe(s: Stmt, alive: Scopes, scopes: Scopes, index: nat)
    requires s.Switch? && |alive| == |scopes| && index < |scopes| && !SafeAt(s, alive, scopes, index)
    requires Part(alive[|alive| - 1], scopes[|alive| - 1]) && Balanced(s.expr) && BalancedTests(s.cases)
    requires forall c: nat :: c < |s.cases| ==> BodySafeAt(s.cases[c].cbody, alive + [TempsOf(s.expr)], scopes + [TempsOf(s.expr)])
    ensures s.alwaysReturns && s.cases != [] && Ends(s, FRESH) != {}
  {
    hide SafeBody, BodySafeAt, Ends, Part, State, TempsOf, Balanced, BalancedTests;
    var objs := TempsOf(s.expr);
    forall c: nat | c < |s.cases|
      ensures SafeBody(s.cases[c].cbody, alive[..|alive| - 1] == scopes[..|alive| - 1] && State(alive[|alive| - 1], scopes[|alive| - 1]).whole)
    {
      BodyInside(s.cases[c].cbody, alive, scopes, objs);
      assert BodySafeAt(s.cases[c].cbody, alive + [objs], scopes + [objs]);
    }
  }

  /** A switch that can come to its end although it was found to always return. */
  lemma SwitchStuck(s: Stmt, o: Answers, alive: Scopes, scopes: Scopes, index: nat, brk: bool, cont: bool)
    requires s.Switch? && s.alwaysReturns && s.cases != [] && |alive| == |scopes| > 0 && Legal(s, brk, cont)
    requires Balanced(s.expr) && BalancedTests(s.cases)
    requires forall c: nat :: c < |s.cases| ==> BodySafeAt(s.cases[c].cbody, alive + [TempsOf(s.expr)], scopes + [TempsOf(s.expr)])
    requires Exec(s, o).out == Normal
    ensures Did(s, o, scopes, index).out == Stuck
  {
    hide BodySafeAt, Exec, Did, Chosen, Inside, Legal, TempsOf, Value, Balanced, BalancedTests;
    NoExec(s);
    InsideSound(s, o[1..], alive + [TempsOf(s.expr)], scopes + [TempsOf(s.expr)], brk, cont);
    ChosenIs(s, o);
    SwitchParts(s, o, scopes, index);
  }

  lemma NoExec(s: Stmt)
    requires s.Switch?
    ensures Exec(s, []).out == Pending
  {
  }

  /** The failure of a case, with answers that bring those it continues with to their
      end. */
  lemma CaseFails(s: Stmt, c: nat, o: Answers, x: Obj, alive: Scopes, scopes: Scopes) returns (o': Answers)
    requires s.Switch? && c < |s.cases| && Fails(Did(s.cases[c].cbody, o, scopes + [[]], |scopes|), x, Made(s.cases[c].cbody), alive)
    requires forall y: Obj :: MadeFrom(s, c)[y] + Count(scopes, y) <= 1
    requires scopes != [] && Legal(s, false, false)
    ensures Fails(DidCases(s, c, o', scopes), x, Made(s.cases[c].cbody), alive)
  {
    hide Did, Overdrawn, Legal, Made;
    var body := s.cases[c].cbody;
    var r := Did(body, o, scopes + [[]], |scopes|);
    o' := o;
    if r.out.Continues? && c + 1 < |s.cases| {
      if Overdrawn(r.ev, alive) {
        OverdrawnThen(r.ev, DidCases(s, c + 1, r.rest, scopes).ev, alive);
      } else {
        var o2 := FinishCases(s, c + 1, scopes);
        More(body, o, o2, scopes + [[]], |scopes|);
        assert [] + o2 == o2;
        o' := o + o2;
        assert MadeFrom(s, c)[x] + Count(scopes, x) <= 1;
        UntouchedCases(s, c + 1, o2, scopes, x);
        NThen(r.ev, DidCases(s, c + 1, o2, scopes).ev, x);
      }
    }
  }

  lemma SwitchFails(s: Stmt, c: nat, o: Answers, ev: seq<Event>, o2: Answers, x: Obj, alive: Scopes, scopes: Scopes, index: nat)
    requires s.Switch? && c < |s.cases| && At(Made(s), alive, scopes) && Dispatch(s.cases, 0, o, true) == Dispatched(ev, Normal, c, o2)
    requires Balanced(s.expr) && BalancedTests(s.cases)
    requires Fails(DidCases(s, c, o2, scopes + [TempsOf(s.expr)]), x, Made(s.cases[c].cbody), alive + [TempsOf(s.expr)])
    ensures Fails(Did(s, [YES] + o, scopes, index), x, Made(s) - multiset(Pushed(s)), alive)
  {
    hide DidCases, Dispatch, Overdrawn, Value, Dtors, Part, Did, MadeFrom, TempsOf, Objects, Balanced, BalancedTests;
    var objs := TempsOf(s.expr);
    var r, head := DidCases(s, c, o2, scopes + [objs]), Value(s.expr, YES) + ev;
    SwitchDid(s, c, YES, o, ev, o2, scopes, index);
    MadeCase(s, 0, c);
    forall y: Obj ensures N(head, y) + Count(alive, y) == Count(alive + [objs], y) {
      NThen(Value(s.expr, YES), ev, y);
      NValue(s.expr, YES, y);
      NTests(s.cases, o, y);
      CountScope(alive, objs, y);
    }
    if Overdrawn(r.ev, alive + [objs]) {
      OverdrawnAfter(head, r.ev, alive, alive + [objs]);
      OverdrawnThen(head + r.ev, Dtors(objs), alive);
    } else if r.out != Stuck {
      assert Made(s)[x] + Count(scopes, x) <= 1;
      KnownWithin(s.expr);
      NThen(head, r.ev, x);
      NThen(head + r.ev, Dtors(objs), x);
      NDtors(objs, x);
      CountScope(alive, objs, x);
    }
  }

  /** Balanced tests leave nothing. */
  lemma NTests(cases: seq<Case>, o: Answers, x: Obj)
    requires BalancedTests(cases)
    ensures N(Dispatch(cases, 0, o, true).ev, x) == 0
  {
    hide Dispatch;
    SameDispatch(cases, 0, o);
    DispatchTidy(cases, 0, o, NOTHING);
    NothingLeft(Dispatch(cases, 0, o, false).ev, x);
  }

  lemma SwitchDid(s: Stmt, c: nat, a: Answer, o: Answers, ev: seq<Event>, o2: Answers, scopes: Scopes, index: nat)
    requires s.Switch? && c < |s.cases| && scopes != [] && Dispatch(s.cases, 0, o, true) == Dispatched(ev, Normal, c, o2)
    ensures var r, d := DidCases(s, c, o2, scopes + [TempsOf(s.expr)]), Did(s, [a] + o, scopes, index);
      var before := Value(s.expr, a) + ev + r.ev;
      if r.out != Normal then d == r.(ev := before)
      else if s.alwaysReturns then d.out == Stuck && d.ev == before
      else d == r.(ev := before + Dtors(TempsOf(s.expr)))
  {
    hide DidCases, Dispatch, Value, Dtors, TempsOf;
    assert ([a] + o)[1..] == o;
  }
}
