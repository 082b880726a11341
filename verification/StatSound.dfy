/** A function that satisfies the condition is compiled rightly: its code does what
    its statements mean. */
module StatSound {
  import opened Wrappers
  import opened Lives
  import opened ExprSem
  import opened StatSem
  import opened StatWritten
  import opened StatRight

  /** The condition at a point of a function: `alive` are the scopes as they are at
      run time, `scopes` as they were when the code was generated. */
  ghost predicate SafeAt(s: Stmt, alive: Scopes, scopes: Scopes, index: nat) {
    && |alive| == |scopes| && index < |scopes| && Part(alive[|alive| - 1], scopes[|alive| - 1])
    && Safe(s, State(alive[|alive| - 1], scopes[|alive| - 1]),
            alive[index..|alive| - 1] == scopes[index..|alive| - 1], alive[..|alive| - 1] == scopes[..|alive| - 1])
  }

  ghost predicate SafeAtSeq(stats: seq<Stmt>, alive: Scopes, scopes: Scopes, index: nat) {
    && |alive| == |scopes| && index < |scopes| && Part(alive[|alive| - 1], scopes[|alive| - 1])
    && SafeSeq(stats, State(alive[|alive| - 1], scopes[|alive| - 1]),
               alive[index..|alive| - 1] == scopes[index..|alive| - 1], alive[..|alive| - 1] == scopes[..|alive| - 1])
  }

  /** What is destroyed on the way out: what is alive there. */
  function Leaving(out: Outcome, alive: Scopes, index: nat): seq<Event> {
    match out
    case Breaks => Drop(alive, index)
    case Continues => Drop(alive, index)
    case Returns => Drop(alive, 0)
    case _ => []
  }

  ghost predicate Agrees(e: Course, d: Ran, alive: Scopes, index: nat)
    requires alive != []
  {
    d.out == e.out && d.rest == e.rest && d.ev == e.ev + Leaving(e.out, Push(alive, e.locals), index)
  }

  lemma {:induction false} DropSame(alive: Scopes, scopes: Scopes, index: nat)
    requires |alive| == |scopes| && (index <= |alive| ==> alive[index..] == scopes[index..])
    ensures Drop(alive, index) == Drop(scopes, index)
    decreases |alive|
  {
    if |alive| > index {
      var n := |alive| - 1;
      assert alive[n] == alive[index..][n - index] && scopes[n] == scopes[index..][n - index];
      assert alive[..n][index..] == alive[index..][..n - index] && scopes[..n][index..] == scopes[index..][..n - index];
      DropSame(alive[..n], scopes[..n], index);
    }
  }

  /** All scopes are whole if the others and the innermost are. */
  lemma WholeThen(alive: Scopes, scopes: Scopes, i: nat)
    requires |alive| == |scopes| && i < |alive|
    ensures alive[i..] == scopes[i..] <==> alive[i..|alive| - 1] == scopes[i..|alive| - 1] && alive[|alive| - 1] == scopes[|alive| - 1]
  {
    var n := |alive| - 1;
    assert alive[i..] == alive[i..n] + [alive[n]] && scopes[i..] == scopes[i..n] + [scopes[n]];
    assert alive[i..n] == alive[i..][..n - i] && scopes[i..n] == scopes[i..][..n - i];
    assert alive[n] == alive[i..][n - i] && scopes[n] == scopes[i..][n - i];
  }

  /** Into another scope. */
  lemma Deeper(alive: Scopes, scopes: Scopes, a: Objs, o: Objs, i: nat)
    requires |alive| == |scopes| && i <= |alive|
    ensures var (alive', scopes') := (alive + [a], scopes + [o]);
      && |alive'| == |scopes'| == |alive| + 1 && alive'[|alive|] == a && scopes'[|alive|] == o
      && alive'[..|alive|] == alive && scopes'[..|alive|] == scopes
      && alive'[i..|alive|] == alive[i..] && scopes'[i..|alive|] == scopes[i..]
  {
  }

  lemma Pushing(alive: Scopes, scopes: Scopes, a: Objs, o: Objs, i: nat)
    requires |alive| == |scopes| && i < |alive|
    ensures var (alive', scopes', n) := (Push(alive, a), Push(scopes, o), |alive| - 1);
      && |alive'| == |scopes'| == |alive| && alive'[n] == alive[n] + a && scopes'[n] == scopes[n] + o
      && alive'[..n] == alive[..n] && scopes'[..n] == scopes[..n]
      && alive'[i..n] == alive[i..n] && scopes'[i..n] == scopes[i..n]
  {
  }

  lemma AgreesAfter(ev: seq<Event>, e: Course, d: Ran, alive: Scopes, index: nat)
    requires alive != [] && Agrees(e, d, alive, index)
    ensures Agrees(e.(ev := ev + e.ev), d.(ev := ev + d.ev), alive, index)
  {
    assert ev + (e.ev + Leaving(e.out, Push(alive, e.locals), index)) == ev + e.ev + Leaving(e.out, Push(alive, e.locals), index);
  }

  /** Leaving a scope whose objects the code destroyed, or which had none. */
  lemma AgreesLeave(e: Course, d: Ran, alive: Scopes, index: nat, end: seq<Event>)
    requires alive != [] && index <= |alive| && Agrees(e, d, alive + [[]], index)
    requires e.out == Normal ==> end == Dtors(e.locals)
    ensures e.out != Stuck ==> Agrees(LeaveScope(e), if e.out == Normal then d.(ev := d.ev + end) else d, alive, index)
  {
    hide Drop, Dtors;
    PushTwice(alive, [], []);
    if e.out.Breaks? || e.out.Continues? {
      DropScope(alive, e.locals, index);
      ThenBehind(e.ev, Dtors(e.locals), Drop(alive, index));
    } else if e.out.Returns? {
      DropScope(alive, e.locals, 0);
      ThenBehind(e.ev, Dtors(e.locals), Drop(alive, 0));
    } else {
      ThenBehind(e.ev, [], []);
      ThenBehind(e.ev + end, [], []);
    }
  }

  // ---- the code does what statements mean

  lemma {:induction false} Sound(s: Stmt, o: Answers, alive: Scopes, scopes: Scopes, index: nat, brk: bool, cont: bool)
    requires SafeAt(s, alive, scopes, index) && Legal(s, brk, cont)
    ensures Agrees(Exec(s, o), Did(s, o, scopes, index), alive, index)
    decreases |o|, s, 3
  {
    hide Wrote, Meant, Eval, TempsOf, Balanced;
    PushTwice(alive, [], []);
    match s
    case Block(stats, terminate) => BlockSound(s, o, alive, scopes, index, brk, cont);
    case If(cond, body, elseBody) => IfSound(s, o, alive, scopes, index, brk, cont);
    case Switch(expr, cases, _) => SwitchSound(s, o, alive, scopes, index, brk, cont);
    case Break =>
      WholeThen(alive, scopes, index);
      DropSame(alive, scopes, index);
    case Continue =>
      WholeThen(alive, scopes, index);
      DropSame(alive, scopes, index);
    case Return(result) =>
      if o != [] {
        WholeThen(alive, scopes, 0);
        assert alive == alive[0..] && scopes == scopes[0..];
        GivenMakes(result, o[0]);
      }
    case While(cond, body) => WhileSound(s, o, alive, scopes, index);
    case For(init, cond, incr, body) => ForSound(s, o, alive, scopes, index);
    case Plain(simple) =>
      if o != [] {
        SettledMeans(SimpleWork(simple), o[0]);
      }
  }

  lemma {:induction false} SeqSound(stats: seq<Stmt>, o: Answers, alive: Scopes, scopes: Scopes, index: nat, brk: bool, cont: bool)
    requires SafeAtSeq(stats, alive, scopes, index) && forall k: nat :: k < |stats| ==> Legal(stats[k], brk, cont)
    ensures Agrees(ExecSeq(stats, o), DidSeq(stats, o, scopes, index), alive, index)
    decreases |o|, stats
  {
    PushTwice(alive, [], []);
    if stats != [] {
      var front, last := stats[..|stats| - 1], stats[|stats| - 1];
      var r := ExecSeq(front, o);
      SeqSound(front, o, alive, scopes, index, brk, cont);
      if r.out == Normal {
        SeqGoesOn(stats, o, alive, scopes, index);
        Sound(last, r.rest, Push(alive, r.locals), Push(scopes, PushedAll(front)), index, brk, cont);
        SeqAgrees(stats, o, alive, scopes, index);
      }
    }
  }

  lemma SeqAgrees(stats: seq<Stmt>, o: Answers, alive: Scopes, scopes: Scopes, index: nat)
    requires stats != [] && alive != [] && scopes != []
    requires var front, last := stats[..|stats| - 1], stats[|stats| - 1]; var r := ExecSeq(front, o);
      && r.out == Normal && Agrees(r, DidSeq(front, o, scopes, index), alive, index)
      && Agrees(Exec(last, r.rest), Did(last, r.rest, Push(scopes, PushedAll(front)), index), Push(alive, r.locals), index)
    ensures Agrees(ExecSeq(stats, o), DidSeq(stats, o, scopes, index), alive, index)
  {
    hide Exec, Did, PushedAll, Drop, Push;
    var front, last := stats[..|stats| - 1], stats[|stats| - 1];
    var r := ExecSeq(front, o);
    var e := Exec(last, r.rest);
    PushTwice(alive, r.locals, e.locals);
    assert r.ev + [] == r.ev;
    AgreesAfter(r.ev, e, Did(last, r.rest, Push(scopes, PushedAll(front)), index), Push(alive, r.locals), index);
  }

  lemma SeqGoesOn(stats: seq<Stmt>, o: Answers, alive: Scopes, scopes: Scopes, index: nat)
    requires stats != [] && SafeAtSeq(stats, alive, scopes, index) && ExecSeq(stats[..|stats| - 1], o).out == Normal
    ensures var front := stats[..|stats| - 1];
      SafeAt(stats[|stats| - 1], Push(alive, ExecSeq(front, o).locals), Push(scopes, PushedAll(front)), index)
  {
    hide Part, State, Ends, EndsSeq, Exec, ExecSeq, Safe;
    var front, n := stats[..|stats| - 1], |alive| - 1;
    var l := ExecSeq(front, o).locals;
    SeqEnds(front, o, alive[n], scopes[n]);
    PartThen(alive[n], scopes[n], l, PushedAll(front));
    Pushing(alive, scopes, l, PushedAll(front), index);
  }

  lemma BlockSound(s: Stmt, o: Answers, alive: Scopes, scopes: Scopes, index: nat, brk: bool, cont: bool)
    requires s.Block? && SafeAt(s, alive, scopes, index) && Legal(s, brk, cont)
    ensures Agrees(Exec(s, o), Did(s, o, scopes, index), alive, index)
    decreases |o|, s, 2
  {
    hide Part, State, Ends, EndsSeq, ExecSeq, DidSeq, PushedAll, Drop;
    var e := ExecSeq(s.stats, o);
    StateIs(alive[|alive| - 1], scopes[|alive| - 1]);
    BlockInside(s, alive, scopes, index);
    SeqSound(s.stats, o, alive + [[]], scopes + [[]], index, brk, cont);
    var end := if s.terminate then Dtors(PushedAll(s.stats)) else [];
    if e.out == Normal {
      BlockEnd(s, o, alive, scopes, index);
    }
    AgreesLeave(e, DidSeq(s.stats, o, scopes + [[]], index), alive, index, end);
    var ev := DidSeq(s.stats, o, scopes + [[]], index).ev;
    assert ev + [] == ev;
  }

  lemma BlockInside(s: Stmt, alive: Scopes, scopes: Scopes, index: nat)
    requires s.Block? && |alive| == |scopes| && index < |alive|
    ensures var n := |alive| - 1; var whole := alive[n] == scopes[n];
      SafeAtSeq(s.stats, alive + [[]], scopes + [[]], index) ==
      SafeSeq(s.stats, FRESH, alive[index..n] == scopes[index..n] && whole, alive[..n] == scopes[..n] && whole)
  {
    hide Ends, EndsSeq, SafeSeq, Part, State;
    FreshState();
    Deeper(alive, scopes, [], [], index);
    WholeThen(alive, scopes, index);
    WholeThen(alive, scopes, 0);
    assert alive[0..] == alive && scopes[0..] == scopes;
    assert alive[0..|alive| - 1] == alive[..|alive| - 1] && scopes[0..|alive| - 1] == scopes[..|alive| - 1];
  }

  lemma BlockEnd(s: Stmt, o: Answers, alive: Scopes, scopes: Scopes, index: nat)
    requires s.Block? && SafeAt(s, alive, scopes, index) && ExecSeq(s.stats, o).out == Normal
    ensures ExecSeq(s.stats, o).locals == if s.terminate then PushedAll(s.stats) else []
  {
    hide Part, Ends, EndsSeq, ExecSeq, SafeSeq;
    var l := ExecSeq(s.stats, o).locals;
    FreshState();
    SeqEnds(s.stats, o, [], []);
    assert [] + l == l && [] + PushedAll(s.stats) == PushedAll(s.stats);
  }

  lemma IfSound(s: Stmt, o: Answers, alive: Scopes, scopes: Scopes, index: nat, brk: bool, cont: bool)
    requires s.If? && SafeAt(s, alive, scopes, index) && Legal(s, brk, cont)
    ensures Agrees(Exec(s, o), Did(s, o, scopes, index), alive, index)
    decreases |o|, s, 2
  {
    hide Part, State, Ends, Drop, Wrote, Meant, Holds, Balanced;
    PushTwice(alive, [], []);
    if o != [] {
      var ev := Wrote(Condition(s.cond), o[0]);
      ConditionSame(s.cond, o[0]);
      if Holds(s.cond, o[0]) {
        Sound(s.body, o[1..], alive, scopes, index, brk, cont);
        AgreesAfter(ev, Exec(s.body, o[1..]), Did(s.body, o[1..], scopes, index), alive, index);
      } else if s.elseBody.Some? {
        var scopes' := Push(scopes, Pushed(s.body));
        PartMore(alive[|alive| - 1], scopes[|alive| - 1], Pushed(s.body));
        assert alive[|alive| - 1] + [] == alive[|alive| - 1];
        Pushing(alive, scopes, [], Pushed(s.body), index);
        Sound(s.elseBody.value, o[1..], alive, scopes', index, brk, cont);
        AgreesAfter(ev, Exec(s.elseBody.value, o[1..]), Did(s.elseBody.value, o[1..], scopes', index), alive, index);
      }
    }
  }

  lemma ConditionSame(e: Expr, a: Answer)
    requires Balanced(e)
    ensures Wrote(Condition(e), a) == Meant(Condition(e), a)
  {
    SettledMeans(Condition(e), a);
  }

  lemma OptSame(s: Option<Simple>, o: Answers)
    requires OptSettled(s)
    ensures OptRun(s, o, true) == OptRun(s, o, false)
  {
    if s.Some? && o != [] {
      SettledMeans(SimpleWork(s.value), o[0]);
    }
  }

  /** The body of a loop or case, in a scope of its own. */
  ghost predicate BodySafeAt(body: Stmt, alive: Scopes, scopes: Scopes) {
    |alive| == |scopes| && SafeBody(body, alive == scopes)
  }

  /** The same, seen from outside the loop or switch. */
  ghost predicate Alike(e: Course, d: Ran, alive: Scopes) {
    d.out == e.out && d.rest == e.rest && d.ev == e.ev + (if e.out.Returns? then Drop(alive, 0) else [])
  }

  lemma AlikeAfter(ev: seq<Event>, e: Course, d: Ran, e': Course, d': Ran, alive: Scopes)
    requires Alike(e, d, alive) && e'.out == e.out && e'.rest == e.rest && d'.out == d.out && d'.rest == d.rest
    requires e'.ev == ev + e.ev && d'.ev == ev + d.ev
    ensures Alike(e', d', alive)
  {
    hide Drop;
    ThenBehind(ev, e.ev, if e.out.Returns? then Drop(alive, 0) else []);
  }

  lemma ThenBehind(x: seq<Event>, y: seq<Event>, z: seq<Event>)
    ensures x + (y + z) == x + y + z && x + [] == x
  {
  }

  lemma BodyAt(body: Stmt, alive: Scopes, scopes: Scopes)
    requires |alive| == |scopes|
    ensures SafeAt(body, alive + [[]], scopes + [[]], |scopes|) == Safe(body, FRESH, true, alive == scopes)
  {
    hide Safe, Part, State;
    FreshState();
    Deeper(alive, scopes, [], [], |alive|);
    assert (alive + [[]])[|alive|..|alive|] == (scopes + [[]])[|alive|..|alive|];
  }

  lemma BodyLeavesNothing(body: Stmt, o: Answers, ret: bool)
    requires SafeBody(body, ret) && Exec(body, o).out == Normal
    ensures Exec(body, o).locals == [] && Dtors(Exec(body, o).locals) == []
  {
    hide Ends, Safe, Part;
    var l := Exec(body, o).locals;
    FreshState();
    RunEnds(body, o, [], []);
    assert [] + l == l;
  }

  lemma BodySound(body: Stmt, o: Answers, alive: Scopes, scopes: Scopes, cont: bool)
    requires alive != [] && BodySafeAt(body, alive, scopes) && Legal(body, true, cont)
    ensures var e, d := LeaveScope(Exec(body, o)), Did(body, o, scopes + [[]], |scopes|);
            Alike(e, d, alive)
    decreases |o|, body, 4
  {
    hide Part, Ends, Drop, Safe, State, SafeAt, Dtors;
    BodyAt(body, alive, scopes);
    Sound(body, o, alive + [[]], scopes + [[]], |scopes|, true, cont);
    var e := Exec(body, o);
    if e.out == Normal {
      BodyLeavesNothing(body, o, alive == scopes);
    }
    AgreesLeave(e, Did(body, o, scopes + [[]], |scopes|), alive, |alive|, []);
    var ev := Did(body, o, scopes + [[]], |scopes|).ev;
    assert ev + [] == ev;
    PushTwice(alive, [], []);
    DropNone(alive, |alive|);
    assert alive[..|alive|] == alive;
  }

  /** What a loop asks of its parts. */
  ghost predicate LoopSafe(cond: Expr, body: Stmt, incr: Option<Simple>, alive: Scopes, scopes: Scopes) {
    && Balanced(cond) && BodySafeAt(body, alive, scopes)
    && OptLocals(incr) == [] && (GoesOn(body) ==> OptSettled(incr))
  }

  lemma {:induction false} LoopSound(cond: Expr, body: Stmt, incr: Option<Simple>, o: Answers, alive: Scopes, scopes: Scopes)
    requires alive != [] && LoopSafe(cond, body, incr, alive, scopes) && Legal(body, true, true)
    ensures var e, d := Loop(cond, body, incr, o), DidLoop(cond, body, incr, o, scopes + [[]]);
            Alike(e, d, alive)
    decreases |o|, body, 6
  {
    hide Exec, Did, Wrote, Meant, Drop, BodySafeAt, Legal, LeaveScope, Alike, Holds, GoesOn, OptSettled, NextLoop, NextTurn, Balanced;
    var e, d := Loop(cond, body, incr, o), DidLoop(cond, body, incr, o, scopes + [[]]);
    if o != [] {
      var ev := Wrote(Condition(cond), o[0]);
      ConditionSame(cond, o[0]);
      if Holds(cond, o[0]) {
        BodySound(body, o[1..], alive, scopes, true);
        var turn := LeaveScope(Exec(body, o[1..]));
        var turn' := Did(body, o[1..], scopes + [[]], |scopes|);
        AlikeOut(turn, turn', alive);
        LeavesScope(Exec(body, o[1..]));
        if turn.out.Normal? || turn.out.Continues? {
          GoesOnWhere(body, o[1..]);
          NextSound(cond, body, incr, turn.(ev := ev + turn.ev), turn'.(ev := ev + turn'.ev), alive, scopes);
        } else if turn.out.Breaks? {
          AlikeBy(e, d, alive);
        } else {
          AlikeAfter(ev, turn, turn', e, d, alive);
        }
      } else {
        AlikeBy(e, d, alive);
      }
    } else {
      AlikeBy(e, d, alive);
    }
  }

  lemma LeavesScope(r: Course)
    ensures LeaveScope(r).out == r.out && LeaveScope(r).rest == r.rest && LeaveScope(r).locals == []
  {
  }

  lemma GoesOnWhere(body: Stmt, o: Answers)
    requires Legal(body, true, true) && (Exec(body, o).out.Normal? || Exec(body, o).out.Continues?)
    ensures GoesOn(body)
  {
    hide Exec, Ends;
    FreshState();
    if Exec(body, o).out == Normal {
      RunEnds(body, o, [], []);
    } else {
      RunJumps(body, o, Continue, true, true);
    }
  }

  lemma NextSound(cond: Expr, body: Stmt, incr: Option<Simple>, turn: Course, turn': Ran, alive: Scopes, scopes: Scopes)
    requires alive != [] && LoopSafe(cond, body, incr, alive, scopes) && Legal(body, true, true) && GoesOn(body)
    requires turn.locals == [] && turn'.ev == turn.ev && turn'.rest == turn.rest
    ensures Alike(NextLoop(cond, body, incr, turn), NextTurn(cond, body, incr, turn', scopes + [[]]), alive)
    decreases |turn.rest|, body, 7
  {
    hide BodySafeAt, Legal, Alike, GoesOn, OptSettled, Loop, DidLoop, OptRun, Balanced;
    var i := OptRun(incr, turn.rest, true);
    OptSame(incr, turn.rest);
    NoLocals(incr, turn.rest, false);
    var e, d := NextLoop(cond, body, incr, turn), NextTurn(cond, body, incr, turn', scopes + [[]]);
    if i.out == Normal {
      LoopSound(cond, body, incr, i.rest, alive, scopes);
      AlikeAfter(turn.ev + i.ev, Loop(cond, body, incr, i.rest), DidLoop(cond, body, incr, i.rest, scopes + [[]]), e, d, alive);
    } else {
      AlikeBy(e, d, alive);
    }
  }

  /** An increment that declares nothing leaves nothing. */
  lemma NoLocals(incr: Option<Simple>, o: Answers, written: bool)
    requires OptLocals(incr) == []
    ensures LeaveScope(OptRun(incr, o, written)) == OptRun(incr, o, written)
  {
    var r := OptRun(incr, o, written);
    assert r.ev + Dtors([]) == r.ev;
  }

  lemma AlikeOut(e: Course, d: Ran, alive: Scopes)
    requires Alike(e, d, alive)
    ensures d.out == e.out && d.rest == e.rest && (!e.out.Returns? ==> d.ev == e.ev)
  {
    ThenBehind(e.ev, [], []);
  }

  lemma AlikeBy(e: Course, d: Ran, alive: Scopes)
    requires d.out == e.out && d.rest == e.rest && !e.out.Returns? && d.ev == e.ev
    ensures Alike(e, d, alive)
  {
    ThenBehind(e.ev, [], []);
  }

  /** From the scope of a statement to that of its body. */
  lemma BodyInside(body: Stmt, alive: Scopes, scopes: Scopes, objs: Objs)
    requires |alive| == |scopes| > 0
    ensures var n := |alive| - 1; var ret := alive[..n] == scopes[..n] && State(alive[n], scopes[n]).whole;
      && BodySafeAt(body, alive, scopes) == SafeBody(body, ret)
      && BodySafeAt(body, alive + [objs], scopes + [objs]) == SafeBody(body, ret)
  {
    hide SafeBody;
    WholeThen(alive, scopes, 0);
    assert alive[0..] == alive && scopes[0..] == scopes;
    assert alive[0..|alive| - 1] == alive[..|alive| - 1] && scopes[0..|alive| - 1] == scopes[..|alive| - 1];
    assert (alive + [objs])[..|alive|] == alive && (scopes + [objs])[..|alive|] == scopes;
    assert (alive + [objs])[|alive|] == (scopes + [objs])[|alive|];
  }

  lemma WhileSound(s: Stmt, o: Answers, alive: Scopes, scopes: Scopes, index: nat)
    requires s.While? && SafeAt(s, alive, scopes, index) && Legal(s.wbody, true, true)
    ensures Agrees(Exec(s, o), Did(s, o, scopes, index), alive, index)
    decreases |o|, s, 2
  {
    hide Part, State, SafeBody, Drop, BodySafeAt, Loop, DidLoop;
    BodyInside(s.wbody, alive, scopes, []);
    LoopSound(s.wcond, s.wbody, None, o, alive, scopes);
    LoopLeavesNothing(s.wcond, s.wbody, None, o);
    PushTwice(alive, [], []);
  }

  lemma ForSound(s: Stmt, o: Answers, alive: Scopes, scopes: Scopes, index: nat)
    requires s.For? && SafeAt(s, alive, scopes, index) && Legal(s.fbody, true, true)
    ensures Agrees(Exec(s, o), Did(s, o, scopes, index), alive, index)
    decreases |o|, s, 2
  {
    hide Part, State, SafeBody, Drop, BodySafeAt, Loop, DidLoop, OptRun, OptLocals, Balanced;
    var first, objs := OptRun(s.init, o, true), OptLocals(s.init);
    OptSame(s.init, o);
    PushTwice(alive, [], []);
    ThenBehind(first.ev, [], []);
    if first.out == Normal {
      var o' := first.rest;
      OptIs(s.init, o);
      BodyInside(s.fbody, alive, scopes, objs);
      LoopSound(s.fcond, s.fbody, s.incr, o', alive + [objs], scopes + [objs]);
      LoopLeavesNothing(s.fcond, s.fbody, s.incr, o');
      assert scopes + [objs] + [[]] == scopes + [objs, []];
      assert objs + [] == objs;
      DropScope(alive, objs, 0);
      var e, init := Loop(s.fcond, s.fbody, s.incr, o'), first.ev;
      assert init + (e.ev + (Dtors(objs) + Drop(alive, 0))) == init + e.ev + Dtors(objs) + Drop(alive, 0);
      assert init + (e.ev + []) == init + e.ev == init + e.ev + [];
    } else {
      OptIs(s.init, o);
    }
  }

  lemma OptIs(s: Option<Simple>, o: Answers)
    ensures var r := OptRun(s, o, false); if r.out == Normal then r.locals == OptLocals(s) else r == Course([], Pending, [], [])
  {
  }

  lemma {:induction false} CasesSound(s: Stmt, c: nat, o: Answers, alive: Scopes, scopes: Scopes, brk: bool, cont: bool)
    requires s.Switch? && c < |s.cases| && alive != [] && Legal(s, brk, cont)
    requires forall k: nat :: k < |s.cases| ==> BodySafeAt(s.cases[k].cbody, alive, scopes)
    ensures var e, d := ExecCases(s, c, o), DidCases(s, c, o, scopes);
            !e.out.Breaks? && !e.out.Continues? && Alike(e, d, alive)
    decreases |o|, s, 0, |s.cases| - c
  {
    hide Exec, Did, Drop, BodySafeAt, Alike, LeaveScope;
    var body := s.cases[c].cbody;
    assert Legal(body, true, c + 1 < |s.cases|);
    BodySound(body, o, alive, scopes, c + 1 < |s.cases|);
    CasesJumpsLegal(s, c, o, brk, cont);
    var r, r' := LeaveScope(Exec(body, o)), Did(body, o, scopes + [[]], |scopes|);
    var e, d := ExecCases(s, c, o), DidCases(s, c, o, scopes);
    AlikeOut(r, r', alive);
    if r.out.Continues? && c + 1 < |s.cases| {
      CasesSound(s, c + 1, r.rest, alive, scopes, brk, cont);
      AlikeOut(ExecCases(s, c + 1, r.rest), DidCases(s, c + 1, r.rest, scopes), alive);
      AlikeAfter(r.ev, ExecCases(s, c + 1, r.rest), DidCases(s, c + 1, r.rest, scopes), e, d, alive);
    } else if r.out.Breaks? {
      AlikeBy(e, d, alive);
    }
  }

  /** What a switch means, without its value. */
  function Chosen(s: Stmt, o: Answers): Course
    requires s.Switch?
  {
    var d := Dispatch(s.cases, 0, o, false);
    if d.out == Pending then Course(d.ev, Pending, [], [])
    else if d.target < |s.cases| then Then(Course(d.ev, Normal, d.rest, []), ExecCases(s, d.target, d.rest))
    else Course(d.ev, Normal, d.rest, [])
  }

  lemma InsideSound(s: Stmt, o: Answers, alive: Scopes, scopes: Scopes, brk: bool, cont: bool)
    requires s.Switch? && alive != [] && Legal(s, brk, cont) && BalancedTests(s.cases)
    requires forall k: nat :: k < |s.cases| ==> BodySafeAt(s.cases[k].cbody, alive, scopes)
    ensures var e, d := Chosen(s, o), Inside(s, o, scopes);
            !e.out.Breaks? && !e.out.Continues? && Alike(e, d, alive)
    decreases |o|, s, 1
  {
    hide Drop, BodySafeAt, ExecCases, DidCases, Dispatch, DefaultIndex, Legal, Alike, BalancedTests;
    var d := Dispatch(s.cases, 0, o, true);
    var e, r := Chosen(s, o), Inside(s, o, scopes);
    SameDispatch(s.cases, 0, o);
    DispatchOut(s.cases, 0, o, true);
    ThenBehind(d.ev, [], []);
    if d.out == Normal && d.target < |s.cases| {
      CasesSound(s, d.target, d.rest, alive, scopes, brk, cont);
      AlikeAfter(d.ev, ExecCases(s, d.target, d.rest), DidCases(s, d.target, d.rest, scopes), e, r, alive);
    } else {
      PendingRest(s.cases, 0, o);
      AlikeBy(e, r, alive);
    }
  }

  lemma {:induction false} SameDispatch(cases: seq<Case>, c: nat, o: Answers)
    requires c <= |cases| && BalancedTests(cases)
    ensures Dispatch(cases, c, o, true) == Dispatch(cases, c, o, false)
    decreases |cases| - c
  {
    hide Wrote, Meant, Holds, Balanced;
    if c < |cases| {
      if cases[c].test.None? {
        SameDispatch(cases, c + 1, o);
      } else if o != [] {
        TestSame(cases[c].test.value, o[0]);
        SameDispatch(cases, c + 1, o[1..]);
      }
    }
  }

  lemma TestSame(test: Expr, a: Answer)
    requires Balanced(test)
    ensures Wrote(CaseTest(test), a) == Meant(CaseTest(test), a)
  {
    GivenMakes(test, a);
    ConditionSame(Given(test), a);
  }

  lemma {:induction false} PendingRest(cases: seq<Case>, c: nat, o: Answers)
    requires c <= |cases|
    ensures Dispatch(cases, c, o, true).out == Pending ==> Dispatch(cases, c, o, true).rest == []
    decreases |cases| - c
  {
    hide Wrote, Holds;
    if c < |cases| {
      PendingRest(cases, c + 1, if o == [] || cases[c].test.None? then o else o[1..]);
    }
  }

  lemma SwitchSound(s: Stmt, o: Answers, alive: Scopes, scopes: Scopes, index: nat, brk: bool, cont: bool)
    requires s.Switch? && SafeAt(s, alive, scopes, index) && Legal(s, brk, cont)
    ensures Agrees(Exec(s, o), Did(s, o, scopes, index), alive, index)
    decreases |o|, s, 2
  {
    hide Drop, BodySafeAt, Chosen, Inside, SafeAt, Value, Legal, Ends, Dispatch, ExecCases, TempsOf, Eval;
    SwitchBodies(s, alive, scopes, index);
    PushTwice(alive, [], []);
    ThenBehind([], [], []);
    if o != [] {
      var objs, v, o' := TempsOf(s.expr), Value(s.expr, o[0]), o[1..];
      var alive', scopes' := alive + [objs], scopes + [objs];
      InsideSound(s, o', alive', scopes', brk, cont);
      SwitchParts(s, o, scopes, index);
      ChosenIs(s, o);
      AlwaysReturns(s, o, alive, scopes, index);
      DropScope(alive, objs, 0);
      var e := Chosen(s, o');
      assert v + (e.ev + []) == v + e.ev == v + e.ev + [];
      assert v + e.ev + Dtors(objs) + [] == v + e.ev + Dtors(objs);
      assert v + (e.ev + (Dtors(objs) + Drop(alive, 0))) == v + e.ev + Dtors(objs) + Drop(alive, 0);
    }
  }

  lemma ChosenIs(s: Stmt, o: Answers)
    requires s.Switch? && o != [] && Balanced(s.expr)
    ensures var r := Chosen(s, o[1..]); Exec(s, o) == LeaveScope(r.(ev := Value(s.expr, o[0]) + r.ev, locals := TempsOf(s.expr)))
  {
    hide Eval, Dispatch, ExecCases;
    GivenMakes(s.expr, o[0]);
  }

  /** A switch that was found to always return does not come to its end. */
  lemma AlwaysReturns(s: Stmt, o: Answers, alive: Scopes, scopes: Scopes, index: nat)
    requires s.Switch? && SafeAt(s, alive, scopes, index)
    ensures s.alwaysReturns && s.cases != [] ==> Exec(s, o).out != Normal
  {
    hide Exec, Ends, SafeBody;
    if Exec(s, o).out == Normal {
      FreshState();
      RunEnds(s, o, [], []);
    }
  }

  lemma SwitchBodies(s: Stmt, alive: Scopes, scopes: Scopes, index: nat)
    requires s.Switch? && SafeAt(s, alive, scopes, index)
    ensures |alive| == |scopes| > 0 && Balanced(s.expr) && BalancedTests(s.cases)
    ensures forall k: nat, objs: Objs :: k < |s.cases| ==> BodySafeAt(s.cases[k].cbody, alive + [objs], scopes + [objs])
  {
    hide SafeBody, BodySafeAt, Ends, Part, State;
    var n := |alive| - 1;
    StateIs(alive[n], scopes[n]);
    forall k: nat, objs: Objs | k < |s.cases| ensures BodySafeAt(s.cases[k].cbody, alive + [objs], scopes + [objs]) {
      BodyInside(s.cases[k].cbody, alive, scopes, objs);
    }
  }
}
