/** Every way in which the analysis says that a statement can end is the way of some
    run. */
module StatReach {
  import opened Wrappers
  import opened Lives
  import opened ExprSem
  import opened StatSem
  import opened StatWritten
  import opened StatRight

  /** The answers suffice for the run, and all are used. */
  ghost predicate Steady(s: Stmt, o: Answers) {
    Exec(s, o).out != Pending && forall more: Answers :: Exec(s, o + more) == Exec(s, o).(rest := more)
  }

  ghost predicate SteadySeq(stats: seq<Stmt>, o: Answers) {
    ExecSeq(stats, o).out != Pending && forall more: Answers :: ExecSeq(stats, o + more) == ExecSeq(stats, o).(rest := more)
  }

  lemma SteadyBy(s: Stmt, o: Answers, r: Course)
    requires r.out != Pending && forall more: Answers :: Exec(s, o + more) == r.(rest := more)
    ensures Steady(s, o) && Exec(s, o) == r.(rest := [])
  {
    assert o + [] == o;
    assert Exec(s, o + []) == r.(rest := []);
  }

  lemma SteadySeqBy(stats: seq<Stmt>, o: Answers, r: Course)
    requires r.out != Pending && forall more: Answers :: ExecSeq(stats, o + more) == r.(rest := more)
    ensures SteadySeq(stats, o) && ExecSeq(stats, o) == r.(rest := [])
  {
    assert o + [] == o;
    assert ExecSeq(stats, o + []) == r.(rest := []);
  }

  lemma SteadyMore(s: Stmt, o: Answers, more: Answers)
    requires Steady(s, o)
    ensures Exec(s, o + more) == Exec(s, o).(rest := more) && Exec(s, o).out != Pending
  {
  }

  lemma SteadySeqMore(stats: seq<Stmt>, o: Answers, more: Answers)
    requires SteadySeq(stats, o)
    ensures ExecSeq(stats, o + more) == ExecSeq(stats, o).(rest := more) && ExecSeq(stats, o).out != Pending
  {
  }

  // ---- expressions

  /** Any answer. */
  const YES := Answer(true, [])

  function OptAnswers(s: Option<Simple>): Answers {
    if s.None? then [] else [YES]
  }

  lemma OptSteady(s: Option<Simple>, more: Answers, written: bool)
    ensures var ev := if s.None? then [] else Done(SimpleWork(s.value), YES, written);
            OptRun(s, OptAnswers(s) + more, written) == Course(ev, Normal, more, OptLocals(s))
  {
    if s.None? {
      assert [] + more == more;
    }
  }

  lemma ForcedHolds(e: Expr, v: bool)
    ensures Holds(e, Force(e, v)) == v
  {
    Forced(e, false, v);
  }

  // ---- tests of cases

  ghost predicate Selects(cases: seq<Case>, k: nat, c: nat, o: Answers, ev: seq<Event>, written: bool)
    requires k <= |cases|
  {
    forall more: Answers :: Dispatch(cases, k, o + more, written) == Dispatched(ev, Normal, c, more)
  }

  lemma SelectsMore(cases: seq<Case>, k: nat, c: nat, o: Answers, ev: seq<Event>, written: bool, more: Answers)
    requires k <= |cases| && Selects(cases, k, c, o, ev, written)
    ensures Dispatch(cases, k, o + more, written) == Dispatched(ev, Normal, c, more)
  {
  }

  /** The answers that lead to a case: its test succeeds, or it is the default case or
      the end, and all tests fail. */
  lemma {:induction false} Chooses(cases: seq<Case>, k: nat, c: nat, written: bool) returns (o: Answers, ev: seq<Event>)
    requires k <= |cases| && (if c < |cases| && cases[c].test.Some? then k <= c else c == DefaultIndex(cases))
    ensures Selects(cases, k, c, o, ev, written)
    decreases |cases| - k
  {
    hide Done, Holds, Force;
    if k == |cases| {
      o, ev := [], [];
      forall more: Answers ensures Dispatch(cases, k, o + more, written) == Dispatched(ev, Normal, c, more) {
        assert o + more == more;
      }
    } else if cases[k].test.None? {
      o, ev := Chooses(cases, k + 1, c, written);
    } else {
      var test := Given(cases[k].test.value);
      var a := Force(test, k == c);
      ForcedHolds(test, k == c);
      if k == c {
        o, ev := [a], Done(CaseTest(cases[k].test.value), a, written);
      } else {
        var o', ev' := Chooses(cases, k + 1, c, written);
        o, ev := [a] + o', Done(CaseTest(cases[k].test.value), a, written) + ev';
        forall more: Answers ensures Dispatch(cases, k, o + more, written) == Dispatched(ev, Normal, c, more) {
          SelectsMore(cases, k + 1, c, o', ev', written, more);
          assert (o + more)[1..] == o' + more;
        }
      }
    }
  }

  // ---- ends

  lemma {:induction false} Realise(s: Stmt, alive: Objs, objs: Objs, g: Held, brk: bool, cont: bool) returns (o: Answers)
    requires g in Ends(s, State(alive, objs)) && Part(alive, objs) && Legal(s, brk, cont)
    ensures Steady(s, o) && Exec(s, o).out == Normal
    ensures State(alive + Exec(s, o).locals, objs + Pushed(s)) == g
    decreases s, 2
  {
    hide Part, State;
    StateNone(alive, objs);
    match s
    case Block(stats, _) =>
      var m :| m in EndsSeq(stats, FRESH);
      FreshState();
      o := RealiseSeq(stats, [], [], m, brk, cont);
      SteadyBlock(s, o);
    case If(_, _, _) => o := RealiseIf(s, alive, objs, g, brk, cont);
    case Switch(_, _, _) => o := RealiseSwitch(s, State(alive, objs), brk, cont);
    case While(cond, body) =>
      o := [Force(cond, false)];
      SteadyLoop(s, o);
    case For(init, cond, incr, body) =>
      o := OptAnswers(init) + [Force(cond, false)];
      SteadyLoop(s, o);
    case Plain(simple) =>
      o := [YES];
      forall more: Answers ensures Exec(s, o + more) == Exec(s, o).(rest := more) {
        assert (o + more)[1..] == more;
      }
      SteadyBy(s, o, Exec(s, o));
      StateBoth(alive, objs, SimpleLocals(simple));
      StateIs(alive, objs);
  }

  /** Loops without turns. */
  lemma SteadyLoop(s: Stmt, o: Answers)
    requires (s.While? && o == [Force(s.wcond, false)]) || (s.For? && o == OptAnswers(s.init) + [Force(s.fcond, false)])
    ensures Steady(s, o) && Exec(s, o).out == Normal && Exec(s, o).locals == []
  {
    hide Meant, Holds, Force, Eval, OptRun, OptAnswers;
    if s.While? {
      var a := o[0];
      ForcedHolds(s.wcond, false);
      forall more: Answers ensures Exec(s, o + more) == Course(Meant(Condition(s.wcond), a), Normal, more, []) {
        assert (o + more)[1..] == more;
      }
      SteadyBy(s, o, Course(Meant(Condition(s.wcond), a), Normal, [], []));
    } else {
      var a, objs := Force(s.fcond, false), OptLocals(s.init);
      var ev := if s.init.None? then [] else Done(SimpleWork(s.init.value), YES, false);
      ForcedHolds(s.fcond, false);
      var whole := Course(ev + Meant(Condition(s.fcond), a) + Dtors(objs + []), Normal, [], []);
      forall more: Answers ensures Exec(s, o + more) == whole.(rest := more) {
        assert o + more == OptAnswers(s.init) + ([a] + more);
        OptSteady(s.init, [a] + more, false);
        assert ([a] + more)[1..] == more;
      }
      SteadyBy(s, o, whole);
    }
  }

  lemma SteadyBlock(s: Stmt, o: Answers)
    requires s.Block? && SteadySeq(s.stats, o)
    ensures Steady(s, o) && Exec(s, o) == LeaveScope(ExecSeq(s.stats, o))
  {
    forall more: Answers ensures Exec(s, o + more) == Exec(s, o).(rest := more) {
      SteadySeqMore(s.stats, o, more);
    }
  }

  lemma {:induction false} RealiseSeq(stats: seq<Stmt>, alive: Objs, objs: Objs, g: Held, brk: bool, cont: bool) returns (o: Answers)
    requires g in EndsSeq(stats, State(alive, objs)) && Part(alive, objs) && forall k: nat :: k < |stats| ==> Legal(stats[k], brk, cont)
    ensures SteadySeq(stats, o) && ExecSeq(stats, o).out == Normal
    ensures State(alive + ExecSeq(stats, o).locals, objs + PushedAll(stats)) == g
    decreases stats
  {
    hide Part, State, Legal;
    if stats == [] {
      StateNone(alive, objs);
      o := [];
      forall more: Answers ensures ExecSeq(stats, o + more) == Course([], Normal, more, []) {
        assert o + more == more;
      }
      SteadySeqBy(stats, o, Course([], Normal, [], []));
    } else {
      var front, last := stats[..|stats| - 1], stats[|stats| - 1];
      var m :| m in EndsSeq(front, State(alive, objs)) && g in Ends(last, m);
      var o1 := RealiseSeq(front, alive, objs, m, brk, cont);
      var l, p := ExecSeq(front, o1).locals, PushedAll(front);
      SeqEnds(front, o1, alive, objs);
      PartThen(alive, objs, l, p);
      var o2 := Realise(last, alive + l, objs + p, g, brk, cont);
      o := o1 + o2;
      SteadyThen(stats, o1, o2);
      Behind(alive, l, Exec(last, o2).locals);
      Behind(objs, p, Pushed(last));
    }
  }

  lemma SteadyThen(stats: seq<Stmt>, o1: Answers, o2: Answers)
    requires stats != [] && SteadySeq(stats[..|stats| - 1], o1) && Steady(stats[|stats| - 1], o2)
    requires ExecSeq(stats[..|stats| - 1], o1).out == Normal
    ensures var e1, e2 := ExecSeq(stats[..|stats| - 1], o1), Exec(stats[|stats| - 1], o2);
            SteadySeq(stats, o1 + o2) && ExecSeq(stats, o1 + o2) == Then(e1, e2).(rest := [])
  {
    hide Exec, ExecSeq, Then, Steady, SteadySeq;
    var r := Then(ExecSeq(stats[..|stats| - 1], o1), Exec(stats[|stats| - 1], o2));
    forall more: Answers ensures ExecSeq(stats, o1 + o2 + more) == r.(rest := more) {
      ThenMore(stats, o1, o2, more);
    }
    ThenOut(ExecSeq(stats[..|stats| - 1], o1), Exec(stats[|stats| - 1], o2));
    SteadyMore(stats[|stats| - 1], o2, []);
    SteadySeqBy(stats, o1 + o2, r);
  }

  lemma ThenOut(e1: Course, e2: Course)
    ensures Then(e1, e2).out == e2.out
  {
  }

  lemma ThenMore(stats: seq<Stmt>, o1: Answers, o2: Answers, more: Answers)
    requires stats != [] && SteadySeq(stats[..|stats| - 1], o1) && Steady(stats[|stats| - 1], o2)
    requires ExecSeq(stats[..|stats| - 1], o1).out == Normal
    ensures ExecSeq(stats, o1 + o2 + more) == Then(ExecSeq(stats[..|stats| - 1], o1), Exec(stats[|stats| - 1], o2)).(rest := more)
  {
    hide Exec, ExecSeq, Steady, SteadySeq;
    var front, last := stats[..|stats| - 1], stats[|stats| - 1];
    assert o1 + o2 + more == o1 + (o2 + more);
    ExecSeqLast(stats, o1 + (o2 + more));
    SteadySeqMore(front, o1, o2 + more);
    SteadyMore(last, o2, more);
  }

  lemma RealiseIf(s: Stmt, alive: Objs, objs: Objs, g: Held, brk: bool, cont: bool) returns (o: Answers)
    requires s.If? && g in Ends(s, State(alive, objs)) && Part(alive, objs) && Legal(s, brk, cont)
    ensures Steady(s, o) && Exec(s, o).out == Normal
    ensures State(alive + Exec(s, o).locals, objs + Pushed(s)) == g
    decreases s, 1
  {
    hide Part, State, Exec;
    var p := Pushed(s.body);
    var q := if s.elseBody.Some? then Pushed(s.elseBody.value) else [];
    Behind(objs, p, q);
    PartMore(alive, objs, p);
    if m :| m in Ends(s.body, State(alive, objs)) && g == Grown(m, q) {
      var o' := Realise(s.body, alive, objs, m, brk, cont);
      o := [Force(s.cond, true)] + o';
      SteadyBranch(s, true, o');
      RunEnds(s.body, o', alive, objs);
      PartThen(alive, objs, Exec(s.body, o').locals, p);
      PartMore(alive + Exec(s.body, o').locals, objs + p, q);
    } else if s.elseBody.Some? {
      var o' := Realise(s.elseBody.value, alive, objs + p, g, brk, cont);
      o := [Force(s.cond, false)] + o';
      SteadyBranch(s, false, o');
    } else {
      o := [Force(s.cond, false)];
      SteadyBranch(s, false, []);
      assert o + [] == o;
      Behind(alive, [], []);
      Behind(p, [], []);
    }
  }

  lemma SteadyBranch(s: Stmt, b: bool, o: Answers)
    requires s.If? && (if b then Steady(s.body, o) else if s.elseBody.Some? then Steady(s.elseBody.value, o) else o == [])
    ensures var e := if b then Exec(s.body, o) else if s.elseBody.Some? then Exec(s.elseBody.value, o) else Course([], Normal, [], []);
            Steady(s, [Force(s.cond, b)] + o) && Exec(s, [Force(s.cond, b)] + o).out == e.out && Exec(s, [Force(s.cond, b)] + o).locals == e.locals
  {
    hide Meant, Holds, Force, Eval;
    var e := if b then Exec(s.body, o) else if s.elseBody.Some? then Exec(s.elseBody.value, o) else Course([], Normal, [], []);
    var a := Force(s.cond, b);
    var ev := Meant(Condition(s.cond), a);
    ForcedHolds(s.cond, b);
    forall more: Answers ensures Exec(s, [a] + o + more) == e.(ev := ev + e.ev, rest := more) {
      assert ([a] + o + more)[1..] == o + more;
      assert [] + more == more;
    }
    SteadyBy(s, [a] + o, e.(ev := ev + e.ev));
  }

  lemma RealiseSwitch(s: Stmt, h: Held, brk: bool, cont: bool) returns (o: Answers)
    requires s.Switch? && Ends(s, h) != {} && Legal(s, brk, cont)
    ensures Steady(s, o) && Exec(s, o).out == Normal && Exec(s, o).locals == []
    decreases s, 1
  {
    hide Exec, DefaultIndex, Meant, Dtors, Holds, Eval;
    if DefaultIndex(s.cases) == |s.cases| {
      var ev;
      o, ev := Chooses(s.cases, 0, |s.cases|, false);
      SteadySwitch(s, o, ev, |s.cases|, [], Course([], Normal, [], []));
      assert o + [] == o;
      o := [YES] + o;
    } else {
      var c: nat :| c < |s.cases| && (MayJump(s.cases[c].cbody, Break) || Ends(s.cases[c].cbody, FRESH) != {});
      var body := s.cases[c].cbody;
      assert Legal(body, true, c + 1 < |s.cases|);
      var o2;
      if MayJump(body, Break) {
        o2 := RealiseJump(body, Break, true, c + 1 < |s.cases|);
      } else {
        var g :| g in Ends(body, FRESH);
        FreshState();
        o2 := Realise(body, [], [], g, true, c + 1 < |s.cases|);
      }
      DefaultIsOne(s, c, brk, cont);
      var o1, ev := Chooses(s.cases, 0, c, false);
      o := [YES] + (o1 + o2);
      SteadySwitch(s, o1, ev, c, o2, LeaveScope(Exec(body, o2)).(out := Normal));
    }
  }

  lemma DefaultIsOne(s: Stmt, c: nat, brk: bool, cont: bool)
    requires s.Switch? && c < |s.cases| && Legal(s, brk, cont)
    ensures s.cases[c].test.None? ==> c == DefaultIndex(s.cases)
  {
  }

  lemma SteadySwitch(s: Stmt, o1: Answers, ev: seq<Event>, c: nat, o2: Answers, r: Course)
    requires s.Switch? && c <= |s.cases| && r.out == Normal && r.locals == []
    requires Selects(s.cases, 0, c, o1, ev, false)
    requires if c < |s.cases|
             then var e := Exec(s.cases[c].cbody, o2); Steady(s.cases[c].cbody, o2) && (e.out.Normal? || e.out.Breaks?) && r == LeaveScope(e).(out := Normal)
             else o2 == [] && r.ev == []
    ensures var o := [YES] + (o1 + o2); Steady(s, o) && Exec(s, o).out == Normal && Exec(s, o).locals == []
  {
    hide Exec, Eval, Dispatch, Dtors, LeaveScope, Selects, Steady;
    var o, g := [YES] + (o1 + o2), Eval(Given(s.expr), false, YES);
    var whole := Course(g.ev + [Act] + (ev + r.ev) + Dtors(g.made), Normal, [], []);
    forall more: Answers ensures Exec(s, o + more) == whole.(rest := more) {
      assert o + more == [YES] + (o1 + (o2 + more));
      SelectsMore(s.cases, 0, c, o1, ev, false, o2 + more);
      if c < |s.cases| {
        CaseRun(s, c, o2, more, r);
      } else {
        assert o2 + more == more;
      }
      ChosenRun(s, YES, o1 + (o2 + more), ev, c, o2 + more, r.(rest := more));
    }
    SteadyBy(s, o, whole);
  }

  lemma ChosenRun(s: Stmt, a: Answer, o: Answers, ev: seq<Event>, c: nat, o2: Answers, r: Course)
    requires s.Switch? && c <= |s.cases| && Dispatch(s.cases, 0, o, false) == Dispatched(ev, Normal, c, o2) && r.out == Normal && r.locals == []
    requires if c < |s.cases| then ExecCases(s, c, o2) == r else r.ev == [] && r.rest == o2
    ensures var g := Eval(Given(s.expr), false, a);
            Exec(s, [a] + o) == Course(g.ev + [Act] + (ev + r.ev) + Dtors(g.made), Normal, r.rest, [])
  {
    hide Eval, Dispatch, Dtors, ExecCases;
    assert ([a] + o)[1..] == o;
    if c == |s.cases| {
      assert ev + [] == ev;
    }
  }

  lemma CaseRun(s: Stmt, c: nat, o: Answers, more: Answers, r: Course)
    requires s.Switch? && c < |s.cases| && Steady(s.cases[c].cbody, o)
    requires var e := Exec(s.cases[c].cbody, o); (e.out.Normal? || e.out.Breaks?) && r == LeaveScope(e).(out := Normal)
    ensures ExecCases(s, c, o + more) == r.(rest := more)
  {
    hide Exec, Steady;
    SteadyMore(s.cases[c].cbody, o, more);
  }

  // ---- jumps

  lemma {:induction false} RealiseJump(s: Stmt, jump: Stmt, brk: bool, cont: bool) returns (o: Answers)
    requires (jump.Break? || jump.Continue?) && MayJump(s, jump) && Legal(s, brk, cont)
    ensures Steady(s, o) && Exec(s, o).out == Jumping(jump)
    decreases s, 1
  {
    match s
    case Block(stats, _) =>
      o := RealiseJumpSeq(stats, jump, brk, cont);
      SteadyBlock(s, o);
    case If(_, body, elseBody) =>
      if MayJump(body, jump) {
        var o' := RealiseJump(body, jump, brk, cont);
        o := [Force(s.cond, true)] + o';
        SteadyBranch(s, true, o');
      } else {
        var o' := RealiseJump(elseBody.value, jump, brk, cont);
        o := [Force(s.cond, false)] + o';
        SteadyBranch(s, false, o');
      }
    case Break => o := SteadyJump(s);
    case Continue => o := SteadyJump(s);
  }

  lemma SteadyJump(s: Stmt) returns (o: Answers)
    requires s.Break? || s.Continue?
    ensures Steady(s, o) && Exec(s, o).out == Jumping(s)
  {
    o := [];
    forall more: Answers ensures Exec(s, o + more) == Course([], Jumping(s), more, []) {
      assert o + more == more;
    }
    SteadyBy(s, o, Course([], Jumping(s), [], []));
  }

  lemma {:induction false} RealiseJumpSeq(stats: seq<Stmt>, jump: Stmt, brk: bool, cont: bool) returns (o: Answers)
    requires (jump.Break? || jump.Continue?) && MayJumpSeq(stats, jump) && forall k: nat :: k < |stats| ==> Legal(stats[k], brk, cont)
    ensures SteadySeq(stats, o) && ExecSeq(stats, o).out == Jumping(jump)
    decreases stats
  {
    hide Exec, Legal, EndsSeq;
    var front, last := stats[..|stats| - 1], stats[|stats| - 1];
    if MayJumpSeq(front, jump) {
      o := RealiseJumpSeq(front, jump, brk, cont);
      forall more: Answers ensures ExecSeq(stats, o + more) == ExecSeq(front, o).(rest := more) {
        SteadySeqMore(front, o, more);
      }
      SteadySeqBy(stats, o, ExecSeq(front, o));
    } else {
      var m :| m in EndsSeq(front, FRESH);
      FreshState();
      var o1 := RealiseSeq(front, [], [], m, brk, cont);
      var o2 := RealiseJump(last, jump, brk, cont);
      o := o1 + o2;
      SteadyThen(stats, o1, o2);
    }
  }
}
