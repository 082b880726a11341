/** Statements, and what running them means. Expressions are seen only through the
    objects they make, and through what is evaluated. */
module StatSem {
  import opened Wrappers
  import opened Lives
  import opened ExprSem

  datatype Stmt =
    | Block(stats: seq<Stmt>, terminate: bool)  // `terminate`: a Terminate node was put at the end
    | If(cond: Expr, body: Stmt, elseBody: Option<Stmt>)
    | Switch(expr: Expr, cases: seq<Case>, alwaysReturns: bool)
    | Break
    | Continue
    | Return(result: Expr)                      // an atom if nothing is returned
    | While(wcond: Expr, wbody: Stmt)
    | For(init: Option<Simple>, fcond: Expr, incr: Option<Simple>, fbody: Stmt)
    | Plain(simple: Simple)

  /** Only a variable whose destructor does something is declared here: to declare a
      number is to assign it. */
  datatype Simple = Declare(local: nat, start: Expr) | Assign(dst: Expr, src: Expr) | Call(call: Expr)

  /** The default case has no test. */
  datatype Case = Case(test: Option<Expr>, cbody: Stmt)

  /** One answer for every evaluation of an expression that a run comes to. */
  type Answers = seq<Answer>

  /** A declaration gives its expression an address, an assignment destroys a new object
      that it has assigned, and a call has no use for its value. */
  function SimpleWork(s: Simple): Work {
    match s
    case Declare(x, start) => Work(Given(start), [Ctor(Local(x))], [])
    case Assign(dst, src) => Work(Set(dst, src), [Act], SlotOf(src))
    case Call(call) => Work(call, [Act], [])
  }

  function SimpleLocals(s: Simple): Objs {
    match s
    case Declare(x, _) => [Local(x)]
    case _ => []
  }

  function OptLocals(s: Option<Simple>): Objs {
    if s.Some? then SimpleLocals(s.value) else []
  }

  /** The value of a case is given an address, and compared. */
  function CaseTest(test: Expr): Work {
    Condition(Given(test))
  }

  function Holds(e: Expr, a: Answer): bool {
    Eval(e, false, a).truth
  }

  /** What was written, or what was meant. */
  function Done(w: Work, a: Answer, written: bool): seq<Event> {
    if written then Wrote(w, a) else Meant(w, a)
  }

  // ---- what statements mean

  /** `Pending`: the run comes to an expression without an answer. Only generated code can be
      `Stuck`: before an instruction that was to be unreachable. */
  datatype Outcome = Normal | Breaks | Continues | Returns | Pending | Stuck

  /** `locals` are the objects that the enclosing scope still has to destroy. */
  datatype Course = Course(ev: seq<Event>, out: Outcome, rest: Answers, locals: Objs)

  /** Leaving a scope, in whichever way, destroys what was declared in it. */
  function LeaveScope(r: Course): Course {
    if r.out == Pending then r.(locals := []) else r.(ev := r.ev + Dtors(r.locals), locals := [])
  }

  function Then(r1: Course, r2: Course): Course {
    Course(r1.ev + r2.ev, r2.out, r2.rest, r1.locals + r2.locals)
  }

  /** A simple statement that is there or not. */
  function OptRun(s: Option<Simple>, o: Answers, written: bool): (r: Course)
    ensures |r.rest| <= |o| && (r.out.Normal? || r.out.Pending?)
  {
    if s.None? then Course([], Normal, o, [])
    else if o == [] then Course([], Pending, [], [])
    else Course(Done(SimpleWork(s.value), o[0], written), Normal, o[1..], SimpleLocals(s.value))
  }

  /** Runs a statement with the given answers for the expressions it will meet. Blocks,
      bodies of loops and cases are scopes; a branch that is not a block is none. */
  function Exec(s: Stmt, o: Answers): (r: Course)
    ensures |r.rest| <= |o| && !r.out.Stuck?
    decreases |o|, s, 1
  {
    match s
    case Block(stats, _) => LeaveScope(ExecSeq(stats, o))
    case If(cond, body, elseBody) =>
      if o == [] then Course([], Pending, [], [])
      else
        var r := if Holds(cond, o[0]) then Exec(body, o[1..])
                 else if elseBody.Some? then Exec(elseBody.value, o[1..])
                 else Course([], Normal, o[1..], []);
        r.(ev := Meant(Condition(cond), o[0]) + r.ev)
    case Switch(expr, cases, _) =>
      if o == [] then Course([], Pending, [], [])
      else
        var d := Dispatch(cases, 0, o[1..], false);
        var r := if d.out == Pending then Course(d.ev, Pending, [], [])
                 else if d.target < |cases| then Then(Course(d.ev, Normal, d.rest, []), ExecCases(s, d.target, d.rest))
                 else Course(d.ev, Normal, d.rest, []);
        var g := Eval(Given(expr), false, o[0]);
        LeaveScope(r.(ev := g.ev + [Act] + r.ev, locals := g.made))
    case Break => Course([], Breaks, o, [])
    case Continue => Course([], Continues, o, [])
    case Return(result) =>
      if o == [] then Course([], Pending, [], [])
      else Course(Eval(Given(result), false, o[0]).ev, Returns, o[1..], Eval(Given(result), false, o[0]).made)
    case While(cond, body) => Loop(cond, body, None, o)
    case For(init, cond, incr, body) =>
      var r := OptRun(init, o, false);
      LeaveScope(if r.out != Normal then r else Then(r, Loop(cond, body, incr, r.rest)))
    case Plain(simple) => OptRun(Some(simple), o, false)
  }

  function ExecSeq(stats: seq<Stmt>, o: Answers): (r: Course)
    ensures |r.rest| <= |o| && !r.out.Stuck?
    decreases |o|, stats
  {
    if stats == [] then Course([], Normal, o, [])
    else
      var r := ExecSeq(stats[..|stats| - 1], o);
      if r.out != Normal then r else Then(r, Exec(stats[|stats| - 1], r.rest))
  }

  /** What the increment of a `for` declares would live as long as the increment. */
  function Loop(cond: Expr, body: Stmt, incr: Option<Simple>, o: Answers): (r: Course)
    ensures |r.rest| <= |o|
    ensures !r.out.Breaks? && !r.out.Continues? && !r.out.Stuck?
    decreases |o|, body, 2
  {
    if o == [] then Course([], Pending, [], [])
    else
      var ev := Meant(Condition(cond), o[0]);
      if !Holds(cond, o[0]) then Course(ev, Normal, o[1..], [])
      else
        var r := LeaveScope(Exec(body, o[1..]));
        var turn := r.(ev := ev + r.ev);
        match r.out
        case Breaks => turn.(out := Normal)
        case Normal => NextLoop(cond, body, incr, turn)
        case Continues => NextLoop(cond, body, incr, turn)
        case _ => turn
  }

  function NextLoop(cond: Expr, body: Stmt, incr: Option<Simple>, turn: Course): (r: Course)
    ensures |r.rest| <= |turn.rest|
    ensures !r.out.Breaks? && !r.out.Continues? && !r.out.Stuck?
    decreases |turn.rest|, body, 3
  {
    var i := LeaveScope(OptRun(incr, turn.rest, false));
    if i.out != Normal then Then(turn, i) else Then(Then(turn, i), Loop(cond, body, incr, i.rest))
  }

  datatype Dispatched = Dispatched(ev: seq<Event>, out: Outcome, target: nat, rest: Answers)

  /** The index of the default case; the number of cases if there is none. */
  function DefaultIndex(cases: seq<Case>): (d: nat)
    ensures d <= |cases|
    ensures d < |cases| ==> cases[d].test.None?
    ensures forall c: nat :: c < d ==> cases[c].test.Some?
  {
    if cases == [] then 0
    else if cases[0].test.None? then 0
    else 1 + DefaultIndex(cases[1..])
  }

  /** Cases are tested in the order they are written; the default case only when
      no test succeeds, wherever it stands. */
  function Dispatch(cases: seq<Case>, c: nat, o: Answers, written: bool): (d: Dispatched)
    requires c <= |cases|
    ensures |d.rest| <= |o|
    decreases |cases| - c
  {
    if c == |cases| then Dispatched([], Normal, DefaultIndex(cases), o)
    else if cases[c].test.None? then Dispatch(cases, c + 1, o, written)
    else if o == [] then Dispatched([], Pending, 0, [])
    else
      var ev := Done(CaseTest(cases[c].test.value), o[0], written);
      if Holds(Given(cases[c].test.value), o[0]) then Dispatched(ev, Normal, c, o[1..])
      else
        var d := Dispatch(cases, c + 1, o[1..], written);
        d.(ev := ev + d.ev)
  }

  /** `continue` goes on with the next case, everything else leaves the switch. */
  function ExecCases(s: Stmt, c: nat, o: Answers): (r: Course)
    requires s.Switch? && c < |s.cases|
    ensures |r.rest| <= |o| && !r.out.Stuck?
    decreases |o|, s, 0, |s.cases| - c
  {
    var r := LeaveScope(Exec(s.cases[c].cbody, o));
    match r.out
    case Normal => r
    case Breaks => r.(out := Normal)
    case Continues => if c + 1 < |s.cases| then Then(r, ExecCases(s, c + 1, r.rest)) else r
    case _ => r
  }

  // ---- every object is destroyed once, in reverse order of construction

  /** What a result has left alive is what its enclosing scope will destroy. */
  ghost predicate Tidy(r: Course, a: Alive) {
    Replay(r.ev, a).Some? && (r.out != Pending ==> Replay(r.ev, a) == Some(WithObjs(a, r.locals)))
  }

  lemma TidyLeave(r: Course, a: Alive)
    requires Tidy(r, a)
    ensures Tidy(LeaveScope(r), a)
  {
    ReplayThen(r.ev, Dtors(r.locals), a);
    ReplayDtors(r.locals, a);
  }

  lemma TidyThen(r1: Course, r2: Course, a: Alive)
    requires r1.out != Pending && Tidy(r1, a) && Tidy(r2, WithObjs(a, r1.locals))
    ensures Tidy(Then(r1, r2), a)
  {
    ReplayThen(r1.ev, r2.ev, a);
    WithObjsThen(a, r1.locals, r2.locals);
  }

  lemma TidyAfter(ev: seq<Event>, r: Course, a: Alive)
    requires Replay(ev, a) == Some(a) && Tidy(r, a)
    ensures Tidy(r.(ev := ev + r.ev), a)
  {
    ReplayThen(ev, r.ev, a);
  }

  lemma TidyWaits(a: Alive)
    ensures Tidy(Course([], Pending, [], []), a)
  {
  }

  lemma ConditionTidy(e: Expr, answer: Answer, a: Alive)
    ensures Replay(Meant(Condition(e), answer), a) == Some(a)
  {
    ReplayMeant(Condition(e), answer, a);
  }

  lemma OptTidy(s: Option<Simple>, o: Answers, a: Alive)
    ensures Tidy(OptRun(s, o, false), a)
  {
    hide Meant;
    if s.Some? && o != [] {
      ReplayMeant(SimpleWork(s.value), o[0], a);
      assert Begun(SimpleWork(s.value).act) == SimpleLocals(s.value);
    }
  }

  /** Running any statement, along any path, destroys what it constructs in reverse
      order, except for what its scope destroys later. */
  lemma {:induction false} ExecTidy(s: Stmt, o: Answers, a: Alive)
    ensures Tidy(Exec(s, o), a)
    decreases |o|, s, 1
  {
    hide Meant, Tidy, Eval;
    TidyWaits(a);
    match s
    case Block(stats, _) =>
      SeqTidy(stats, o, a);
      TidyLeave(ExecSeq(stats, o), a);
    case If(cond, body, elseBody) =>
      if o != [] {
        ConditionTidy(cond, o[0], a);
        if Holds(cond, o[0]) {
          ExecTidy(body, o[1..], a);
          TidyAfter(Meant(Condition(cond), o[0]), Exec(body, o[1..]), a);
        } else if elseBody.Some? {
          ExecTidy(elseBody.value, o[1..], a);
          TidyAfter(Meant(Condition(cond), o[0]), Exec(elseBody.value, o[1..]), a);
        } else {
          TidyNothing(o[1..], a);
          TidyAfter(Meant(Condition(cond), o[0]), Course([], Normal, o[1..], []), a);
        }
      }
    case Switch(expr, cases, _) =>
      if o != [] {
        SwitchTidy(s, o, a);
      }
    case Break => JumpTidy(Breaks, o, a);
    case Continue => JumpTidy(Continues, o, a);
    case Return(result) =>
      if o != [] {
        ReturnTidy(result, o, a);
      }
    case While(cond, body) => LoopTidy(cond, body, None, o, a);
    case For(init, cond, incr, body) =>
      var first := OptRun(init, o, false);
      OptTidy(init, o, a);
      if first.out == Normal {
        LoopTidy(cond, body, incr, first.rest, WithObjs(a, first.locals));
        TidyThen(first, Loop(cond, body, incr, first.rest), a);
      }
      TidyLeave(if first.out != Normal then first else Then(first, Loop(cond, body, incr, first.rest)), a);
    case Plain(simple) => OptTidy(Some(simple), o, a);
  }

  lemma TidyNothing(o: Answers, a: Alive)
    ensures Tidy(Course([], Normal, o, []), a)
  {
  }

  lemma JumpTidy(out: Outcome, o: Answers, a: Alive)
    ensures Tidy(Course([], out, o, []), a)
  {
  }

  lemma ReturnTidy(e: Expr, o: Answers, a: Alive)
    requires o != []
    ensures var g := Eval(Given(e), false, o[0]); Tidy(Course(g.ev, Returns, o[1..], g.made), a)
  {
    hide Eval;
    ValueTidy(e, o[0], a);
  }

  lemma ValueTidy(e: Expr, answer: Answer, a: Alive)
    ensures var g := Eval(Given(e), false, answer); Replay(g.ev, a) == Some(WithObjs(a, g.made))
  {
    hide Eval;
    var g := Eval(Given(e), false, answer);
    EvalTells(Given(e), false, answer, a);
    GivenMakes(e, answer);
  }

  lemma {:induction false} SeqTidy(stats: seq<Stmt>, o: Answers, a: Alive)
    ensures Tidy(ExecSeq(stats, o), a)
    decreases |o|, stats
  {
    if stats != [] {
      var r := ExecSeq(stats[..|stats| - 1], o);
      SeqTidy(stats[..|stats| - 1], o, a);
      if r.out == Normal {
        ExecTidy(stats[|stats| - 1], r.rest, WithObjs(a, r.locals));
        TidyThen(r, Exec(stats[|stats| - 1], r.rest), a);
      }
    }
  }

  lemma {:induction false} LoopTidy(cond: Expr, body: Stmt, incr: Option<Simple>, o: Answers, a: Alive)
    ensures Tidy(Loop(cond, body, incr, o), a)
    decreases |o|, body, 2
  {
    hide Meant, Tidy, Exec, Holds;
    TidyWaits(a);
    if o != [] {
      var ev := Meant(Condition(cond), o[0]);
      ConditionTidy(cond, o[0], a);
      if Holds(cond, o[0]) {
        var r := LeaveScope(Exec(body, o[1..]));
        ExecTidy(body, o[1..], a);
        TidyLeave(Exec(body, o[1..]), a);
        TidyAfter(ev, r, a);
        if r.out.Normal? || r.out.Continues? {
          NextTidy(cond, body, incr, r.(ev := ev + r.ev), a);
        } else {
          TidyOut(r.(ev := ev + r.ev), a);
        }
      } else {
        TidyNothing(o[1..], a);
        TidyAfter(ev, Course([], Normal, o[1..], []), a);
        assert ev + [] == ev;
      }
    }
  }

  lemma TidyOut(r: Course, a: Alive)
    requires Tidy(r, a)
    ensures r.out.Breaks? ==> Tidy(r.(out := Normal), a)
  {
  }

  lemma NextTidy(cond: Expr, body: Stmt, incr: Option<Simple>, turn: Course, a: Alive)
    requires Tidy(turn, a) && turn.locals == [] && turn.out != Pending
    ensures Tidy(NextLoop(cond, body, incr, turn), a)
    decreases |turn.rest|, body, 3
  {
    hide Tidy, OptRun, Loop, Meant;
    var i := LeaveScope(OptRun(incr, turn.rest, false));
    assert WithObjs(a, []) == a;
    OptTidy(incr, turn.rest, a);
    TidyLeave(OptRun(incr, turn.rest, false), a);
    TidyThen(turn, i, a);
    if i.out == Normal {
      LoopTidy(cond, body, incr, i.rest, a);
      assert turn.locals + i.locals == [];
      TidyThen(Then(turn, i), Loop(cond, body, incr, i.rest), a);
    }
  }

  lemma {:induction false} SwitchTidy(s: Stmt, o: Answers, a: Alive)
    requires s.Switch? && o != []
    ensures Tidy(Exec(s, o), a)
    decreases |o|, s, 0, |s.cases| + 1
  {
    hide Eval, Dispatch, ExecCases;
    var g := Eval(Given(s.expr), false, o[0]);
    var a', o' := WithObjs(a, g.made), o[1..];
    var d := Dispatch(s.cases, 0, o', false);
    DispatchTidy(s.cases, 0, o', a');
    var r1 := Course(d.ev, Normal, d.rest, []);
    var r := if d.out == Pending then Course(d.ev, Pending, [], [])
             else if d.target < |s.cases| then Then(r1, ExecCases(s, d.target, d.rest))
             else r1;
    if d.out != Pending && d.target < |s.cases| {
      CasesTidy(s, d.target, d.rest, a');
      TidyThen(r1, ExecCases(s, d.target, d.rest), a');
    }
    ValueTidy(s.expr, o[0], a);
    ReplayAct(g.ev, a);
    ReplayThen(g.ev + [Act], r.ev, a);
    CasesLeaveNothing(s, d.target, d.rest);
    TidyLeave(r.(ev := g.ev + [Act] + r.ev, locals := g.made), a);
  }

  lemma {:induction false} CasesLeaveNothing(s: Stmt, c: nat, o: Answers)
    requires s.Switch?
    ensures c < |s.cases| ==> ExecCases(s, c, o).locals == []
    decreases |s.cases| - c
  {
    if c < |s.cases| {
      var r := LeaveScope(Exec(s.cases[c].cbody, o));
      CasesLeaveNothing(s, c + 1, r.rest);
    }
  }

  lemma {:induction false} CasesTidy(s: Stmt, c: nat, o: Answers, a: Alive)
    requires s.Switch? && c < |s.cases|
    ensures Tidy(ExecCases(s, c, o), a)
    decreases |o|, s, 0, |s.cases| - c
  {
    hide Exec;
    var r := LeaveScope(Exec(s.cases[c].cbody, o));
    ExecTidy(s.cases[c].cbody, o, a);
    TidyLeave(Exec(s.cases[c].cbody, o), a);
    if r.out.Continues? && c + 1 < |s.cases| {
      CasesTidy(s, c + 1, r.rest, a);
      TidyThen(r, ExecCases(s, c + 1, r.rest), a);
    }
  }

  lemma {:induction false} DispatchTidy(cases: seq<Case>, c: nat, o: Answers, a: Alive)
    requires c <= |cases|
    ensures Replay(Dispatch(cases, c, o, false).ev, a) == Some(a)
    decreases |cases| - c
  {
    hide Meant, Holds;
    if c < |cases| {
      if cases[c].test.None? {
        DispatchTidy(cases, c + 1, o, a);
      } else if o != [] {
        var ev := Meant(CaseTest(cases[c].test.value), o[0]);
        ConditionTidy(Given(cases[c].test.value), o[0], a);
        DispatchTidy(cases, c + 1, o[1..], a);
        ReplayThen(ev, Dispatch(cases, c + 1, o[1..], false).ev, a);
      }
    }
  }
}
