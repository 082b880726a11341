/** The machine that generated code runs on, and why the code of the parts of a
    statement makes code for the statement: every final code that contains it does
    what `StatWritten` says. */
module StatProof {
  import opened Wrappers
  import opened Lives
  import opened ExprSem
  import opened StatSem
  import opened StatWritten

  // ---- blocks of instructions

  /** `Calc` stands for all that was written for an expression; a condition keeps its
      truth for the branch behind it. */
  datatype Instr = Do(ev: Event) | Calc(e: Expr, keep: bool) | Br(to: nat) | CondBr(ifTrue: nat, ifFalse: nat) | Ret | Unreachable

  predicate IsTerminator(i: Instr) {
    !i.Do? && !i.Calc?
  }

  type Code = seq<seq<Instr>>

  datatype Config =
    | Run(blk: nat, pc: nat, oracle: Answers, trace: seq<Event>)
    | Done(oracle: Answers, trace: seq<Event>)

  /** The answers that are left behind an expression. */
  function Left(e: Expr, keep: bool, o: Answers): Answers
    requires o != []
  {
    if keep then [Answer(Holds(e, o[0]), [])] + o[1..] else o[1..]
  }

  /** One step; a run that waits for an answer, or went wrong, stays where it is. */
  function Step(f: Code, c: Config): Config {
    if c.Done? || c.blk >= |f| || c.pc >= |f[c.blk]| then c
    else
      match f[c.blk][c.pc]
      case Do(e) => c.(pc := c.pc + 1, trace := c.trace + [e])
      case Calc(e, keep) =>
        if c.oracle == [] then c
        else Run(c.blk, c.pc + 1, Left(e, keep, c.oracle), c.trace + Eval(e, false, c.oracle[0]).ev)
      case Br(b) => c.(blk := b, pc := 0)
      case CondBr(t, e) =>
        if c.oracle == [] then c
        else Run(if c.oracle[0].truth then t else e, 0, c.oracle[1..], c.trace)
      case Ret => Done(c.oracle, c.trace)
      case Unreachable => c
  }

  function Steps(f: Code, c: Config, n: nat): Config
    decreases n
  {
    if n == 0 then c else Steps(f, Step(f, c), n - 1)
  }

  ghost predicate Reaches(f: Code, c1: Config, c2: Config) {
    exists n: nat :: Steps(f, c1, n) == c2
  }

  /** The run stands before an expression, and its answer is not known. */
  predicate Waiting(f: Code, c: Config) {
    c.Run? && c.oracle == [] && c.blk < |f| && c.pc < |f[c.blk]| && f[c.blk][c.pc].Calc?
  }

  lemma {:induction false} StepsThen(f: Code, c: Config, n: nat, m: nat)
    ensures Steps(f, c, n + m) == Steps(f, Steps(f, c, n), m)
    decreases n
  {
    if n > 0 {
      StepsThen(f, Step(f, c), n - 1, m);
    }
  }

  lemma ReachesThen(f: Code, c1: Config, c2: Config, c3: Config)
    requires Reaches(f, c1, c2) && Reaches(f, c2, c3)
    ensures Reaches(f, c1, c3)
  {
    var n: nat :| Steps(f, c1, n) == c2;
    var m: nat :| Steps(f, c2, m) == c3;
    StepsThen(f, c1, n, m);
  }

  lemma ReachesStep(f: Code, c: Config)
    ensures Reaches(f, c, c) && Reaches(f, c, Step(f, c))
  {
    assert Steps(f, c, 0) == c;
    assert Steps(f, c, 1) == Steps(f, Step(f, c), 0) == Step(f, c);
  }

  lemma {:induction false} StaysPut(f: Code, c: Config, n: nat)
    requires Step(f, c) == c
    ensures Steps(f, c, n) == c
    decreases n
  {
    if n > 0 {
      StaysPut(f, c, n - 1);
    }
  }

  /** A run has one end. */
  lemma OneEnd(f: Code, c: Config, c1: Config, c2: Config)
    requires Reaches(f, c, c1) && Reaches(f, c, c2) && Step(f, c1) == c1 && Step(f, c2) == c2
    ensures c1 == c2
  {
    var n: nat :| Steps(f, c, n) == c1;
    var m: nat :| Steps(f, c, m) == c2;
    if n <= m {
      StepsThen(f, c, n, m - n);
      StaysPut(f, c1, m - n);
    } else {
      StepsThen(f, c, m, n - m);
      StaysPut(f, c2, n - m);
    }
  }

  // ---- code under construction only grows

  ghost predicate Extends(c: Code, f: Code) {
    |c| <= |f| && forall b: nat :: b < |c| ==> c[b] <= f[b]
  }

  lemma ExtendsThen(c: Code, d: Code, f: Code)
    requires Extends(c, d) && Extends(d, f)
    ensures Extends(c, f)
  {
  }

  // ---- straight-line code

  function Emit(evs: seq<Event>): seq<Instr> {
    seq(|evs|, i requires 0 <= i < |evs| => Do(evs[i]))
  }

  /** From `p` on, block `b` consists of, or starts with, these instructions. */
  ghost predicate Has(f: Code, b: nat, p: nat, code: seq<Instr>) {
    b < |f| && p + |code| <= |f[b]| && f[b][p..p + |code|] == code
  }

  lemma {:induction false} RunsEvents(f: Code, b: nat, p: nat, evs: seq<Event>, o: Answers, t: seq<Event>)
    requires Has(f, b, p, Emit(evs))
    ensures Reaches(f, Run(b, p, o, t), Run(b, p + |evs|, o, t + evs))
    decreases |evs|
  {
    if evs == [] {
      ReachesStep(f, Run(b, p, o, t));
      assert t + [] == t;
    } else {
      assert f[b][p] == f[b][p..p + |evs|][0] == Do(evs[0]);
      assert f[b][p + 1..p + |evs|] == f[b][p..p + |evs|][1..] == Emit(evs[1..]);
      ReachesStep(f, Run(b, p, o, t));
      RunsEvents(f, b, p + 1, evs[1..], o, t + [evs[0]]);
      assert t + [evs[0]] + evs[1..] == t + evs;
      ReachesThen(f, Run(b, p, o, t), Run(b, p + 1, o, t + [evs[0]]), Run(b, p + |evs|, o, t + evs));
    }
  }

  // ---- what a run of compiled code has to do

  datatype Flow = Flow(breakBlock: Option<nat>, continueBlock: Option<nat>, scopeIndex: nat)

  /** Where a run that has come to `c` must be: at the end of the code of the
      statement, or at the target of its jump. */
  ghost predicate Arrives(f: Code, c: Config, r: Ran, t: seq<Event>, flow: Flow, b: nat, p: nat) {
    match r.out
    case Normal => c == Run(b, p, r.rest, t + r.ev)
    case Breaks => flow.breakBlock.Some? && c == Run(flow.breakBlock.value, 0, r.rest, t + r.ev)
    case Continues => flow.continueBlock.Some? && c == Run(flow.continueBlock.value, 0, r.rest, t + r.ev)
    case Returns => c == Done(r.rest, t + r.ev)
    case Pending => Waiting(f, c) && c.trace == t + r.ev
    case Stuck => Unreached(f, c) && c.trace == t + r.ev
  }

  /** The run stands before an instruction that was to be unreachable. */
  predicate Unreached(f: Code, c: Config) {
    c.Run? && c.blk < |f| && c.pc < |f[c.blk]| && f[c.blk][c.pc].Unreachable?
  }

  ghost predicate Meets(f: Code, b0: nat, p0: nat, o: Answers, t: seq<Event>, r: Ran, flow: Flow, b: nat, p: nat) {
    exists c: Config :: Reaches(f, Run(b0, p0, o, t), c) && Arrives(f, c, r, t, flow, b, p)
  }

  /** Every final code that contains `c` runs the statement from (b0, p0) on. */
  ghost predicate Sim(c: Code, s: Stmt, scopes: Scopes, flow: Flow, b0: nat, p0: nat, b: nat, p: nat)
    requires scopes != []
  {
    forall f: Code, o: Answers, t: seq<Event> :: Extends(c, f) ==> Meets(f, b0, p0, o, t, Did(s, o, scopes, flow.scopeIndex), flow, b, p)
  }

  ghost predicate SimSeq(c: Code, stats: seq<Stmt>, scopes: Scopes, flow: Flow, b0: nat, p0: nat, b: nat, p: nat)
    requires scopes != []
  {
    forall f: Code, o: Answers, t: seq<Event> :: Extends(c, f) ==> Meets(f, b0, p0, o, t, DidSeq(stats, o, scopes, flow.scopeIndex), flow, b, p)
  }

  lemma HasExtends(c: Code, f: Code, b: nat, p: nat, code: seq<Instr>)
    requires Has(c, b, p, code) && Extends(c, f)
    ensures Has(f, b, p, code)
  {
    assert c[b] <= f[b];
    assert f[b][p..p + |code|] == c[b][p..p + |code|];
  }

  lemma HasSplit(f: Code, b: nat, p: nat, x: seq<Instr>, y: seq<Instr>)
    requires Has(f, b, p, x + y)
    ensures Has(f, b, p, x) && Has(f, b, p + |x|, y)
  {
    assert f[b][p..p + |x|] == f[b][p..p + |x + y|][..|x|];
    assert f[b][p + |x|..p + |x| + |y|] == f[b][p..p + |x + y|][|x|..];
  }

  /** An expression, and what is done behind it. */
  function Piece(e: Expr, keep: bool, tail: seq<Event>): seq<Instr> {
    [Calc(e, keep)] + Emit(tail)
  }

  lemma RunsPiece(f: Code, b: nat, p: nat, e: Expr, keep: bool, tail: seq<Event>, o: Answers, t: seq<Event>)
    requires Has(f, b, p, Piece(e, keep, tail))
    ensures o == [] ==> Waiting(f, Run(b, p, o, t))
    ensures o != [] ==>
      Reaches(f, Run(b, p, o, t), Run(b, p + 1 + |tail|, Left(e, keep, o), t + (Eval(e, false, o[0]).ev + tail)))
  {
    hide Reaches, Emit, Eval, Left, Holds;
    HasSplit(f, b, p, [Calc(e, keep)], Emit(tail));
    HasAt(f, b, p, Calc(e, keep));
    if o != [] {
      var ev := Eval(e, false, o[0]).ev;
      ReachesStep(f, Run(b, p, o, t));
      RunsEvents(f, b, p + 1, tail, Left(e, keep, o), t + ev);
      assert t + ev + tail == t + (ev + tail);
      ReachesThen(f, Run(b, p, o, t), Run(b, p + 1, Left(e, keep, o), t + ev), Run(b, p + 1 + |tail|, Left(e, keep, o), t + (ev + tail)));
    }
  }

  lemma PieceSize(e: Expr, keep: bool, tail: seq<Event>)
    ensures |Piece(e, keep, tail)| == 1 + |tail|
  {
  }

  /** A simple statement that is there or not. */
  function OptCode(s: Option<Simple>): seq<Instr> {
    if s.None? then [] else Piece(SimpleWork(s.value).expr, false, Tail(SimpleWork(s.value)))
  }

  lemma RunsOpt(f: Code, b: nat, p: nat, s: Option<Simple>, o: Answers, t: seq<Event>)
    requires Has(f, b, p, OptCode(s))
    ensures var r := OptRun(s, o, true);
      if r.out == Normal then Reaches(f, Run(b, p, o, t), Run(b, p + |OptCode(s)|, r.rest, t + r.ev))
      else Waiting(f, Run(b, p, o, t)) && t + r.ev == t
  {
    hide Reaches, Emit, Eval, Waiting, Has, Tail, SimpleWork;
    if s.None? {
      ReachesStep(f, Run(b, p, o, t));
      assert t + [] == t;
    } else {
      var w := SimpleWork(s.value);
      RunsPiece(f, b, p, w.expr, false, Tail(w), o, t);
      PieceSize(w.expr, false, Tail(w));
      assert t + [] == t;
    }
  }

  lemma EmitThen(x: seq<Event>, y: seq<Event>)
    ensures Emit(x + y) == Emit(x) + Emit(y)
  {
  }

  lemma HasAt(f: Code, b: nat, p: nat, i: Instr)
    requires Has(f, b, p, [i])
    ensures f[b][p] == i
  {
    assert f[b][p] == f[b][p..p + 1][0];
  }

  /** Straight-line code followed by a jump. */
  lemma RunsJump(f: Code, b: nat, p: nat, evs: seq<Event>, i: Instr, o: Answers, t: seq<Event>)
    requires Has(f, b, p, Emit(evs) + [i]) && IsTerminator(i)
    ensures Reaches(f, Run(b, p, o, t), Step(f, Run(b, p + |evs|, o, t + evs)))
    ensures p + |evs| < |f[b]| && f[b][p + |evs|] == i
    ensures Reaches(f, Run(b, p, o, t), Run(b, p + |evs|, o, t + evs))
  {
    HasSplit(f, b, p, Emit(evs), [i]);
    HasAt(f, b, p + |evs|, i);
    RunsEvents(f, b, p, evs, o, t);
    ReachesStep(f, Run(b, p + |evs|, o, t + evs));
    ReachesThen(f, Run(b, p, o, t), Run(b, p + |evs|, o, t + evs), Step(f, Run(b, p + |evs|, o, t + evs)));
  }

  lemma MeetsBy(f: Code, b0: nat, p0: nat, o: Answers, t: seq<Event>, r: Ran, flow: Flow, b: nat, p: nat, c: Config)
    requires Reaches(f, Run(b0, p0, o, t), c) && Arrives(f, c, r, t, flow, b, p)
    ensures Meets(f, b0, p0, o, t, r, flow, b, p)
  {
  }

  /** A run that first does `ev` does it before everything else. */
  lemma MeetsAfter(f: Code, b0: nat, p0: nat, o: Answers, t: seq<Event>, ev: seq<Event>, b1: nat, p1: nat, o1: Answers, r: Ran,
                   flow: Flow, b2: nat, p2: nat)
    requires Reaches(f, Run(b0, p0, o, t), Run(b1, p1, o1, t + ev)) && Meets(f, b1, p1, o1, t + ev, r, flow, b2, p2)
    ensures Meets(f, b0, p0, o, t, r.(ev := ev + r.ev), flow, b2, p2)
  {
    hide Reaches;
    var c: Config :| Reaches(f, Run(b1, p1, o1, t + ev), c) && Arrives(f, c, r, t + ev, flow, b2, p2);
    ReachesThen(f, Run(b0, p0, o, t), Run(b1, p1, o1, t + ev), c);
    assert t + ev + r.ev == t + (ev + r.ev);
    MeetsBy(f, b0, p0, o, t, r.(ev := ev + r.ev), flow, b2, p2, c);
  }

  /** Where the code ends only matters to runs that get there. */
  lemma ElsewhereMeets(f: Code, b0: nat, p0: nat, o: Answers, t: seq<Event>, r: Ran, flow: Flow, b1: nat, p1: nat, b2: nat, p2: nat)
    requires r.out != Normal && Meets(f, b0, p0, o, t, r, flow, b1, p1)
    ensures Meets(f, b0, p0, o, t, r, flow, b2, p2)
  {
    var c: Config :| Reaches(f, Run(b0, p0, o, t), c) && Arrives(f, c, r, t, flow, b1, p1);
    assert Arrives(f, c, r, t, flow, b2, p2);
  }

  /** What ends inside a loop or switch otherwise than by going on does not depend on
      where break and continue go. */
  lemma OutwardMeets(f: Code, b0: nat, p0: nat, o: Answers, t: seq<Event>, r: Ran, inner: Flow, outer: Flow,
                     b1: nat, p1: nat, b2: nat, p2: nat)
    requires (r.out.Returns? || r.out.Pending? || r.out.Stuck?) && Meets(f, b0, p0, o, t, r, inner, b1, p1)
    ensures Meets(f, b0, p0, o, t, r, outer, b2, p2)
  {
    var c: Config :| Reaches(f, Run(b0, p0, o, t), c) && Arrives(f, c, r, t, inner, b1, p1);
    assert Arrives(f, c, r, t, outer, b2, p2);
  }

  /** Code behind the end of a statement. */
  lemma MeetsThen(f: Code, b0: nat, p0: nat, o: Answers, t: seq<Event>, r: Ran, flow: Flow, b: nat, p: nat, ev: seq<Event>)
    requires Meets(f, b0, p0, o, t, r, flow, b, p) && (r.out == Normal ==> Has(f, b, p, Emit(ev)))
    ensures Meets(f, b0, p0, o, t, if r.out == Normal then r.(ev := r.ev + ev) else r, flow, b, p + |ev|)
  {
    hide Reaches, Emit;
    if r.out == Normal {
      RunsEvents(f, b, p, ev, r.rest, t + r.ev);
      ReachesThen(f, Run(b0, p0, o, t), Run(b, p, r.rest, t + r.ev), Run(b, p + |ev|, r.rest, t + r.ev + ev));
      assert t + r.ev + ev == t + (r.ev + ev);
      MeetsBy(f, b0, p0, o, t, r.(ev := r.ev + ev), flow, b, p + |ev|, Run(b, p + |ev|, r.rest, t + r.ev + ev));
    } else {
      ElsewhereMeets(f, b0, p0, o, t, r, flow, b, p, b, p + |ev|);
    }
  }

  // ---- statements without parts

  lemma PlainSim(c: Code, s: Stmt, scopes: Scopes, flow: Flow, b: nat, p: nat)
    requires scopes != [] && s.Plain? && Has(c, b, p, OptCode(Some(s.simple)))
    ensures Sim(c, s, scopes, flow, b, p, b, p + |OptCode(Some(s.simple))|)
  {
    var code := OptCode(Some(s.simple));
    var p1 := p + |code|;
    forall f: Code, o: Answers, t: seq<Event> | Extends(c, f)
      ensures Meets(f, b, p, o, t, Did(s, o, scopes, flow.scopeIndex), flow, b, p1)
    {
      hide Reaches, OptRun, OptCode, Waiting;
      HasExtends(c, f, b, p, code);
      RunsOpt(f, b, p, Some(s.simple), o, t);
      MeetsOpt(f, b, p, Some(s.simple), o, t, flow, p1);
    }
  }

  lemma MeetsOpt(f: Code, b: nat, p: nat, s: Option<Simple>, o: Answers, t: seq<Event>, flow: Flow, p1: nat)
    requires var r := OptRun(s, o, true);
      if r.out == Normal then Reaches(f, Run(b, p, o, t), Run(b, p1, r.rest, t + r.ev))
      else Waiting(f, Run(b, p, o, t)) && t + r.ev == t
    ensures var r := OptRun(s, o, true); Meets(f, b, p, o, t, Ran(r.ev, r.out, r.rest), flow, b, p1)
  {
    hide Reaches, Waiting;
    var r := OptRun(s, o, true);
    if r.out == Normal {
      MeetsBy(f, b, p, o, t, Ran(r.ev, r.out, r.rest), flow, b, p1, Run(b, p1, r.rest, t + r.ev));
    } else {
      ReachesStep(f, Run(b, p, o, t));
      MeetsBy(f, b, p, o, t, Ran(r.ev, r.out, r.rest), flow, b, p1, Run(b, p, o, t));
    }
  }

  /** A run that has no answer for the expression it comes to. */
  lemma MeetsWaiting(f: Code, b: nat, p: nat, t: seq<Event>, flow: Flow, b1: nat, p1: nat)
    requires Waiting(f, Run(b, p, [], t))
    ensures Meets(f, b, p, [], t, Ran([], Pending, []), flow, b1, p1)
  {
    ReachesStep(f, Run(b, p, [], t));
    assert t + [] == t;
    MeetsBy(f, b, p, [], t, Ran([], Pending, []), flow, b1, p1, Run(b, p, [], t));
  }

  lemma JumpSim(c: Code, s: Stmt, scopes: Scopes, flow: Flow, b: nat, p: nat, to: nat, b1: nat, p1: nat)
    requires scopes != []
    requires (s.Break? && flow.breakBlock == Some(to)) || (s.Continue? && flow.continueBlock == Some(to))
    requires Has(c, b, p, Emit(Drop(scopes, flow.scopeIndex)) + [Br(to)])
    ensures Sim(c, s, scopes, flow, b, p, b1, p1)
  {
    var evs := Drop(scopes, flow.scopeIndex);
    forall f: Code, o: Answers, t: seq<Event> | Extends(c, f)
      ensures Meets(f, b, p, o, t, Did(s, o, scopes, flow.scopeIndex), flow, b1, p1)
    {
      hide Reaches, Drop;
      HasExtends(c, f, b, p, Emit(evs) + [Br(to)]);
      RunsJump(f, b, p, evs, Br(to), o, t);
      MeetsBy(f, b, p, o, t, Did(s, o, scopes, flow.scopeIndex), flow, b1, p1, Run(to, 0, o, t + evs));
    }
  }

  function ReturnCode(e: Expr, scopes: Scopes): seq<Instr>
    requires scopes != []
  {
    Piece(Given(e), false, Drop(Push(scopes, TempsOf(e)), 0)) + [Ret]
  }

  lemma ReturnSim(c: Code, s: Stmt, scopes: Scopes, flow: Flow, b: nat, p: nat, b1: nat, p1: nat)
    requires scopes != [] && s.Return?
    requires Has(c, b, p, ReturnCode(s.result, scopes))
    ensures Sim(c, s, scopes, flow, b, p, b1, p1)
  {
    forall f: Code, o: Answers, t: seq<Event> | Extends(c, f)
      ensures Meets(f, b, p, o, t, Did(s, o, scopes, flow.scopeIndex), flow, b1, p1)
    {
      hide Reaches, Drop, Waiting, Eval, TempsOf;
      HasExtends(c, f, b, p, ReturnCode(s.result, scopes));
      RunsPieceJump(f, b, p, Given(s.result), false, Drop(Push(scopes, TempsOf(s.result)), 0), Ret, o, t);
      if o == [] {
        MeetsWaiting(f, b, p, t, flow, b1, p1);
      } else {
        var r := Did(s, o, scopes, flow.scopeIndex);
        MeetsBy(f, b, p, o, t, r, flow, b1, p1, Done(o[1..], t + r.ev));
      }
    }
  }

  /** An expression, what is done behind it, and a jump. */
  lemma RunsPieceJump(f: Code, b: nat, p: nat, e: Expr, keep: bool, tail: seq<Event>, i: Instr, o: Answers, t: seq<Event>)
    requires Has(f, b, p, Piece(e, keep, tail) + [i]) && IsTerminator(i)
    ensures o == [] ==> Waiting(f, Run(b, p, o, t))
    ensures p + 1 + |tail| < |f[b]| && f[b][p + 1 + |tail|] == i
    ensures o != [] ==>
      Reaches(f, Run(b, p, o, t), Step(f, Run(b, p + 1 + |tail|, Left(e, keep, o), t + (Eval(e, false, o[0]).ev + tail))))
  {
    hide Reaches, Piece, Eval, Left, Waiting;
    PieceSize(e, keep, tail);
    HasSplit(f, b, p, Piece(e, keep, tail), [i]);
    HasAt(f, b, p + 1 + |tail|, i);
    RunsPiece(f, b, p, e, keep, tail, o, t);
    if o != [] {
      var mid := Run(b, p + 1 + |tail|, Left(e, keep, o), t + (Eval(e, false, o[0]).ev + tail));
      ReachesStep(f, mid);
      ReachesThen(f, Run(b, p, o, t), mid, Step(f, mid));
    }
  }

  // ---- sequences and blocks

  lemma EmptySeqSim(c: Code, scopes: Scopes, flow: Flow, b: nat, p: nat)
    requires scopes != []
    ensures SimSeq(c, [], scopes, flow, b, p, b, p)
  {
    var none: seq<Stmt> := [];
    forall f: Code, o: Answers, t: seq<Event> | Extends(c, f)
      ensures Meets(f, b, p, o, t, DidSeq(none, o, scopes, flow.scopeIndex), flow, b, p)
    {
      ReachesStep(f, Run(b, p, o, t));
      assert t + [] == t;
      MeetsBy(f, b, p, o, t, DidSeq(none, o, scopes, flow.scopeIndex), flow, b, p, Run(b, p, o, t));
    }
  }

  lemma SeqStep(c1: Code, c2: Code, stats: seq<Stmt>, s: Stmt, scopes: Scopes, flow: Flow, b0: nat, p0: nat, b1: nat, p1: nat, b2: nat, p2: nat)
    requires scopes != [] && SimSeq(c1, stats, scopes, flow, b0, p0, b1, p1)
    requires Sim(c2, s, Push(scopes, PushedAll(stats)), flow, b1, p1, b2, p2) && Extends(c1, c2)
    ensures SimSeq(c2, stats + [s], scopes, flow, b0, p0, b2, p2)
  {
    var all, i := stats + [s], flow.scopeIndex;
    assert all[..|all| - 1] == stats && all[|all| - 1] == s;
    forall f: Code, o: Answers, t: seq<Event> | Extends(c2, f)
      ensures Meets(f, b0, p0, o, t, DidSeq(all, o, scopes, i), flow, b2, p2)
    {
      hide Reaches, Did, Push, PushedAll;
      ExtendsThen(c1, c2, f);
      var r := DidSeq(stats, o, scopes, i);
      assert Meets(f, b0, p0, o, t, r, flow, b1, p1);
      if r.out == Normal {
        var r2 := Did(s, r.rest, Push(scopes, PushedAll(stats)), i);
        assert Meets(f, b1, p1, r.rest, t + r.ev, r2, flow, b2, p2);
        MeetsAfter(f, b0, p0, o, t, r.ev, b1, p1, r.rest, r2, flow, b2, p2);
      } else {
        ElsewhereMeets(f, b0, p0, o, t, r, flow, b1, p1, b2, p2);
      }
    }
  }

  /** A block is its statements in a scope of their own. */
  lemma BlockSim(c1: Code, c2: Code, s: Stmt, scopes: Scopes, flow: Flow, b0: nat, p0: nat, b1: nat, p1: nat, p2: nat)
    requires scopes != [] && s.Block? && SimSeq(c1, s.stats, scopes + [[]], flow, b0, p0, b1, p1) && Extends(c1, c2)
    requires if s.terminate then Has(c2, b1, p1, Emit(Dtors(PushedAll(s.stats)))) && p2 == p1 + |PushedAll(s.stats)|
             else p2 == p1
    ensures Sim(c2, s, scopes, flow, b0, p0, b1, p2)
  {
    var ev := Dtors(PushedAll(s.stats));
    forall f: Code, o: Answers, t: seq<Event> | Extends(c2, f)
      ensures Meets(f, b0, p0, o, t, Did(s, o, scopes, flow.scopeIndex), flow, b1, p2)
    {
      hide Reaches, Emit;
      ExtendsThen(c1, c2, f);
      var r := DidSeq(s.stats, o, scopes + [[]], flow.scopeIndex);
      assert Meets(f, b0, p0, o, t, r, flow, b1, p1);
      if s.terminate {
        HasExtends(c2, f, b1, p1, Emit(ev));
        MeetsThen(f, b0, p0, o, t, r, flow, b1, p1, ev);
      }
    }
  }

  // ---- joining code: jumps that are only emitted where control can arrive

  /** Position (b, p) of `c` goes on to block `to`, or lies behind a terminator. */
  ghost predicate GoesTo(c: Code, b: nat, p: nat, to: nat) {
    Has(c, b, p, [Br(to)]) || Dead(c, b, p)
  }

  ghost predicate Dead(c: Code, b: nat, p: nat) {
    b < |c| && 0 < p <= |c[b]| && IsTerminator(c[b][p - 1])
  }

  lemma {:induction false} NeverDead(f: Code, c: Config, n: nat)
    requires c.Run? ==> !Dead(f, c.blk, c.pc)
    ensures Steps(f, c, n).Run? ==> !Dead(f, Steps(f, c, n).blk, Steps(f, c, n).pc)
    decreases n
  {
    if n > 0 {
      NeverDead(f, Step(f, c), n - 1);
    }
  }

  /** A run that gets to the end of code gets to what follows. */
  lemma GoesOn(c: Code, f: Code, b0: nat, o: Answers, t: seq<Event>, b: nat, p: nat, o': Answers, t': seq<Event>, to: nat)
    requires Extends(c, f) && GoesTo(c, b, p, to)
    requires Reaches(f, Run(b0, 0, o, t), Run(b, p, o', t'))
    ensures Reaches(f, Run(b0, 0, o, t), Run(to, 0, o', t'))
  {
    GoesToExtends(c, f, b, p, to);
    var n: nat :| Steps(f, Run(b0, 0, o, t), n) == Run(b, p, o', t');
    NeverDead(f, Run(b0, 0, o, t), n);
    HasAt(f, b, p, Br(to));
    ReachesStep(f, Run(b, p, o', t'));
    ReachesThen(f, Run(b0, 0, o, t), Run(b, p, o', t'), Run(to, 0, o', t'));
  }

  lemma GoesToExtends(c: Code, d: Code, b: nat, p: nat, to: nat)
    requires GoesTo(c, b, p, to) && Extends(c, d)
    ensures GoesTo(d, b, p, to)
  {
    if Has(c, b, p, [Br(to)]) {
      HasExtends(c, d, b, p, [Br(to)]);
    } else {
      assert c[b] <= d[b];
    }
  }

  // ---- branches

  /** A condition, and the branch on it. */
  function CondCode(w: Work, ifTrue: nat, ifFalse: nat): seq<Instr> {
    Piece(w.expr, true, Tail(w)) + [CondBr(ifTrue, ifFalse)]
  }

  lemma RunsCond(f: Code, b: nat, p: nat, w: Work, ifTrue: nat, ifFalse: nat, o: Answers, t: seq<Event>)
    requires Has(f, b, p, CondCode(w, ifTrue, ifFalse))
    ensures o != [] ==> Reaches(f, Run(b, p, o, t), Run(if Holds(w.expr, o[0]) then ifTrue else ifFalse, 0, o[1..], t + Wrote(w, o[0])))
    ensures o == [] ==> Waiting(f, Run(b, p, o, t))
  {
    hide Reaches, Piece, Eval, Tail, Waiting;
    RunsPieceJump(f, b, p, w.expr, true, Tail(w), CondBr(ifTrue, ifFalse), o, t);
    if o != [] {
      assert Left(w.expr, true, o)[1..] == o[1..];
    }
  }

  /** One branch of an if: its code, then wherever the if ends. */
  ghost predicate BranchOk(c: Code, s: Option<Stmt>, scopes: Scopes, flow: Flow, b0: nat, b: nat, p: nat, done: nat)
    requires scopes != []
  {
    && (if s.Some? then Sim(c, s.value, scopes, flow, b0, 0, b, p) else b == b0 && p == 0)
    && GoesTo(c, b, p, done)
  }

  /** Code that goes on to `done` where it ends. */
  lemma MeetsJoin(c: Code, f: Code, b0: nat, o: Answers, t: seq<Event>, r: Ran, flow: Flow, b: nat, p: nat, done: nat)
    requires Extends(c, f) && GoesTo(c, b, p, done) && Meets(f, b0, 0, o, t, r, flow, b, p)
    ensures Meets(f, b0, 0, o, t, r, flow, done, 0)
  {
    hide Reaches, GoesTo;
    if r.out == Normal {
      GoesOn(c, f, b0, o, t, b, p, r.rest, t + r.ev, done);
      MeetsBy(f, b0, 0, o, t, r, flow, done, 0, Run(done, 0, r.rest, t + r.ev));
    } else {
      ElsewhereMeets(f, b0, 0, o, t, r, flow, b, p, done, 0);
    }
  }

  lemma BranchMeets(c: Code, f: Code, s: Option<Stmt>, scopes: Scopes, flow: Flow, b0: nat, b: nat, p: nat, done: nat, o: Answers, t: seq<Event>)
    requires scopes != [] && Extends(c, f) && BranchOk(c, s, scopes, flow, b0, b, p, done)
    ensures Meets(f, b0, 0, o, t, if s.Some? then Did(s.value, o, scopes, flow.scopeIndex) else Ran([], Normal, o), flow, done, 0)
  {
    hide Reaches;
    var r := if s.Some? then Did(s.value, o, scopes, flow.scopeIndex) else Ran([], Normal, o);
    if s.None? {
      ReachesStep(f, Run(b0, 0, o, t));
      assert t + [] == t;
      MeetsBy(f, b0, 0, o, t, r, flow, b, p, Run(b0, 0, o, t));
    } else {
      assert Meets(f, b0, 0, o, t, r, flow, b, p);
    }
    MeetsJoin(c, f, b0, o, t, r, flow, b, p, done);
  }

  lemma IfSim(c: Code, s: Stmt, scopes: Scopes, flow: Flow, b0: nat, p0: nat,
              troo: nat, b1: nat, p1: nat, fols: nat, b2: nat, p2: nat, done: nat)
    requires scopes != [] && s.If?
    requires Has(c, b0, p0, CondCode(Condition(s.cond), troo, fols))
    requires BranchOk(c, Some(s.body), scopes, flow, troo, b1, p1, done)
    requires BranchOk(c, s.elseBody, Push(scopes, Pushed(s.body)), flow, fols, b2, p2, done)
    ensures Sim(c, s, scopes, flow, b0, p0, done, 0)
  {
    var i, w := flow.scopeIndex, Condition(s.cond);
    forall f: Code, o: Answers, t: seq<Event> | Extends(c, f)
      ensures Meets(f, b0, p0, o, t, Did(s, o, scopes, i), flow, done, 0)
    {
      hide Reaches, Wrote, CondCode, BranchOk, Holds, Waiting;
      HasExtends(c, f, b0, p0, CondCode(w, troo, fols));
      RunsCond(f, b0, p0, w, troo, fols, o, t);
      if o == [] {
        MeetsWaiting(f, b0, p0, t, flow, done, 0);
      } else if Holds(s.cond, o[0]) {
        var ev := Wrote(w, o[0]);
        BranchMeets(c, f, Some(s.body), scopes, flow, troo, b1, p1, done, o[1..], t + ev);
        MeetsAfter(f, b0, p0, o, t, ev, troo, 0, o[1..], Did(s.body, o[1..], scopes, i), flow, done, 0);
      } else {
        var ev, outer := Wrote(w, o[0]), Push(scopes, Pushed(s.body));
        var r := if s.elseBody.Some? then Did(s.elseBody.value, o[1..], outer, i) else Ran([], Normal, o[1..]);
        BranchMeets(c, f, s.elseBody, outer, flow, fols, b2, p2, done, o[1..], t + ev);
        MeetsAfter(f, b0, p0, o, t, ev, fols, 0, o[1..], r, flow, done, 0);
      }
    }
  }

  /** Code that ends behind a terminator belongs to a statement that does not end. */
  lemma DeadEnd(c: Code, s: Stmt, scopes: Scopes, flow: Flow, b0: nat, b: nat, p: nat, o: Answers)
    requires scopes != [] && Sim(c, s, scopes, flow, b0, 0, b, p) && Dead(c, b, p)
    ensures Did(s, o, scopes, flow.scopeIndex).out != Normal
  {
    var r := Did(s, o, scopes, flow.scopeIndex);
    if r.out == Normal {
      assert Meets(c, b0, 0, o, [], r, flow, b, p);
      var n: nat :| Steps(c, Run(b0, 0, o, []), n) == Run(b, p, r.rest, [] + r.ev);
      NeverDead(c, Run(b0, 0, o, []), n);
    }
  }

  /** An if whose branches both end behind a terminator never gets to its end. */
  lemma DeadIfSim(c: Code, s: Stmt, scopes: Scopes, flow: Flow, b0: nat, p0: nat,
                  troo: nat, b1: nat, p1: nat, fols: nat, b2: nat, p2: nat, b: nat, p: nat)
    requires scopes != [] && s.If? && s.elseBody.Some?
    requires Has(c, b0, p0, CondCode(Condition(s.cond), troo, fols))
    requires Sim(c, s.body, scopes, flow, troo, 0, b1, p1) && Dead(c, b1, p1)
    requires Sim(c, s.elseBody.value, Push(scopes, Pushed(s.body)), flow, fols, 0, b2, p2) && Dead(c, b2, p2)
    ensures Sim(c, s, scopes, flow, b0, p0, b, p)
  {
    IfSim(c, s, scopes, flow, b0, p0, troo, b1, p1, fols, b2, p2, b);
    forall f: Code, o: Answers, t: seq<Event> | Extends(c, f)
      ensures Meets(f, b0, p0, o, t, Did(s, o, scopes, flow.scopeIndex), flow, b, p)
    {
      assert Meets(f, b0, p0, o, t, Did(s, o, scopes, flow.scopeIndex), flow, b, 0);
      if o != [] {
        DeadEnd(c, s.body, scopes, flow, troo, b1, p1, o[1..]);
        DeadEnd(c, s.elseBody.value, Push(scopes, Pushed(s.body)), flow, fols, b2, p2, o[1..]);
      }
      ElsewhereMeets(f, b0, p0, o, t, Did(s, o, scopes, flow.scopeIndex), flow, b, 0, b, p);
    }
  }

  // ---- loops

  /** The blocks of a loop in final code; the last of `scopes` is that of the body. */
  ghost predicate LoopOk(c: Code, cond: Expr, body: Stmt, incr: Option<Simple>, scopes: Scopes,
                         condB: nat, bodyB: nat, b: nat, p: nat, contB: nat, doneB: nat)
    requires scopes != []
  {
    && Has(c, condB, 0, CondCode(Condition(cond), bodyB, doneB))
    && Sim(c, body, scopes, Flow(Some(doneB), Some(contB), |scopes| - 1), bodyB, 0, b, p)
    && GoesTo(c, b, p, contB)
    && (if contB == condB then incr.None? else Has(c, contB, 0, OptCode(incr) + [Br(condB)]))
  }

  /** From the end of a turn back to the condition. */
  lemma RunsIncr(c: Code, f: Code, incr: Option<Simple>, condB: nat, contB: nat, o: Answers, t: seq<Event>)
    requires if contB == condB then incr.None? else Has(c, contB, 0, OptCode(incr) + [Br(condB)])
    requires Extends(c, f)
    ensures var i := OptRun(incr, o, true);
      if i.out == Normal then Reaches(f, Run(contB, 0, o, t), Run(condB, 0, i.rest, t + i.ev))
      else Waiting(f, Run(contB, 0, o, t)) && t + i.ev == t
  {
    hide Reaches, OptCode, Waiting;
    if contB == condB {
      assert t + [] == t;
      ReachesStep(f, Run(contB, 0, o, t));
    } else {
      hide OptRun;
      HasExtends(c, f, contB, 0, OptCode(incr) + [Br(condB)]);
      HasSplit(f, contB, 0, OptCode(incr), [Br(condB)]);
      HasAt(f, contB, |OptCode(incr)|, Br(condB));
      RunsOpt(f, contB, 0, incr, o, t);
      var i := OptRun(incr, o, true);
      if i.out == Normal {
        var mid := Run(contB, |OptCode(incr)|, i.rest, t + i.ev);
        ReachesStep(f, mid);
        ReachesThen(f, Run(contB, 0, o, t), mid, Run(condB, 0, i.rest, t + i.ev));
      }
    }
  }

  /** A body that goes on brings the run to what is done between turns, one that breaks
      to the end of the loop. */
  lemma BodyMeets(c: Code, f: Code, cond: Expr, body: Stmt, incr: Option<Simple>, scopes: Scopes, flow: Flow,
                  condB: nat, bodyB: nat, b: nat, p: nat, contB: nat, doneB: nat, o: Answers, t: seq<Event>)
    requires scopes != [] && Extends(c, f) && LoopOk(c, cond, body, incr, scopes, condB, bodyB, b, p, contB, doneB)
    ensures var r := Did(body, o, scopes, |scopes| - 1);
            && (r.out.Normal? || r.out.Continues? ==> Reaches(f, Run(bodyB, 0, o, t), Run(contB, 0, r.rest, t + r.ev)))
            && (r.out.Breaks? ==> Reaches(f, Run(bodyB, 0, o, t), Run(doneB, 0, r.rest, t + r.ev)))
            && (r.out.Returns? || r.out.Pending? || r.out.Stuck? ==> Meets(f, bodyB, 0, o, t, r, flow, doneB, 0))
  {
    hide Reaches, CondCode, OptCode;
    var r, inner := Did(body, o, scopes, |scopes| - 1), Flow(Some(doneB), Some(contB), |scopes| - 1);
    assert Meets(f, bodyB, 0, o, t, r, inner, b, p);
    MeetsJoin(c, f, bodyB, o, t, r, inner, b, p, contB);
    if !r.out.Normal? && !r.out.Continues? && !r.out.Breaks? {
      OutwardMeets(f, bodyB, 0, o, t, r, inner, flow, contB, 0, doneB, 0);
    }
  }

  lemma {:induction false} LoopMeets(c: Code, f: Code, cond: Expr, body: Stmt, incr: Option<Simple>, scopes: Scopes, flow: Flow,
                  condB: nat, bodyB: nat, b: nat, p: nat, contB: nat, doneB: nat, o: Answers, t: seq<Event>)
    requires scopes != [] && Extends(c, f) && LoopOk(c, cond, body, incr, scopes, condB, bodyB, b, p, contB, doneB)
    ensures Meets(f, condB, 0, o, t, DidLoop(cond, body, incr, o, scopes), flow, doneB, 0)
    decreases |o|, 1
  {
    hide Reaches, Wrote, CondCode, Did, Sim, GoesTo, Holds, Waiting, NextTurn, OptCode;
    var w, start := Condition(cond), Run(condB, 0, o, t);
    HasExtends(c, f, condB, 0, CondCode(w, bodyB, doneB));
    RunsCond(f, condB, 0, w, bodyB, doneB, o, t);
    var whole := DidLoop(cond, body, incr, o, scopes);
    if o == [] {
      MeetsWaiting(f, condB, 0, t, flow, doneB, 0);
    } else if !Holds(cond, o[0]) {
      MeetsBy(f, condB, 0, o, t, whole, flow, doneB, 0, Run(doneB, 0, o[1..], t + Wrote(w, o[0])));
    } else {
      var ev := Wrote(w, o[0]);
      BodyMeets(c, f, cond, body, incr, scopes, flow, condB, bodyB, b, p, contB, doneB, o[1..], t + ev);
      var r := Did(body, o[1..], scopes, |scopes| - 1);
      assert t + ev + r.ev == t + (ev + r.ev);
      if r.out.Breaks? {
        ReachesThen(f, start, Run(bodyB, 0, o[1..], t + ev), Run(doneB, 0, r.rest, t + (ev + r.ev)));
        MeetsBy(f, condB, 0, o, t, whole, flow, doneB, 0, Run(doneB, 0, r.rest, t + (ev + r.ev)));
      } else if r.out.Normal? || r.out.Continues? {
        ReachesThen(f, start, Run(bodyB, 0, o[1..], t + ev), Run(contB, 0, r.rest, t + (ev + r.ev)));
        TurnMeets(c, f, cond, body, incr, scopes, flow, condB, bodyB, b, p, contB, doneB, o, t, r.(ev := ev + r.ev));
      } else {
        MeetsAfter(f, condB, 0, o, t, ev, bodyB, 0, o[1..], r, flow, doneB, 0);
      }
    }
  }

  /** What follows a turn. */
  lemma TurnMeets(c: Code, f: Code, cond: Expr, body: Stmt, incr: Option<Simple>, scopes: Scopes, flow: Flow,
                  condB: nat, bodyB: nat, b: nat, p: nat, contB: nat, doneB: nat, o: Answers, t: seq<Event>, turn: Ran)
    requires scopes != [] && Extends(c, f) && LoopOk(c, cond, body, incr, scopes, condB, bodyB, b, p, contB, doneB)
    requires |turn.rest| < |o| && Reaches(f, Run(condB, 0, o, t), Run(contB, 0, turn.rest, t + turn.ev))
    ensures Meets(f, condB, 0, o, t, NextTurn(cond, body, incr, turn, scopes), flow, doneB, 0)
    decreases |o|, 0
  {
    hide Reaches, CondCode, Sim, GoesTo, Waiting, DidLoop, OptCode, OptRun;
    var start, mid, i := Run(condB, 0, o, t), Run(contB, 0, turn.rest, t + turn.ev), OptRun(incr, turn.rest, true);
    RunsIncr(c, f, incr, condB, contB, turn.rest, t + turn.ev);
    assert t + turn.ev + i.ev == t + (turn.ev + i.ev);
    if i.out == Normal {
      ReachesThen(f, start, mid, Run(condB, 0, i.rest, t + (turn.ev + i.ev)));
      LoopMeets(c, f, cond, body, incr, scopes, flow, condB, bodyB, b, p, contB, doneB, i.rest, t + (turn.ev + i.ev));
      MeetsAfter(f, condB, 0, o, t, turn.ev + i.ev, condB, 0, i.rest, DidLoop(cond, body, incr, i.rest, scopes), flow, doneB, 0);
    } else {
      MeetsBy(f, condB, 0, o, t, NextTurn(cond, body, incr, turn, scopes), flow, doneB, 0, mid);
    }
  }

  // ---- switches

  /** The check block of a case that has a test: the default case takes none, so
      the cases behind it move up by one. */
  function CheckIndex(cases: seq<Case>, k: nat): (i: nat)
    requires k < |cases|
    ensures i < |cases|
  {
    if DefaultIndex(cases) < k then k - 1 else k
  }

  function NextCheck(cases: seq<Case>, k: nat, checks: seq<nat>, done: nat): nat
    requires k < |cases| == |checks| && cases[k].test.Some?
    requires forall c: nat :: DefaultIndex(cases) < c < |cases| ==> cases[c].test.Some?
  {
    if DefaultIndex(cases) >= k && k == |cases| - 1 then done else checks[CheckIndex(cases, k) + 1]
  }

  /** Where the testing of case `k` and those behind it starts. */
  function Entry(cases: seq<Case>, k: nat, checks: seq<nat>, done: nat): nat
    requires k <= |cases| == |checks| && |cases| > 0
    decreases |cases| - k
  {
    if k == |cases| then (if DefaultIndex(cases) < |cases| then checks[|cases| - 1] else done)
    else if cases[k].test.None? then Entry(cases, k + 1, checks, done)
    else checks[CheckIndex(cases, k)]
  }

  /** The index arithmetic joins the check blocks to one chain. */
  lemma ChainIsLinked(cases: seq<Case>, k: nat, checks: seq<nat>, done: nat)
    requires |cases| == |checks| && |cases| > 0 && k < |cases|
    requires forall c: nat :: DefaultIndex(cases) < c < |cases| ==> cases[c].test.Some?
    ensures cases[k].test.Some? ==> NextCheck(cases, k, checks, done) == Entry(cases, k + 1, checks, done)
    ensures Entry(cases, 0, checks, done) == checks[0]
  {
    if k + 1 < |cases| && cases[k + 1].test.None? && k + 2 < |cases| {
      assert cases[k + 2].test.Some?;
    }
    if cases[0].test.None? && 1 < |cases| {
      assert cases[1].test.Some?;
    }
  }

  function CheckCode(cases: seq<Case>, k: nat, checks: seq<nat>, bodies: seq<nat>, done: nat): seq<Instr>
    requires k < |cases| == |checks| == |bodies| && cases[k].test.Some?
    requires forall c: nat :: DefaultIndex(cases) < c < |cases| ==> cases[c].test.Some?
  {
    CondCode(CaseTest(cases[k].test.value), bodies[k], NextCheck(cases, k, checks, done))
  }

  /** Every check block holds the test of one case and one branch, except that the
      last one goes to the default case if there is one. */
  ghost predicate ChecksOk(c: Code, cases: seq<Case>, checks: seq<nat>, bodies: seq<nat>, done: nat)
    requires |cases| == |checks| == |bodies|
    requires forall k: nat :: DefaultIndex(cases) < k < |cases| ==> cases[k].test.Some?
  {
    && (forall k: nat :: k < |cases| ==> checks[k] < |c|)
    && (forall k: nat :: k < |cases| && cases[k].test.Some? ==>
          c[checks[CheckIndex(cases, k)]] == CheckCode(cases, k, checks, bodies, done))
    && (DefaultIndex(cases) < |cases| ==> c[checks[|cases| - 1]] == [Br(bodies[DefaultIndex(cases)])])
  }

  /** A block that ends with its only terminator. */
  ghost predicate OneTerminator(code: seq<Instr>) {
    code != [] && IsTerminator(code[|code| - 1]) && forall i: nat :: i < |code| - 1 ==> !IsTerminator(code[i])
  }

  lemma CheckCodeCloses(cases: seq<Case>, k: nat, checks: seq<nat>, bodies: seq<nat>, done: nat)
    requires k < |cases| == |checks| == |bodies| && cases[k].test.Some?
    requires forall c: nat :: DefaultIndex(cases) < c < |cases| ==> cases[c].test.Some?
    ensures OneTerminator(CheckCode(cases, k, checks, bodies, done))
  {
    hide Tail;
  }

  /** No check block is left out by the index arithmetic, and none is closed twice. */
  lemma ChecksTerminated(c: Code, cases: seq<Case>, checks: seq<nat>, bodies: seq<nat>, done: nat, i: nat)
    requires |cases| == |checks| == |bodies| && i < |checks|
    requires forall k: nat :: DefaultIndex(cases) < k < |cases| ==> cases[k].test.Some?
    requires ChecksOk(c, cases, checks, bodies, done)
    ensures OneTerminator(c[checks[i]])
  {
    hide CheckCode;
    var k := if i < DefaultIndex(cases) then i else i + 1;
    if k < |cases| {
      CheckCodeCloses(cases, k, checks, bodies, done);
      assert CheckIndex(cases, k) == i;
      assert c[checks[CheckIndex(cases, k)]] == CheckCode(cases, k, checks, bodies, done);
    }
  }

  /** The chain of checks reaches the first case whose test succeeds, else the
      default case, else the end of the switch. */
  lemma {:induction false} DispatchRuns(c: Code, f: Code, cases: seq<Case>, checks: seq<nat>, bodies: seq<nat>, done: nat, k: nat,
                     o: Answers, t: seq<Event>)
    requires |cases| == |checks| == |bodies| && |cases| > 0 && k <= |cases|
    requires forall c: nat :: DefaultIndex(cases) < c < |cases| ==> cases[c].test.Some?
    requires ChecksOk(c, cases, checks, bodies, done) && Extends(c, f)
    ensures var d := Dispatch(cases, k, o, true); var start := Run(Entry(cases, k, checks, done), 0, o, t);
            && (d.out != Pending ==>
                  Reaches(f, start, Run(if d.target < |cases| then bodies[d.target] else done, 0, d.rest, t + d.ev)))
            && (d.out == Pending ==> exists c': Config :: Reaches(f, start, c') && Waiting(f, c') && c'.trace == t + d.ev)
    decreases |cases| - k
  {
    hide Wrote, Emit, Reaches, Steps, ChecksOk, CheckIndex, Extends, CheckCode, Holds, Waiting;
    var d := Dispatch(cases, k, o, true);
    var start := Run(Entry(cases, k, checks, done), 0, o, t);
    if k == |cases| {
      assert t + [] == t;
      ChainEnds(c, f, cases, checks, bodies, done, o, t);
    } else if cases[k].test.None? {
      DispatchRuns(c, f, cases, checks, bodies, done, k + 1, o, t);
    } else {
      CheckRuns(c, f, cases, checks, bodies, done, k, o, t);
      if o == [] {
        assert t + [] == t;
        ReachesStep(f, start);
      } else if !Holds(Given(cases[k].test.value), o[0]) {
        var ev, next := Wrote(CaseTest(cases[k].test.value), o[0]), Entry(cases, k + 1, checks, done);
        DispatchRuns(c, f, cases, checks, bodies, done, k + 1, o[1..], t + ev);
        var d' := Dispatch(cases, k + 1, o[1..], true);
        assert t + ev + d'.ev == t + d.ev;
        var mid := Run(next, 0, o[1..], t + ev);
        if d.out != Pending {
          ReachesThen(f, start, mid, Run(if d.target < |cases| then bodies[d.target] else done, 0, d.rest, t + d.ev));
        } else {
          var c': Config :| Reaches(f, mid, c') && Waiting(f, c') && c'.trace == t + ev + d'.ev;
          ReachesThen(f, start, mid, c');
        }
      }
    }
  }

  lemma ChainEnds(c: Code, f: Code, cases: seq<Case>, checks: seq<nat>, bodies: seq<nat>, done: nat, o: Answers, t: seq<Event>)
    requires |cases| == |checks| == |bodies| && |cases| > 0
    requires forall c: nat :: DefaultIndex(cases) < c < |cases| ==> cases[c].test.Some?
    requires ChecksOk(c, cases, checks, bodies, done) && Extends(c, f)
    ensures var d := DefaultIndex(cases);
            Reaches(f, Run(Entry(cases, |cases|, checks, done), 0, o, t), Run(if d < |cases| then bodies[d] else done, 0, o, t))
  {
    hide CheckCode;
    ReachesStep(f, Run(Entry(cases, |cases|, checks, done), 0, o, t));
    if DefaultIndex(cases) < |cases| {
      assert c[checks[|cases| - 1]] <= f[checks[|cases| - 1]];
    }
  }

  lemma CheckRuns(c: Code, f: Code, cases: seq<Case>, checks: seq<nat>, bodies: seq<nat>, done: nat, k: nat, o: Answers, t: seq<Event>)
    requires |cases| == |checks| == |bodies| && k < |cases| && cases[k].test.Some?
    requires forall c: nat :: DefaultIndex(cases) < c < |cases| ==> cases[c].test.Some?
    requires ChecksOk(c, cases, checks, bodies, done) && Extends(c, f)
    ensures var start, test := Run(Entry(cases, k, checks, done), 0, o, t), cases[k].test.value;
            && (o != [] ==> Reaches(f, start, Run(if Holds(Given(test), o[0]) then bodies[k] else Entry(cases, k + 1, checks, done),
                                                  0, o[1..], t + Wrote(CaseTest(test), o[0]))))
            && (o == [] ==> Waiting(f, start))
  {
    hide Wrote, CondCode, Reaches, Steps, Holds, Waiting;
    var w, b, next := CaseTest(cases[k].test.value), checks[CheckIndex(cases, k)], Entry(cases, k + 1, checks, done);
    ChainIsLinked(cases, k, checks, done);
    WholeBlock(c, f, b, CondCode(w, bodies[k], next));
    RunsCond(f, b, 0, w, bodies[k], next, o, t);
  }

  lemma WholeBlock(c: Code, f: Code, b: nat, code: seq<Instr>)
    requires b < |c| && c[b] == code && Extends(c, f)
    ensures Has(f, b, 0, code)
  {
    assert c[b] <= f[b];
  }

  function CaseFlow(bodies: seq<nat>, done: nat, k: nat, index: nat): Flow {
    Flow(Some(done), if k + 1 < |bodies| then Some(bodies[k + 1]) else None, index)
  }

  /** The body of a case: its code, then the end of the switch. */
  ghost predicate CaseOk(c: Code, body: Stmt, scopes: Scopes, bodies: seq<nat>, done: nat, k: nat)
    requires k < |bodies|
  {
    exists b: nat, p: nat ::
      Sim(c, body, scopes + [[]], CaseFlow(bodies, done, k, |scopes|), bodies[k], 0, b, p) && GoesTo(c, b, p, done)
  }

  lemma {:induction false} CasesMeet(c: Code, f: Code, s: Stmt, scopes: Scopes, flow: Flow, bodies: seq<nat>, done: nat, k: nat, o: Answers, t: seq<Event>)
    requires s.Switch? && k < |s.cases| == |bodies|
    requires forall j: nat :: j < |bodies| ==> CaseOk(c, s.cases[j].cbody, scopes, bodies, done, j)
    requires Extends(c, f)
    ensures Meets(f, bodies[k], 0, o, t, DidCases(s, k, o, scopes), flow, done, 0)
    decreases |s.cases| - k
  {
    hide Reaches, GoesTo, Did;
    var body, inner := s.cases[k].cbody, CaseFlow(bodies, done, k, |scopes|);
    var r, whole := Did(body, o, scopes + [[]], |scopes|), DidCases(s, k, o, scopes);
    assert CaseOk(c, body, scopes, bodies, done, k);
    var b: nat, p: nat :| Sim(c, body, scopes + [[]], inner, bodies[k], 0, b, p) && GoesTo(c, b, p, done);
    assert Meets(f, bodies[k], 0, o, t, r, inner, b, p);
    MeetsJoin(c, f, bodies[k], o, t, r, inner, b, p, done);
    match r.out
    case Normal => MeetsBy(f, bodies[k], 0, o, t, whole, flow, done, 0, Run(done, 0, r.rest, t + r.ev));
    case Breaks => MeetsBy(f, bodies[k], 0, o, t, whole, flow, done, 0, Run(done, 0, r.rest, t + r.ev));
    case Continues =>
      CasesMeet(c, f, s, scopes, flow, bodies, done, k + 1, r.rest, t + r.ev);
      MeetsAfter(f, bodies[k], 0, o, t, r.ev, bodies[k + 1], 0, r.rest, DidCases(s, k + 1, r.rest, scopes), flow, done, 0);
    case _ => OutwardMeets(f, bodies[k], 0, o, t, r, inner, flow, done, 0, done, 0);
  }

  /** From the first check on, a switch does what the tests say, then what the case
      says. */
  lemma ChecksMeet(c: Code, f: Code, s: Stmt, scopes: Scopes, flow: Flow, checks: seq<nat>, bodies: seq<nat>, done: nat, o: Answers, t: seq<Event>)
    requires s.Switch? && |s.cases| == |checks| == |bodies| > 0 && Legal(s, false, false)
    requires ChecksOk(c, s.cases, checks, bodies, done) && Extends(c, f)
    requires forall j: nat :: j < |bodies| ==> CaseOk(c, s.cases[j].cbody, scopes, bodies, done, j)
    ensures Meets(f, checks[0], 0, o, t, Inside(s, o, scopes), flow, done, 0)
  {
    hide Reaches, ChecksOk, CaseOk, DidCases, Dispatch, DefaultIndex;
    var d := Dispatch(s.cases, 0, o, true);
    ChainStarts(s, checks, done);
    DispatchRuns(c, f, s.cases, checks, bodies, done, 0, o, t);
    DispatchOut(s.cases, 0, o, true);
    var start := Run(checks[0], 0, o, t);
    if d.out == Pending {
      var c': Config :| Reaches(f, start, c') && Waiting(f, c') && c'.trace == t + d.ev;
      assert d.ev + [] == d.ev;
      MeetsBy(f, checks[0], 0, o, t, Inside(s, o, scopes), flow, done, 0, c');
    } else if d.target < |s.cases| {
      CasesMeet(c, f, s, scopes, flow, bodies, done, d.target, d.rest, t + d.ev);
      MeetsAfter(f, checks[0], 0, o, t, d.ev, bodies[d.target], 0, d.rest, DidCases(s, d.target, d.rest, scopes), flow, done, 0);
    } else {
      assert d.ev + [] == d.ev;
      MeetsBy(f, checks[0], 0, o, t, Inside(s, o, scopes), flow, done, 0, Run(done, 0, d.rest, t + d.ev));
    }
  }

  lemma ChainStarts(s: Stmt, checks: seq<nat>, done: nat)
    requires s.Switch? && |s.cases| == |checks| > 0 && Legal(s, false, false)
    ensures Entry(s.cases, 0, checks, done) == checks[0]
    ensures forall c: nat :: DefaultIndex(s.cases) < c < |s.cases| ==> s.cases[c].test.Some?
  {
    ChainIsLinked(s.cases, 0, checks, done);
  }

  /** The value of a switch. */
  function ValueCode(expr: Expr): seq<Instr> {
    Piece(Given(expr), false, [Act])
  }

  lemma SwitchSim(c: Code, s: Stmt, scopes: Scopes, flow: Flow, b0: nat, p0: nat, checks: seq<nat>, bodies: seq<nat>, done: nat, p: nat)
    requires scopes != [] && s.Switch? && |s.cases| == |checks| == |bodies| > 0 && Legal(s, false, false)
    requires Has(c, b0, p0, ValueCode(s.expr) + [Br(checks[0])])
    requires ChecksOk(c, s.cases, checks, bodies, done)
    requires forall j: nat :: j < |bodies| ==> CaseOk(c, s.cases[j].cbody, scopes + [TempsOf(s.expr)], bodies, done, j)
    requires if s.alwaysReturns then Has(c, done, 0, [Unreachable]) else Has(c, done, 0, Emit(Dtors(TempsOf(s.expr)))) && p == |TempsOf(s.expr)|
    ensures Sim(c, s, scopes, flow, b0, p0, done, p)
  {
    var objs := TempsOf(s.expr);
    forall f: Code, o: Answers, t: seq<Event> | Extends(c, f)
      ensures Meets(f, b0, p0, o, t, Did(s, o, scopes, flow.scopeIndex), flow, done, p)
    {
      hide Reaches, Emit, ChecksOk, CaseOk, Has, Extends, Inside, Value, ValueCode, TempsOf, Waiting, Dispatch, DidCases;
      HasExtends(c, f, b0, p0, ValueCode(s.expr) + [Br(checks[0])]);
      RunsValue(f, b0, p0, s.expr, checks[0], o, t);
      if o == [] {
        MeetsWaiting(f, b0, p0, t, flow, done, p);
      } else {
        var r, v := Inside(s, o[1..], scopes + [objs]), Value(s.expr, o[0]);
        ChecksMeet(c, f, s, scopes + [objs], flow, checks, bodies, done, o[1..], t + v);
        MeetsAfter(f, b0, p0, o, t, v, checks[0], 0, o[1..], r, flow, done, 0);
        SwitchParts(s, o, scopes, flow.scopeIndex);
        var r1 := r.(ev := v + r.ev);
        if s.alwaysReturns {
          HasExtends(c, f, done, 0, [Unreachable]);
          MeetsUnreachable(f, b0, p0, o, t, r1, flow, done, p);
        } else {
          HasExtends(c, f, done, 0, Emit(Dtors(objs)));
          MeetsThen(f, b0, p0, o, t, r1, flow, done, 0, Dtors(objs));
        }
      }
    }
  }

  lemma RunsValue(f: Code, b: nat, p: nat, expr: Expr, to: nat, o: Answers, t: seq<Event>)
    requires Has(f, b, p, ValueCode(expr) + [Br(to)])
    ensures o == [] ==> Waiting(f, Run(b, p, o, t))
    ensures o != [] ==> Reaches(f, Run(b, p, o, t), Run(to, 0, o[1..], t + Value(expr, o[0])))
  {
    hide Reaches, Piece, Eval, Waiting;
    RunsPieceJump(f, b, p, Given(expr), false, [Act], Br(to), o, t);
  }

  lemma MeetsUnreachable(f: Code, b0: nat, p0: nat, o: Answers, t: seq<Event>, r: Ran, flow: Flow, b: nat, p: nat)
    requires Meets(f, b0, p0, o, t, r, flow, b, 0) && Has(f, b, 0, [Unreachable])
    ensures Meets(f, b0, p0, o, t, if r.out == Normal then r.(out := Stuck) else r, flow, b, p)
  {
    hide Reaches;
    HasAt(f, b, 0, Unreachable);
    if r.out == Normal {
      MeetsBy(f, b0, p0, o, t, r.(out := Stuck), flow, b, p, Run(b, 0, r.rest, t + r.ev));
    } else {
      ElsewhereMeets(f, b0, p0, o, t, r, flow, b, 0, b, p);
    }
  }

  /** A switch without cases only evaluates its value. */
  lemma EmptySwitchSim(c: Code, s: Stmt, scopes: Scopes, flow: Flow, b: nat, p0: nat, p: nat)
    requires scopes != [] && s.Switch? && s.cases == []
    requires var tail := [Act] + Dtors(TempsOf(s.expr)); Has(c, b, p0, Piece(Given(s.expr), false, tail)) && p == p0 + 1 + |tail|
    ensures Sim(c, s, scopes, flow, b, p0, b, p)
  {
    var objs := TempsOf(s.expr);
    var tail := [Act] + Dtors(objs);
    forall f: Code, o: Answers, t: seq<Event> | Extends(c, f)
      ensures Meets(f, b, p0, o, t, Did(s, o, scopes, flow.scopeIndex), flow, b, p)
    {
      hide Reaches, Eval, Piece, TempsOf, Waiting, Dtors;
      HasExtends(c, f, b, p0, Piece(Given(s.expr), false, tail));
      RunsPiece(f, b, p0, Given(s.expr), false, tail, o, t);
      if o == [] {
        MeetsWaiting(f, b, p0, t, flow, b, p);
      } else {
        var g := Eval(Given(s.expr), false, o[0]).ev;
        assert g + [Act] + [] + [] + Dtors(objs) == g + tail;
        MeetsBy(f, b, p0, o, t, Did(s, o, scopes, flow.scopeIndex), flow, b, p, Run(b, p, o[1..], t + (g + tail)));
      }
    }
  }

  // ---- whole loops

  /** Into the block of the condition, if that is another one. */
  lemma EntersLoop(c: Code, f: Code, b0: nat, p0: nat, condB: nat, o: Answers, t: seq<Event>)
    requires Has(c, b0, p0, [Br(condB)]) || (b0 == condB && p0 == 0)
    requires Extends(c, f)
    ensures Reaches(f, Run(b0, p0, o, t), Run(condB, 0, o, t))
  {
    ReachesStep(f, Run(b0, p0, o, t));
    if b0 != condB || p0 != 0 {
      HasExtends(c, f, b0, p0, [Br(condB)]);
      HasAt(f, b0, p0, Br(condB));
    }
  }

  lemma WhileSim(c: Code, s: Stmt, scopes: Scopes, flow: Flow, b0: nat, p0: nat, condB: nat, bodyB: nat, b: nat, p: nat, doneB: nat)
    requires scopes != [] && s.While?
    requires Has(c, b0, p0, [Br(condB)]) || (b0 == condB && p0 == 0)
    requires LoopOk(c, s.wcond, s.wbody, None, scopes + [[]], condB, bodyB, b, p, condB, doneB)
    ensures Sim(c, s, scopes, flow, b0, p0, doneB, 0)
  {
    forall f: Code, o: Answers, t: seq<Event> | Extends(c, f)
      ensures Meets(f, b0, p0, o, t, Did(s, o, scopes, flow.scopeIndex), flow, doneB, 0)
    {
      hide Reaches, LoopOk, DidLoop, Has;
      EntersLoop(c, f, b0, p0, condB, o, t);
      assert t + [] == t;
      LoopMeets(c, f, s.wcond, s.wbody, None, scopes + [[]], flow, condB, bodyB, b, p, condB, doneB, o, t);
      var r := DidLoop(s.wcond, s.wbody, None, o, scopes + [[]]);
      MeetsAfter(f, b0, p0, o, t, [], condB, 0, o, r, flow, doneB, 0);
      assert [] + r.ev == r.ev;
    }
  }

  lemma ForSim(c: Code, s: Stmt, scopes: Scopes, flow: Flow, b0: nat, p0: nat, p1: nat, condB: nat, bodyB: nat, b: nat, p: nat, incrB: nat, doneB: nat, p2: nat)
    requires scopes != [] && s.For?
    requires Has(c, b0, p0, OptCode(s.init)) && p1 == p0 + |OptCode(s.init)|
    requires Has(c, b0, p1, [Br(condB)]) || (b0 == condB && p1 == 0)
    requires condB != incrB && LoopOk(c, s.fcond, s.fbody, s.incr, scopes + [OptLocals(s.init), []], condB, bodyB, b, p, incrB, doneB)
    requires var objs := OptLocals(s.init) + OptLocals(s.incr); Has(c, doneB, 0, Emit(Dtors(objs))) && p2 == |objs|
    ensures Sim(c, s, scopes, flow, b0, p0, doneB, p2)
  {
    var objs, inner := OptLocals(s.init) + OptLocals(s.incr), scopes + [OptLocals(s.init), []];
    forall f: Code, o: Answers, t: seq<Event> | Extends(c, f)
      ensures Meets(f, b0, p0, o, t, Did(s, o, scopes, flow.scopeIndex), flow, doneB, p2)
    {
      hide Reaches, LoopOk, Did, DidLoop, Has, OptRun, OptCode, OptLocals, Emit, Waiting;
      var first := OptRun(s.init, o, true);
      ForIs(s, o, scopes, flow.scopeIndex);
      HasExtends(c, f, b0, p0, OptCode(s.init));
      RunsOpt(f, b0, p0, s.init, o, t);
      if first.out != Normal {
        MeetsOpt(f, b0, p0, s.init, o, t, flow, p1);
        ElsewhereMeets(f, b0, p0, o, t, Ran(first.ev, first.out, first.rest), flow, b0, p1, doneB, p2);
      } else {
        var ev, r := first.ev, DidLoop(s.fcond, s.fbody, s.incr, first.rest, inner);
        EntersLoop(c, f, b0, p1, condB, first.rest, t + ev);
        ReachesThen(f, Run(b0, p0, o, t), Run(b0, p1, first.rest, t + ev), Run(condB, 0, first.rest, t + ev));
        LoopMeets(c, f, s.fcond, s.fbody, s.incr, inner, flow, condB, bodyB, b, p, incrB, doneB, first.rest, t + ev);
        MeetsAfter(f, b0, p0, o, t, ev, condB, 0, first.rest, r, flow, doneB, 0);
        HasExtends(c, f, doneB, 0, Emit(Dtors(objs)));
        MeetsThen(f, b0, p0, o, t, r.(ev := ev + r.ev), flow, doneB, 0, Dtors(objs));
      }
    }
  }
}
