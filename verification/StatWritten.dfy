/** What the code generated for a statement does. It differs from what the statement
    means in that destructors are those of the objects on the compile-time stack of
    scopes, whether or not these objects were constructed on the path taken. */
module StatWritten {
  import opened Wrappers
  import opened Lives
  import opened ExprSem
  import opened StatSem

  type Scopes = seq<Objs>

  /** The destructors of all scopes from the innermost out to `index`. */
  function Drop(scopes: Scopes, index: nat): seq<Event>
    decreases |scopes|
  {
    if |scopes| <= index then []
    else Dtors(scopes[|scopes| - 1]) + Drop(scopes[..|scopes| - 1], index)
  }

  function Push(scopes: Scopes, objs: Objs): (r: Scopes)
    requires scopes != []
    ensures |r| == |scopes|
  {
    scopes[|scopes| - 1 := scopes[|scopes| - 1] + objs]
  }

  /** The objects that generating a statement adds to the innermost scope. */
  function Pushed(s: Stmt): Objs {
    match s
    case If(_, body, elseBody) => Pushed(body) + (if elseBody.Some? then Pushed(elseBody.value) else [])
    case Return(result) => TempsOf(result)
    case Plain(simple) => SimpleLocals(simple)
    case _ => []
  }

  function PushedAll(stats: seq<Stmt>): Objs {
    if stats == [] then [] else PushedAll(stats[..|stats| - 1]) + Pushed(stats[|stats| - 1])
  }

  /** Break and continue have a target, and a switch has at most one default case. */
  predicate Legal(s: Stmt, brk: bool, cont: bool) {
    match s
    case Block(stats, _) => forall k: nat :: k < |stats| ==> Legal(stats[k], brk, cont)
    case If(_, body, elseBody) => Legal(body, brk, cont) && (elseBody.Some? ==> Legal(elseBody.value, brk, cont))
    case Switch(_, cases, _) =>
      && (forall c: nat :: c < |cases| ==> Legal(cases[c].cbody, true, c + 1 < |cases|))
      && (forall c: nat :: DefaultIndex(cases) < c < |cases| ==> cases[c].test.Some?)
    case Break => brk
    case Continue => cont
    case While(_, body) => Legal(body, true, true)
    case For(_, _, _, body) => Legal(body, true, true)
    case _ => true
  }

  /** The value of a switch is kept until its end. */
  function Value(expr: Expr, a: Answer): seq<Event> {
    Eval(Given(expr), false, a).ev + [Act]
  }

  /** `ev` includes the destructors on the way to the target of a jump. */
  datatype Ran = Ran(ev: seq<Event>, out: Outcome, rest: Answers)

  /** The run of the code of a statement that was generated with these scopes, in a
      loop or switch whose body starts with scope `index`. */
  function Did(s: Stmt, o: Answers, scopes: Scopes, index: nat): (r: Ran)
    requires scopes != []
    ensures |r.rest| <= |o|
    decreases |o|, s, 1
  {
    match s
    case Block(stats, terminate) =>
      var r := DidSeq(stats, o, scopes + [[]], index);
      if r.out == Normal && terminate then r.(ev := r.ev + Dtors(PushedAll(stats))) else r
    case If(cond, body, elseBody) =>
      if o == [] then Ran([], Pending, [])
      else
        var r := if Holds(cond, o[0]) then Did(body, o[1..], scopes, index)
                 else if elseBody.Some? then Did(elseBody.value, o[1..], Push(scopes, Pushed(body)), index)
                 else Ran([], Normal, o[1..]);
        r.(ev := Wrote(Condition(cond), o[0]) + r.ev)
    case Switch(expr, cases, alwaysReturns) =>
      if o == [] then Ran([], Pending, [])
      else
        var d := Dispatch(cases, 0, o[1..], true);
        var r := if d.out == Pending then Ran([], Pending, d.rest)
                 else if d.target < |cases| then DidCases(s, d.target, d.rest, scopes + [TempsOf(expr)])
                 else Ran([], Normal, d.rest);
        var ev := Value(expr, o[0]) + d.ev + r.ev;
        if r.out == Normal then
          if alwaysReturns && cases != [] then Ran(ev, Stuck, r.rest) else Ran(ev + Dtors(TempsOf(expr)), Normal, r.rest)
        else Ran(ev, r.out, r.rest)
    case Break => Ran(Drop(scopes, index), Breaks, o)
    case Continue => Ran(Drop(scopes, index), Continues, o)
    case Return(result) =>
      if o == [] then Ran([], Pending, [])
      else Ran(Eval(Given(result), false, o[0]).ev + Drop(Push(scopes, TempsOf(result)), 0), Returns, o[1..])
    case While(cond, body) => DidLoop(cond, body, None, o, scopes + [[]])
    case For(init, cond, incr, body) =>
      var first := OptRun(init, o, true);
      if first.out != Normal then Ran(first.ev, first.out, first.rest)
      else
        var r := DidLoop(cond, body, incr, first.rest, scopes + [OptLocals(init), []]);
        var ev := first.ev + r.ev;
        r.(ev := if r.out == Normal then ev + Dtors(OptLocals(init) + OptLocals(incr)) else ev)
    case Plain(simple) => var r := OptRun(Some(simple), o, true); Ran(r.ev, r.out, r.rest)
  }

  function DidSeq(stats: seq<Stmt>, o: Answers, scopes: Scopes, index: nat): (r: Ran)
    requires scopes != []
    ensures |r.rest| <= |o|
    decreases |o|, stats
  {
    if stats == [] then Ran([], Normal, o)
    else
      var front := stats[..|stats| - 1];
      var r := DidSeq(front, o, scopes, index);
      if r.out != Normal then r
      else
        var r2 := Did(stats[|stats| - 1], r.rest, Push(scopes, PushedAll(front)), index);
        r2.(ev := r.ev + r2.ev)
  }

  /** The turns of a loop; the last of `scopes` is that of its body. Nobody destroys
      it at the end of a turn. */
  function DidLoop(cond: Expr, body: Stmt, incr: Option<Simple>, o: Answers, scopes: Scopes): (r: Ran)
    requires scopes != []
    ensures |r.rest| <= |o|
    ensures !r.out.Breaks? && !r.out.Continues?
    decreases |o|, body, 2
  {
    if o == [] then Ran([], Pending, [])
    else
      var ev := Wrote(Condition(cond), o[0]);
      if !Holds(cond, o[0]) then Ran(ev, Normal, o[1..])
      else
        var r := Did(body, o[1..], scopes, |scopes| - 1);
        var turn := r.(ev := ev + r.ev);
        match r.out
        case Breaks => turn.(out := Normal)
        case Normal => NextTurn(cond, body, incr, turn, scopes)
        case Continues => NextTurn(cond, body, incr, turn, scopes)
        case _ => turn
  }

  function NextTurn(cond: Expr, body: Stmt, incr: Option<Simple>, turn: Ran, scopes: Scopes): (r: Ran)
    requires scopes != []
    ensures |r.rest| <= |turn.rest|
    ensures !r.out.Breaks? && !r.out.Continues?
    decreases |turn.rest|, body, 3
  {
    var i := OptRun(incr, turn.rest, true);
    if i.out != Normal then Ran(turn.ev + i.ev, i.out, i.rest)
    else
      var r := DidLoop(cond, body, incr, i.rest, scopes);
      r.(ev := turn.ev + i.ev + r.ev)
  }

  /** The body of case `c`, and of those that it continues with; the last of `scopes`
      is that of the value of the switch. */
  function DidCases(s: Stmt, c: nat, o: Answers, scopes: Scopes): (r: Ran)
    requires s.Switch? && c < |s.cases|
    ensures |r.rest| <= |o|
    decreases |o|, s, 0, |s.cases| - c
  {
    var r := Did(s.cases[c].cbody, o, scopes + [[]], |scopes|);
    match r.out
    case Breaks => r.(out := Normal)
    case Continues =>
      if c + 1 < |s.cases| then
        var r2 := DidCases(s, c + 1, r.rest, scopes);
        r2.(ev := r.ev + r2.ev)
      else r
    case _ => r
  }

  lemma {:induction false} DispatchOut(cases: seq<Case>, c: nat, o: Answers, written: bool)
    requires c <= |cases|
    ensures var d := Dispatch(cases, c, o, written); d.out == Normal || d.out == Pending
    ensures var d := Dispatch(cases, c, o, written);
      d.out == Normal && d.target >= |cases| ==> DefaultIndex(cases) == |cases| == d.target
    decreases |cases| - c
  {
    hide Done, Holds;
    if c < |cases| {
      DispatchOut(cases, c + 1, if o == [] || cases[c].test.None? then o else o[1..], written);
    }
  }

  /** A switch without its value. */
  function Inside(s: Stmt, o: Answers, scopes: Scopes): Ran
    requires s.Switch?
  {
    var d := Dispatch(s.cases, 0, o, true);
    var r := if d.out == Pending then Ran([], Pending, d.rest)
             else if d.target < |s.cases| then DidCases(s, d.target, d.rest, scopes)
             else Ran([], Normal, d.rest);
    r.(ev := d.ev + r.ev)
  }

  lemma SwitchParts(s: Stmt, o: Answers, scopes: Scopes, index: nat)
    requires scopes != [] && s.Switch? && o != []
    ensures var r, v := Inside(s, o[1..], scopes + [TempsOf(s.expr)]), Value(s.expr, o[0]); var r1 := r.(ev := v + r.ev);
      Did(s, o, scopes, index) ==
        if r.out != Normal then r1
        else if s.alwaysReturns && s.cases != [] then r1.(out := Stuck) else r1.(ev := r1.ev + Dtors(TempsOf(s.expr)))
  {
    hide Value, DidCases, Dispatch;
    var d, v := Dispatch(s.cases, 0, o[1..], true), Value(s.expr, o[0]);
    var r0 := if d.out == Pending then Ran([], Pending, d.rest)
              else if d.target < |s.cases| then DidCases(s, d.target, d.rest, scopes + [TempsOf(s.expr)])
              else Ran([], Normal, d.rest);
    assert v + d.ev + r0.ev == v + (d.ev + r0.ev);
  }

  lemma ForIs(s: Stmt, o: Answers, scopes: Scopes, index: nat)
    requires scopes != [] && s.For?
    ensures var first := OptRun(s.init, o, true);
      Did(s, o, scopes, index) ==
        if first.out != Normal then Ran(first.ev, first.out, first.rest)
        else
          var r := DidLoop(s.fcond, s.fbody, s.incr, first.rest, scopes + [OptLocals(s.init), []]);
          var ev := first.ev + r.ev;
          r.(ev := if r.out == Normal then ev + Dtors(OptLocals(s.init) + OptLocals(s.incr)) else ev)
  {
    hide OptRun, DidLoop, OptLocals, Dtors;
  }

  lemma PushTwice(scopes: Scopes, a: Objs, b: Objs)
    requires scopes != []
    ensures Push(Push(scopes, a), b) == Push(scopes, a + b)
    ensures Push(scopes, []) == scopes
  {
    assert scopes[|scopes| - 1] + a + b == scopes[|scopes| - 1] + (a + b);
    assert scopes[|scopes| - 1] + [] == scopes[|scopes| - 1];
  }

  lemma DropScope(scopes: Scopes, objs: Objs, index: nat)
    requires index <= |scopes|
    ensures Drop(scopes + [objs], index) == Dtors(objs) + Drop(scopes, index)
    ensures Push(scopes + [[]], objs) == scopes + [objs]
  {
    assert (scopes + [objs])[..|scopes|] == scopes;
    assert [] + objs == objs;
  }

  lemma DropNext(scopes: Scopes, i: nat, index: nat)
    requires index <= i < |scopes|
    ensures Drop(scopes[..i + 1], index) == Dtors(scopes[i]) + Drop(scopes[..i], index)
  {
    assert scopes[..i + 1] == scopes[..i] + [scopes[i]];
    DropScope(scopes[..i], scopes[i], index);
  }

  lemma DropNone(scopes: Scopes, index: nat)
    requires index <= |scopes|
    ensures Drop(scopes[..index], index) == []
  {
  }
}
