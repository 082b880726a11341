/** Code generation for expressions: which blocks are made, and what they do. */
module ExprGen {
  import opened Wrappers
  import opened Lives
  import opened ExprSem

  // ---- blocks of instructions

  /** What a phi takes when it is reached from a block: a constant, or the value that was
      computed there. */
  datatype Entry = Entry(block: nat, known: Option<bool>)

  /** `Pick` is an operation whose truth is not known to the generator. */
  datatype Instr = Do(ev: Event) | Pick | Flip | Phi(entries: seq<Entry>) | Br(to: nat) | CondBr(ifTrue: nat, ifFalse: nat)

  type Code = seq<seq<Instr>>

  predicate IsTerminator(i: Instr) {
    i.Br? || i.CondBr?
  }

  /** `from` is the block that the run has come from, `truth` the last value. */
  datatype Config = Config(blk: nat, pc: nat, from: nat, truth: bool, picks: seq<bool>, trace: seq<Event>)

  function Incoming(entries: seq<Entry>, from: nat, truth: bool): Option<bool> {
    if entries == [] then None
    else if entries[0].block == from then Some(if entries[0].known.Some? then entries[0].known.value else truth)
    else Incoming(entries[1..], from, truth)
  }

  /** One step; a run that went wrong stays where it is. */
  function Step(f: Code, c: Config): Config {
    if c.blk >= |f| || c.pc >= |f[c.blk]| then c
    else
      match f[c.blk][c.pc]
      case Do(e) => c.(pc := c.pc + 1, trace := c.trace + [e])
      case Pick => if c.picks == [] then c else c.(pc := c.pc + 1, truth := c.picks[0], picks := c.picks[1..])
      case Flip => c.(pc := c.pc + 1, truth := !c.truth)
      case Phi(entries) =>
        var v := Incoming(entries, c.from, c.truth);
        if v.None? then c else c.(pc := c.pc + 1, truth := v.value)
      case Br(b) => c.(blk := b, pc := 0, from := c.blk)
      case CondBr(t, e) => c.(blk := if c.truth then t else e, pc := 0, from := c.blk)
  }

  function Steps(f: Code, c: Config, n: nat): Config
    decreases n
  {
    if n == 0 then c else Steps(f, Step(f, c), n - 1)
  }

  ghost predicate Reaches(f: Code, c: Config, c': Config) {
    exists n: nat :: Steps(f, c, n) == c'
  }

  lemma {:induction false} StepsThen(f: Code, c: Config, n: nat, m: nat)
    ensures Steps(f, c, n + m) == Steps(f, Steps(f, c, n), m)
    decreases n
  {
    if n > 0 {
      StepsThen(f, Step(f, c), n - 1, m);
    }
  }

  lemma ReachesThen(f: Code, c1: Config, c2: Config, c3: Config)
    requires Reaches(f, c1, c2) && Reaches(f, c2, c3)
    ensures Reaches(f, c1, c3)
  {
    var n: nat :| Steps(f, c1, n) == c2;
    var m: nat :| Steps(f, c2, m) == c3;
    StepsThen(f, c1, n, m);
  }

  lemma ReachesStep(f: Code, c: Config)
    ensures Reaches(f, c, c) && Reaches(f, c, Step(f, c))
  {
    assert Steps(f, c, 0) == c;
    assert Steps(f, c, 1) == Steps(f, Step(f, c), 0) == Step(f, c);
  }

  // ---- code under construction only grows

  ghost predicate Extends(c: Code, f: Code) {
    |c| <= |f| && forall b: nat :: b < |c| ==> c[b] <= f[b]
  }

  predicate JumpsTo(code: seq<Instr>, to: nat) {
    exists i: nat :: i < |code| && (code[i] == Br(to) || (code[i].CondBr? && (code[i].ifTrue == to || code[i].ifFalse == to)))
  }

  predicate NoPhi(code: seq<Instr>) {
    forall i: nat :: i < |code| ==> !code[i].Phi?
  }

  /** Blocks are added, of the others only the current one is written to, and neither a
      phi nor a way into an old block is made. */
  ghost predicate Grew(c0: Code, b0: nat, c1: Code, b1: nat) {
    && b0 < |c0| <= |c1| && b1 < |c1| && (b1 == b0 || b1 >= |c0|)
    && (forall b: nat :: b < |c0| ==> c0[b] <= c1[b])
    && (forall b: nat :: b < |c0| && b != b0 ==> c1[b] == c0[b])
    && NoPhi(c1[b0][|c0[b0]|..])
    && (forall b: nat, to: nat :: b < |c1| && to < |c0| && JumpsTo(c1[b], to) ==> b < |c0| && JumpsTo(c0[b], to))
  }

  /** Every jump has a target. */
  ghost predicate Within(c: Code) {
    forall b: nat, to: nat :: b < |c| && JumpsTo(c[b], to) ==> to < |c|
  }

  lemma JumpsMore(code: seq<Instr>, more: seq<Instr>, to: nat)
    ensures JumpsTo(code + more, to) <==> JumpsTo(code, to) || JumpsTo(more, to)
  {
    if JumpsTo(code, to) {
      var i: nat :| i < |code| && (code[i] == Br(to) || (code[i].CondBr? && (code[i].ifTrue == to || code[i].ifFalse == to)));
      assert (code + more)[i] == code[i];
    }
    if JumpsTo(more, to) {
      var i: nat :| i < |more| && (more[i] == Br(to) || (more[i].CondBr? && (more[i].ifTrue == to || more[i].ifFalse == to)));
      assert (code + more)[|code| + i] == more[i];
    }
  }

  lemma GrewThen(c0: Code, b0: nat, c1: Code, b1: nat, c2: Code, b2: nat)
    requires Grew(c0, b0, c1, b1) && Grew(c1, b1, c2, b2)
    ensures Grew(c0, b0, c2, b2) && Extends(c0, c2) && Extends(c0, c1) && Extends(c1, c2)
  {
    hide JumpsTo;
    var x, y := c1[b0][|c0[b0]|..], c2[b0][|c1[b0]|..];
    assert c2[b0][|c0[b0]|..] == x + y;
    if b1 != b0 {
      assert y == [];
    }
  }

  lemma GrewExtends(c0: Code, b0: nat, c1: Code, b1: nat)
    requires Grew(c0, b0, c1, b1)
    ensures Extends(c0, c1) && b1 < |c1| && |c0| <= |c1|
  {
  }

  /** The code with more instructions at the end of block `b`. */
  function Put(c: Code, b: nat, code: seq<Instr>): (c': Code)
    requires b < |c|
    ensures |c'| == |c|
  {
    c[b := c[b] + code]
  }

  /** Straight-line code: neither terminators nor phis. */
  predicate Plain(code: seq<Instr>) {
    forall i: nat :: i < |code| ==> !IsTerminator(code[i]) && !code[i].Phi?
  }

  lemma PutGrew(c: Code, b: nat, code: seq<Instr>)
    requires b < |c| && Plain(code)
    ensures Grew(c, b, Put(c, b, code), b) && (Within(c) ==> Within(Put(c, b, code)))
  {
    var c' := Put(c, b, code);
    assert c'[b][|c[b]|..] == code;
    forall d: nat, to: nat | d < |c'| && JumpsTo(c'[d], to) ensures d < |c| && JumpsTo(c[d], to) {
      JumpsMore(c[b], code, to);
    }
  }

  // ---- what a run of the code of an expression has to do

  /** The truths of the operations that are carried out, in order. */
  function Picks(e: Expr, a: Answer): seq<bool> {
    match e
    case Atom => [a.truth]
    case Both(first, second) => Picks(first, Of(a, 0)) + Picks(second, Of(a, 1)) + [a.truth]
    case Args(first, second) => Picks(first, Of(a, 0)) + Picks(second, Of(a, 1)) + [a.truth]
    case Set(first, second) => Picks(first, Of(a, 0)) + Picks(second, Of(a, 1)) + [a.truth]
    case New(parts, _) => Picks(parts, Of(a, 0)) + [a.truth]
    case Member(whole, _) => Picks(whole, Of(a, 0)) + [a.truth]
    case And(left, right) =>
      Picks(left, Of(a, 0)) + if Eval(left, false, Of(a, 0)).truth then Picks(right, Of(a, 1)) else []
    case Or(left, right) =>
      Picks(left, Of(a, 0)) + if Eval(left, false, Of(a, 0)).truth then [] else Picks(right, Of(a, 1))
    case Not(arg) => Picks(arg, Of(a, 0))
    case Choose(test, troo, fols, _) =>
      Picks(test, Of(a, 0)) + if Eval(test, false, Of(a, 0)).truth then Picks(troo, Of(a, 1)) else Picks(fols, Of(a, 2))
  }

  /** A run from `c` comes to this place with this value, these picks left and this
      trace. */
  ghost predicate Comes(f: Code, c: Config, b: nat, p: nat, truth: bool, picks: seq<bool>, t: seq<Event>) {
    exists from: nat :: Reaches(f, c, Config(b, p, from, truth, picks, t))
  }

  /** From one place to another, every final code that contains `c` does as the
      expression does. */
  ghost predicate Sim(c: Code, e: Expr, given: bool, b0: nat, p0: nat, b1: nat, p1: nat) {
    forall f: Code, a: Answer, s: Config, more: seq<bool> :: Extends(c, f) && s.blk == b0 && s.pc == p0 && s.picks == Picks(e, a) + more ==>
      var g := Eval(e, given, a); Comes(f, s, b1, p1, g.truth, more, s.trace + g.ev)
  }

  /** From `p` on, block `b` consists of, or starts with, these instructions. */
  ghost predicate Has(f: Code, b: nat, p: nat, code: seq<Instr>) {
    b < |f| && p + |code| <= |f[b]| && f[b][p..p + |code|] == code
  }

  lemma HasAt(f: Code, b: nat, p: nat, code: seq<Instr>, k: nat)
    requires Has(f, b, p, code) && k < |code|
    ensures b < |f| && p + k < |f[b]| && f[b][p + k] == code[k]
  {
    assert f[b][p + k] == f[b][p..p + |code|][k];
  }

  lemma HasExtends(c: Code, f: Code, b: nat, p: nat, code: seq<Instr>)
    requires Has(c, b, p, code) && Extends(c, f)
    ensures Has(f, b, p, code)
  {
    assert c[b] <= f[b];
    assert f[b][p..p + |code|] == c[b][p..p + |code|];
  }

  lemma PutHas(c: Code, b: nat, code: seq<Instr>)
    requires b < |c|
    ensures Has(Put(c, b, code), b, |c[b]|, code) && |Put(c, b, code)[b]| == |c[b]| + |code|
  {
  }

  // ---- which code is valid

  /** Nothing in the expression branches. */
  predicate Straight(e: Expr) {
    match e
    case Atom => true
    case Both(first, second) => Straight(first) && Straight(second)
    case Args(first, second) => Straight(first) && Straight(second)
    case Set(first, second) => Straight(first) && Straight(second)
    case New(parts, _) => Straight(parts)
    case Member(whole, _) => Straight(whole)
    case Not(arg) => Straight(arg)
    case _ => false
  }

  /** No operand of `&&` or `||` branches, and neither does a branch of `?:`. */
  predicate Flat(e: Expr) {
    match e
    case Atom => true
    case Both(first, second) => Flat(first) && Flat(second)
    case Args(first, second) => Flat(first) && Flat(second)
    case Set(first, second) => Flat(first) && Flat(second)
    case New(parts, _) => Flat(parts)
    case Member(whole, _) => Flat(whole)
    case And(left, right) => Straight(left) && Straight(right)
    case Or(left, right) => Straight(left) && Straight(right)
    case Not(arg) => Flat(arg)
    case Choose(test, troo, fols, _) => Flat(test) && Straight(troo) && Straight(fols)
  }

  lemma {:induction false} StraightIsFlat(e: Expr)
    requires Straight(e)
    ensures Flat(e)
    decreases e
  {
    match e
    case Both(first, second) => StraightIsFlat(first); StraightIsFlat(second);
    case Args(first, second) => StraightIsFlat(first); StraightIsFlat(second);
    case Set(first, second) => StraightIsFlat(first); StraightIsFlat(second);
    case New(parts, _) => StraightIsFlat(parts);
    case Member(whole, _) => StraightIsFlat(whole);
    case Not(arg) => StraightIsFlat(arg);
    case Atom =>
  }

  predicate Open(code: seq<Instr>) {
    forall i: nat :: i < |code| ==> !IsTerminator(code[i])
  }

  predicate OneTerminator(code: seq<Instr>) {
    code != [] && IsTerminator(code[|code| - 1]) && Open(code[..|code| - 1])
  }

  predicate Names(entries: seq<Entry>, b: nat) {
    exists k: nat :: k < |entries| && entries[k].block == b
  }

  /** A phi names exactly the blocks that jump to its block. */
  ghost predicate PhisRight(c: Code, b: nat)
    requires b < |c|
  {
    forall i: nat, d: nat :: i < |c[b]| && c[b][i].Phi? ==> (Names(c[b][i].entries, d) <==> d < |c| && JumpsTo(c[d], b))
  }

  ghost predicate PhiWrong(c: Code, b: nat)
    requires b < |c|
  {
    exists i: nat, d: nat :: i < |c[b]| && c[b][i].Phi? && d < |c| && Names(c[b][i].entries, d) && !JumpsTo(c[d], b)
  }

  /** What has been written since `c0` is valid, with an open block at its end. */
  ghost predicate Good(c0: Code, b0: nat, c1: Code, b1: nat) {
    && b1 < |c1| && Open(c1[b1])
    && (forall b: nat :: b < |c1| && (b == b0 || b >= |c0|) && b != b1 ==> OneTerminator(c1[b]))
    && forall b: nat :: |c0| <= b < |c1| ==> PhisRight(c1, b)
  }

  /** Something that was written since `c0` can no longer become valid. */
  ghost predicate Spoilt(c0: Code, b0: nat, c1: Code) {
    exists b: nat :: b < |c1| && (b == b0 || b >= |c0|) && Wrong(c1, |c0|, b)
  }

  /** A terminator that is not the last instruction, or a wrong phi. */
  ghost predicate Wrong(c: Code, n: nat, b: nat)
    requires b < |c|
  {
    (|c[b]| > 0 && !Open(c[b][..|c[b]| - 1])) || (b >= n && PhiWrong(c, b))
  }

  /** The expression was compiled into the code between two positions. */
  ghost predicate Compiled(e: Expr, given: bool, c0: Code, b0: nat, c1: Code, b1: nat) {
    && Grew(c0, b0, c1, b1) && (b1 == b0 <==> Straight(e)) && (Straight(e) ==> |c1| == |c0|) && (Within(c0) ==> Within(c1))
    && (Flat(e) ==> Sim(c1, e, given, b0, |c0[b0]|, b1, |c1[b1]|))
    && (Open(c0[b0]) ==> if Flat(e) then Good(c0, b0, c1, b1) else Spoilt(c0, b0, c1))
  }

  // ---- runs of parts make the run of the whole

  lemma ComesStart(f: Code, s: Config)
    ensures Comes(f, s, s.blk, s.pc, s.truth, s.picks, s.trace)
  {
    ReachesStep(f, s);
    assert s == Config(s.blk, s.pc, s.from, s.truth, s.picks, s.trace);
  }

  lemma ComesOn(f: Code, s: Config, b: nat, p: nat, truth: bool, picks: seq<bool>, t: seq<Event>, i: Instr)
    requires Comes(f, s, b, p, truth, picks, t) && Has(f, b, p, [i])
    ensures i == Pick && picks != [] ==> Comes(f, s, b, p + 1, picks[0], picks[1..], t)
    ensures i == Flip ==> Comes(f, s, b, p + 1, !truth, picks, t)
    ensures i.Do? ==> Comes(f, s, b, p + 1, truth, picks, t + [i.ev])
    ensures i.Br? ==> Reaches(f, s, Config(i.to, 0, b, truth, picks, t))
    ensures i.CondBr? ==> Reaches(f, s, Config(if truth then i.ifTrue else i.ifFalse, 0, b, truth, picks, t))
  {
    hide Reaches;
    HasAt(f, b, p, [i], 0);
    var from: nat :| Reaches(f, s, Config(b, p, from, truth, picks, t));
    var c := Config(b, p, from, truth, picks, t);
    ReachesStep(f, c);
    ReachesThen(f, s, c, Step(f, c));
    if i == Pick && picks != [] {
      assert Reaches(f, s, Config(b, p + 1, from, picks[0], picks[1..], t));
    } else if i == Flip {
      assert Reaches(f, s, Config(b, p + 1, from, !truth, picks, t));
    } else if i.Do? {
      assert Reaches(f, s, Config(b, p + 1, from, truth, picks, t + [i.ev]));
    }
  }

  /** Into a block with a phi, from a block that it names. */
  lemma ComesPhi(f: Code, s: Config, b: nat, from: nat, truth: bool, picks: seq<bool>, t: seq<Event>, entries: seq<Entry>)
    requires Reaches(f, s, Config(b, 0, from, truth, picks, t)) && Has(f, b, 0, [Phi(entries)])
    requires Incoming(entries, from, truth).Some?
    ensures Comes(f, s, b, 1, Incoming(entries, from, truth).value, picks, t)
  {
    hide Reaches;
    HasAt(f, b, 0, [Phi(entries)], 0);
    var c := Config(b, 0, from, truth, picks, t);
    ReachesStep(f, c);
    ReachesThen(f, s, c, Step(f, c));
    assert Step(f, c) == Config(b, 1, from, Incoming(entries, from, truth).value, picks, t);
  }

  lemma ComesFrom(f: Code, s: Config, b: nat, p: nat, from: nat, truth: bool, picks: seq<bool>, t: seq<Event>)
    requires Reaches(f, s, Config(b, p, from, truth, picks, t))
    ensures Comes(f, s, b, p, truth, picks, t)
  {
  }

  lemma ComesSim(c: Code, f: Code, s: Config, e: Expr, given: bool, a: Answer, b: nat, p: nat, b1: nat, p1: nat,
                 truth: bool, more: seq<bool>, t: seq<Event>)
    requires Sim(c, e, given, b, p, b1, p1) && Extends(c, f) && Comes(f, s, b, p, truth, Picks(e, a) + more, t)
    ensures var g := Eval(e, given, a); Comes(f, s, b1, p1, g.truth, more, t + g.ev)
  {
    hide Reaches, Eval, Picks;
    var from: nat :| Reaches(f, s, Config(b, p, from, truth, Picks(e, a) + more, t));
    var mid, g := Config(b, p, from, truth, Picks(e, a) + more, t), Eval(e, given, a);
    assert Comes(f, mid, b1, p1, g.truth, more, mid.trace + g.ev);
    var from': nat :| Reaches(f, mid, Config(b1, p1, from', g.truth, more, t + g.ev));
    ReachesThen(f, s, mid, Config(b1, p1, from', g.truth, more, t + g.ev));
  }

  function Dos(evs: seq<Event>): seq<Instr> {
    seq(|evs|, i requires 0 <= i < |evs| => Do(evs[i]))
  }

  lemma HasSplit(f: Code, b: nat, p: nat, x: seq<Instr>, y: seq<Instr>)
    requires Has(f, b, p, x + y)
    ensures Has(f, b, p, x) && Has(f, b, p + |x|, y)
  {
    assert f[b][p..p + |x|] == f[b][p..p + |x + y|][..|x|];
    assert f[b][p + |x|..p + |x| + |y|] == f[b][p..p + |x + y|][|x|..];
  }

  lemma {:induction false} ComesDos(f: Code, s: Config, b: nat, p: nat, truth: bool, picks: seq<bool>, t: seq<Event>, evs: seq<Event>)
    requires Comes(f, s, b, p, truth, picks, t) && Has(f, b, p, Dos(evs))
    ensures Comes(f, s, b, p + |evs|, truth, picks, t + evs)
    decreases |evs|
  {
    if evs == [] {
      assert t + [] == t;
    } else {
      hide Comes, Has;
      assert Dos(evs) == [Do(evs[0])] + Dos(evs[1..]);
      HasSplit(f, b, p, [Do(evs[0])], Dos(evs[1..]));
      ComesOn(f, s, b, p, truth, picks, t, Do(evs[0]));
      ComesDos(f, s, b, p + 1, truth, picks, t + [evs[0]], evs[1..]);
      assert t + [evs[0]] + evs[1..] == t + evs;
    }
  }

  lemma SimExtends(c: Code, d: Code, e: Expr, given: bool, b0: nat, p0: nat, b1: nat, p1: nat)
    requires Sim(c, e, given, b0, p0, b1, p1) && Extends(c, d)
    ensures Sim(d, e, given, b0, p0, b1, p1)
  {
    hide Comes, Eval, Picks;
    forall f: Code | Extends(d, f) ensures Extends(c, f) {
      ExtendsThen(c, d, f);
    }
  }

  lemma ExtendsThen(c: Code, d: Code, f: Code)
    requires Extends(c, d) && Extends(d, f)
    ensures Extends(c, f)
  {
  }

  // ---- pieces of code, and whether they are valid

  /** A piece of code that is valid if `flat`, and stays in its block if `straight`. */
  ghost predicate Piece(flat: bool, straight: bool, c0: Code, b0: nat, c1: Code, b1: nat) {
    && Grew(c0, b0, c1, b1) && (b1 == b0 <==> straight) && (straight ==> |c1| == |c0|) && (Within(c0) ==> Within(c1))
    && (Open(c0[b0]) ==> if flat then Good(c0, b0, c1, b1) else Spoilt(c0, b0, c1))
  }

  lemma CompiledIs(e: Expr, given: bool, c0: Code, b0: nat, c1: Code, b1: nat)
    ensures Compiled(e, given, c0, b0, c1, b1) <==>
      Piece(Flat(e), Straight(e), c0, b0, c1, b1) && (Flat(e) ==> Sim(c1, e, given, b0, |c0[b0]|, b1, |c1[b1]|))
  {
    hide Grew, Good, Spoilt, Sim;
  }

  lemma JumpsStay(code: seq<Instr>, more: seq<Instr>, to: nat)
    requires code <= more && JumpsTo(code, to)
    ensures JumpsTo(more, to)
  {
    assert more == code + more[|code|..];
    JumpsMore(code, more[|code|..], to);
  }

  /** Whether a block jumps to an old block does not change any more. */
  lemma JumpsKept(c: Code, b: nat, c': Code, b': nat, d: nat, to: nat)
    requires Grew(c, b, c', b') && d < |c'| && to < |c|
    ensures JumpsTo(c'[d], to) <==> d < |c| && JumpsTo(c[d], to)
  {
    if d < |c| && JumpsTo(c[d], to) {
      JumpsStay(c[d], c'[d], to);
    }
  }

  /** Nor do the phis of old blocks. */
  lemma PhisKept(c: Code, b: nat, c': Code, b': nat, d: nat, i: nat)
    requires Grew(c, b, c', b') && d < |c| && i < |c'[d]| && c'[d][i].Phi?
    ensures i < |c[d]| && c[d][i] == c'[d][i]
  {
    if i >= |c[d]| {
      assert d == b;
      NewNoPhi(c[b], c'[b], i);
    }
  }

  lemma NewNoPhi(code: seq<Instr>, more: seq<Instr>, i: nat)
    requires code <= more && NoPhi(more[|code|..])
    ensures |code| <= i < |more| ==> !more[i].Phi?
  {
    if |code| <= i < |more| {
      assert more[i] == more[|code|..][i - |code|];
    }
  }

  lemma PhiSays(c: Code, d: nat, i: nat, k: nat)
    requires d < |c| && PhisRight(c, d) && i < |c[d]| && c[d][i].Phi?
    ensures Names(c[d][i].entries, k) <==> k < |c| && JumpsTo(c[k], d)
  {
  }

  lemma PhisStay(c: Code, b: nat, c': Code, b': nat, d: nat)
    requires Grew(c, b, c', b') && d < |c| && PhisRight(c, d)
    ensures PhisRight(c', d)
  {
    hide Grew;
    GrewExtends(c, b, c', b');
    forall i: nat, k: nat | i < |c'[d]| && c'[d][i].Phi? ensures Names(c'[d][i].entries, k) <==> k < |c'| && JumpsTo(c'[k], d) {
      PhisKept(c, b, c', b', d, i);
      PhiSays(c, d, i, k);
      if k < |c'| {
        JumpsKept(c, b, c', b', k, d);
      }
    }
  }

  lemma WrongStays(c: Code, b: nat, c': Code, b': nat, n: nat, d: nat)
    requires Grew(c, b, c', b') && d < |c| && Wrong(c, n, d)
    ensures Wrong(c', n, d)
  {
    hide JumpsTo, Names;
    if |c[d]| > 0 && !Open(c[d][..|c[d]| - 1]) {
      var i: nat :| i < |c[d]| - 1 && IsTerminator(c[d][..|c[d]| - 1][i]);
      assert c'[d][..|c'[d]| - 1][i] == c[d][i];
    } else {
      var i: nat, k: nat :| i < |c[d]| && c[d][i].Phi? && k < |c| && Names(c[d][i].entries, k) && !JumpsTo(c[k], d);
      JumpsKept(c, b, c', b', k, d);
      assert c'[d][i] == c[d][i];
    }
  }

  lemma PieceThen(flat: bool, straight: bool, c0: Code, b0: nat, c1: Code, b1: nat, flat': bool, straight': bool, c2: Code, b2: nat)
    requires Piece(flat, straight, c0, b0, c1, b1) && Piece(flat', straight', c1, b1, c2, b2)
    ensures Piece(flat && flat', straight && straight', c0, b0, c2, b2)
  {
    hide JumpsTo, PhisRight, Wrong, Open, OneTerminator, NoPhi;
    GrewThen(c0, b0, c1, b1, c2, b2);
    if Open(c0[b0]) {
      if !flat {
        SpoiltThen(c0, b0, c1, b1, c2, b2);
      } else if !flat' {
        SpoiltWithin(c0, b0, c1, b1, c2);
      } else {
        GoodThen(c0, b0, c1, b1, c2, b2);
      }
    }
  }

  lemma SpoiltThen(c0: Code, b0: nat, c1: Code, b1: nat, c2: Code, b2: nat)
    requires Spoilt(c0, b0, c1) && Grew(c1, b1, c2, b2)
    ensures Spoilt(c0, b0, c2)
  {
    hide Wrong;
    var b: nat :| b < |c1| && (b == b0 || b >= |c0|) && Wrong(c1, |c0|, b);
    WrongStays(c1, b1, c2, b2, |c0|, b);
  }

  lemma SpoiltWithin(c0: Code, b0: nat, c1: Code, b1: nat, c2: Code)
    requires Spoilt(c1, b1, c2) && |c0| <= |c1| && (b1 == b0 || b1 >= |c0|)
    ensures Spoilt(c0, b0, c2)
  {
    hide Wrong;
    var b: nat :| b < |c2| && (b == b1 || b >= |c1|) && Wrong(c2, |c1|, b);
    WrongFrom(c2, |c1|, |c0|, b);
  }

  lemma GoodThen(c0: Code, b0: nat, c1: Code, b1: nat, c2: Code, b2: nat)
    requires Grew(c0, b0, c1, b1) && Grew(c1, b1, c2, b2) && Good(c0, b0, c1, b1) && Good(c1, b1, c2, b2)
    ensures Good(c0, b0, c2, b2)
  {
    hide JumpsTo, PhisRight, Open, OneTerminator, NoPhi;
    forall b: nat | |c0| <= b < |c2| ensures PhisRight(c2, b) {
      if b < |c1| {
        PhisStay(c1, b1, c2, b2, b);
      }
    }
    forall b: nat | b < |c2| && (b == b0 || b >= |c0|) && b != b2 ensures OneTerminator(c2[b]) {
      if b < |c1| && b != b1 {
        assert c2[b] == c1[b];
      }
    }
  }

  lemma WrongFrom(c: Code, n: nat, m: nat, b: nat)
    requires b < |c| && Wrong(c, n, b) && m <= n
    ensures Wrong(c, m, b)
  {
  }

  lemma PiecePut(c: Code, b: nat, code: seq<Instr>)
    requires b < |c| && Plain(code)
    ensures Piece(true, true, c, b, Put(c, b, code), b)
  {
    PutGrew(c, b, code);
  }

  // ---- expressions that do not branch themselves

  lemma AtomCompiled(c: Code, b: nat, given: bool)
    requires b < |c|
    ensures Compiled(Atom, given, c, b, Put(c, b, [Pick]), b)
  {
    hide Grew, Good, Spoilt, Comes, Eval, Picks;
    var c' := Put(c, b, [Pick]);
    PiecePut(c, b, [Pick]);
    PutHas(c, b, [Pick]);
    forall f: Code, a: Answer, s: Config, more: seq<bool> | Extends(c', f) && s.blk == b && s.pc == |c[b]| && s.picks == Picks(Atom, a) + more
      ensures var g := Eval(Atom, given, a); Comes(f, s, b, |c'[b]|, g.truth, more, s.trace + g.ev)
    {
      AtomDoes(given, a, more);
      HasExtends(c', f, b, |c[b]|, [Pick]);
      ComesStart(f, s);
      ComesOn(f, s, b, |c[b]|, s.truth, s.picks, s.trace, Pick);
      assert s.trace + [] == s.trace;
    }
  }

  lemma AtomDoes(given: bool, a: Answer, more: seq<bool>)
    ensures Eval(Atom, given, a) == Got([], [], [], a.truth)
    ensures Picks(Atom, a) + more == [a.truth] + more && ([a.truth] + more)[1..] == more
  {
  }

  lemma PairDoes(e: Expr, given: bool, a: Answer, more: seq<bool>)
    requires e.Both? || e.Args? || e.Set?
    ensures var g, h := Eval(e.first, e.Args?, Of(a, 0)), Eval(e.second, e.Args? || (e.Set? && given), Of(a, 1));
      Eval(e, given, a).ev == g.ev + h.ev && Eval(e, given, a).truth == a.truth
    ensures Picks(e, a) + more == Picks(e.first, Of(a, 0)) + (Picks(e.second, Of(a, 1)) + ([a.truth] + more))
    ensures ([a.truth] + more)[1..] == more
  {
    hide Picks;
    PairPicks(e, a);
  }

  lemma PairPicks(e: Expr, a: Answer)
    requires e.Both? || e.Args? || e.Set?
    ensures Picks(e, a) == Picks(e.first, Of(a, 0)) + Picks(e.second, Of(a, 1)) + [a.truth]
  {
    hide Eval;
  }

  lemma PairFlat(e: Expr)
    requires e.Both? || e.Args? || e.Set?
    ensures Flat(e) <==> Flat(e.first) && Flat(e.second)
    ensures Straight(e) <==> Straight(e.first) && Straight(e.second)
  {
  }

  lemma PairCompiled(e: Expr, given: bool, c0: Code, b0: nat, c1: Code, b1: nat, c2: Code, b2: nat)
    requires e.Both? || e.Args? || e.Set?
    requires Compiled(e.first, e.Args?, c0, b0, c1, b1)
    requires Compiled(e.second, e.Args? || (e.Set? && given), c1, b1, c2, b2) && b2 < |c2|
    ensures Compiled(e, given, c0, b0, Put(c2, b2, [Pick]), b2)
  {
    hide Grew, Good, Spoilt, Comes, Eval, Picks, Sim, Flat, Straight, Compiled, Piece;
    var c3, h := Put(c2, b2, [Pick]), e.Args? || (e.Set? && given);
    CompiledIs(e.first, e.Args?, c0, b0, c1, b1);
    CompiledIs(e.second, h, c1, b1, c2, b2);
    PairFlat(e);
    PiecePut(c2, b2, [Pick]);
    PieceThen(Flat(e.first), Straight(e.first), c0, b0, c1, b1, Flat(e.second), Straight(e.second), c2, b2);
    PieceThen(Flat(e), Straight(e), c0, b0, c2, b2, true, true, c3, b2);
    CompiledIs(e, given, c0, b0, c3, b2);
    if Flat(e) {
      PieceGrew(Flat(e.second), Straight(e.second), c1, b1, c2, b2);
      PieceGrew(Flat(e.first), Straight(e.first), c0, b0, c1, b1);
      PieceGrew(true, true, c2, b2, c3, b2);
      PairSim(e, given, c3, b0, |c0[b0]|, c1, b1, c2, b2);
    }
  }

  lemma PieceGrew(flat: bool, straight: bool, c0: Code, b0: nat, c1: Code, b1: nat)
    requires Piece(flat, straight, c0, b0, c1, b1)
    ensures Grew(c0, b0, c1, b1) && b0 < |c0| <= |c1| && b1 < |c1| && Extends(c0, c1)
  {
  }

  lemma PairSim(e: Expr, given: bool, c3: Code, b0: nat, p0: nat, c1: Code, b1: nat, c2: Code, b2: nat)
    requires (e.Both? || e.Args? || e.Set?) && b1 < |c1| && b2 < |c2| && c3 == Put(c2, b2, [Pick])
    requires Sim(c1, e.first, e.Args?, b0, p0, b1, |c1[b1]|) && Extends(c1, c2) && Extends(c2, c3)
    requires Sim(c2, e.second, e.Args? || (e.Set? && given), b1, |c1[b1]|, b2, |c2[b2]|)
    ensures Sim(c3, e, given, b0, p0, b2, |c3[b2]|)
  {
    hide Comes, Eval, Picks;
    var h := e.Args? || (e.Set? && given);
    ExtendsThen(c1, c2, c3);
    SimExtends(c1, c3, e.first, e.Args?, b0, p0, b1, |c1[b1]|);
    SimExtends(c2, c3, e.second, h, b1, |c1[b1]|, b2, |c2[b2]|);
    PutHas(c2, b2, [Pick]);
    forall f: Code, a: Answer, s: Config, more: seq<bool> | Extends(c3, f) && s.blk == b0 && s.pc == p0 && s.picks == Picks(e, a) + more
      ensures var g := Eval(e, given, a); Comes(f, s, b2, |c3[b2]|, g.truth, more, s.trace + g.ev)
    {
      PairDoes(e, given, a, more);
      var g, g' := Eval(e.first, e.Args?, Of(a, 0)), Eval(e.second, h, Of(a, 1));
      HasExtends(c3, f, b2, |c2[b2]|, [Pick]);
      ComesStart(f, s);
      ComesSim(c3, f, s, e.first, e.Args?, Of(a, 0), b0, p0, b1, |c1[b1]|, s.truth, Picks(e.second, Of(a, 1)) + ([a.truth] + more), s.trace);
      ComesSim(c3, f, s, e.second, h, Of(a, 1), b1, |c1[b1]|, b2, |c2[b2]|, g.truth, [a.truth] + more, s.trace + g.ev);
      ComesOn(f, s, b2, |c2[b2]|, g'.truth, [a.truth] + more, s.trace + g.ev + g'.ev, Pick);
      assert s.trace + g.ev + g'.ev == s.trace + (g.ev + g'.ev);
    }
  }

  /** What is written behind the part of an expression that has one. */
  function Behind(e: Expr, given: bool): seq<Instr>
    requires e.New? || e.Member? || e.Not?
  {
    match e
    case New(_, id) => Dos(if given then [] else [Ctor(Temp(id))]) + [Pick]
    case Member(whole, id) => Dos(if IsNew(whole) then [Ctor(Temp(id))] else []) + [Pick]
    case Not(arg) => Dos(Dtors(SlotOf(arg))) + [Flip]
  }

  function PartOf(e: Expr): Expr
    requires e.New? || e.Member? || e.Not?
  {
    if e.New? then e.parts else if e.Member? then e.whole else e.arg
  }

  function EventsBehind(e: Expr, given: bool): seq<Event>
    requires e.New? || e.Member? || e.Not?
  {
    match e
    case New(_, id) => if given then [] else [Ctor(Temp(id))]
    case Member(whole, id) => if IsNew(whole) then [Ctor(Temp(id))] else []
    case Not(arg) => Dtors(SlotOf(arg))
  }

  lemma OneDoes(e: Expr, given: bool, a: Answer, more: seq<bool>)
    requires e.New? || e.Member? || e.Not?
    ensures var g := Eval(PartOf(e), !e.Not?, Of(a, 0)); Eval(e, given, a).ev == g.ev + EventsBehind(e, given)
    ensures Eval(e, given, a).truth == if e.Not? then !Eval(PartOf(e), false, Of(a, 0)).truth else a.truth
    ensures Picks(e, a) + more == Picks(PartOf(e), Of(a, 0)) + ((if e.Not? then [] else [a.truth]) + more)
    ensures ([a.truth] + more)[1..] == more && [] + more == more
  {
    hide Picks, Eval, EventsBehind;
    OnePicks(e, a);
    PicksBehind(Picks(PartOf(e), Of(a, 0)), if e.Not? then [] else [a.truth], more);
    PicksBehind([], [a.truth], more);
    if e.Not? {
      NotEval(e, given, a);
    } else {
      NewEval(e, given, a);
    }
  }

  lemma PicksBehind(p: seq<bool>, own: seq<bool>, more: seq<bool>)
    ensures p + own + more == p + (own + more) && [] + more == more && (|own| == 1 ==> (own + more)[1..] == more)
  {
  }

  lemma NotEval(e: Expr, given: bool, a: Answer)
    requires e.Not?
    ensures var g := Eval(e.arg, false, Of(a, 0)); Eval(e, given, a).ev == g.ev + EventsBehind(e, given) && Eval(e, given, a).truth == !g.truth
  {
    hide Dtors;
    EvalMakes(e.arg, false, Of(a, 0));
  }

  lemma NewEval(e: Expr, given: bool, a: Answer)
    requires e.New? || e.Member?
    ensures Eval(e, given, a).ev == Eval(PartOf(e), true, Of(a, 0)).ev + EventsBehind(e, given) && Eval(e, given, a).truth == a.truth
  {
    var ev := Eval(PartOf(e), true, Of(a, 0)).ev;
    assert ev + [] == ev;
  }

  lemma OnePicks(e: Expr, a: Answer)
    requires e.New? || e.Member? || e.Not?
    ensures Picks(e, a) == Picks(PartOf(e), Of(a, 0)) + if e.Not? then [] else [a.truth]
  {
    hide Eval;
  }

  lemma OneIs(e: Expr, given: bool)
    requires e.New? || e.Member? || e.Not?
    ensures (Flat(e) <==> Flat(PartOf(e))) && (Straight(e) <==> Straight(PartOf(e)))
    ensures Behind(e, given) == Dos(EventsBehind(e, given)) + [if e.Not? then Flip else Pick] && Plain(Behind(e, given))
  {
    PlainDos(EventsBehind(e, given));
  }

  lemma OneCompiled(e: Expr, given: bool, c0: Code, b0: nat, c1: Code, b1: nat)
    requires e.New? || e.Member? || e.Not?
    requires Compiled(PartOf(e), !e.Not?, c0, b0, c1, b1) && b1 < |c1|
    ensures Compiled(e, given, c0, b0, Put(c1, b1, Behind(e, given)), b1)
  {
    hide Grew, Good, Spoilt, Comes, Eval, Picks, Sim, Flat, Straight, Compiled, Piece, Behind, PartOf, Plain;
    var part, c2 := PartOf(e), Put(c1, b1, Behind(e, given));
    OneIs(e, given);
    CompiledIs(part, !e.Not?, c0, b0, c1, b1);
    PiecePut(c1, b1, Behind(e, given));
    PieceThen(Flat(part), Straight(part), c0, b0, c1, b1, true, true, c2, b1);
    CompiledIs(e, given, c0, b0, c2, b1);
    if Flat(e) {
      PieceGrew(Flat(part), Straight(part), c0, b0, c1, b1);
      PieceGrew(true, true, c1, b1, c2, b1);
      OneSim(e, given, c2, b0, |c0[b0]|, c1, b1);
    }
  }

  lemma OneSim(e: Expr, given: bool, c2: Code, b0: nat, p0: nat, c1: Code, b1: nat)
    requires (e.New? || e.Member? || e.Not?) && b1 < |c1| && c2 == Put(c1, b1, Behind(e, given))
    requires Sim(c1, PartOf(e), !e.Not?, b0, p0, b1, |c1[b1]|) && Extends(c1, c2)
    ensures Sim(c2, e, given, b0, p0, b1, |c2[b1]|)
  {
    hide Comes, Eval, Picks, PartOf, Behind, EventsBehind;
    var part, evs, i := PartOf(e), EventsBehind(e, given), if e.Not? then Flip else Pick;
    var p1 := |c1[b1]|;
    SimExtends(c1, c2, part, !e.Not?, b0, p0, b1, p1);
    OneIs(e, given);
    PutHas(c1, b1, Dos(evs) + [i]);
    forall f: Code, a: Answer, s: Config, more: seq<bool> | Extends(c2, f) && s.blk == b0 && s.pc == p0 && s.picks == Picks(e, a) + more
      ensures var g := Eval(e, given, a); Comes(f, s, b1, |c2[b1]|, g.truth, more, s.trace + g.ev)
    {
      OneDoes(e, given, a, more);
      var g, rest := Eval(part, !e.Not?, Of(a, 0)), (if e.Not? then [] else [a.truth]) + more;
      HasExtends(c2, f, b1, p1, Dos(evs) + [i]);
      HasSplit(f, b1, p1, Dos(evs), [i]);
      ComesStart(f, s);
      ComesSim(c2, f, s, part, !e.Not?, Of(a, 0), b0, p0, b1, p1, s.truth, rest, s.trace);
      ComesDos(f, s, b1, p1, g.truth, rest, s.trace + g.ev, evs);
      ComesOn(f, s, b1, p1 + |evs|, g.truth, rest, s.trace + g.ev + evs, i);
      assert s.trace + g.ev + evs == s.trace + (g.ev + evs);
      assert |c2[b1]| == p1 + |evs| + 1;
      if !e.Not? {
        assert rest[0] == a.truth && rest[1..] == more;
      }
    }
  }

  // ---- `&&` and `||`

  /** The same with events behind the expression. */
  ghost predicate SimWith(c: Code, e: Expr, given: bool, evs: seq<Event>, b0: nat, p0: nat, b1: nat, p1: nat) {
    forall f: Code, a: Answer, s: Config, more: seq<bool> :: Extends(c, f) && s.blk == b0 && s.pc == p0 && s.picks == Picks(e, a) + more ==>
      var g := Eval(e, given, a); Comes(f, s, b1, p1, g.truth, more, s.trace + (g.ev + evs))
  }

  ghost predicate CompiledWith(e: Expr, given: bool, evs: seq<Event>, c0: Code, b0: nat, c1: Code, b1: nat) {
    && Piece(Flat(e), Straight(e), c0, b0, c1, b1)
    && (Flat(e) ==> SimWith(c1, e, given, evs, b0, |c0[b0]|, b1, |c1[b1]|))
  }

  lemma PlainDos(evs: seq<Event>)
    ensures Plain(Dos(evs)) && |Dos(evs)| == |evs|
  {
  }

  lemma WithCompiled(e: Expr, given: bool, evs: seq<Event>, c0: Code, b0: nat, c1: Code, b1: nat)
    requires Compiled(e, given, c0, b0, c1, b1) && b1 < |c1|
    ensures CompiledWith(e, given, evs, c0, b0, Put(c1, b1, Dos(evs)), b1)
  {
    hide Grew, Good, Spoilt, Comes, Eval, Picks, Sim, Flat, Straight, Compiled, Piece, Dos, SimWith;
    var c2 := Put(c1, b1, Dos(evs));
    PlainDos(evs);
    CompiledIs(e, given, c0, b0, c1, b1);
    PiecePut(c1, b1, Dos(evs));
    PieceThen(Flat(e), Straight(e), c0, b0, c1, b1, true, true, c2, b1);
    if Flat(e) {
      PieceGrew(Flat(e), Straight(e), c0, b0, c1, b1);
      PieceGrew(true, true, c1, b1, c2, b1);
      WithSim(e, given, evs, c2, b0, |c0[b0]|, c1, b1);
    }
  }

  lemma WithSim(e: Expr, given: bool, evs: seq<Event>, c2: Code, b0: nat, p0: nat, c1: Code, b1: nat)
    requires b1 < |c1| && c2 == Put(c1, b1, Dos(evs)) && Extends(c1, c2)
    requires Sim(c1, e, given, b0, p0, b1, |c1[b1]|)
    ensures SimWith(c2, e, given, evs, b0, p0, b1, |c2[b1]|)
  {
    hide Comes, Eval, Picks, Dos;
    var p1 := |c1[b1]|;
    SimExtends(c1, c2, e, given, b0, p0, b1, p1);
    PutHas(c1, b1, Dos(evs));
    PlainDos(evs);
    forall f: Code, a: Answer, s: Config, more: seq<bool> | Extends(c2, f) && s.blk == b0 && s.pc == p0 && s.picks == Picks(e, a) + more
      ensures var g := Eval(e, given, a); Comes(f, s, b1, |c2[b1]|, g.truth, more, s.trace + (g.ev + evs))
    {
      var g := Eval(e, given, a);
      HasExtends(c2, f, b1, p1, Dos(evs));
      ComesStart(f, s);
      ComesSim(c2, f, s, e, given, a, b0, p0, b1, p1, s.truth, more, s.trace);
      ComesDos(f, s, b1, p1, g.truth, more, s.trace + g.ev, evs);
      assert s.trace + g.ev + evs == s.trace + (g.ev + evs);
    }
  }

  lemma ComesWith(c: Code, f: Code, s: Config, e: Expr, given: bool, evs: seq<Event>, a: Answer, b: nat, p: nat, b1: nat, p1: nat,
                  truth: bool, more: seq<bool>, t: seq<Event>)
    requires SimWith(c, e, given, evs, b, p, b1, p1) && Extends(c, f) && Comes(f, s, b, p, truth, Picks(e, a) + more, t)
    ensures var g := Eval(e, given, a); Comes(f, s, b1, p1, g.truth, more, t + (g.ev + evs))
  {
    hide Reaches, Eval, Picks;
    var from: nat :| Reaches(f, s, Config(b, p, from, truth, Picks(e, a) + more, t));
    var mid, g := Config(b, p, from, truth, Picks(e, a) + more, t), Eval(e, given, a);
    assert Comes(f, mid, b1, p1, g.truth, more, mid.trace + (g.ev + evs));
    var from': nat :| Reaches(f, mid, Config(b1, p1, from', g.truth, more, t + (g.ev + evs)));
    ReachesThen(f, s, mid, Config(b1, p1, from', g.truth, more, t + (g.ev + evs)));
  }

  lemma WithExtends(c: Code, d: Code, e: Expr, given: bool, evs: seq<Event>, b0: nat, p0: nat, b1: nat, p1: nat)
    requires SimWith(c, e, given, evs, b0, p0, b1, p1) && Extends(c, d)
    ensures SimWith(d, e, given, evs, b0, p0, b1, p1)
  {
    hide Comes, Eval, Picks;
    forall f: Code | Extends(d, f) ensures Extends(c, f) {
      ExtendsThen(c, d, f);
    }
  }

  /** Where the truth of an expression is wanted, a new object is destroyed behind it. */
  function Ending(e: Expr): seq<Event> {
    Dtors(SlotOf(e))
  }

  /** The steps of `&&` and `||`: two blocks are made, the left operand ends in a branch,
      the right operand in a jump, and the phi names the block in which each of them was
      begun. */
  ghost predicate ShortSteps(e: Expr, c0: Code, b0: nat, c2: Code, b2: nat, c3: Code, c4: Code, b4: nat, c6: Code)
    requires e.And? || e.Or?
  {
    var rhs, done := |c0|, |c0| + 1;
    && b0 < |c0| && b2 < |c2| && b4 < |c4| && done < |c4|
    && c3 == Put(c2, b2, [if e.And? then CondBr(rhs, done) else CondBr(done, rhs)])
    && c6 == Put(Put(c4, b4, [Br(done)]), done, [Phi([Entry(b0, Some(e.Or?)), Entry(rhs, None)])])
  }

  lemma JumpPut(c: Code, b: nat, i: Instr, d: nat, to: nat)
    requires b < |c| && d < |c|
    ensures JumpsTo(Put(c, b, [i])[d], to) <==> JumpsTo(c[d], to) || (d == b && JumpsTo([i], to))
  {
    JumpsMore(c[b], [i], to);
  }

  lemma JumpOne(i: Instr, to: nat)
    ensures JumpsTo([i], to) <==> i == Br(to) || (i.CondBr? && (i.ifTrue == to || i.ifFalse == to))
  {
    assert [i][0] == i;
  }

  /** Where the blocks of a short circuit jump to. */
  lemma ShortJumps(e: Expr, c0: Code, b0: nat, c2: Code, b2: nat, c3: Code, c4: Code, b4: nat, c6: Code, d: nat, to: nat)
    requires (e.And? || e.Or?) && ShortSteps(e, c0, b0, c2, b2, c3, c4, b4, c6)
    requires Grew(c0 + [[], []], b0, c2, b2) && Grew(c3, |c0|, c4, b4) && d < |c6|
    ensures to < |c0| ==> (JumpsTo(c6[d], to) <==> d < |c0| && JumpsTo(c0[d], to))
    ensures to == |c0| ==> (JumpsTo(c6[d], to) <==> d == b2 || (d < |c0| && JumpsTo(c0[d], to)))
    ensures to == |c0| + 1 ==> (JumpsTo(c6[d], to) <==> d == b2 || d == b4 || (d < |c0| && JumpsTo(c0[d], to)))
  {
    hide JumpsTo, Grew;
    var c1, rhs, done := c0 + [[], []], |c0|, |c0| + 1;
    var i := if e.And? then CondBr(rhs, done) else CondBr(done, rhs);
    var c5, phi := Put(c4, b4, [Br(done)]), Phi([Entry(b0, Some(e.Or?)), Entry(rhs, None)]);
    JumpPut(c5, done, phi, d, to);
    JumpOne(phi, to);
    JumpPut(c4, b4, Br(done), d, to);
    JumpOne(Br(done), to);
    GrewExtends(c1, b0, c2, b2);
    GrewExtends(c3, rhs, c4, b4);
    if to < |c1| {
      JumpsKept(c3, rhs, c4, b4, d, to);
      if d < |c3| {
        JumpPut(c2, b2, i, d, to);
        JumpOne(i, to);
        JumpsKept(c1, b0, c2, b2, d, to);
        NoJumps(to);
      }
    }
  }

  lemma NoJumps(to: nat)
    ensures !JumpsTo([], to)
  {
  }

  /** What the blocks of a short circuit hold. */
  lemma ShortBlocks(e: Expr, c0: Code, b0: nat, c2: Code, b2: nat, c3: Code, c4: Code, b4: nat, c6: Code)
    requires (e.And? || e.Or?) && ShortSteps(e, c0, b0, c2, b2, c3, c4, b4, c6)
    requires Grew(c0 + [[], []], b0, c2, b2) && Grew(c3, |c0|, c4, b4)
    ensures |c0| + 2 <= |c2| == |c3| <= |c4| == |c6| && b2 != b4 && b0 < |c0| && b2 < |c2| && b4 < |c4|
    ensures var i := if e.And? then CondBr(|c0|, |c0| + 1) else CondBr(|c0| + 1, |c0|);
      c6[b2] == c2[b2] + [i] && c6[b4] == c4[b4] + [Br(|c0| + 1)]
    ensures c6[|c0| + 1] == [Phi([Entry(b0, Some(e.Or?)), Entry(|c0|, None)])]
    ensures c3[|c0|] == [] && (b2 != b0 ==> c6[b0] == c2[b0]) && (b4 != |c0| ==> c6[|c0|] == c4[|c0|])
    ensures forall b: nat :: b < |c0| && b != b0 ==> c6[b] == c0[b]
    ensures forall b: nat :: |c0| + 2 <= b < |c2| && b != b2 ==> c6[b] == c2[b]
    ensures forall b: nat :: |c2| <= b < |c4| && b != b4 ==> c6[b] == c4[b]
  {
    hide JumpsTo, NoPhi;
    var c1, rhs, done := c0 + [[], []], |c0|, |c0| + 1;
    assert c1[rhs] == [] && c1[done] == [];
    assert [] + [Phi([Entry(b0, Some(e.Or?)), Entry(rhs, None)])] == [Phi([Entry(b0, Some(e.Or?)), Entry(rhs, None)])];
  }

  lemma ShortGrew(e: Expr, c0: Code, b0: nat, c2: Code, b2: nat, c3: Code, c4: Code, b4: nat, c6: Code)
    requires (e.And? || e.Or?) && ShortSteps(e, c0, b0, c2, b2, c3, c4, b4, c6)
    requires Grew(c0 + [[], []], b0, c2, b2) && Grew(c3, |c0|, c4, b4)
    ensures Grew(c0, b0, c6, |c0| + 1)
    ensures Within(c0) && Within(c2) && (Within(c3) ==> Within(c4)) ==> Within(c6)
  {
    hide JumpsTo, ShortSteps;
    var c1 := c0 + [[], []];
    ShortBlocks(e, c0, b0, c2, b2, c3, c4, b4, c6);
    assert c1[b0] == c0[b0];
    assert c6[b0] == c2[b0] || c6[b0] == c2[b0] + [if e.And? then CondBr(|c0|, |c0| + 1) else CondBr(|c0| + 1, |c0|)];
    assert NoPhi(c6[b0][|c0[b0]|..]) by {
      assert c2[b0][|c0[b0]|..] == c2[b0][|c1[b0]|..];
      NoPhiMore(c2[b0], |c0[b0]|, if e.And? then CondBr(|c0|, |c0| + 1) else CondBr(|c0| + 1, |c0|));
    }
    forall d: nat, to: nat | d < |c6| && to < |c0| && JumpsTo(c6[d], to) ensures d < |c0| && JumpsTo(c0[d], to) {
      ShortJumps(e, c0, b0, c2, b2, c3, c4, b4, c6, d, to);
    }
    if Within(c0) && Within(c2) && (Within(c3) ==> Within(c4)) {
      ShortWithin(e, c0, b0, c2, b2, c3, c4, b4, c6);
    }
  }

  lemma NoPhiMore(code: seq<Instr>, n: nat, i: Instr)
    requires n <= |code| && NoPhi(code[n..]) && !i.Phi?
    ensures NoPhi((code + [i])[n..])
  {
    assert (code + [i])[n..] == code[n..] + [i];
  }

  lemma WithinPut(c: Code, b: nat, i: Instr)
    requires b < |c| && Within(c) && (i.Br? ==> i.to < |c|) && (i.CondBr? ==> i.ifTrue < |c| && i.ifFalse < |c|)
    ensures Within(Put(c, b, [i]))
  {
    hide JumpsTo;
    forall d: nat, to: nat | d < |c| && JumpsTo(Put(c, b, [i])[d], to) ensures to < |c| {
      JumpPut(c, b, i, d, to);
      JumpOne(i, to);
    }
  }

  lemma ShortWithin(e: Expr, c0: Code, b0: nat, c2: Code, b2: nat, c3: Code, c4: Code, b4: nat, c6: Code)
    requires (e.And? || e.Or?) && ShortSteps(e, c0, b0, c2, b2, c3, c4, b4, c6) && |c0| + 2 <= |c2|
    requires Within(c2) && (Within(c3) ==> Within(c4))
    ensures Within(c6)
  {
    hide Within;
    WithinPut(c2, b2, if e.And? then CondBr(|c0|, |c0| + 1) else CondBr(|c0| + 1, |c0|));
    WithinPut(c4, b4, Br(|c0| + 1));
    WithinPut(Put(c4, b4, [Br(|c0| + 1)]), |c0| + 1, Phi([Entry(b0, Some(e.Or?)), Entry(|c0|, None)]));
  }

  lemma OpenThen(code: seq<Instr>, i: Instr)
    requires Open(code) && IsTerminator(i)
    ensures OneTerminator(code + [i])
  {
    assert (code + [i])[..|code|] == code;
  }

  /** If both operands stay in their blocks, the phi is right. */
  lemma ShortGood(e: Expr, c0: Code, b0: nat, c2: Code, c3: Code, c4: Code, c6: Code)
    requires (e.And? || e.Or?) && ShortSteps(e, c0, b0, c2, b0, c3, c4, |c0|, c6)
    requires Grew(c0 + [[], []], b0, c2, b0) && Grew(c3, |c0|, c4, |c0|) && |c2| == |c0| + 2 == |c4|
    requires Within(c0) && Open(c2[b0]) && Open(c4[|c0|])
    ensures Good(c0, b0, c6, |c0| + 1)
  {
    hide JumpsTo, Grew, ShortSteps;
    var rhs, done := |c0|, |c0| + 1;
    ShortBlocks(e, c0, b0, c2, b0, c3, c4, rhs, c6);
    OpenThen(c2[b0], if e.And? then CondBr(rhs, done) else CondBr(done, rhs));
    OpenThen(c4[rhs], Br(done));
    RightNoPhi(c3, rhs, c4, rhs, c6, done);
    var entries := [Entry(b0, Some(e.Or?)), Entry(rhs, None)];
    assert c6[done] == [Phi(entries)];
    forall d: nat ensures Names(entries, d) <==> d < |c6| && JumpsTo(c6[d], done) {
      assert entries[0].block == b0 && entries[1].block == rhs;
      if d < |c6| {
        ShortJumps(e, c0, b0, c2, b0, c3, c4, rhs, c6, d, done);
      }
    }
  }

  /** A block that was empty before a piece of code without phis. */
  lemma RightNoPhi(c: Code, b: nat, c': Code, b': nat, f: Code, to: nat)
    requires Grew(c, b, c', b') && c[b] == [] && b < |f| && (f[b] == c'[b] || f[b] == c'[b] + [Br(to)])
    ensures PhisRight(f, b)
  {
    hide JumpsTo, Names;
    assert c'[b][0..] == c'[b];
    assert NoPhi(c'[b]);
  }

  /** Otherwise it names a block that does not jump there. */
  lemma ShortSpoilt(e: Expr, c0: Code, b0: nat, c2: Code, b2: nat, c3: Code, c4: Code, b4: nat, c6: Code)
    requires (e.And? || e.Or?) && ShortSteps(e, c0, b0, c2, b2, c3, c4, b4, c6)
    requires Grew(c0 + [[], []], b0, c2, b2) && Grew(c3, |c0|, c4, b4)
    requires Within(c0) && (b2 != b0 || b4 != |c0|)
    ensures Spoilt(c0, b0, c6)
  {
    hide JumpsTo, Grew, ShortSteps;
    var rhs, done := |c0|, |c0| + 1;
    var entries := [Entry(b0, Some(e.Or?)), Entry(rhs, None)];
    ShortBlocks(e, c0, b0, c2, b2, c3, c4, b4, c6);
    ShortApart(c0, b0, c2, b2, c3, c4, b4);
    var d := if b2 != b0 then b0 else rhs;
    ShortJumps(e, c0, b0, c2, b2, c3, c4, b4, c6, d, done);
    assert entries[0].block == b0 && entries[1].block == rhs;
    assert Names(entries, d) && !JumpsTo(c6[d], done);
    assert c6[done][0] == Phi(entries);
    assert PhiWrong(c6, done);
    assert Wrong(c6, |c0|, done);
  }

  lemma ShortApart(c0: Code, b0: nat, c2: Code, b2: nat, c3: Code, c4: Code, b4: nat)
    requires Grew(c0 + [[], []], b0, c2, b2) && Grew(c3, |c0|, c4, b4) && |c2| == |c3| && b0 < |c0|
    ensures b2 != |c0| && b4 != b0
  {
  }

  lemma ShortDoes(e: Expr, given: bool, a: Answer, more: seq<bool>)
    requires e.And? || e.Or?
    ensures var g, h := Eval(e.left, false, Of(a, 0)), Eval(e.right, false, Of(a, 1));
      var ev := g.ev + Ending(e.left);
      if g.truth == e.And? then
        && Eval(e, given, a).ev == ev + (h.ev + Ending(e.right)) && Eval(e, given, a).truth == h.truth
        && Picks(e, a) + more == Picks(e.left, Of(a, 0)) + (Picks(e.right, Of(a, 1)) + more)
      else
        && Eval(e, given, a).ev == ev && Eval(e, given, a).truth == g.truth == e.Or?
        && Picks(e, a) + more == Picks(e.left, Of(a, 0)) + more
  {
    hide Eval, Picks, Ending;
    ShortPicks(e, a, more);
    ShortEval(e, given, a);
  }

  lemma ShortPicks(e: Expr, a: Answer, more: seq<bool>)
    requires e.And? || e.Or?
    ensures Picks(e, a) + more == Picks(e.left, Of(a, 0)) +
      ((if Eval(e.left, false, Of(a, 0)).truth == e.And? then Picks(e.right, Of(a, 1)) else []) + more)
    ensures [] + more == more
  {
    hide Eval;
  }

  lemma ShortEval(e: Expr, given: bool, a: Answer)
    requires e.And? || e.Or?
    ensures var g, h := Eval(e.left, false, Of(a, 0)), Eval(e.right, false, Of(a, 1));
      var ev, r := g.ev + Ending(e.left), Eval(e, given, a);
      if g.truth == e.And? then r.ev == ev + (h.ev + Ending(e.right)) && r.truth == h.truth
      else r.ev == ev && r.truth == g.truth == e.Or?
  {
    EvalMakes(e.left, false, Of(a, 0));
    EvalMakes(e.right, false, Of(a, 1));
  }

  lemma ShortSim(e: Expr, given: bool, c0: Code, b0: nat, c2: Code, c4: Code, c6: Code)
    requires (e.And? || e.Or?) && b0 < |c0| && b0 < |c2| && |c0| < |c4| && |c0| + 1 < |c6|
    requires SimWith(c2, e.left, false, Ending(e.left), b0, |c0[b0]|, b0, |c2[b0]|) && Extends(c2, c6)
    requires SimWith(c4, e.right, false, Ending(e.right), |c0|, 0, |c0|, |c4[|c0|]|) && Extends(c4, c6)
    requires Has(c6, b0, |c2[b0]|, [if e.And? then CondBr(|c0|, |c0| + 1) else CondBr(|c0| + 1, |c0|)])
    requires Has(c6, |c0|, |c4[|c0|]|, [Br(|c0| + 1)])
    requires Has(c6, |c0| + 1, 0, [Phi([Entry(b0, Some(e.Or?)), Entry(|c0|, None)])])
    ensures Sim(c6, e, given, b0, |c0[b0]|, |c0| + 1, 1)
  {
    hide Comes, Eval, Picks, Reaches, Has, SimWith, Ending;
    var rhs, done, p0, entries := |c0|, |c0| + 1, |c0[b0]|, [Entry(b0, Some(e.Or?)), Entry(|c0|, None)];
    var i := if e.And? then CondBr(rhs, done) else CondBr(done, rhs);
    WithExtends(c2, c6, e.left, false, Ending(e.left), b0, p0, b0, |c2[b0]|);
    WithExtends(c4, c6, e.right, false, Ending(e.right), rhs, 0, rhs, |c4[rhs]|);
    forall f: Code, a: Answer, s: Config, more: seq<bool> | Extends(c6, f) && s.blk == b0 && s.pc == p0 && s.picks == Picks(e, a) + more
      ensures var g := Eval(e, given, a); Comes(f, s, done, 1, g.truth, more, s.trace + g.ev)
    {
      ShortDoes(e, given, a, more);
      HasExtends(c6, f, b0, |c2[b0]|, [i]);
      HasExtends(c6, f, rhs, |c4[rhs]|, [Br(done)]);
      HasExtends(c6, f, done, 0, [Phi(entries)]);
      var g, h := Eval(e.left, false, Of(a, 0)), Eval(e.right, false, Of(a, 1));
      var left := (if g.truth == e.And? then Picks(e.right, Of(a, 1)) else []) + more;
      var ev, ev' := g.ev + Ending(e.left), h.ev + Ending(e.right);
      var t := s.trace + ev;
      assert [] + more == more;
      ComesStart(f, s);
      ComesWith(c6, f, s, e.left, false, Ending(e.left), Of(a, 0), b0, p0, b0, |c2[b0]|, s.truth, left, s.trace);
      ComesOn(f, s, b0, |c2[b0]|, g.truth, left, t, i);
      if g.truth == e.And? {
        ComesFrom(f, s, rhs, 0, b0, g.truth, left, t);
        ComesWith(c6, f, s, e.right, false, Ending(e.right), Of(a, 1), rhs, 0, rhs, |c4[rhs]|, g.truth, more, t);
        ComesOn(f, s, rhs, |c4[rhs]|, h.truth, more, t + ev', Br(done));
        IncomingTwo(entries, rhs, h.truth);
        ComesPhi(f, s, done, rhs, h.truth, more, t + ev', entries);
        assert t + ev' == s.trace + (ev + ev');
      } else {
        IncomingTwo(entries, b0, g.truth);
        ComesPhi(f, s, done, b0, g.truth, more, t, entries);
      }
    }
  }

  lemma IncomingTwo(entries: seq<Entry>, from: nat, truth: bool)
    requires |entries| == 2
    ensures entries[0].block == from ==> Incoming(entries, from, truth) == Some(if entries[0].known.Some? then entries[0].known.value else truth)
    ensures entries[0].block != from && entries[1].block == from ==>
      Incoming(entries, from, truth) == Some(if entries[1].known.Some? then entries[1].known.value else truth)
  {
    assert entries[1..][0] == entries[1];
  }

  lemma ShortCompiled(e: Expr, given: bool, c0: Code, b0: nat, c2: Code, b2: nat, c3: Code, c4: Code, b4: nat, c6: Code)
    requires (e.And? || e.Or?) && ShortSteps(e, c0, b0, c2, b2, c3, c4, b4, c6) && Within(c0)
    requires CompiledWith(e.left, false, Ending(e.left), c0 + [[], []], b0, c2, b2)
    requires CompiledWith(e.right, false, Ending(e.right), c3, |c0|, c4, b4)
    ensures Compiled(e, given, c0, b0, c6, |c0| + 1)
  {
    hide Grew, Good, Spoilt, Sim, SimWith, ShortSteps, Within, JumpsTo, Open, Extends, Has, Ending;
    var c1 := c0 + [[], []];
    NewBlocksWithin(c0, [[], []]);
    WithParts(e.left, false, Ending(e.left), c1, b0, c2, b2);
    WithParts(e.right, false, Ending(e.right), c3, |c0|, c4, b4);
    ShortBlocks(e, c0, b0, c2, b2, c3, c4, b4, c6);
    ShortGrew(e, c0, b0, c2, b2, c3, c4, b4, c6);
    GrewExtends(c1, b0, c2, b2);
    if Flat(e) {
      StraightIsFlat(e.left);
      StraightIsFlat(e.right);
      OpenEmpty();
      if Open(c0[b0]) {
        GoodOpen(c1, b0, c2, b0);
        GoodOpen(c3, |c0|, c4, |c0|);
        ShortGood(e, c0, b0, c2, c3, c4, c6);
      }
      ShortHas(e, c0, b0, c2, c3, c4, c6);
      ShortSim(e, given, c0, b0, c2, c4, c6);
    } else {
      ShortSpoilt(e, c0, b0, c2, b2, c3, c4, b4, c6);
    }
  }

  lemma OpenEmpty()
    ensures Open([])
  {
  }

  lemma GoodOpen(c0: Code, b0: nat, c1: Code, b1: nat)
    requires Good(c0, b0, c1, b1)
    ensures b1 < |c1| && Open(c1[b1])
  {
  }

  lemma NewBlocksWithin(c: Code, more: Code)
    requires Within(c) && forall k: nat :: k < |more| ==> more[k] == []
    ensures Within(c + more)
  {
    hide JumpsTo;
    forall b: nat, to: nat | b < |c + more| && JumpsTo((c + more)[b], to) ensures to < |c + more| {
      NoJumps(to);
    }
  }

  lemma WithParts(e: Expr, given: bool, evs: seq<Event>, c0: Code, b0: nat, c1: Code, b1: nat)
    requires CompiledWith(e, given, evs, c0, b0, c1, b1)
    ensures Grew(c0, b0, c1, b1) && (b1 == b0 <==> Straight(e)) && (Straight(e) ==> |c1| == |c0|) && (Within(c0) ==> Within(c1))
    ensures b0 < |c0| <= |c1| && b1 < |c1|
    ensures Open(c0[b0]) ==> if Flat(e) then Good(c0, b0, c1, b1) else Spoilt(c0, b0, c1)
    ensures Flat(e) ==> SimWith(c1, e, given, evs, b0, |c0[b0]|, b1, |c1[b1]|)
  {
    hide Good, Spoilt, SimWith;
  }

  lemma ShortHas(e: Expr, c0: Code, b0: nat, c2: Code, c3: Code, c4: Code, c6: Code)
    requires (e.And? || e.Or?) && ShortSteps(e, c0, b0, c2, b0, c3, c4, |c0|, c6)
    requires Grew(c0 + [[], []], b0, c2, b0) && Grew(c3, |c0|, c4, |c0|)
    ensures Extends(c2, c6) && Extends(c4, c6) && b0 < |c2| && |c0| < |c4| && |c0| + 1 < |c6|
    ensures Has(c6, b0, |c2[b0]|, [if e.And? then CondBr(|c0|, |c0| + 1) else CondBr(|c0| + 1, |c0|)])
    ensures Has(c6, |c0|, |c4[|c0|]|, [Br(|c0| + 1)])
    ensures Has(c6, |c0| + 1, 0, [Phi([Entry(b0, Some(e.Or?)), Entry(|c0|, None)])])
  {
    hide JumpsTo, NoPhi;
    ShortBlocks(e, c0, b0, c2, b0, c3, c4, |c0|, c6);
  }

  // ---- `?:`

  /** The condition starts in the current block if that is empty, else in a new one. */
  ghost predicate Starts(c: Code, b: nat, c': Code, next: nat)
    requires b < |c|
  {
    if c[b] == [] then next == b && c' == c else next == |c| && c' == Put(c + [[]], b, [Br(next)])
  }

  /** The events at the end of each branch: the object that becomes the value. */
  function ResultEvents(e: Expr, given: bool): seq<Event>
    requires e.Choose?
  {
    if e.slot.Some? && !given then [Ctor(Temp(e.slot.value))] else []
  }

  /** A value that is no object is taken from the branch that was run. */
  function Joint(e: Expr, given: bool, troo: nat): seq<Instr>
    requires e.Choose?
  {
    if e.slot.None? && !given then [Phi([Entry(troo, None), Entry(troo + 1, None)])] else []
  }

  /** The steps of `?:`: three blocks are made behind that of the condition, and both
      branches are linked to the third at the blocks in which they were begun. */
  ghost predicate ChooseSteps(e: Expr, given: bool, c1: Code, c3: Code, b3: nat, c4: Code, c5: Code, c6: Code, c9: Code)
    requires e.Choose?
  {
    var troo, fols, done := |c1|, |c1| + 1, |c1| + 2;
    && b3 < |c3| && c4 == Put(c3, b3, [CondBr(troo, fols)])
    && done < |c6| && c9 == Put(Put(Put(c6, troo, [Br(done)]), fols, [Br(done)]), done, Joint(e, given, troo))
  }

  lemma StartsSo(c0: Code, b0: nat, c1: Code, next: nat)
    requires b0 < |c0| && Starts(c0, b0, c1, next)
    ensures |c0| <= |c1| && next < |c1| && c1[next] == [] && (next == b0 || next >= |c0|)
    ensures forall b: nat :: b < |c0| && b != b0 ==> c1[b] == c0[b]
    ensures next != b0 ==> next == |c0| && |c1| == |c0| + 1 && c1[b0] == c0[b0] + [Br(next)] && c0[b0] != []
    ensures next == b0 ==> c1 == c0
    ensures Within(c0) ==> Within(c1)
  {
    hide JumpsTo;
    if next != b0 && Within(c0) {
      NewBlocksWithin(c0, [[]]);
      WithinPut(c0 + [[]], b0, Br(next));
    }
  }

  /** What the blocks of a choice hold, and where they jump to. */
  lemma ChooseJumps(e: Expr, given: bool, c1: Code, c3: Code, b3: nat, c4: Code, c5: Code, b5: nat, c6: Code, b6: nat, c9: Code,
                    condB: nat, d: nat, to: nat)
    requires e.Choose? && ChooseSteps(e, given, c1, c3, b3, c4, c5, c6, c9) && d < |c9|
    requires Grew(c1 + [[], [], []], condB, c3, b3) && Grew(c4, |c1|, c5, b5) && Grew(c5, |c1| + 1, c6, b6)
    ensures to < |c1| ==> (JumpsTo(c9[d], to) <==> d < |c1| && JumpsTo(c1[d], to))
    ensures to == |c1| + 2 ==> (JumpsTo(c9[d], to) <==> d == |c1| || d == |c1| + 1 || (d < |c1| && JumpsTo(c1[d], to)))
    ensures |c1| + 3 <= to < |c3| ==> (JumpsTo(c9[d], to) <==> d < |c3| && JumpsTo(c3[d], to))
    ensures |c1| + 3 <= to < |c6| ==> (JumpsTo(c9[d], to) <==> d < |c6| && JumpsTo(c6[d], to))
  {
    hide JumpsTo, Grew;
    var c2, troo, fols, done := c1 + [[], [], []], |c1|, |c1| + 1, |c1| + 2;
    GrewExtends(c2, condB, c3, b3);
    GrewExtends(c4, troo, c5, b5);
    GrewExtends(c5, fols, c6, b6);
    var c7 := Put(c6, troo, [Br(done)]);
    var c8 := Put(c7, fols, [Br(done)]);
    JointJumps(e, given, c8, troo, d, to);
    JumpPut(c7, fols, Br(done), d, to);
    JumpPut(c6, troo, Br(done), d, to);
    JumpOne(Br(done), to);
    if to < |c3| {
      if d < |c6| {
        JumpsKept(c5, fols, c6, b6, d, to);
      }
      if d < |c5| {
        JumpsKept(c4, troo, c5, b5, d, to);
      }
      if d < |c3| {
        JumpPut(c3, b3, CondBr(troo, fols), d, to);
        JumpOne(CondBr(troo, fols), to);
        if to < |c2| {
          JumpsKept(c2, condB, c3, b3, d, to);
        }
      }
      NoJumps(to);
    }
  }

  lemma JointJumps(e: Expr, given: bool, c: Code, troo: nat, d: nat, to: nat)
    requires e.Choose? && troo + 2 < |c| && d < |c|
    ensures JumpsTo(Put(c, troo + 2, Joint(e, given, troo))[d], to) <==> JumpsTo(c[d], to)
  {
    JumpsMore(c[troo + 2], Joint(e, given, troo), to);
  }

  lemma ChooseBlocks(e: Expr, given: bool, c1: Code, c3: Code, b3: nat, c4: Code, c5: Code, b5: nat, c6: Code, b6: nat, c9: Code, condB: nat)
    requires e.Choose? && ChooseSteps(e, given, c1, c3, b3, c4, c5, c6, c9)
    requires Grew(c1 + [[], [], []], condB, c3, b3) && Grew(c4, |c1|, c5, b5) && Grew(c5, |c1| + 1, c6, b6) && condB < |c1|
    ensures |c1| + 3 <= |c3| == |c4| <= |c5| <= |c6| == |c9| && (b3 == condB || b3 >= |c1| + 3)
    ensures c4[|c1|] == [] && c5[|c1| + 1] == []
    ensures c9[b3] == c3[b3] + [CondBr(|c1|, |c1| + 1)]
    ensures c9[|c1|] == c5[|c1|] + [Br(|c1| + 2)] && c9[|c1| + 1] == c6[|c1| + 1] + [Br(|c1| + 2)]
    ensures c9[|c1| + 2] == Joint(e, given, |c1|)
    ensures forall b: nat :: b < |c1| && b != condB ==> c9[b] == c1[b]
    ensures forall b: nat :: b < |c3| && b != b3 && !(|c1| <= b < |c1| + 3) ==> c9[b] == c3[b]
    ensures forall b: nat :: |c3| <= b < |c5| ==> c9[b] == c5[b]
    ensures forall b: nat :: |c5| <= b < |c6| ==> c9[b] == c6[b]
  {
    hide JumpsTo, NoPhi, Joint;
    var c2 := c1 + [[], [], []];
    assert c2[|c1|] == c2[|c1| + 1] == c2[|c1| + 2] == [];
    assert [] + Joint(e, given, |c1|) == Joint(e, given, |c1|);
  }

  lemma ChooseGrew(e: Expr, given: bool, c0: Code, b0: nat, c1: Code, condB: nat, c3: Code, b3: nat, c4: Code, c5: Code, b5: nat,
                   c6: Code, b6: nat, c9: Code)
    requires e.Choose? && ChooseSteps(e, given, c1, c3, b3, c4, c5, c6, c9) && b0 < |c0| && Starts(c0, b0, c1, condB)
    requires Grew(c1 + [[], [], []], condB, c3, b3) && Grew(c4, |c1|, c5, b5) && Grew(c5, |c1| + 1, c6, b6)
    ensures Grew(c0, b0, c9, |c1| + 2)
  {
    hide JumpsTo, ChooseSteps, Starts, Within;
    StartsSo(c0, b0, c1, condB);
    ChooseBlocks(e, given, c1, c3, b3, c4, c5, b5, c6, b6, c9, condB);
    assert NoPhi(c9[b0][|c0[b0]|..]) by {
      if condB == b0 {
        var c2 := c1 + [[], [], []];
        assert c2[b0] == c1[b0] == [];
        assert c3[b0][|c2[b0]|..] == c3[b0] == c3[b0][|c0[b0]|..];
        NoPhiMore(c3[b0], 0, CondBr(|c1|, |c1| + 1));
        assert c9[b0][|c0[b0]|..] == c9[b0][0..];
      } else {
        assert c9[b0][|c0[b0]|..] == [Br(condB)];
      }
    }
    forall d: nat, to: nat | d < |c9| && to < |c0| && JumpsTo(c9[d], to) ensures d < |c0| && JumpsTo(c0[d], to) {
      ChooseJumps(e, given, c1, c3, b3, c4, c5, b5, c6, b6, c9, condB, d, to);
      if condB != b0 {
        StartJumps(c0, b0, c1, condB, d, to);
      }
    }
  }

  lemma StartJumps(c0: Code, b0: nat, c1: Code, next: nat, d: nat, to: nat)
    requires b0 < |c0| && Starts(c0, b0, c1, next) && next != b0 && d < |c1|
    ensures JumpsTo(c1[d], to) <==> (d < |c0| && JumpsTo(c0[d], to)) || (d == b0 && to == next)
  {
    hide JumpsTo;
    JumpPut(c0 + [[]], b0, Br(next), d, to);
    JumpOne(Br(next), to);
    NoJumps(to);
  }

  lemma ChooseWithin(e: Expr, given: bool, c1: Code, c3: Code, b3: nat, c4: Code, c5: Code, c6: Code, c9: Code)
    requires e.Choose? && ChooseSteps(e, given, c1, c3, b3, c4, c5, c6, c9) && |c1| + 3 <= |c3|
    requires Within(c3) && (Within(c4) ==> Within(c5)) && (Within(c5) ==> Within(c6))
    ensures Within(c9)
  {
    hide Within;
    var troo, done := |c1|, |c1| + 2;
    WithinPut(c3, b3, CondBr(troo, troo + 1));
    var c7 := Put(c6, troo, [Br(done)]);
    WithinPut(c6, troo, Br(done));
    var c8 := Put(c7, troo + 1, [Br(done)]);
    WithinPut(c7, troo + 1, Br(done));
    assert Within(c9) by {
      if Joint(e, given, troo) == [] {
        assert c8[done] + [] == c8[done];
        assert c9 == c8;
      } else {
        WithinPut(c8, done, Joint(e, given, troo)[0]);
      }
    }
  }

  lemma JointPhis(e: Expr, given: bool, c: Code, troo: nat)
    requires e.Choose? && troo + 2 < |c| && c[troo + 2] == Joint(e, given, troo)
    requires forall d: nat :: d < |c| ==> (JumpsTo(c[d], troo + 2) <==> d == troo || d == troo + 1)
    ensures PhisRight(c, troo + 2) && Open(c[troo + 2])
  {
    hide JumpsTo;
    var entries := [Entry(troo, None), Entry(troo + 1, None)];
    assert entries[0].block == troo && entries[1].block == troo + 1;
    forall d: nat ensures Names(entries, d) <==> d == troo || d == troo + 1 {
    }
  }

  /** A block with the same phis, and the same jumps to it. */
  lemma PhisSame(c: Code, c': Code, b: nat, i: Instr)
    requires b < |c| <= |c'| && PhisRight(c, b) && (c'[b] == c[b] || (c'[b] == c[b] + [i] && !i.Phi?))
    requires forall d: nat :: d < |c'| ==> (JumpsTo(c'[d], b) <==> d < |c| && JumpsTo(c[d], b))
    ensures PhisRight(c', b)
  {
    hide JumpsTo, Names;
    forall j: nat, d: nat | j < |c'[b]| && c'[b][j].Phi? ensures Names(c'[b][j].entries, d) <==> d < |c'| && JumpsTo(c'[d], b) {
      PhiSays(c, b, j, d);
    }
  }

  /** If both branches stay in their blocks and the condition is valid, so is the whole. */
  lemma ChooseGood(e: Expr, given: bool, c0: Code, b0: nat, c1: Code, condB: nat, c3: Code, b3: nat, c4: Code, c5: Code, c6: Code, c9: Code)
    requires e.Choose? && ChooseSteps(e, given, c1, c3, b3, c4, c5, c6, c9) && b0 < |c0| && Starts(c0, b0, c1, condB)
    requires Grew(c1 + [[], [], []], condB, c3, b3) && Grew(c4, |c1|, c5, |c1|) && Grew(c5, |c1| + 1, c6, |c1| + 1)
    requires |c6| == |c5| == |c4| && Open(c5[|c1|]) && Open(c6[|c1| + 1]) && Open(c0[b0]) && Within(c0)
    requires Good(c1 + [[], [], []], condB, c3, b3)
    ensures Good(c0, b0, c9, |c1| + 2)
  {
    hide JumpsTo, ChooseSteps, Starts, Within, PhisRight, Open, OneTerminator, Grew, Names;
    var troo, fols, done := |c1|, |c1| + 1, |c1| + 2;
    StartsSo(c0, b0, c1, condB);
    ChooseBlocks(e, given, c1, c3, b3, c4, c5, troo, c6, fols, c9, condB);
    OpenThen(c3[b3], CondBr(troo, fols));
    OpenThen(c5[troo], Br(done));
    OpenThen(c6[fols], Br(done));
    OpenThen(c0[b0], Br(condB));
    DoneJumps(e, given, c1, condB, c3, b3, c4, c5, c6, c9);
    JointPhis(e, given, c9, troo);
    forall b: nat | |c0| <= b < |c9| ensures PhisRight(c9, b) {
      if b == troo {
        RightNoPhi(c4, troo, c5, troo, c9, done);
      } else if b == fols {
        RightNoPhi(c5, fols, c6, fols, c9, done);
      } else if b == condB {
        CondNoPhi(c1, condB, c3, b3, c9);
      } else if b > done {
        forall d: nat | d < |c9| ensures JumpsTo(c9[d], b) <==> d < |c3| && JumpsTo(c3[d], b) {
          ChooseJumps(e, given, c1, c3, b3, c4, c5, troo, c6, fols, c9, condB, d, b);
        }
        PhisSame(c3, c9, b, CondBr(troo, fols));
      }
    }
  }

  lemma CondNoPhi(c1: Code, condB: nat, c3: Code, b3: nat, c9: Code)
    requires condB < |c1| && c1[condB] == [] && Grew(c1 + [[], [], []], condB, c3, b3) && condB < |c9|
    requires c9[condB] == c3[condB] || c9[condB] == c3[condB] + [CondBr(|c1|, |c1| + 1)]
    ensures PhisRight(c9, condB)
  {
    hide JumpsTo, Names;
    var c2 := c1 + [[], [], []];
    assert c2[condB] == [] && c3[condB][0..] == c3[condB];
    assert NoPhi(c3[condB]);
  }

  lemma DoneJumps(e: Expr, given: bool, c1: Code, condB: nat, c3: Code, b3: nat, c4: Code, c5: Code, c6: Code, c9: Code)
    requires e.Choose? && ChooseSteps(e, given, c1, c3, b3, c4, c5, c6, c9) && Within(c1)
    requires Grew(c1 + [[], [], []], condB, c3, b3) && Grew(c4, |c1|, c5, |c1|) && Grew(c5, |c1| + 1, c6, |c1| + 1)
    ensures forall d: nat :: d < |c9| ==> (JumpsTo(c9[d], |c1| + 2) <==> d == |c1| || d == |c1| + 1)
  {
    hide JumpsTo, ChooseSteps, Grew;
    forall d: nat | d < |c9| ensures JumpsTo(c9[d], |c1| + 2) <==> d == |c1| || d == |c1| + 1 {
      ChooseJumps(e, given, c1, c3, b3, c4, c5, |c1|, c6, |c1| + 1, c9, condB, d, |c1| + 2);
    }
  }

  lemma WrongStill(c: Code, f: Code, n: nat, m: nat, b: nat)
    requires b < |c| <= |f| && c[b] <= f[b] && Wrong(c, n, b) && m <= n
    requires b >= n ==> forall d: nat :: d < |c| && JumpsTo(f[d], b) ==> JumpsTo(c[d], b)
    ensures Wrong(f, m, b)
  {
    hide JumpsTo, Names;
    if |c[b]| > 0 && !Open(c[b][..|c[b]| - 1]) {
      var i: nat :| i < |c[b]| - 1 && IsTerminator(c[b][..|c[b]| - 1][i]);
      assert f[b][..|f[b]| - 1][i] == c[b][i];
    } else {
      var i: nat, k: nat :| i < |c[b]| && c[b][i].Phi? && k < |c| && Names(c[b][i].entries, k) && !JumpsTo(c[k], b);
      assert f[b][i] == c[b][i];
    }
  }

  lemma TwoTerminators(code: seq<Instr>, i: Instr, c: Code, n: nat, b: nat)
    requires OneTerminator(code) && IsTerminator(i) && b < |c| && c[b] == code + [i]
    ensures Wrong(c, n, b)
  {
    assert c[b][..|c[b]| - 1][|code| - 1] == code[|code| - 1];
  }

  /** A condition that is not valid stays so. */
  lemma ConditionSpoils(e: Expr, given: bool, c0: Code, b0: nat, c1: Code, condB: nat, c3: Code, b3: nat, c4: Code, c5: Code, b5: nat,
                        c6: Code, b6: nat, c9: Code)
    requires e.Choose? && ChooseSteps(e, given, c1, c3, b3, c4, c5, c6, c9) && b0 < |c0| && Starts(c0, b0, c1, condB)
    requires Grew(c1 + [[], [], []], condB, c3, b3) && Grew(c4, |c1|, c5, b5) && Grew(c5, |c1| + 1, c6, b6)
    requires Spoilt(c1 + [[], [], []], condB, c3)
    ensures Spoilt(c0, b0, c9)
  {
    hide JumpsTo, ChooseSteps, Starts, Wrong, Grew;
    var c2 := c1 + [[], [], []];
    StartsSo(c0, b0, c1, condB);
    ChooseBlocks(e, given, c1, c3, b3, c4, c5, b5, c6, b6, c9, condB);
    var b: nat :| b < |c3| && (b == condB || b >= |c2|) && Wrong(c3, |c2|, b);
    forall d: nat | d < |c3| && b >= |c2| && JumpsTo(c9[d], b) ensures JumpsTo(c3[d], b) {
      ChooseJumps(e, given, c1, c3, b3, c4, c5, b5, c6, b6, c9, condB, d, b);
    }
    WrongStill(c3, c9, |c2|, |c0|, b);
  }

  /** A branch that has gone on to another block: its first block gets a second
      terminator. */
  lemma BranchSpoils(e: Expr, given: bool, c0: Code, b0: nat, c1: Code, condB: nat, c3: Code, b3: nat, c4: Code, c5: Code, b5: nat,
                     c6: Code, b6: nat, c9: Code)
    requires e.Choose? && ChooseSteps(e, given, c1, c3, b3, c4, c5, c6, c9) && b0 < |c0| && Starts(c0, b0, c1, condB)
    requires Grew(c1 + [[], [], []], condB, c3, b3) && Grew(c4, |c1|, c5, b5) && Grew(c5, |c1| + 1, c6, b6)
    requires (b5 != |c1| && (Good(c4, |c1|, c5, b5) || Spoilt(c4, |c1|, c5))) ||
             (b6 != |c1| + 1 && (Good(c5, |c1| + 1, c6, b6) || Spoilt(c5, |c1| + 1, c6)))
    ensures Spoilt(c0, b0, c9)
  {
    hide JumpsTo, ChooseSteps, Starts, Wrong, Grew, OneTerminator, PhisRight, Open;
    var troo, fols, done := |c1|, |c1| + 1, |c1| + 2;
    StartsSo(c0, b0, c1, condB);
    ChooseBlocks(e, given, c1, c3, b3, c4, c5, b5, c6, b6, c9, condB);
    if b5 != troo && Good(c4, troo, c5, b5) {
      TwoTerminators(c5[troo], Br(done), c9, |c0|, troo);
    } else if b6 != fols && Good(c5, fols, c6, b6) {
      TwoTerminators(c6[fols], Br(done), c9, |c0|, fols);
    } else if b5 != troo && Spoilt(c4, troo, c5) {
      var b: nat :| b < |c5| && (b == troo || b >= |c4|) && Wrong(c5, |c4|, b);
      forall d: nat | d < |c5| && b >= |c4| && JumpsTo(c9[d], b) ensures JumpsTo(c5[d], b) {
        ChooseJumps(e, given, c1, c3, b3, c4, c5, b5, c6, b6, c9, condB, d, b);
        JumpsKept(c5, fols, c6, b6, d, b);
      }
      WrongStill(c5, c9, |c4|, |c0|, b);
    } else {
      var b: nat :| b < |c6| && (b == fols || b >= |c5|) && Wrong(c6, |c5|, b);
      forall d: nat | d < |c6| && b >= |c5| && JumpsTo(c9[d], b) ensures JumpsTo(c6[d], b) {
        ChooseJumps(e, given, c1, c3, b3, c4, c5, b5, c6, b6, c9, condB, d, b);
      }
      WrongStill(c6, c9, |c5|, |c0|, b);
    }
  }

  lemma ChooseDoes(e: Expr, given: bool, a: Answer, more: seq<bool>)
    requires e.Choose?
    ensures var g := Eval(e.test, false, Of(a, 0));
      var branch, part := if g.truth then e.troo else e.fols, if g.truth then Of(a, 1) else Of(a, 2);
      var h := Eval(branch, true, part);
      && Eval(e, given, a).ev == g.ev + Ending(e.test) + (h.ev + ResultEvents(e, given)) && Eval(e, given, a).truth == h.truth
      && Picks(e, a) + more == Picks(e.test, Of(a, 0)) + (Picks(branch, part) + more)
  {
    hide Eval, Picks;
    ChoosePicks(e, a, more);
    ChooseEval(e, given, a);
  }

  lemma ChoosePicks(e: Expr, a: Answer, more: seq<bool>)
    requires e.Choose?
    ensures Picks(e, a) + more == Picks(e.test, Of(a, 0)) +
      ((if Eval(e.test, false, Of(a, 0)).truth then Picks(e.troo, Of(a, 1)) else Picks(e.fols, Of(a, 2))) + more)
  {
    hide Eval;
  }

  lemma ChooseEval(e: Expr, given: bool, a: Answer)
    requires e.Choose?
    ensures var g := Eval(e.test, false, Of(a, 0));
      var h := if g.truth then Eval(e.troo, true, Of(a, 1)) else Eval(e.fols, true, Of(a, 2));
      Eval(e, given, a).ev == g.ev + Ending(e.test) + (h.ev + ResultEvents(e, given)) && Eval(e, given, a).truth == h.truth
  {
    hide Dtors;
    EvalMakes(e.test, false, Of(a, 0));
    ChooseUnfolds(e, given, a);
    var g := Eval(e.test, false, Of(a, 0));
    var h := if g.truth then Eval(e.troo, true, Of(a, 1)) else Eval(e.fols, true, Of(a, 2));
    hide Eval;
    assert h.ev + [] == h.ev;
  }

  lemma ChooseUnfolds(e: Expr, given: bool, a: Answer)
    requires e.Choose?
    ensures var g := Tested(Eval(e.test, false, Of(a, 0)));
      var h := if g.truth then Eval(e.troo, true, Of(a, 1)) else Eval(e.fols, true, Of(a, 2));
      var both := Plus(g, Used(h), h.truth);
      Eval(e, given, a).ev == Constructed(both, if given then [] else SlotOf(e)) && Eval(e, given, a).truth == h.truth
  {
    hide Dtors;
  }

  lemma ChooseSim(e: Expr, given: bool, b0: nat, p0: nat, c1: Code, condB: nat, c3: Code, b3: nat, c5: Code, c6: Code, c9: Code)
    requires e.Choose? && condB < |c1| && b3 < |c3| && |c1| < |c5| && |c1| + 1 < |c6| && |c1| + 2 < |c9|
    requires Has(c9, b0, p0, [Br(condB)]) || (b0 == condB && p0 == 0)
    requires SimWith(c3, e.test, false, Ending(e.test), condB, 0, b3, |c3[b3]|) && Extends(c3, c9)
    requires Has(c9, b3, |c3[b3]|, [CondBr(|c1|, |c1| + 1)])
    requires SimWith(c5, e.troo, true, ResultEvents(e, given), |c1|, 0, |c1|, |c5[|c1|]|) && Extends(c5, c9)
    requires SimWith(c6, e.fols, true, ResultEvents(e, given), |c1| + 1, 0, |c1| + 1, |c6[|c1| + 1]|) && Extends(c6, c9)
    requires Has(c9, |c1|, |c5[|c1|]|, [Br(|c1| + 2)]) && Has(c9, |c1| + 1, |c6[|c1| + 1]|, [Br(|c1| + 2)])
    requires c9[|c1| + 2] == Joint(e, given, |c1|)
    ensures Sim(c9, e, given, b0, p0, |c1| + 2, |c9[|c1| + 2]|)
  {
    hide Comes, Eval, Picks, Reaches, Has, SimWith, Ending, ResultEvents;
    var troo, fols, done, evs, res := |c1|, |c1| + 1, |c1| + 2, Ending(e.test), ResultEvents(e, given);
    WithExtends(c3, c9, e.test, false, evs, condB, 0, b3, |c3[b3]|);
    WithExtends(c5, c9, e.troo, true, res, troo, 0, troo, |c5[troo]|);
    WithExtends(c6, c9, e.fols, true, res, fols, 0, fols, |c6[fols]|);
    forall f: Code, a: Answer, s: Config, more: seq<bool> | Extends(c9, f) && s.blk == b0 && s.pc == p0 && s.picks == Picks(e, a) + more
      ensures var g := Eval(e, given, a); Comes(f, s, done, |c9[done]|, g.truth, more, s.trace + g.ev)
    {
      ChooseDoes(e, given, a, more);
      var g := Eval(e.test, false, Of(a, 0));
      var branch, part, block := if g.truth then e.troo else e.fols, if g.truth then Of(a, 1) else Of(a, 2), if g.truth then troo else fols;
      var h, end := Eval(branch, true, part), if g.truth then |c5[troo]| else |c6[fols]|;
      var rest, t := Picks(branch, part) + more, s.trace + (g.ev + evs);
      ComesStart(f, s);
      ComesIn(c9, f, s, b0, p0, condB);
      HasExtends(c9, f, b3, |c3[b3]|, [CondBr(troo, fols)]);
      HasExtends(c9, f, block, end, [Br(done)]);
      ComesWith(c9, f, s, e.test, false, evs, Of(a, 0), condB, 0, b3, |c3[b3]|, s.truth, rest, s.trace);
      ComesOn(f, s, b3, |c3[b3]|, g.truth, rest, t, CondBr(troo, fols));
      ComesFrom(f, s, block, 0, b3, g.truth, rest, t);
      ComesWith(c9, f, s, branch, true, res, part, block, 0, block, end, g.truth, more, t);
      ComesOn(f, s, block, end, h.truth, more, t + (h.ev + res), Br(done));
      ComesJoint(e, given, c9, f, s, troo, block, h.truth, more, t + (h.ev + res));
      assert t + (h.ev + res) == s.trace + (g.ev + evs + (h.ev + res));
    }
  }

  lemma ComesIn(c: Code, f: Code, s: Config, b: nat, p: nat, condB: nat)
    requires (Has(c, b, p, [Br(condB)]) || (b == condB && p == 0)) && Extends(c, f) && s.blk == b && s.pc == p
    ensures Comes(f, s, condB, 0, s.truth, s.picks, s.trace)
  {
    hide Comes, Reaches;
    ComesStart(f, s);
    if b != condB || p != 0 {
      HasExtends(c, f, b, p, [Br(condB)]);
      ComesOn(f, s, b, p, s.truth, s.picks, s.trace, Br(condB));
      ComesFrom(f, s, condB, 0, b, s.truth, s.picks, s.trace);
    }
  }

  lemma ComesJoint(e: Expr, given: bool, c: Code, f: Code, s: Config, troo: nat, block: nat, truth: bool, picks: seq<bool>, t: seq<Event>)
    requires e.Choose? && Extends(c, f) && troo + 2 < |c| && c[troo + 2] == Joint(e, given, troo) && (block == troo || block == troo + 1)
    requires Reaches(f, s, Config(troo + 2, 0, block, truth, picks, t))
    ensures Comes(f, s, troo + 2, |c[troo + 2]|, truth, picks, t)
  {
    hide Reaches;
    if Joint(e, given, troo) == [] {
      ComesFrom(f, s, troo + 2, 0, block, truth, picks, t);
    } else {
      var entries := [Entry(troo, None), Entry(troo + 1, None)];
      assert Has(c, troo + 2, 0, [Phi(entries)]);
      HasExtends(c, f, troo + 2, 0, [Phi(entries)]);
      IncomingTwo(entries, block, truth);
      ComesPhi(f, s, troo + 2, block, truth, picks, t, entries);
    }
  }

  lemma ChooseCompiled(e: Expr, given: bool, c0: Code, b0: nat, c1: Code, condB: nat, c3: Code, b3: nat, c4: Code, c5: Code, b5: nat,
                       c6: Code, b6: nat, c9: Code)
    requires e.Choose? && ChooseSteps(e, given, c1, c3, b3, c4, c5, c6, c9) && b0 < |c0| && Starts(c0, b0, c1, condB) && Within(c0)
    requires CompiledWith(e.test, false, Ending(e.test), c1 + [[], [], []], condB, c3, b3)
    requires CompiledWith(e.troo, true, ResultEvents(e, given), c4, |c1|, c5, b5)
    requires CompiledWith(e.fols, true, ResultEvents(e, given), c5, |c1| + 1, c6, b6)
    ensures Compiled(e, given, c0, b0, c9, |c1| + 2)
  {
    hide Grew, Good, Spoilt, Sim, SimWith, ChooseSteps, Starts, Within, JumpsTo, Open, Extends, Has, Ending, ResultEvents, CompiledWith;
    var c2, troo, fols := c1 + [[], [], []], |c1|, |c1| + 1;
    StartsSo(c0, b0, c1, condB);
    NewBlocksWithin(c1, [[], [], []]);
    WithParts(e.test, false, Ending(e.test), c2, condB, c3, b3);
    WithParts(e.troo, true, ResultEvents(e, given), c4, troo, c5, b5);
    WithParts(e.fols, true, ResultEvents(e, given), c5, fols, c6, b6);
    ChooseBlocks(e, given, c1, c3, b3, c4, c5, b5, c6, b6, c9, condB);
    ChooseGrew(e, given, c0, b0, c1, condB, c3, b3, c4, c5, b5, c6, b6, c9);
    BranchWithin(c3, b3, c4, troo, e, given, c1, c5, c6, c9);
    OpenEmpty();
    assert c2[condB] == [];
    if Flat(e) {
      StraightIsFlat(e.troo);
      StraightIsFlat(e.fols);
      if Open(c0[b0]) {
        GoodOpen(c4, troo, c5, troo);
        GoodOpen(c5, fols, c6, fols);
        ChooseGood(e, given, c0, b0, c1, condB, c3, b3, c4, c5, c6, c9);
      }
      ChooseHas(e, given, c0, b0, c1, condB, c3, b3, c4, c5, c6, c9);
      ChooseSim(e, given, b0, |c0[b0]|, c1, condB, c3, b3, c5, c6, c9);
    } else if !Flat(e.test) {
      ConditionSpoils(e, given, c0, b0, c1, condB, c3, b3, c4, c5, b5, c6, b6, c9);
    } else {
      BranchSpoils(e, given, c0, b0, c1, condB, c3, b3, c4, c5, b5, c6, b6, c9);
    }
  }

  lemma BranchWithin(c3: Code, b3: nat, c4: Code, troo: nat, e: Expr, given: bool, c1: Code, c5: Code, c6: Code, c9: Code)
    requires e.Choose? && ChooseSteps(e, given, c1, c3, b3, c4, c5, c6, c9) && troo == |c1| && |c1| + 3 <= |c3|
    requires (Within(c4) ==> Within(c5)) && (Within(c5) ==> Within(c6)) && Within(c3)
    ensures Within(c9)
  {
    hide Within;
    ChooseWithin(e, given, c1, c3, b3, c4, c5, c6, c9);
  }

  lemma ChooseHas(e: Expr, given: bool, c0: Code, b0: nat, c1: Code, condB: nat, c3: Code, b3: nat, c4: Code, c5: Code, c6: Code, c9: Code)
    requires e.Choose? && ChooseSteps(e, given, c1, c3, b3, c4, c5, c6, c9) && b0 < |c0| && Starts(c0, b0, c1, condB)
    requires Grew(c1 + [[], [], []], condB, c3, b3) && Grew(c4, |c1|, c5, |c1|) && Grew(c5, |c1| + 1, c6, |c1| + 1)
    ensures Has(c9, b0, |c0[b0]|, [Br(condB)]) || (b0 == condB && |c0[b0]| == 0)
    ensures Extends(c3, c9) && Extends(c5, c9) && Extends(c6, c9) && b3 < |c3| && |c1| < |c5| && |c1| + 1 < |c6| && |c1| + 2 < |c9|
    ensures Has(c9, b3, |c3[b3]|, [CondBr(|c1|, |c1| + 1)])
    ensures Has(c9, |c1|, |c5[|c1|]|, [Br(|c1| + 2)]) && Has(c9, |c1| + 1, |c6[|c1| + 1]|, [Br(|c1| + 2)])
    ensures c9[|c1| + 2] == Joint(e, given, |c1|)
  {
    hide JumpsTo, NoPhi, Joint, Starts;
    StartsSo(c0, b0, c1, condB);
    ChooseBlocks(e, given, c1, c3, b3, c4, c5, |c1|, c6, |c1| + 1, c9, condB);
  }

  // ---- the visitor

  lemma PutTwice(c: Code, b: nat, x: seq<Instr>, y: seq<Instr>)
    requires b < |c|
    ensures Put(Put(c, b, x), b, y) == Put(c, b, x + y) && Put(c, b, []) == c
  {
    assert c[b] + x + y == c[b] + (x + y);
    assert c[b] + [] == c[b];
  }

  class Visitor {
    var blocks: Code
    var curr: nat
    var temps: Objs

    ghost predicate Valid()
      reads this
    {
      curr < |blocks| && Within(blocks)
    }

    constructor ()
      ensures Valid() && blocks == [[]] && curr == 0 && temps == []
    {
      blocks, curr, temps := [[]], 0, [];
      new;
      NoTargets();
    }

    // ---- the function builder

    method MakeBlock() returns (b: nat)
      modifies this`blocks
      ensures b == |old(blocks)| && blocks == old(blocks) + [[]]
    {
      b := |blocks|;
      blocks := blocks + [[]];
    }

    method SetCurr(block: nat)
      modifies this`curr
      ensures curr == block
    {
      curr := block;
    }

    method Append(code: seq<Instr>)
      requires curr < |blocks|
      modifies this`blocks
      ensures blocks == Put(old(blocks), curr, code)
    {
      blocks := blocks[curr := blocks[curr] + code];
    }

    method Link(from: nat, to: nat)
      requires from < |blocks|
      modifies this`blocks
      ensures blocks == Put(old(blocks), from, [Br(to)])
    {
      blocks := blocks[from := blocks[from] + [Br(to)]];
    }

    method NextEmpty() returns (next: nat)
      requires curr < |blocks|
      modifies this`blocks
      ensures Starts(old(blocks), curr, blocks, next)
    {
      if blocks[curr] == [] {
        next := curr;
      } else {
        next := MakeBlock();
        Append([Br(next)]);
      }
    }

    // ---- expressions

    method Visit(e: Expr, given: bool)
      requires Valid()
      modifies this
      ensures Valid() && temps == old(temps) + TempsOf(e)
      ensures Compiled(e, given, old(blocks), old(curr), blocks, curr)
      decreases e, 2
    {
      hide Compiled, Within, Piece, TempsOf;
      match e
      case Atom =>
        Append([Pick]);
        AtomCompiled(old(blocks), curr, given);
        CompiledValid(e, given, old(blocks), old(curr), blocks, curr);
        TempsAre(e, old(temps));
      case Both(_, _) => VisitPair(e, given);
      case Args(_, _) => VisitPair(e, given);
      case Set(_, _) => VisitPair(e, given);
      case New(_, _) => VisitPart(e, given);
      case Member(_, _) => VisitPart(e, given);
      case Not(_) => VisitPart(e, given);
      case And(_, _) => VisitShort(e, given);
      case Or(_, _) => VisitShort(e, given);
      case Choose(_, _, _, _) => VisitChoose(e, given);
    }

    /** Two parts, and an operation on them. */
    method VisitPair(e: Expr, given: bool)
      requires Valid() && (e.Both? || e.Args? || e.Set?)
      modifies this
      ensures Valid() && temps == old(temps) + TempsOf(e)
      ensures Compiled(e, given, old(blocks), old(curr), blocks, curr)
      decreases e, 0
    {
      hide Compiled, Within, Piece, TempsOf;
      ghost var c0, b0 := blocks, curr;
      Visit(e.first, e.Args?);
      ghost var c1, b1 := blocks, curr;
      Visit(e.second, e.Args? || (e.Set? && given));
      ghost var c2 := blocks;
      Append([Pick]);
      PairCompiled(e, given, c0, b0, c1, b1, c2, curr);
      CompiledValid(e, given, c0, b0, blocks, curr);
      TempsAre(e, old(temps));
    }

    /** One part: a new object is constructed behind what it is made from; an object with
        a member that is used is materialised and registered. */
    method VisitPart(e: Expr, given: bool)
      requires Valid() && (e.New? || e.Member? || e.Not?)
      modifies this
      ensures Valid() && temps == old(temps) + TempsOf(e)
      ensures Compiled(e, given, old(blocks), old(curr), blocks, curr)
      decreases e, 0
    {
      hide Compiled, Within, Piece, TempsOf, Dtors, SlotOf, Dos;
      ghost var c0, b0, c1 := blocks, curr, blocks;
      PartLess(e);
      if e.Not? {
        c1 := VisitBool(e.arg);
        Append([Flip]);
      } else {
        Visit(PartOf(e), true);
        c1 := blocks;
        Append(Dos(EventsBehind(e, given)));
        if e.Member? && IsNew(e.whole) {
          temps := temps + [Temp(e.id)];
        }
        Append([Pick]);
      }
      CompiledValid(PartOf(e), !e.Not?, c0, b0, c1, curr);
      OneIs(e, given);
      PutTwice(c1, curr, Dos(EventsBehind(e, given)), [if e.Not? then Flip else Pick]);
      OneCompiled(e, given, c0, b0, c1, curr);
      CompiledValid(e, given, c0, b0, blocks, curr);
      TempsAre(e, old(temps));
    }

    /** `c` is the code before a new object that has given its truth is destroyed. */
    method VisitBool(e: Expr) returns (ghost c: Code)
      requires Valid()
      modifies this
      ensures Valid() && temps == old(temps) + TempsOf(e)
      ensures Compiled(e, false, old(blocks), old(curr), c, curr) && Within(c)
      ensures curr < |c| && blocks == Put(c, curr, Dos(Ending(e)))
      decreases e, 3
    {
      hide Compiled, Within, Dos, Ending;
      Visit(e, false);
      c := blocks;
      Append(Dos(Ending(e)));
      PlainWithin(c, curr, Ending(e));
    }

    /** The block of the left operand is noted before that is visited. */
    method VisitShort(e: Expr, given: bool)
      requires Valid() && (e.And? || e.Or?)
      modifies this
      ensures Valid() && temps == old(temps) + TempsOf(e)
      ensures Compiled(e, given, old(blocks), old(curr), blocks, curr)
      decreases e, 0
    {
      hide Compiled, CompiledWith, Within, Piece, TempsOf, Dos, Ending, Put;
      ghost var c0 := blocks;
      var lhsBlock := curr;
      var rhsBlock := MakeBlock();
      var doneBlock := MakeBlock();
      assert blocks == c0 + [[], []];
      NewBlocksWithin(c0, [[], []]);
      ghost var c := VisitBool(e.left);
      ghost var c2, b2 := blocks, curr;
      WithCompiled(e.left, false, Ending(e.left), c0 + [[], []], lhsBlock, c, b2);
      WithValid(e.left, false, Ending(e.left), c0 + [[], []], lhsBlock, c2, b2);
      Append([if e.And? then CondBr(rhsBlock, doneBlock) else CondBr(doneBlock, rhsBlock)]);
      ghost var c3 := blocks;
      WithinPut(c2, b2, if e.And? then CondBr(rhsBlock, doneBlock) else CondBr(doneBlock, rhsBlock));
      SetCurr(rhsBlock);
      c := VisitBool(e.right);
      ghost var c4, b4 := blocks, curr;
      WithCompiled(e.right, false, Ending(e.right), c3, rhsBlock, c, b4);
      WithValid(e.right, false, Ending(e.right), c3, rhsBlock, c4, b4);
      Append([Br(doneBlock)]);
      SetCurr(doneBlock);
      Append([Phi([Entry(lhsBlock, Some(e.Or?)), Entry(rhsBlock, None)])]);
      ShortCompiled(e, given, c0, lhsBlock, c2, b2, c3, c4, b4, blocks);
      CompiledValid(e, given, c0, lhsBlock, blocks, curr);
      TempsAre(e, old(temps));
    }

    /** One branch of a choice, in a block of its own. */
    method VisitArm(e: Expr, given: bool, troo: bool, block: nat)
      requires block < |blocks| && Within(blocks) && e.Choose?
      modifies this
      ensures Valid() && temps == old(temps) + TempsOf(if troo then e.troo else e.fols)
      ensures CompiledWith(if troo then e.troo else e.fols, true, ResultEvents(e, given), old(blocks), block, blocks, curr)
      decreases e, 0
    {
      hide Compiled, CompiledWith, Within, Dos, ResultEvents;
      SetCurr(block);
      ghost var c0, branch := blocks, if troo then e.troo else e.fols;
      Visit(if troo then e.troo else e.fols, true);
      ghost var c := blocks;
      Append(Dos(ResultEvents(e, given)));
      PlainWithin(c, curr, ResultEvents(e, given));
      WithCompiled(branch, true, ResultEvents(e, given), c0, block, c, curr);
    }

    /** Both branches are linked to the end at the blocks in which they were begun. */
    method VisitChoose(e: Expr, given: bool)
      requires Valid() && e.Choose?
      modifies this
      ensures Valid() && temps == old(temps) + TempsOf(e)
      ensures Compiled(e, given, old(blocks), old(curr), blocks, curr)
      decreases e, 1
    {
      hide Compiled, CompiledWith, Within, Piece, TempsOf, Dos, Ending, Put, Starts, ResultEvents;
      ghost var c0, b0 := blocks, curr;
      var condBlock := NextEmpty();
      ghost var c1 := blocks;
      StartsSo(c0, b0, c1, condBlock);
      var trooBlock := MakeBlock();
      var folsBlock := MakeBlock();
      var doneBlock := MakeBlock();
      ghost var c2 := c1 + [[], [], []];
      assert blocks == c2;
      NewBlocksWithin(c1, [[], [], []]);
      SetCurr(condBlock);
      ghost var c := VisitBool(e.test);
      ghost var c3, b3 := blocks, curr;
      WithCompiled(e.test, false, Ending(e.test), c2, condBlock, c, b3);
      WithValid(e.test, false, Ending(e.test), c2, condBlock, c3, b3);
      Append([CondBr(trooBlock, folsBlock)]);
      ghost var c4 := blocks;
      WithinPut(c3, b3, CondBr(trooBlock, folsBlock));
      VisitArm(e, given, true, trooBlock);
      ghost var c5, b5 := blocks, curr;
      WithValid(e.troo, true, ResultEvents(e, given), c4, trooBlock, c5, b5);
      VisitArm(e, given, false, folsBlock);
      ghost var c6, b6 := blocks, curr;
      WithValid(e.fols, true, ResultEvents(e, given), c5, folsBlock, c6, b6);
      Link(trooBlock, doneBlock);
      Link(folsBlock, doneBlock);
      SetCurr(doneBlock);
      Append(Joint(e, given, trooBlock));
      ChooseCompiled(e, given, c0, b0, c1, condBlock, c3, b3, c4, c5, b5, c6, b6, blocks);
      CompiledValid(e, given, c0, b0, blocks, curr);
      TempsAre(e, old(temps));
    }
  }

  lemma NoTargets()
    ensures Within([[]])
  {
    var c: Code := [];
    assert Within(c) && c + [[]] == [[]];
    NewBlocksWithin(c, [[]]);
  }

  lemma CompiledValid(e: Expr, given: bool, c0: Code, b0: nat, c1: Code, b1: nat)
    requires Compiled(e, given, c0, b0, c1, b1)
    ensures |c0| <= |c1| && b1 < |c1| && (Within(c0) ==> Within(c1))
  {
    hide Good, Spoilt, Sim, Within;
  }

  lemma WithValid(e: Expr, given: bool, evs: seq<Event>, c0: Code, b0: nat, c1: Code, b1: nat)
    requires CompiledWith(e, given, evs, c0, b0, c1, b1)
    ensures |c0| <= |c1| && b1 < |c1| && (Within(c0) ==> Within(c1))
  {
    hide Good, Spoilt, SimWith, Within;
  }

  lemma PlainWithin(c: Code, b: nat, evs: seq<Event>)
    requires b < |c| && Within(c)
    ensures Within(Put(c, b, Dos(evs)))
  {
    hide Within;
    PlainDos(evs);
    PutGrew(c, b, Dos(evs));
  }

  lemma PartLess(e: Expr)
    requires e.New? || e.Member? || e.Not?
    ensures PartOf(e) < e && (e.Not? ==> PartOf(e) == e.arg && Ending(e.arg) == EventsBehind(e, false) == EventsBehind(e, true))
  {
  }

  lemma TempsAre(e: Expr, temps: Objs)
    ensures e.Atom? ==> TempsOf(e) == [] && temps + [] == temps
    ensures e.Both? || e.Args? || e.Set? ==> temps + TempsOf(e) == temps + TempsOf(e.first) + TempsOf(e.second)
    ensures e.New? || e.Not? ==> TempsOf(e) == TempsOf(PartOf(e))
    ensures e.Member? ==>
      temps + TempsOf(e) == if IsNew(e.whole) then temps + TempsOf(e.whole) + [Temp(e.id)] else temps + TempsOf(e.whole)
    ensures e.And? || e.Or? ==> temps + TempsOf(e) == temps + TempsOf(e.left) + TempsOf(e.right)
    ensures e.Choose? ==> temps + TempsOf(e) == temps + TempsOf(e.test) + TempsOf(e.troo) + TempsOf(e.fols)
  {
    match e
    case Both(x, y) => Appended(temps, TempsOf(x), TempsOf(y));
    case Args(x, y) => Appended(temps, TempsOf(x), TempsOf(y));
    case Set(x, y) => Appended(temps, TempsOf(x), TempsOf(y));
    case And(x, y) => Appended(temps, TempsOf(x), TempsOf(y));
    case Or(x, y) => Appended(temps, TempsOf(x), TempsOf(y));
    case Member(whole, id) => Appended(temps, TempsOf(whole), if IsNew(whole) then [Temp(id)] else []);
    case Choose(x, y, z, _) =>
      Appended(temps, TempsOf(x), TempsOf(y));
      Appended(temps, TempsOf(x) + TempsOf(y), TempsOf(z));
    case _ =>
  }

  lemma Appended(x: Objs, y: Objs, z: Objs)
    ensures x + (y + z) == x + y + z && x + [] == x && y + [] == y
  {
  }

  lemma GoodIsNotSpoilt(c0: Code, b0: nat, c1: Code, b1: nat)
    requires Good(c0, b0, c1, b1)
    ensures !Spoilt(c0, b0, c1)
  {
    hide JumpsTo;
    if Spoilt(c0, b0, c1) {
      var b: nat :| b < |c1| && (b == b0 || b >= |c0|) && Wrong(c1, |c0|, b);
      if b >= |c0| && PhiWrong(c1, b) {
        var i: nat, d: nat :| i < |c1[b]| && c1[b][i].Phi? && d < |c1| && Names(c1[b][i].entries, d) && !JumpsTo(c1[d], b);
        PhiSays(c1, b, i, d);
      }
    }
  }

  /** From its start, the code comes to the end of the expression with its value, having
      done what `Eval` says. */
  ghost predicate Evaluates(f: Code, e: Expr, b: nat) {
    forall a: Answer :: Answered(f, e, b, a)
  }

  ghost predicate Answered(f: Code, e: Expr, b: nat, a: Answer) {
    b < |f| && Comes(f, Config(0, 0, 0, false, Picks(e, a), []), b, |f[b]|, Eval(e, false, a).truth, [], Eval(e, false, a).ev)
  }

  /** The code of an expression. It is valid if and only if no operand of `&&` or `||` and
      no branch of `?:` branches itself; then it does what the expression means, and in
      any case the same temporaries are registered. */
  method GenerateExpr(e: Expr) returns (f: Code, b: nat, temps: Objs)
    ensures temps == TempsOf(e)
    ensures Good([[]], 0, f, b) <==> Flat(e)
    ensures Flat(e) ==> Evaluates(f, e, b)
  {
    hide Compiled, Good, Comes, Eval;
    var v := new Visitor();
    v.Visit(e, false);
    f, b, temps := v.blocks, v.curr, v.temps;
    assert [] + TempsOf(e) == TempsOf(e);
    ExprDone(e, f, b);
  }

  lemma ExprDone(e: Expr, f: Code, b: nat)
    requires Compiled(e, false, [[]], 0, f, b)
    ensures Good([[]], 0, f, b) <==> Flat(e)
    ensures Flat(e) ==> Evaluates(f, e, b)
  {
    hide Good, Spoilt, Comes, Eval, Picks, Grew;
    OpenEmpty();
    if Good([[]], 0, f, b) {
      GoodIsNotSpoilt([[]], 0, f, b);
    }
    if Flat(e) {
      GrewExtends([[]], 0, f, b);
      assert Extends(f, f);
      forall a: Answer ensures Answered(f, e, b, a) {
        var s := Config(0, 0, 0, false, Picks(e, a), []);
        var g := Eval(e, false, a);
        assert s.picks == Picks(e, a) + [];
        assert Comes(f, s, b, |f[b]|, g.truth, [], s.trace + g.ev);
        assert s.trace + g.ev == g.ev;
      }
    }
  }

  /** `a && b && c`, whatever the operands are: the phi of the outer operator names the
      block in which the inner one was begun, which does not jump there. */
  lemma ChainIsSpoilt(x: Expr, y: Expr, z: Expr, given: bool, c0: Code, b0: nat, c1: Code, b1: nat)
    requires Compiled(And(And(x, y), z), given, c0, b0, c1, b1) && Open(c0[b0])
    ensures Spoilt(c0, b0, c1) && !Good(c0, b0, c1, b1)
  {
    hide Good, Spoilt, Grew, Sim;
    if Good(c0, b0, c1, b1) {
      GoodIsNotSpoilt(c0, b0, c1, b1);
    }
  }
}
