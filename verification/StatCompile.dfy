/** What the steps of code generation for a statement do to the code so far, and
    why the parts make a whole that runs like the statement. */
module StatCompile {
  import opened Wrappers
  import opened Lives
  import opened ExprSem
  import opened StatSem
  import opened StatWritten
  import opened StatProof

  // ---- what generation does to the code so far

  /** Blocks are only added to, and of the blocks that were there only the one that
      was being written has changed. */
  ghost predicate Grew(c0: Code, b0: nat, c1: Code, b1: nat) {
    && |c0| <= |c1| && b1 < |c1|
    && (forall b: nat :: b < |c0| ==> c0[b] <= c1[b])
    && (forall b: nat :: b < |c0| && b != b0 ==> c1[b] == c0[b])
    && (b1 == b0 || b1 >= |c0|)
  }

  lemma GrewThen(c0: Code, b0: nat, c1: Code, b1: nat, c2: Code, b2: nat)
    requires Grew(c0, b0, c1, b1) && Grew(c1, b1, c2, b2)
    ensures Grew(c0, b0, c2, b2) && Extends(c0, c2) && Extends(c0, c1) && Extends(c1, c2)
  {
  }

  lemma GrewExtends(c0: Code, b0: nat, c1: Code, b1: nat)
    requires Grew(c0, b0, c1, b1)
    ensures Extends(c0, c1) && b1 < |c1|
  {
  }

  lemma GrewKeeps(c0: Code, b0: nat, c1: Code, b1: nat, b: nat)
    requires Grew(c0, b0, c1, b1) && b < |c0|
    ensures |c0| <= |c1| && (b != b0 ==> c1[b] == c0[b] && b1 != b)
  {
  }

  /** Writing goes on in another new block, or in the old one. */
  lemma GrewAim(c0: Code, b0: nat, c1: Code, b1: nat, b: nat)
    requires (Grew(c0, b0, c1, b1) || c0 == c1) && b < |c1| && (b == b0 || |c0| <= b)
    ensures Grew(c0, b0, c1, b)
  {
  }

  /** The code with more instructions at the end of block `b`. */
  function Put(c: Code, b: nat, code: seq<Instr>): (c': Code)
    requires b < |c|
    ensures |c'| == |c|
  {
    c[b := c[b] + code]
  }

  lemma PutTwice(c: Code, b: nat, x: seq<Instr>, y: seq<Instr>)
    requires b < |c|
    ensures Put(Put(c, b, x), b, y) == Put(c, b, x + y)
    ensures Put(c, b, []) == c
  {
    assert c[b] + x + y == c[b] + (x + y);
    assert c[b] + [] == c[b];
  }

  lemma PutGrows(c: Code, b: nat, code: seq<Instr>)
    requires b < |c|
    ensures Grew(c, b, Put(c, b, code), b) && Has(Put(c, b, code), b, |c[b]|, code)
    ensures |Put(c, b, code)[b]| == |c[b]| + |code|
  {
  }

  /** The statement was compiled into the code between the two positions. */
  ghost predicate Compiled(s: Stmt, scopes: Scopes, flow: Flow, c0: Code, b0: nat, c1: Code, b1: nat)
    requires scopes != []
  {
    Grew(c0, b0, c1, b1) && (b0 < |c0| ==> Sim(c1, s, scopes, flow, b0, |c0[b0]|, b1, |c1[b1]|))
  }

  lemma SimExtends(c: Code, d: Code, s: Stmt, scopes: Scopes, flow: Flow, b0: nat, p0: nat, b: nat, p: nat)
    requires scopes != [] && Sim(c, s, scopes, flow, b0, p0, b, p) && Extends(c, d)
    ensures Sim(d, s, scopes, flow, b0, p0, b, p)
  {
    forall f: Code, o: Answers, t: seq<Event> | Extends(d, f)
      ensures Meets(f, b0, p0, o, t, Did(s, o, scopes, flow.scopeIndex), flow, b, p)
    {
      ExtendsThen(c, d, f);
    }
  }

  predicate Terminated(code: seq<Instr>) {
    code != [] && IsTerminator(code[|code| - 1])
  }

  /** Block `b` ends in a jump to `d`, made on demand, unless it is terminated. */
  ghost predicate Ended(c: Code, b: nat, before: Option<nat>, c': Code, after: Option<nat>)
    requires b < |c|
  {
    if Terminated(c[b]) then c' == c && after == before
    else
      && after == (if before.Some? then before else Some(|c|))
      && c' == Put(if before.Some? then c else c + [[]], b, [Br(after.value)])
  }

  lemma EndedGoes(c: Code, b: nat, before: Option<nat>, c': Code, after: Option<nat>)
    requires b < |c| && Ended(c, b, before, c', after)
    ensures Grew(c, b, c', b)
    ensures after.None? ==> Dead(c', b, |c[b]|) && |c'[b]| == |c[b]|
    ensures after.Some? ==> GoesTo(c', b, |c[b]|, after.value)
    ensures before.None? && after.Some? ==> after.value == |c| && |c'| == |c| + 1 && c'[|c|] == []
    ensures before.Some? ==> after == before && forall d: nat :: d < |c| && d != b ==> c'[d] == c[d]
  {
  }

  // ---- compiled parts make a compiled whole

  /** The first `i` statements of a block, in the scope of the block. */
  ghost predicate CompiledSeq(s: Stmt, i: nat, scopes: Scopes, flow: Flow, c0: Code, b0: nat, c1: Code, b1: nat)
    requires s.Block? && i <= |s.stats|
  {
    Grew(c0, b0, c1, b1) && (b0 < |c0| ==> SimSeq(c1, s.stats[..i], scopes + [[]], flow, b0, |c0[b0]|, b1, |c1[b1]|))
  }

  lemma SeqCompiled(s: Stmt, i: nat, scopes: Scopes, flow: Flow, c0: Code, b0: nat, c1: Code, b1: nat, c2: Code, b2: nat)
    requires s.Block? && i < |s.stats|
    requires CompiledSeq(s, i, scopes, flow, c0, b0, c1, b1)
    requires Compiled(s.stats[i], scopes + [PushedAll(s.stats[..i])], flow, c1, b1, c2, b2)
    ensures CompiledSeq(s, i + 1, scopes, flow, c0, b0, c2, b2)
    ensures PushedAll(s.stats[..i + 1]) == PushedAll(s.stats[..i]) + Pushed(s.stats[i])
  {
    hide Grew, Sim, SimSeq;
    var front := s.stats[..i];
    assert s.stats[..i + 1][..i] == front && s.stats[..i + 1] == front + [s.stats[i]];
    GrewThen(c0, b0, c1, b1, c2, b2);
    GrewExtends(c0, b0, c1, b1);
    GrewExtends(c1, b1, c2, b2);
    if b0 < |c0| {
      DropScope(scopes, PushedAll(front), 0);
      SeqStep(c1, c2, front, s.stats[i], scopes + [[]], flow, b0, |c0[b0]|, b1, |c1[b1]|, b2, |c2[b2]|);
    }
  }

  lemma PartsLegal(s: Stmt, i: nat, brk: bool, cont: bool)
    requires s.Block? && i < |s.stats| && Legal(s, brk, cont)
    ensures Legal(s.stats[i], brk, cont)
  {
  }

  lemma BlockCompiled(s: Stmt, scopes: Scopes, flow: Flow, c0: Code, b0: nat, c1: Code, b1: nat, c2: Code)
    requires scopes != [] && s.Block?
    requires CompiledSeq(s, |s.stats|, scopes, flow, c0, b0, c1, b1) && b1 < |c1|
    requires c2 == if s.terminate then Put(c1, b1, Emit(Dtors(PushedAll(s.stats)))) else c1
    ensures Compiled(s, scopes, flow, c0, b0, c2, b1)
  {
    hide Grew, Sim, SimSeq;
    assert s.stats[..|s.stats|] == s.stats;
    PutGrows(c1, b1, Emit(Dtors(PushedAll(s.stats))));
    PutTwice(c1, b1, [], []);
    PutGrows(c1, b1, []);
    GrewThen(c0, b0, c1, b1, c2, b1);
    GrewExtends(c1, b1, c2, b1);
    if b0 < |c0| {
      BlockSim(c1, c2, s, scopes, flow, b0, |c0[b0]|, b1, |c1[b1]|, |c2[b1]|);
    }
  }

  /** Both branches were compiled, each into a block of its own, and go on to `done`. */
  lemma IfCompiled(s: Stmt, scopes: Scopes, flow: Flow, c0: Code, b0: nat, c1: Code, c2: Code, b2: nat, c3: Code, d3: Option<nat>,
                   c4: Code, b4: nat, c5: Code, d5: Option<nat>, b: nat)
    requires scopes != [] && s.If? && b0 < |c0|
    requires c1 == Put(c0 + [[], []], b0, CondCode(Condition(s.cond), |c0|, |c0| + 1))
    requires Compiled(s.body, scopes, flow, c1, |c0|, c2, b2)
    requires b2 < |c2| && Ended(c2, b2, None, c3, d3)
    requires if s.elseBody.None? then c4 == c3 && b4 == |c0| + 1
             else Compiled(s.elseBody.value, Push(scopes, Pushed(s.body)), flow, c3, |c0| + 1, c4, b4)
    requires b4 < |c4| && Ended(c4, b4, d3, c5, d5)
    requires b == if d5.Some? then d5.value else b4
    ensures Compiled(s, scopes, flow, c0, b0, c5, b)
  {
    hide Sim, CondCode, Grew, Ended, Has, Extends, Put;
    var troo, fols := |c0|, |c0| + 1;
    IfShape(c0, b0, CondCode(Condition(s.cond), troo, fols), c1, c2, b2, c3, d3, c4, b4, c5, d5, b);
    IfRuns(s, scopes, flow, c0, b0, c1, c2, b2, c3, d3, c4, b4, c5, d5, b);
  }

  lemma IfShape(c0: Code, b0: nat, code: seq<Instr>, c1: Code, c2: Code, b2: nat, c3: Code, d3: Option<nat>,
                c4: Code, b4: nat, c5: Code, d5: Option<nat>, b: nat)
    requires b0 < |c0| && c1 == Put(c0 + [[], []], b0, code)
    requires Grew(c1, |c0|, c2, b2) && b2 < |c2| && Ended(c2, b2, None, c3, d3)
    requires (c4 == c3 && b4 == |c0| + 1) || Grew(c3, |c0| + 1, c4, b4)
    requires b4 < |c4| && Ended(c4, b4, d3, c5, d5)
    requires b == if d5.Some? then d5.value else b4
    ensures Has(c1, b0, |c0[b0]|, code) && Grew(c0, b0, c5, b)
    ensures |c1| == |c0| + 2 && c1[|c0|] == [] && |c0| + 1 < |c3| && c3[|c0| + 1] == []
    ensures Extends(c1, c5) && Extends(c2, c5) && Extends(c3, c5) && Extends(c4, c5)
    ensures b < |c5| && (d5.Some? ==> c5[b] == [])
  {
    hide Grew, Ended, Has, Put, Extends;
    var troo, fols := |c0|, |c0| + 1;
    IfStarts(c0, b0, code);
    EndedGoes(c2, b2, None, c3, d3);
    GrewThen(c1, troo, c2, b2, c3, b2);
    GrewThen(c0, b0, c1, troo, c3, b2);
    GrewKeeps(c1, troo, c3, b2, fols);
    GrewAim(c0, b0, c3, b2, fols);
    GrewAim(c3, fols, c3, fols, fols);
    EndedGoes(c4, b4, d3, c5, d5);
    GrewThen(c3, fols, c4, b4, c5, b4);
    GrewThen(c0, b0, c3, fols, c5, b4);
    GrewThen(c2, b2, c3, b2, c3, b2);
    ExtendsThen(c1, c3, c5);
    ExtendsThen(c2, c3, c5);
    if d3.Some? {
      GrewKeeps(c3, fols, c4, b4, d3.value);
      GrewAim(c0, b0, c5, b4, d3.value);
    } else if d5.Some? {
      GrewAim(c0, b0, c5, b4, d5.value);
    }
  }

  lemma IfStarts(c0: Code, b0: nat, code: seq<Instr>)
    requires b0 < |c0|
    ensures var c1 := Put(c0 + [[], []], b0, code);
            |c1| == |c0| + 2 && c1[|c0|] == c1[|c0| + 1] == [] && Grew(c0, b0, c1, |c0|) && Has(c1, b0, |c0[b0]|, code)
  {
    PutGrows(c0 + [[], []], b0, code);
  }

  lemma IfRuns(s: Stmt, scopes: Scopes, flow: Flow, c0: Code, b0: nat, c1: Code, c2: Code, b2: nat, c3: Code, d3: Option<nat>,
               c4: Code, b4: nat, c5: Code, d5: Option<nat>, b: nat)
    requires scopes != [] && s.If? && b0 < |c0|
    requires Has(c1, b0, |c0[b0]|, CondCode(Condition(s.cond), |c0|, |c0| + 1))
    requires b2 < |c2| && Ended(c2, b2, None, c3, d3) && b4 < |c4| && Ended(c4, b4, d3, c5, d5)
    requires Sim(c2, s.body, scopes, flow, |c0|, 0, b2, |c2[b2]|) && Extends(c1, c5) && Extends(c2, c5) && Extends(c3, c5)
    requires if s.elseBody.None? then b4 == |c0| + 1 < |c4| && c4[b4] == []
             else Sim(c4, s.elseBody.value, Push(scopes, Pushed(s.body)), flow, |c0| + 1, 0, b4, |c4[b4]|) && Extends(c4, c5)
    requires if d5.Some? then b == d5.value < |c5| && c5[b] == [] else b == b4
    ensures Sim(c5, s, scopes, flow, b0, |c0[b0]|, b, |c5[b]|)
  {
    hide CondCode, Sim;
    var troo, fols, p2, p4 := |c0|, |c0| + 1, |c2[b2]|, |c4[b4]|;
    HasExtends(c1, c5, b0, |c0[b0]|, CondCode(Condition(s.cond), troo, fols));
    SimExtends(c2, c5, s.body, scopes, flow, troo, 0, b2, p2);
    EndedGoes(c2, b2, None, c3, d3);
    EndedGoes(c4, b4, d3, c5, d5);
    if s.elseBody.Some? {
      SimExtends(c4, c5, s.elseBody.value, Push(scopes, Pushed(s.body)), flow, fols, 0, b4, p4);
    }
    assert d3.None? ==> Dead(c5, b2, p2) by {
      assert c3[b2] <= c5[b2];
    }
    if d5.Some? {
      if d3.Some? {
        GoesToExtends(c3, c5, b2, p2, b);
      }
      IfSim(c5, s, scopes, flow, b0, |c0[b0]|, troo, b2, p2, fols, b4, p4, b);
    } else {
      DeadIfSim(c5, s, scopes, flow, b0, |c0[b0]|, troo, b2, p2, fols, b4, p4, b, |c5[b]|);
    }
  }

  lemma BlockStarts(s: Stmt, scopes: Scopes, flow: Flow, c: Code, b: nat)
    requires s.Block? && b < |c|
    ensures CompiledSeq(s, 0, scopes, flow, c, b, c, b)
    ensures PushedAll(s.stats[..0]) == []
  {
    EmptySeqSim(c, scopes + [[]], flow, b, |c[b]|);
    assert s.stats[..0] == [];
  }

  // ---- loops

  /** A loop starts in the current block if that is empty, else in a new one. */
  ghost predicate LoopStarts(c: Code, b: nat, c': Code, next: nat)
    requires b < |c|
  {
    if c[b] == [] then next == b && c' == c else next == |c| && c' == Put(c + [[]], b, [Br(next)])
  }

  function Fresh(n: nat): Code {
    seq(n, _ => [])
  }

  /** The blocks of a loop, once its body has been compiled: the others are still
      empty, and the loop has been entered. */
  lemma LoopShape(c0: Code, b0: nat, c1: Code, cond: nat, n: nat, c3: Code, b3: nat, cont: nat, c4: Code)
    requires b0 < |c0| && LoopStarts(c0, b0, c1, cond) && n > 1
    requires Grew(c1 + Fresh(n), |c1|, c3, b3) && b3 < |c3| && Ended(c3, b3, Some(cont), c4, Some(cont))
    ensures |c0| <= |c1| && |c1| + n <= |c4| && cond < |c1| && (cond == b0 || cond >= |c0|)
    ensures c4[cond] == [] && forall b: nat :: |c1| < b < |c1| + n ==> c4[b] == []
    ensures Extends(c3, c4) && GoesTo(c4, b3, |c3[b3]|, cont)
    ensures forall b: nat :: |c0| <= b < |c4| || b == b0 ==> Grew(c0, b0, c4, b)
    ensures Has(c4, b0, |c0[b0]|, [Br(cond)]) || (b0 == cond && |c0[b0]| == 0)
  {
    hide Grew, Ended, Has, Extends;
    var c2 := c1 + Fresh(n);
    LoopStartsSo(c0, b0, c1, cond, n);
    EndedGoes(c3, b3, Some(cont), c4, Some(cont));
    GrewThen(c2, |c1|, c3, b3, c4, b3);
    GrewThen(c0, b0, c2, |c1|, c4, b3);
    GrewKeeps(c2, |c1|, c4, b3, cond);
    forall b: nat | |c1| < b < |c1| + n ensures c4[b] == [] {
      GrewKeeps(c2, |c1|, c4, b3, b);
      assert c2[b] == [];
    }
    forall b: nat | |c0| <= b < |c4| || b == b0 ensures Grew(c0, b0, c4, b) {
      GrewAim(c0, b0, c4, b3, b);
    }
    if b0 != cond {
      HasExtends(c2, c4, b0, |c0[b0]|, [Br(cond)]);
    }
  }

  lemma LoopStartsSo(c0: Code, b0: nat, c1: Code, cond: nat, n: nat)
    requires b0 < |c0| && LoopStarts(c0, b0, c1, cond) && n > 0
    ensures |c0| <= |c1| && Grew(c0, b0, c1 + Fresh(n), |c1|) && cond < |c1| && c1[cond] == []
    ensures b0 != cond ==> cond >= |c0| && Has(c1 + Fresh(n), b0, |c0[b0]|, [Br(cond)])
  {
  }

  lemma WhileCompiled(s: Stmt, scopes: Scopes, flow: Flow, c0: Code, b0: nat, c1: Code, cond: nat, c3: Code, b3: nat, c4: Code)
    requires scopes != [] && s.While? && b0 < |c0| && LoopStarts(c0, b0, c1, cond)
    requires Compiled(s.wbody, scopes + [[]], Flow(Some(|c1| + 1), Some(cond), |scopes|), c1 + Fresh(2), |c1|, c3, b3)
    requires b3 < |c3| && Ended(c3, b3, Some(cond), c4, Some(cond)) && cond < |c4|
    ensures Compiled(s, scopes, flow, c0, b0, Put(c4, cond, CondCode(Condition(s.wcond), |c1|, |c1| + 1)), |c1| + 1)
  {
    hide Grew, Ended, Has, Extends, Sim, CondCode, GoesTo;
    var bodyB, done, code := |c1|, |c1| + 1, CondCode(Condition(s.wcond), |c1|, |c1| + 1);
    var c5 := Put(c4, cond, code);
    LoopShape(c0, b0, c1, cond, 2, c3, b3, cond, c4);
    PutGrows(c4, cond, code);
    GrewThen(c0, b0, c4, cond, c5, cond);
    GrewAim(c0, b0, c5, cond, done);
    GrewKeeps(c4, cond, c5, cond, done);
    assert (c1 + Fresh(2))[bodyB] == [];
    ExtendsThen(c3, c4, c5);
    SimExtends(c3, c5, s.wbody, scopes + [[]], Flow(Some(done), Some(cond), |scopes|), bodyB, 0, b3, |c3[b3]|);
    GoesToExtends(c4, c5, b3, |c3[b3]|, cond);
    if b0 != cond {
      HasExtends(c4, c5, b0, |c0[b0]|, [Br(cond)]);
    }
    WhileSim(c5, s, scopes, flow, b0, |c0[b0]|, cond, bodyB, b3, |c3[b3]|, done);
  }

  lemma ForCompiled(s: Stmt, scopes: Scopes, flow: Flow, c0: Code, b0: nat, c2: Code, cond: nat, c3: Code, b3: nat, c4: Code)
    requires scopes != [] && s.For? && b0 < |c0|
    requires LoopStarts(Put(c0, b0, OptCode(s.init)), b0, c2, cond)
    requires Compiled(s.fbody, scopes + [OptLocals(s.init), []], Flow(Some(|c2| + 2), Some(|c2| + 1), |scopes| + 1), c2 + Fresh(3), |c2|, c3, b3)
    requires b3 < |c3| && Ended(c3, b3, Some(|c2| + 1), c4, Some(|c2| + 1)) && |c2| + 2 < |c4| && cond < |c4|
    ensures Compiled(s, scopes, flow, c0, b0, ForCode(s, |c2|, cond, c4), |c2| + 2)
  {
    hide Grew, Ended, Has, Extends, Sim, CondCode, OptCode, Emit, GoesTo, Dtors, LoopStarts, ForCode;
    var c1 := Put(c0, b0, OptCode(s.init));
    var bodyB, incrB, doneB := |c2|, |c2| + 1, |c2| + 2;
    LoopShape(c1, b0, c2, cond, 3, c3, b3, incrB, c4);
    assert c4[|c2| + 1] == [] && c4[|c2| + 2] == [];
    PutGrows(c0, b0, OptCode(s.init));
    ForGrows(s, |c2|, cond, c4);
    var c7 := ForCode(s, |c2|, cond, c4);
    GrewThen(c0, b0, c1, b0, c4, cond);
    ForGrew(s, c0, b0, |c2|, cond, c4);
    assert (c2 + Fresh(3))[bodyB] == [];
    GrewExtends(c1, b0, c4, cond);
    ForRuns(s, scopes, flow, c0, b0, c1, cond, bodyB, c3, b3, c4, c7);
  }

  lemma ForRuns(s: Stmt, scopes: Scopes, flow: Flow, c0: Code, b0: nat, c1: Code, cond: nat, bodyB: nat, c3: Code, b3: nat, c4: Code, c7: Code)
    requires scopes != [] && s.For? && b0 < |c0|
    requires bodyB + 2 < |c7| && b3 < |c3| && cond <= bodyB
    requires Has(c1, b0, |c0[b0]|, OptCode(s.init)) && b0 < |c1| && |c1[b0]| == |c0[b0]| + |OptCode(s.init)|
    requires Has(c4, b0, |c1[b0]|, [Br(cond)]) || (b0 == cond && |c1[b0]| == 0)
    requires Sim(c3, s.fbody, scopes + [OptLocals(s.init), []], Flow(Some(bodyB + 2), Some(bodyB + 1), |scopes| + 1), bodyB, 0, b3, |c3[b3]|)
    requires GoesTo(c4, b3, |c3[b3]|, bodyB + 1)
    requires Extends(c1, c4) && Extends(c3, c4) && Extends(c4, c7)
    requires Has(c7, cond, 0, CondCode(Condition(s.fcond), bodyB, bodyB + 2))
    requires Has(c7, bodyB + 1, 0, OptCode(s.incr) + [Br(cond)])
    requires Has(c7, bodyB + 2, 0, Emit(Dtors(ForObjs(s)))) && |c7[bodyB + 2]| == |ForObjs(s)|
    ensures Sim(c7, s, scopes, flow, b0, |c0[b0]|, bodyB + 2, |c7[bodyB + 2]|)
  {
    hide Has, Extends, Sim, Emit, CondCode, OptCode, GoesTo, Dtors, OptLocals;
    var inner, p, incrB, doneB := scopes + [OptLocals(s.init)], |c0[b0]|, bodyB + 1, bodyB + 2;
    assert inner + [[]] == scopes + [OptLocals(s.init), []];
    ExtendsThen(c3, c4, c7);
    ExtendsThen(c1, c4, c7);
    SimExtends(c3, c7, s.fbody, inner + [[]], Flow(Some(doneB), Some(incrB), |inner|), bodyB, 0, b3, |c3[b3]|);
    GoesToExtends(c4, c7, b3, |c3[b3]|, incrB);
    HasExtends(c1, c7, b0, p, OptCode(s.init));
    if b0 != cond || |c1[b0]| != 0 {
      HasExtends(c4, c7, b0, |c1[b0]|, [Br(cond)]);
    }
    ForSim(c7, s, scopes, flow, b0, p, |c1[b0]|, cond, bodyB, b3, |c3[b3]|, incrB, doneB, |c7[doneB]|);
  }

  lemma EmitNothing()
    ensures Emit([]) == []
  {
  }

  lemma EmitSize(evs: seq<Event>)
    ensures |Emit(evs)| == |evs|
  {
  }

  /** What a `for` destroys at its end: a variable declared by its increment has been
      pushed onto the same scope as that of its start. */
  function ForObjs(s: Stmt): Objs
    requires s.For?
  {
    OptLocals(s.init) + OptLocals(s.incr)
  }

  /** What is written once the body of a `for` has been compiled. */
  function ForCode(s: Stmt, bodyB: nat, cond: nat, c4: Code): (c7: Code)
    requires s.For? && bodyB + 2 < |c4| && cond < |c4|
    ensures |c7| == |c4|
  {
    var c5 := Put(c4, cond, CondCode(Condition(s.fcond), bodyB, bodyB + 2));
    var c6 := Put(c5, bodyB + 1, OptCode(s.incr) + [Br(cond)]);
    Put(c6, bodyB + 2, Emit(Dtors(ForObjs(s))))
  }

  lemma ForGrows(s: Stmt, bodyB: nat, cond: nat, c4: Code)
    requires s.For? && bodyB + 2 < |c4| && cond < bodyB
    requires c4[cond] == c4[bodyB + 1] == c4[bodyB + 2] == []
    ensures var c7 := ForCode(s, bodyB, cond, c4);
            && Extends(c4, c7)
            && Has(c7, cond, 0, CondCode(Condition(s.fcond), bodyB, bodyB + 2))
            && Has(c7, bodyB + 1, 0, OptCode(s.incr) + [Br(cond)])
            && Has(c7, bodyB + 2, 0, Emit(Dtors(ForObjs(s)))) && |c7[bodyB + 2]| == |ForObjs(s)|
  {
    hide CondCode, OptCode, Emit;
    EmitSize(Dtors(ForObjs(s)));
  }

  lemma ForGrew(s: Stmt, c0: Code, b0: nat, bodyB: nat, cond: nat, c4: Code)
    requires s.For? && |c0| <= bodyB && bodyB + 2 < |c4| && (cond == b0 || |c0| <= cond < |c4|) && Grew(c0, b0, c4, cond)
    ensures Grew(c0, b0, ForCode(s, bodyB, cond, c4), bodyB + 2)
  {
    hide CondCode, OptCode, Emit;
  }

  // ---- switches

  function Range(first: nat, n: nat): seq<nat> {
    seq(n, i requires 0 <= i < n => first + i)
  }

  /** The checks of the first `n` cases are written, the other check blocks are empty. */
  ghost predicate ChecksWritten(c0: Code, c: Code, cases: seq<Case>, n: nat, first: nat, bodies: seq<nat>, done: nat)
    requires n <= |cases| == |bodies|
    requires forall k: nat :: DefaultIndex(cases) < k < |cases| ==> cases[k].test.Some?
  {
    && |c| == |c0| && first + |cases| <= |c|
    && (forall b: nat :: b < |c| && !(first <= b < first + |cases|) ==> c[b] == c0[b])
    && (forall k: nat :: k < n && cases[k].test.Some? ==>
          c[first + CheckIndex(cases, k)] == CheckCode(cases, k, Range(first, |cases|), bodies, done))
    && (forall b: nat :: first + Used(cases, n) <= b < first + |cases| ==> c[b] == [])
  }

  function Used(cases: seq<Case>, n: nat): (u: nat)
    ensures u <= n
  {
    if DefaultIndex(cases) < n then n - 1 else n
  }

  lemma ChecksStep(c0: Code, c: Code, cases: seq<Case>, n: nat, first: nat, bodies: seq<nat>, done: nat)
    requires n < |cases| == |bodies|
    requires forall k: nat :: DefaultIndex(cases) < k < |cases| ==> cases[k].test.Some?
    requires ChecksWritten(c0, c, cases, n, first, bodies, done)
    ensures cases[n].test.None? ==> ChecksWritten(c0, c, cases, n + 1, first, bodies, done)
    ensures cases[n].test.Some? ==>
      var code := CheckCode(cases, n, Range(first, |cases|), bodies, done);
      first + CheckIndex(cases, n) < |c| && ChecksWritten(c0, Put(c, first + CheckIndex(cases, n), code), cases, n + 1, first, bodies, done)
  {
    hide CheckCode;
    if cases[n].test.None? {
      assert DefaultIndex(cases) == n;
    } else {
      assert DefaultIndex(cases) != n;
      assert CheckIndex(cases, n) == Used(cases, n) && Used(cases, n + 1) == Used(cases, n) + 1;
      assert c[first + CheckIndex(cases, n)] == [];
    }
  }

  /** With the last check block linked to the default case, the chain is complete. */
  lemma ChecksComplete(c0: Code, c: Code, cases: seq<Case>, first: nat, bodies: seq<nat>, done: nat, c': Code)
    requires 0 < |cases| == |bodies|
    requires forall k: nat :: DefaultIndex(cases) < k < |cases| ==> cases[k].test.Some?
    requires ChecksWritten(c0, c, cases, |cases|, first, bodies, done)
    requires c' == if DefaultIndex(cases) < |cases| then Put(c, first + |cases| - 1, [Br(bodies[DefaultIndex(cases)])]) else c
    ensures ChecksOk(c', cases, Range(first, |cases|), bodies, done)
    ensures |c'| == |c0| && forall b: nat :: b < |c'| && !(first <= b < first + |cases|) ==> c'[b] == c0[b]
  {
    hide CheckCode, DefaultIndex;
    var checks, d := Range(first, |cases|), DefaultIndex(cases);
    forall k: nat | k < |cases| && cases[k].test.Some?
      ensures c'[checks[CheckIndex(cases, k)]] == CheckCode(cases, k, checks, bodies, done)
    {
      DefaultApart(cases, k);
      assert c[first + CheckIndex(cases, k)] == CheckCode(cases, k, checks, bodies, done);
    }
    if d < |cases| {
      assert first + Used(cases, |cases|) == first + |cases| - 1 == checks[|cases| - 1];
      assert c[first + |cases| - 1] == [];
    }
  }

  lemma DefaultApart(cases: seq<Case>, k: nat)
    requires k < |cases| && cases[k].test.Some?
    ensures k != DefaultIndex(cases)
    ensures DefaultIndex(cases) < |cases| ==> CheckIndex(cases, k) < |cases| - 1
  {
  }


  /** Bodies of cases were compiled into the `n` blocks from `first` on, and into
      new blocks; all others stayed as they were. */
  ghost predicate BodiesGrew(c0: Code, first: nat, n: nat, c: Code) {
    && Extends(c0, c)
    && forall b: nat :: b < |c0| && !(first <= b < first + n) ==> c[b] == c0[b]
  }

  lemma BodiesStep(c0: Code, first: nat, n: nat, c: Code, c': Code, b: nat)
    requires BodiesGrew(c0, first, n, c) && Grew(c, first + n, c', b)
    ensures BodiesGrew(c0, first, n + 1, c')
  {
  }

  lemma CaseExtends(c: Code, d: Code, body: Stmt, scopes: Scopes, bodies: seq<nat>, done: nat, k: nat)
    requires k < |bodies| && CaseOk(c, body, scopes, bodies, done, k) && Extends(c, d)
    ensures CaseOk(d, body, scopes, bodies, done, k)
  {
    var b: nat, p: nat :|
      Sim(c, body, scopes + [[]], CaseFlow(bodies, done, k, |scopes|), bodies[k], 0, b, p) && GoesTo(c, b, p, done);
    SimExtends(c, d, body, scopes + [[]], CaseFlow(bodies, done, k, |scopes|), bodies[k], 0, b, p);
    GoesToExtends(c, d, b, p, done);
  }

  lemma CaseCompiled(c0: Code, body: Stmt, scopes: Scopes, bodies: seq<nat>, done: nat, k: nat, c1: Code, b1: nat, c2: Code)
    requires k < |bodies| && bodies[k] < |c0| && c0[bodies[k]] == []
    requires Compiled(body, scopes + [[]], CaseFlow(bodies, done, k, |scopes|), c0, bodies[k], c1, b1)
    requires b1 < |c1| && Ended(c1, b1, Some(done), c2, Some(done))
    ensures Grew(c0, bodies[k], c2, b1)
    ensures CaseOk(c2, body, scopes, bodies, done, k)
  {
    hide Grew, Sim, Ended;
    EndedGoes(c1, b1, Some(done), c2, Some(done));
    GrewThen(c0, bodies[k], c1, b1, c2, b1);
    GrewExtends(c1, b1, c2, b1);
    SimExtends(c1, c2, body, scopes + [[]], CaseFlow(bodies, done, k, |scopes|), bodies[k], 0, b1, |c1[b1]|);
  }

  /** The bodies of the first `n` cases are compiled. */
  ghost predicate CasesWritten(s: Stmt, n: nat, scopes: Scopes, first: nat, done: nat, c0: Code, c: Code)
    requires s.Switch? && n <= |s.cases|
  {
    && BodiesGrew(c0, first, n, c)
    && forall k: nat :: k < n ==> CaseOk(c, s.cases[k].cbody, scopes, Range(first, |s.cases|), done, k)
  }

  lemma CasesStep(s: Stmt, n: nat, scopes: Scopes, first: nat, done: nat, c0: Code, c: Code, c1: Code, b1: nat, c2: Code)
    requires s.Switch? && n < |s.cases| && CasesWritten(s, n, scopes, first, done, c0, c)
    requires first + n < |c0| && c0[first + n] == []
    requires Compiled(s.cases[n].cbody, scopes + [[]], CaseFlow(Range(first, |s.cases|), done, n, |scopes|), c, first + n, c1, b1)
    requires b1 < |c1| && Ended(c1, b1, Some(done), c2, Some(done))
    ensures CasesWritten(s, n + 1, scopes, first, done, c0, c2)
  {
    hide Grew, Ended, CaseOk, Compiled;
    var bodies := Range(first, |s.cases|);
    assert bodies[n] == first + n && c[first + n] == [];
    CaseCompiled(c, s.cases[n].cbody, scopes, bodies, done, n, c1, b1, c2);
    BodiesStep(c0, first, n, c, c2, b1);
    GrewExtends(c, first + n, c2, b1);
    forall k: nat | k < n + 1 ensures CaseOk(c2, s.cases[k].cbody, scopes, bodies, done, k) {
      if k < n {
        CaseExtends(c, c2, s.cases[k].cbody, scopes, bodies, done, k);
      }
    }
  }

  lemma ChecksNotWritten(c: Code, cases: seq<Case>, first: nat, bodies: seq<nat>, done: nat)
    requires |cases| == |bodies| && first + |cases| <= |c|
    requires forall k: nat :: DefaultIndex(cases) < k < |cases| ==> cases[k].test.Some?
    requires forall b: nat :: first <= b < first + |cases| ==> c[b] == []
    ensures ChecksWritten(c, c, cases, 0, first, bodies, done)
  {
  }

  lemma ChecksSize(c0: Code, c: Code, cases: seq<Case>, n: nat, first: nat, bodies: seq<nat>, done: nat)
    requires n <= |cases| == |bodies|
    requires forall k: nat :: DefaultIndex(cases) < k < |cases| ==> cases[k].test.Some?
    requires ChecksWritten(c0, c, cases, n, first, bodies, done)
    ensures |c| == |c0|
  {
  }

  lemma CasesSize(s: Stmt, n: nat, scopes: Scopes, first: nat, done: nat, c0: Code, c: Code)
    requires s.Switch? && n <= |s.cases| && CasesWritten(s, n, scopes, first, done, c0, c)
    ensures |c0| <= |c|
  {
  }

  /** The code when the blocks of a switch have been made. */
  function SwitchStart(s: Stmt, c0: Code, b0: nat): Code
    requires s.Switch? && b0 < |c0|
  {
    Put(Put(c0, b0, ValueCode(s.expr)) + Fresh(2 * |s.cases| + 1), b0, [Br(|c0|)])
  }

  /** The code when the checks of a switch have been written. */
  ghost predicate ChecksReady(s: Stmt, c0: Code, b0: nat, c: Code)
    requires s.Switch? && b0 < |c0|
    requires forall k: nat :: DefaultIndex(s.cases) < k < |s.cases| ==> s.cases[k].test.Some?
  {
    var n, start := |s.cases|, SwitchStart(s, c0, b0);
    && ChecksOk(c, s.cases, Range(|c0|, n), Range(|c0| + n, n), |c0| + 2 * n)
    && |c| == |start| && forall b: nat :: b < |c| && !(|c0| <= b < |c0| + n) ==> c[b] == start[b]
  }

  lemma SwitchBlocks(s: Stmt, c0: Code, b0: nat)
    requires s.Switch? && b0 < |c0|
    ensures |SwitchStart(s, c0, b0)| == |c0| + 2 * |s.cases| + 1
    ensures forall b: nat :: |c0| <= b < |SwitchStart(s, c0, b0)| ==> SwitchStart(s, c0, b0)[b] == []
  {
  }

  lemma ReadyBlocks(s: Stmt, c0: Code, b0: nat, c: Code)
    requires s.Switch? && b0 < |c0|
    requires forall k: nat :: DefaultIndex(s.cases) < k < |s.cases| ==> s.cases[k].test.Some?
    requires ChecksReady(s, c0, b0, c)
    ensures |c| == |c0| + 2 * |s.cases| + 1
    ensures forall b: nat :: |c0| + |s.cases| <= b < |c| ==> c[b] == []
  {
    SwitchBlocks(s, c0, b0);
  }

  lemma CheckCodeIs(cases: seq<Case>, k: nat, checks: seq<nat>, bodies: seq<nat>, done: nat, next: nat)
    requires k < |cases| == |checks| == |bodies| && cases[k].test.Some?
    requires forall c: nat :: DefaultIndex(cases) < c < |cases| ==> cases[c].test.Some?
    requires next == NextCheck(cases, k, checks, done)
    ensures CheckCode(cases, k, checks, bodies, done) == CondCode(CaseTest(cases[k].test.value), bodies[k], next)
  {
  }

  lemma NoCasesWritten(s: Stmt, scopes: Scopes, first: nat, done: nat, c: Code)
    requires s.Switch?
    ensures CasesWritten(s, 0, scopes, first, done, c, c)
  {
  }

  lemma CompiledGrew(s: Stmt, scopes: Scopes, flow: Flow, c0: Code, b0: nat, c1: Code, b1: nat)
    requires scopes != [] && Compiled(s, scopes, flow, c0, b0, c1, b1)
    ensures |c0| <= |c1| && b1 < |c1| && Grew(c0, b0, c1, b1)
  {
  }

  /** All parts of a switch. */
  lemma SwitchCompiled(s: Stmt, scopes: Scopes, flow: Flow, c0: Code, b0: nat, c5: Code, c6: Code, c7: Code)
    requires scopes != [] && s.Switch? && s.cases != [] && b0 < |c0| && Legal(s, flow.breakBlock.Some?, flow.continueBlock.Some?)
    requires ChecksReady(s, c0, b0, c5)
    requires CasesWritten(s, |s.cases|, scopes + [TempsOf(s.expr)], |c0| + |s.cases|, |c0| + 2 * |s.cases|, c5, c6)
    requires |c0| + 2 * |s.cases| < |c6|
    requires c7 == Put(c6, |c0| + 2 * |s.cases|, if s.alwaysReturns then [Unreachable] else Emit(Dtors(TempsOf(s.expr))))
    ensures Compiled(s, scopes, flow, c0, b0, c7, |c0| + 2 * |s.cases|)
  {
    hide CaseOk, Sim, Emit, ValueCode, Dtors, DefaultIndex, ChecksOk, TempsOf;
    var n, done := |s.cases|, |c0| + 2 * |s.cases|;
    var checks, bodies := Range(|c0|, n), Range(|c0| + n, n);
    SwitchShape(c0, b0, n, ValueCode(s.expr), SwitchStart(s, c0, b0), c5, c6, c7);
    assert Extends(c6, c7);
    ChecksStay(s.cases, c5, c7, checks, bodies, done);
    forall k: nat | k < n ensures CaseOk(c7, s.cases[k].cbody, scopes + [TempsOf(s.expr)], bodies, done, k) {
      CaseExtends(c6, c7, s.cases[k].cbody, scopes + [TempsOf(s.expr)], bodies, done, k);
    }
    DtorsSize(TempsOf(s.expr));
    LegalAnywhere(s, flow.breakBlock.Some?, flow.continueBlock.Some?);
    SwitchSim(c7, s, scopes, flow, b0, |c0[b0]|, checks, bodies, done, |c7[done]|);
  }

  lemma DtorsSize(objs: Objs)
    ensures |Emit(Dtors(objs))| == |objs|
  {
  }

  /** Where a switch or a loop stands does not matter to break and continue in it. */
  lemma LegalAnywhere(s: Stmt, brk: bool, cont: bool)
    requires Legal(s, brk, cont) && (s.Switch? || s.While? || s.For?)
    ensures Legal(s, false, false)
  {
  }

  lemma ChecksStay(cases: seq<Case>, c: Code, d: Code, checks: seq<nat>, bodies: seq<nat>, done: nat)
    requires |cases| == |checks| == |bodies| && |c| <= |d|
    requires forall k: nat :: DefaultIndex(cases) < k < |cases| ==> cases[k].test.Some?
    requires ChecksOk(c, cases, checks, bodies, done)
    requires forall i: nat :: i < |checks| ==> checks[i] < |c| && d[checks[i]] == c[checks[i]]
    ensures ChecksOk(d, cases, checks, bodies, done)
  {
  }

  lemma SwitchShape(c0: Code, b0: nat, n: nat, value: seq<Instr>, c3: Code, c5: Code, c6: Code, c7: Code)
    requires b0 < |c0| && n > 0 && c3 == Put(Put(c0, b0, value) + Fresh(2 * n + 1), b0, [Br(|c0|)])
    requires |c5| == |c3| && forall b: nat :: b < |c5| && !(|c0| <= b < |c0| + n) ==> c5[b] == c3[b]
    requires BodiesGrew(c5, |c0| + n, n, c6) && |c0| + 2 * n < |c6|
    requires |c7| == |c6| && c6[|c0| + 2 * n] <= c7[|c0| + 2 * n] && forall b: nat :: b < |c6| && b != |c0| + 2 * n ==> c7[b] == c6[b]
    ensures Grew(c0, b0, c7, |c0| + 2 * n) && |c0| + 2 * n < |c5| && c6[|c0| + 2 * n] == []
    ensures Has(c7, b0, |c0[b0]|, value + [Br(|c0|)])
    ensures forall b: nat :: |c0| <= b < |c0| + n ==> c7[b] == c5[b]
  {
    assert c7[b0] == c0[b0] + value + [Br(|c0|)] == c0[b0] + (value + [Br(|c0|)]);
  }

  /** The scope of a `for`, when its increment has been generated. */
  lemma ForScope(s: Stmt, outer: Scopes, scopes: Scopes)
    requires s.For? && scopes == outer + [OptLocals(s.init)]
    ensures Push(scopes, OptLocals(s.incr)) == outer + [ForObjs(s)]
    ensures Drop(outer + [ForObjs(s)], |outer|) == Dtors(ForObjs(s))
  {
    DropScope(outer, ForObjs(s), |outer|);
    assert outer[..|outer|] == outer;
    DropNone(outer, |outer|);
    assert Dtors(ForObjs(s)) + [] == Dtors(ForObjs(s));
  }
}
