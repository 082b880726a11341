/** Which statements are compiled into blocks that end in their only terminator. A
    block with a terminator in the middle is not valid code. */
module StatShape {
  import opened Wrappers
  import opened Lives
  import opened ExprSem
  import opened StatSem
  import opened StatWritten
  import opened StatProof
  import opened StatCompile

  // ---- a look at the tree

  /** Whether the block that is being written ends in a terminator behind the
      statement, given whether it did before. */
  predicate Closed(s: Stmt, closed: bool) {
    match s
    case Block(stats, _) => ClosedSeq(stats, closed)
    case If(_, body, elseBody) => elseBody.Some? && Closed(body, false) && Closed(elseBody.value, false)
    case Switch(_, cases, alwaysReturns) => cases != [] && alwaysReturns
    case Break => true
    case Continue => true
    case Return(_) => true
    case _ => false
  }

  predicate ClosedSeq(stats: seq<Stmt>, closed: bool) {
    if stats == [] then closed else Closed(stats[|stats| - 1], ClosedSeq(stats[..|stats| - 1], closed))
  }

  /** Nothing is written behind a terminator: no statement, and no destructor for a
      Terminate node. */
  predicate Formed(s: Stmt, closed: bool) {
    match s
    case Block(stats, terminate) =>
      FormedSeq(stats, closed) && (terminate && PushedAll(stats) != [] ==> !ClosedSeq(stats, closed))
    case If(_, body, elseBody) => !closed && Formed(body, false) && (elseBody.Some? ==> Formed(elseBody.value, false))
    case Switch(_, cases, _) => !closed && forall c: nat :: c < |cases| ==> Formed(cases[c].cbody, false)
    case While(_, body) => !closed && Formed(body, false)
    case For(_, _, _, body) => !closed && Formed(body, false)
    case _ => !closed
  }

  predicate FormedSeq(stats: seq<Stmt>, closed: bool) {
    stats == [] || (FormedSeq(stats[..|stats| - 1], closed) && Formed(stats[|stats| - 1], ClosedSeq(stats[..|stats| - 1], closed)))
  }

  // ---- a look at the code

  /** A block that can still become valid: nothing stands behind a terminator. */
  ghost predicate Proper(code: seq<Instr>) {
    forall i: nat :: i < |code| - 1 ==> !IsTerminator(code[i])
  }

  /** What was written between two positions is valid, except that the last block is
      closed only if `closed` says so. */
  ghost predicate Blocks(c0: Code, b0: nat, c1: Code, b1: nat, closed: bool) {
    && b1 < |c1| && Proper(c1[b1]) && Terminated(c1[b1]) == closed
    && forall b: nat :: b < |c1| && b != b1 && (b == b0 || b >= |c0|) ==> OneTerminator(c1[b])
  }

  /** Something was written behind a terminator. */
  ghost predicate Spoilt(c0: Code, b0: nat, c1: Code) {
    exists b: nat :: b < |c1| && (b == b0 || b >= |c0|) && !Proper(c1[b])
  }

  ghost predicate Shaped(s: Stmt, c0: Code, b0: nat, c1: Code, b1: nat) {
    b0 < |c0| && Proper(c0[b0]) ==>
      var closed := Terminated(c0[b0]);
      if Formed(s, closed) then Blocks(c0, b0, c1, b1, Closed(s, closed)) else Spoilt(c0, b0, c1)
  }

  ghost predicate ShapedSeq(stats: seq<Stmt>, c0: Code, b0: nat, c1: Code, b1: nat) {
    b0 < |c0| && Proper(c0[b0]) ==>
      var closed := Terminated(c0[b0]);
      if FormedSeq(stats, closed) then Blocks(c0, b0, c1, b1, ClosedSeq(stats, closed)) else Spoilt(c0, b0, c1)
  }

  lemma BlocksThen(c0: Code, b0: nat, c1: Code, b1: nat, mid: bool, c2: Code, b2: nat, closed: bool)
    requires Grew(c0, b0, c1, b1) && Grew(c1, b1, c2, b2)
    requires Blocks(c0, b0, c1, b1, mid) && Blocks(c1, b1, c2, b2, closed)
    ensures Blocks(c0, b0, c2, b2, closed)
  {
  }

  lemma SpoiltThen(c0: Code, b0: nat, c1: Code, c2: Code)
    requires Spoilt(c0, b0, c1) && Extends(c1, c2)
    ensures Spoilt(c0, b0, c2)
  {
    var b: nat :| b < |c1| && (b == b0 || b >= |c0|) && !Proper(c1[b]);
    assert c1[b] <= c2[b];
    var i: nat :| i < |c1[b]| - 1 && IsTerminator(c1[b][i]);
    assert c2[b][i] == c1[b][i];
  }

  lemma SpoiltWithin(c0: Code, b0: nat, c1: Code, b1: nat, c2: Code)
    requires Spoilt(c1, b1, c2) && |c0| <= |c1| && (b1 == b0 || b1 >= |c0|)
    ensures Spoilt(c0, b0, c2)
  {
  }

  /** More instructions in the same block. */
  lemma PutShape(c: Code, b: nat, code: seq<Instr>)
    requires b < |c| && Proper(c[b]) && code != [] && Proper(code)
    ensures var c' := Put(c, b, code);
            if Terminated(c[b]) then Spoilt(c, b, c') && !Proper(c'[b]) else Blocks(c, b, c', b, Terminated(code))
  {
    var c' := Put(c, b, code);
    if Terminated(c[b]) {
      assert IsTerminator(c'[b][|c[b]| - 1]);
    }
  }

  predicate Open(code: seq<Instr>) {
    forall i: nat :: i < |code| ==> !IsTerminator(code[i])
  }

  /** Straight-line code, and a terminator behind it. */
  lemma OpenShape(code: seq<Instr>, i: Instr)
    requires Open(code)
    ensures Proper(code) && !Terminated(code)
    ensures IsTerminator(i) ==> Proper(code + [i]) && Terminated(code + [i]) && OneTerminator(code + [i])
  {
  }

  lemma StraightCode(e: Expr, keep: bool, tail: seq<Event>, s: Option<Simple>)
    ensures Open(Emit(tail)) && Open(Piece(e, keep, tail)) && Open(OptCode(s))
  {
    hide Tail;
  }

  lemma CondShape(w: Work, ifTrue: nat, ifFalse: nat)
    ensures OneTerminator(CondCode(w, ifTrue, ifFalse)) && Proper(CondCode(w, ifTrue, ifFalse)) && Terminated(CondCode(w, ifTrue, ifFalse))
  {
    hide Tail;
    StraightCode(w.expr, true, Tail(w), None);
    OpenShape(Piece(w.expr, true, Tail(w)), CondBr(ifTrue, ifFalse));
  }

  lemma EndedShape(c: Code, b: nat, before: Option<nat>, c': Code, after: Option<nat>)
    requires b < |c| && Ended(c, b, before, c', after) && Proper(c[b])
    ensures b < |c'| && OneTerminator(c'[b])
    ensures forall d: nat :: d < |c| && d != b ==> c'[d] == c[d]
    ensures |c'| == |c| || (before.None? && after == Some(|c|) && |c'| == |c| + 1 && c'[|c|] == [])
  {
  }

  // ---- statement by statement

  /** A statement that appends one piece of code. */
  lemma PieceShaped(s: Stmt, c0: Code, b0: nat, code: seq<Instr>, end: Option<Instr>)
    requires b0 < |c0| && Open(code) && (code != [] || end.Some?) && (end.Some? ==> IsTerminator(end.value))
    requires forall closed: bool :: Formed(s, closed) == !closed && (!closed ==> Closed(s, closed) == end.Some?)
    ensures Shaped(s, c0, b0, Put(c0, b0, code + (if end.Some? then [end.value] else [])), b0)
  {
    hide Blocks, Spoilt, Proper, Put, Open;
    OpenShape(code, Ret);
    if end.Some? {
      OpenShape(code, end.value);
    }
    assert code + [] == code;
    if Proper(c0[b0]) {
      PutShape(c0, b0, code + (if end.Some? then [end.value] else []));
    }
  }

  lemma NoneShaped(c: Code, b: nat)
    requires b < |c|
    ensures ShapedSeq([], c, b, c, b)
  {
  }

  lemma SeqShaped(stats: seq<Stmt>, s: Stmt, c0: Code, b0: nat, c1: Code, b1: nat, c2: Code, b2: nat)
    requires Grew(c0, b0, c1, b1) && Grew(c1, b1, c2, b2) && ShapedSeq(stats, c0, b0, c1, b1) && Shaped(s, c1, b1, c2, b2)
    ensures ShapedSeq(stats + [s], c0, b0, c2, b2)
  {
    hide Proper, Formed, Closed;
    var all := stats + [s];
    assert all[..|all| - 1] == stats;
    if b0 < |c0| && Proper(c0[b0]) {
      var closed := Terminated(c0[b0]);
      if FormedSeq(stats, closed) {
        var mid := ClosedSeq(stats, closed);
        if Formed(s, mid) {
          BlocksThen(c0, b0, c1, b1, mid, c2, b2, Closed(s, mid));
        } else {
          SpoiltWithin(c0, b0, c1, b1, c2);
        }
      } else {
        GrewExtends(c1, b1, c2, b2);
        SpoiltThen(c0, b0, c1, c2);
      }
    }
  }

  /** The destructors of a Terminate node are written whether or not the block is
      closed. */
  lemma BlockShaped(s: Stmt, c0: Code, b0: nat, c1: Code, b1: nat, c2: Code)
    requires s.Block? && Grew(c0, b0, c1, b1) && ShapedSeq(s.stats, c0, b0, c1, b1) && b1 < |c1|
    requires c2 == if s.terminate then Put(c1, b1, Emit(Dtors(PushedAll(s.stats)))) else c1
    ensures Shaped(s, c0, b0, c2, b1)
  {
    hide Proper, Emit, Dtors, FormedSeq, ClosedSeq;
    var objs := PushedAll(s.stats);
    DtorsSize(objs);
    if b0 < |c0| && Proper(c0[b0]) && s.terminate {
      PutGrows(c1, b1, Emit(Dtors(objs)));
      GrewExtends(c1, b1, c2, b1);
      var closed := Terminated(c0[b0]);
      if !FormedSeq(s.stats, closed) {
        SpoiltThen(c0, b0, c1, c2);
      } else if objs == [] {
        assert Emit(Dtors(objs)) == [];
        PutTwice(c1, b1, [], []);
      } else {
        StraightCode(Atom, false, Dtors(objs), None);
        OpenShape(Emit(Dtors(objs)), Ret);
        PutShape(c1, b1, Emit(Dtors(objs)));
        if ClosedSeq(s.stats, closed) {
          SpoiltWithin(c0, b0, c1, b1, c2);
        } else {
          BlocksThen(c0, b0, c1, b1, false, c2, b1, false);
        }
      }
    }
  }

  /** What was written from `b0` on up to `c1` is closed in `c2`. */
  ghost predicate AllClosed(c0: Code, b0: nat, c1: Code, c2: Code) {
    forall b: nat :: b == b0 || |c0| <= b < |c1| ==> b < |c2| && OneTerminator(c2[b])
  }

  /** One branch of an if: its block is closed behind it, or it is spoilt. */
  lemma BranchShaped(branch: Option<Stmt>, c0: Code, b0: nat, c1: Code, b1: nat, before: Option<nat>, c2: Code, after: Option<nat>)
    requires b0 < |c0| && c0[b0] == []
    requires if branch.Some? then Grew(c0, b0, c1, b1) && Shaped(branch.value, c0, b0, c1, b1) else c1 == c0 && b1 == b0
    requires b1 < |c1| && Ended(c1, b1, before, c2, after)
    ensures (branch.Some? ==> Formed(branch.value, false)) ==>
      && AllClosed(c0, b0, c1, c2)
      && (before.Some? || !(branch.Some? && Closed(branch.value, false)) <==> after.Some?)
    ensures branch.Some? && !Formed(branch.value, false) ==> Spoilt(c0, b0, c2)
  {
    hide Formed, Closed;
    assert Proper(c0[b0]) && !Terminated(c0[b0]);
    EndedGoes(c1, b1, before, c2, after);
    if branch.Some? && !Formed(branch.value, false) {
      GrewExtends(c1, b1, c2, b1);
      SpoiltThen(c0, b0, c1, c2);
    } else {
      EndedShape(c1, b1, before, c2, after);
    }
  }

  lemma IfShaped(s: Stmt, c0: Code, b0: nat, c1: Code, c2: Code, b2: nat, c3: Code, d3: Option<nat>,
                 c4: Code, b4: nat, c5: Code, d5: Option<nat>, b: nat)
    requires s.If? && b0 < |c0| && c1 == Put(c0 + [[], []], b0, CondCode(Condition(s.cond), |c0|, |c0| + 1))
    requires Grew(c1, |c0|, c2, b2) && Shaped(s.body, c1, |c0|, c2, b2) && b2 < |c2| && Ended(c2, b2, None, c3, d3)
    requires if s.elseBody.None? then c4 == c3 && b4 == |c0| + 1
             else Grew(c3, |c0| + 1, c4, b4) && Shaped(s.elseBody.value, c3, |c0| + 1, c4, b4)
    requires b4 < |c4| && Ended(c4, b4, d3, c5, d5)
    requires b == if d5.Some? then d5.value else b4
    ensures Shaped(s, c0, b0, c5, b)
  {
    hide Formed, Closed, CondCode, Ended, Proper, OneTerminator, Spoilt, Blocks, Grew, Extends, Terminated, AllClosed, Has;
    var troo, fols, code := |c0|, |c0| + 1, CondCode(Condition(s.cond), |c0|, |c0| + 1);
    IfShape(c0, b0, code, c1, c2, b2, c3, d3, c4, b4, c5, d5, b);
    IfFormed(s, Terminated(c0[b0]));
    BranchShaped(Some(s.body), c1, troo, c2, b2, None, c3, d3);
    BranchShaped(s.elseBody, c3, fols, c4, b4, d3, c5, d5);
    if Proper(c0[b0]) {
      CondShape(Condition(s.cond), troo, fols);
      IfHead(c0, b0, code, c1);
      if Terminated(c0[b0]) {
        SpoiltThen(c0, b0, c1, c5);
      } else if !Formed(s.body, false) {
        SpoiltThen(c1, troo, c3, c5);
        SpoiltWithin(c0, b0, c1, troo, c5);
      } else if s.elseBody.Some? && !Formed(s.elseBody.value, false) {
        EndedKeeps(c2, b2, None, c3, d3);
        GrewExtends(c1, troo, c2, b2);
        ExtendsSize(c1, c2);
        SpoiltWithin(c0, b0, c3, fols, c5);
      } else {
        IfBlocks(c0, b0, c1, c2, b2, c3, d3, c4, b4, c5, d5, b);
      }
    }
  }

  lemma IfFormed(s: Stmt, closed: bool)
    requires s.If?
    ensures Closed(s, closed) == (s.elseBody.Some? && Closed(s.body, false) && Closed(s.elseBody.value, false))
    ensures Formed(s, closed) == (!closed && Formed(s.body, false) && (s.elseBody.Some? ==> Formed(s.elseBody.value, false)))
  {
  }

  lemma ExtendsSize(c: Code, d: Code)
    requires Extends(c, d)
    ensures |c| <= |d|
  {
  }

  lemma IfHead(c0: Code, b0: nat, code: seq<Instr>, c1: Code)
    requires b0 < |c0| && c1 == Put(c0 + [[], []], b0, code) && Proper(code) && Terminated(code) && Proper(c0[b0])
    ensures if Terminated(c0[b0]) then Spoilt(c0, b0, c1) else OneTerminator(c1[b0])
  {
    PutShape(c0 + [[], []], b0, code);
  }

  lemma IfBlocks(c0: Code, b0: nat, c1: Code, c2: Code, b2: nat, c3: Code, d3: Option<nat>,
                 c4: Code, b4: nat, c5: Code, d5: Option<nat>, b: nat)
    requires b0 < |c0| && |c1| == |c0| + 2 && OneTerminator(c1[b0])
    requires Grew(c1, |c0|, c2, b2) && b2 < |c2| && Ended(c2, b2, None, c3, d3) && AllClosed(c1, |c0|, c2, c3)
    requires (c4 == c3 && b4 == |c0| + 1) || Grew(c3, |c0| + 1, c4, b4)
    requires b4 < |c4| && Ended(c4, b4, d3, c5, d5) && AllClosed(c3, |c0| + 1, c4, c5)
    requires b < |c5| && if d5.Some? then b == d5.value && c5[b] == [] else b == b4
    ensures Blocks(c0, b0, c5, b, d5.None?)
  {
    hide Ended, Grew, OneTerminator;
    var troo, fols := |c0|, |c0| + 1;
    EndedGoes(c2, b2, None, c3, d3);
    EndedKeeps(c2, b2, None, c3, d3);
    EndedKeeps(c4, b4, d3, c5, d5);
    GrewKeeps(c1, troo, c2, b2, b0);
    assert b4 == fols || b4 >= |c3| by {
      if b4 < |c3| && b4 != fols {
        GrewKeeps(c3, fols, c4, b4, b4);
      }
    }
    assert b0 < |c3| by {
      GrewExtends(c2, b2, c3, b2);
    }
    forall d: nat | d < |c5| && d != b && (d == b0 || d >= |c0|) ensures OneTerminator(c5[d]) {
      if d == fols || |c3| <= d < |c4| {
      } else if d < |c3| {
        if b4 != fols || c4 != c3 {
          GrewKeeps(c3, fols, c4, b4, d);
        }
        assert c5[d] == c3[d];
        if d != b0 {
          assert d == troo || |c1| <= d < |c2|;
        }
      }
    }
    if d5.None? {
      assert OneTerminator(c5[b4]);
      ClosedIs(c5[b4]);
    }
  }

  lemma ClosedIs(code: seq<Instr>)
    ensures OneTerminator(code) <==> Proper(code) && Terminated(code)
  {
  }

  lemma EndedKeeps(c: Code, b: nat, before: Option<nat>, c': Code, after: Option<nat>)
    requires b < |c| && Ended(c, b, before, c', after)
    ensures |c| <= |c'| && forall d: nat :: d < |c| && d != b ==> c'[d] == c[d]
    ensures |c'| == |c| || (after == Some(|c|) && |c'| == |c| + 1)
    ensures before.Some? ==> after == before
  {
  }

  // ---- loops

  lemma OpenIs(code: seq<Instr>)
    requires Proper(code)
    ensures Open(code) <==> !Terminated(code)
  {
  }

  lemma OpenThen(code: seq<Instr>, more: seq<Instr>)
    requires Open(more)
    ensures Open(code + more) <==> Open(code)
  {
    if !Open(code) {
      var i: nat :| i < |code| && IsTerminator(code[i]);
      assert (code + more)[i] == code[i];
    }
  }

  /** Entering a loop closes the block before it, unless that is empty. */
  lemma LoopHead(c: Code, b: nat, c': Code, next: nat)
    requires b < |c| && LoopStarts(c, b, c', next)
    ensures b < |c'| && |c| <= |c'| <= |c| + 1 && next < |c'| && (|c'| == |c| + 1 ==> next == |c|)
    ensures !Open(c[b]) ==> !Proper(c'[b])
    ensures Open(c[b]) && b != next ==> OneTerminator(c'[b])
    ensures forall d: nat :: d < |c| && d != b ==> c'[d] == c[d]
  {
    if !Open(c[b]) {
      var i: nat :| i < |c[b]| && IsTerminator(c[b][i]);
      assert c'[b][i] == c[b][i];
    }
  }

  /** All blocks are closed but that of the condition and the last `n - 1` of those
      made for the loop. */
  ghost predicate LoopClosed(c0: Code, b0: nat, c: Code, cond: nat, first: nat, n: nat) {
    forall b: nat :: b < |c| && (b == b0 || b >= |c0|) && b != cond && !(first < b < first + n) ==> OneTerminator(c[b])
  }

  lemma LoopBlocks(c0: Code, b0: nat, c1: Code, cond: nat, n: nat, c3: Code, b3: nat, cont: nat, c4: Code)
    requires b0 < |c0| <= |c1| <= |c0| + 1 && cond < |c1| && (|c1| == |c0| + 1 ==> cond == |c0|) && n > 1
    requires b0 != cond ==> OneTerminator(c1[b0])
    requires Grew(c1 + Fresh(n), |c1|, c3, b3) && b3 < |c3| && Ended(c3, b3, Some(cont), c4, Some(cont))
    requires AllClosed(c1 + Fresh(n), |c1|, c3, c4)
    ensures LoopClosed(c0, b0, c4, cond, |c1|, n)
  {
    hide Grew, Ended, OneTerminator;
    var c2 := c1 + Fresh(n);
    EndedGoes(c3, b3, Some(cont), c4, Some(cont));
    EndedKeeps(c3, b3, Some(cont), c4, Some(cont));
    if b0 != cond {
      GrewKeeps(c2, |c1|, c3, b3, b0);
      assert c2[b0] == c1[b0];
    }
    ClosesInPlace(c3, b3, c4, cont);
  }

  lemma ClosesInPlace(c: Code, b: nat, c': Code, dest: nat)
    requires b < |c| && Ended(c, b, Some(dest), c', Some(dest))
    ensures |c'| == |c|
  {
  }

  lemma WhileShaped(s: Stmt, c0: Code, b0: nat, c1: Code, cond: nat, c3: Code, b3: nat, c4: Code)
    requires s.While? && b0 < |c0| && LoopStarts(c0, b0, c1, cond)
    requires Grew(c1 + Fresh(2), |c1|, c3, b3) && Shaped(s.wbody, c1 + Fresh(2), |c1|, c3, b3)
    requires b3 < |c3| && Ended(c3, b3, Some(cond), c4, Some(cond)) && cond < |c4|
    ensures Shaped(s, c0, b0, Put(c4, cond, CondCode(Condition(s.wcond), |c1|, |c1| + 1)), |c1| + 1)
  {
    hide Grew, Ended, Has, Extends, CondCode, GoesTo, OneTerminator, Spoilt, Proper, LoopStarts, Closed, Terminated, AllClosed;
    var bodyB, done, code := |c1|, |c1| + 1, CondCode(Condition(s.wcond), |c1|, |c1| + 1);
    var c5 := Put(c4, cond, code);
    LoopShape(c0, b0, c1, cond, 2, c3, b3, cond, c4);
    LoopHead(c0, b0, c1, cond);
    BranchShaped(Some(s.wbody), c1 + Fresh(2), bodyB, c3, b3, Some(cond), c4, Some(cond));
    PutGrows(c4, cond, code);
    GrewExtends(c4, cond, c5, cond);
    WhileFormed(s, Terminated(c0[b0]));
    if Proper(c0[b0]) {
      OpenIs(c0[b0]);
      if Terminated(c0[b0]) {
        LoopSpoilt(c0, b0, c1, 2, c3, b3, c4, c5);
      } else if !Formed(s.wbody, false) {
        SpoiltThen(c1 + Fresh(2), bodyB, c4, c5);
        SpoiltWithin(c0, b0, c1 + Fresh(2), bodyB, c5);
      } else {
        LoopBlocks(c0, b0, c1, cond, 2, c3, b3, cond, c4);
        CondShape(Condition(s.wcond), bodyB, done);
        WhileBlocks(c0, b0, c4, cond, bodyB, code);
      }
    }
  }

  lemma WhileFormed(s: Stmt, closed: bool)
    requires s.While? || s.For?
    ensures Formed(s, closed) == (!closed && Formed(if s.While? then s.wbody else s.fbody, false))
    ensures !Closed(s, closed)
  {
  }

  /** A loop behind a terminator. */
  lemma LoopSpoilt(c0: Code, b0: nat, c1: Code, n: nat, c3: Code, b3: nat, c4: Code, c5: Code)
    requires b0 < |c1| && !Proper(c1[b0])
    requires Grew(c1 + Fresh(n), |c1|, c3, b3) && Extends(c3, c4) && Extends(c4, c5)
    ensures Spoilt(c0, b0, c5)
  {
    hide Grew, Extends, Proper;
    assert (c1 + Fresh(n))[b0] == c1[b0];
    assert Spoilt(c0, b0, c1 + Fresh(n));
    GrewExtends(c1 + Fresh(n), |c1|, c3, b3);
    ExtendsThen(c1 + Fresh(n), c3, c4);
    ExtendsThen(c1 + Fresh(n), c4, c5);
    SpoiltThen(c0, b0, c1 + Fresh(n), c5);
  }

  lemma WhileBlocks(c0: Code, b0: nat, c4: Code, cond: nat, bodyB: nat, code: seq<Instr>)
    requires LoopClosed(c0, b0, c4, cond, bodyB, 2) && cond < bodyB && bodyB + 1 < |c4|
    requires c4[cond] == c4[bodyB + 1] == [] && OneTerminator(code)
    ensures Blocks(c0, b0, Put(c4, cond, code), bodyB + 1, false)
  {
    hide OneTerminator;
    assert [] + code == code;
  }

  lemma ForShaped(s: Stmt, c0: Code, b0: nat, c2: Code, cond: nat, c3: Code, b3: nat, c4: Code)
    requires s.For? && b0 < |c0| && LoopStarts(Put(c0, b0, OptCode(s.init)), b0, c2, cond)
    requires Grew(c2 + Fresh(3), |c2|, c3, b3) && Shaped(s.fbody, c2 + Fresh(3), |c2|, c3, b3)
    requires b3 < |c3| && Ended(c3, b3, Some(|c2| + 1), c4, Some(|c2| + 1)) && |c2| + 2 < |c4| && cond < |c4|
    ensures Shaped(s, c0, b0, ForCode(s, |c2|, cond, c4), |c2| + 2)
  {
    hide Grew, Ended, Has, Extends, OptCode, GoesTo, OneTerminator, Spoilt, Proper, LoopStarts, Closed, Open,
      ForCode, Terminated, AllClosed;
    var c1 := Put(c0, b0, OptCode(s.init));
    var bodyB, incrB, c7 := |c2|, |c2| + 1, ForCode(s, |c2|, cond, c4);
    LoopShape(c1, b0, c2, cond, 3, c3, b3, incrB, c4);
    assert c4[|c2| + 1] == [] && c4[|c2| + 2] == [];
    LoopHead(c1, b0, c2, cond);
    BranchShaped(Some(s.fbody), c2 + Fresh(3), bodyB, c3, b3, Some(incrB), c4, Some(incrB));
    ForGrows(s, |c2|, cond, c4);
    WhileFormed(s, Terminated(c0[b0]));
    StraightCode(Atom, false, [], s.init);
    OpenThen(c0[b0], OptCode(s.init));
    if Proper(c0[b0]) {
      OpenIs(c0[b0]);
      if Terminated(c0[b0]) {
        LoopSpoilt(c0, b0, c2, 3, c3, b3, c4, c7);
      } else if !Formed(s.fbody, false) {
        SpoiltThen(c2 + Fresh(3), bodyB, c4, c7);
        SpoiltWithin(c0, b0, c2 + Fresh(3), bodyB, c7);
      } else {
        LoopBlocks(c1, b0, c2, cond, 3, c3, b3, incrB, c4);
        ForBlocks(s, c0, b0, c4, cond, bodyB);
      }
    }
  }

  lemma ForBlocks(s: Stmt, c0: Code, b0: nat, c4: Code, cond: nat, bodyB: nat)
    requires s.For? && LoopClosed(c0, b0, c4, cond, bodyB, 3) && cond < bodyB && bodyB + 2 < |c4|
    requires c4[cond] == c4[bodyB + 1] == c4[bodyB + 2] == []
    ensures Blocks(c0, b0, ForCode(s, bodyB, cond, c4), bodyB + 2, false)
  {
    hide OneTerminator, Emit, CondCode, OptCode, Dtors, Open;
    CondShape(Condition(s.fcond), bodyB, bodyB + 2);
    StraightCode(Atom, false, Dtors(ForObjs(s)), s.incr);
    OpenShape(OptCode(s.incr), Br(cond));
    OpenShape(Emit(Dtors(ForObjs(s))), Ret);
    var x, y, z := CondCode(Condition(s.fcond), bodyB, bodyB + 2), OptCode(s.incr) + [Br(cond)], Emit(Dtors(ForObjs(s)));
    assert [] + x == x && [] + y == y && [] + z == z;
  }

  // ---- switches

  predicate CasesFormed(cases: seq<Case>, n: nat)
    requires n <= |cases|
  {
    forall k: nat :: k < n ==> Formed(cases[k].cbody, false)
  }

  /** The bodies of the first `n` cases are closed, or one of them is spoilt. */
  ghost predicate CasesShaped(s: Stmt, n: nat, first: nat, c0: Code, c: Code)
    requires s.Switch? && n <= |s.cases|
  {
    if CasesFormed(s.cases, n)
    then forall b: nat :: b < |c| && (first <= b < first + n || b >= |c0|) ==> OneTerminator(c[b])
    else exists b: nat :: b < |c| && b >= first && !Proper(c[b])
  }

  lemma NoCasesShaped(s: Stmt, first: nat, c: Code)
    requires s.Switch?
    ensures CasesShaped(s, 0, first, c, c)
  {
  }

  lemma ImproperStays(c: Code, d: Code, b: nat)
    requires b < |c| && !Proper(c[b]) && Extends(c, d)
    ensures b < |d| && !Proper(d[b])
  {
    assert c[b] <= d[b];
    var i: nat :| i < |c[b]| - 1 && IsTerminator(c[b][i]);
    assert d[b][i] == c[b][i];
  }

  lemma CasesShapedStep(s: Stmt, n: nat, first: nat, done: nat, c0: Code, c: Code, c1: Code, b1: nat, c2: Code)
    requires s.Switch? && n < |s.cases| && CasesShaped(s, n, first, c0, c)
    requires |c0| <= |c| && first + n < |c0| && c[first + n] == []
    requires Grew(c, first + n, c1, b1) && Shaped(s.cases[n].cbody, c, first + n, c1, b1)
    requires b1 < |c1| && Ended(c1, b1, Some(done), c2, Some(done))
    ensures CasesShaped(s, n + 1, first, c0, c2)
  {
    hide Grew, Ended, OneTerminator, Shaped, Proper, Extends, Formed;
    BranchShaped(Some(s.cases[n].cbody), c, first + n, c1, b1, Some(done), c2, Some(done));
    EndedGoes(c1, b1, Some(done), c2, Some(done));
    GrewThen(c, first + n, c1, b1, c2, b1);
    GrewExtends(c, first + n, c2, b1);
    if !CasesFormed(s.cases, n) {
      var b: nat :| b < |c| && b >= first && !Proper(c[b]);
      ImproperStays(c, c2, b);
    } else if Formed(s.cases[n].cbody, false) {
      ClosesInPlace(c1, b1, c2, done);
      forall b: nat | b < |c2| && (first <= b < first + n + 1 || b >= |c0|) ensures OneTerminator(c2[b]) {
        if b < |c| && b != first + n {
          GrewKeeps(c, first + n, c2, b1, b);
        }
      }
    } else {
      var b: nat :| b < |c2| && (b == first + n || b >= |c|) && !Proper(c2[b]);
    }
  }

  lemma SwitchShaped(s: Stmt, c0: Code, b0: nat, c5: Code, c6: Code, c7: Code)
    requires s.Switch? && s.cases != [] && b0 < |c0|
    requires forall k: nat :: DefaultIndex(s.cases) < k < |s.cases| ==> s.cases[k].test.Some?
    requires ChecksReady(s, c0, b0, c5) && BodiesGrew(c5, |c0| + |s.cases|, |s.cases|, c6)
    requires CasesShaped(s, |s.cases|, |c0| + |s.cases|, c5, c6) && |c0| + 2 * |s.cases| < |c6|
    requires c7 == Put(c6, |c0| + 2 * |s.cases|, if s.alwaysReturns then [Unreachable] else Emit(Dtors(TempsOf(s.expr))))
    ensures Shaped(s, c0, b0, c7, |c0| + 2 * |s.cases|)
  {
    hide Emit, ValueCode, Dtors, TempsOf, DefaultIndex, ChecksOk, OneTerminator, Proper, Extends, Formed, Closed, Terminated, Has, Grew, CasesFormed;
    var n, done := |s.cases|, |c0| + 2 * |s.cases|;
    var last := if s.alwaysReturns then [Unreachable] else Emit(Dtors(TempsOf(s.expr)));
    SwitchShape(c0, b0, n, ValueCode(s.expr), SwitchStart(s, c0, b0), c5, c6, c7);
    SwitchHead(s, c0, b0, c5, c7);
    SwitchFormed(s, Terminated(c0[b0]));
    LastShape(TempsOf(s.expr));
    assert [] + last == last;
    assert c7[done] == last;
    if Proper(c0[b0]) && !Terminated(c0[b0]) {
      if CasesFormed(s.cases, n) {
        forall b: nat | b < |c7| && b != done && (b == b0 || b >= |c0|) ensures OneTerminator(c7[b]) {
          if |c0| <= b < |c0| + n {
            ChecksTerminated(c5, s.cases, Range(|c0|, n), Range(|c0| + n, n), done, b - |c0|);
          }
        }
      } else {
        var b: nat :| b < |c6| && b >= |c0| + n && !Proper(c6[b]);
        assert c6[done] == [];
        assert c7[b] == c6[b];
      }
    }
  }

  lemma LastShape(objs: Objs)
    ensures Proper([]) && Proper([Unreachable]) && Terminated([Unreachable])
    ensures Proper(Emit(Dtors(objs))) && !Terminated(Emit(Dtors(objs)))
  {
  }

  lemma SwitchFormed(s: Stmt, closed: bool)
    requires s.Switch? && s.cases != []
    ensures Formed(s, closed) == (!closed && CasesFormed(s.cases, |s.cases|))
    ensures Closed(s, closed) == s.alwaysReturns
  {
  }

  /** The block in which a switch starts. */
  lemma SwitchHead(s: Stmt, c0: Code, b0: nat, c5: Code, c7: Code)
    requires s.Switch? && s.cases != [] && b0 < |c0| && b0 < |c7|
    requires Has(c7, b0, |c0[b0]|, ValueCode(s.expr) + [Br(|c0|)])
    requires b0 < |c5| && c7[b0] == c5[b0] == SwitchStart(s, c0, b0)[b0]
    ensures Proper(c0[b0]) ==> if Terminated(c0[b0]) then !Proper(c7[b0]) else OneTerminator(c7[b0])
  {
    hide Piece, Open;
    var code := ValueCode(s.expr) + [Br(|c0|)];
    assert c7[b0] == c0[b0] + code;
    StraightCode(Given(s.expr), false, [Act], None);
    OpenShape(ValueCode(s.expr), Br(|c0|));
    if Proper(c0[b0]) {
      PutShape(c0, b0, code);
      assert Put(c0, b0, code)[b0] == c7[b0];
      ClosedIs(c7[b0]);
    }
  }

  // ---- together with what the code does

  lemma SeqMade(s: Stmt, i: nat, scopes: Scopes, flow: Flow, c0: Code, b0: nat, c1: Code, b1: nat, c2: Code, b2: nat)
    requires s.Block? && i < |s.stats| && CompiledSeq(s, i, scopes, flow, c0, b0, c1, b1)
    requires Compiled(s.stats[i], scopes + [PushedAll(s.stats[..i])], flow, c1, b1, c2, b2)
    requires ShapedSeq(s.stats[..i], c0, b0, c1, b1) && Shaped(s.stats[i], c1, b1, c2, b2)
    ensures ShapedSeq(s.stats[..i + 1], c0, b0, c2, b2)
  {
    hide Grew, Shaped, ShapedSeq, Sim, SimSeq;
    assert s.stats[..i + 1] == s.stats[..i] + [s.stats[i]];
    SeqShaped(s.stats[..i], s.stats[i], c0, b0, c1, b1, c2, b2);
  }

  lemma BlockMade(s: Stmt, scopes: Scopes, flow: Flow, c0: Code, b0: nat, c1: Code, b1: nat, c2: Code)
    requires s.Block? && CompiledSeq(s, |s.stats|, scopes, flow, c0, b0, c1, b1) && ShapedSeq(s.stats, c0, b0, c1, b1) && b1 < |c1|
    requires c2 == if s.terminate then Put(c1, b1, Emit(Dtors(PushedAll(s.stats)))) else c1
    ensures Shaped(s, c0, b0, c2, b1)
  {
    hide Grew, Shaped, ShapedSeq, Sim, SimSeq;
    BlockShaped(s, c0, b0, c1, b1, c2);
  }

  lemma IfMade(s: Stmt, scopes: Scopes, flow: Flow, c0: Code, b0: nat, c1: Code, c2: Code, b2: nat, c3: Code, d3: Option<nat>,
               c4: Code, b4: nat, c5: Code, d5: Option<nat>, b: nat)
    requires scopes != [] && s.If? && b0 < |c0| && c1 == Put(c0 + [[], []], b0, CondCode(Condition(s.cond), |c0|, |c0| + 1))
    requires Compiled(s.body, scopes, flow, c1, |c0|, c2, b2) && Shaped(s.body, c1, |c0|, c2, b2)
    requires b2 < |c2| && Ended(c2, b2, None, c3, d3)
    requires if s.elseBody.None? then c4 == c3 && b4 == |c0| + 1
             else Compiled(s.elseBody.value, Push(scopes, Pushed(s.body)), flow, c3, |c0| + 1, c4, b4) && Shaped(s.elseBody.value, c3, |c0| + 1, c4, b4)
    requires b4 < |c4| && Ended(c4, b4, d3, c5, d5)
    requires b == if d5.Some? then d5.value else b4
    ensures Shaped(s, c0, b0, c5, b)
  {
    hide Grew, Shaped, Sim, Put, Ended, CondCode;
    IfShaped(s, c0, b0, c1, c2, b2, c3, d3, c4, b4, c5, d5, b);
  }

  lemma SwitchMade(s: Stmt, scopes: Scopes, c0: Code, b0: nat, c5: Code, c6: Code, c7: Code)
    requires s.Switch? && s.cases != [] && b0 < |c0|
    requires forall k: nat :: DefaultIndex(s.cases) < k < |s.cases| ==> s.cases[k].test.Some?
    requires ChecksReady(s, c0, b0, c5) && CasesWritten(s, |s.cases|, scopes, |c0| + |s.cases|, |c0| + 2 * |s.cases|, c5, c6)
    requires CasesShaped(s, |s.cases|, |c0| + |s.cases|, c5, c6) && |c0| + 2 * |s.cases| < |c6|
    requires c7 == Put(c6, |c0| + 2 * |s.cases|, if s.alwaysReturns then [Unreachable] else Emit(Dtors(TempsOf(s.expr))))
    ensures Shaped(s, c0, b0, c7, |c0| + 2 * |s.cases|)
  {
    hide ChecksReady, CasesShaped, Shaped, Put, Emit, DefaultIndex, BodiesGrew;
    SwitchShaped(s, c0, b0, c5, c6, c7);
  }

  /** The block of a case is empty until its body is compiled. */
  lemma CaseBlock(s: Stmt, n: nat, scopes: Scopes, first: nat, done: nat, c0: Code, c: Code)
    requires s.Switch? && n < |s.cases| && CasesWritten(s, n, scopes, first, done, c0, c)
    requires first + n < |c0| && c0[first + n] == []
    ensures |c0| <= |c| && c[first + n] == []
  {
  }
}
