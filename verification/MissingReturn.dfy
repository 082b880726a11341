/** The analysis of missing returns. It decides which functions return on every path,
    and on the way marks blocks and switches for code generation. */
module MissingReturn {
  import opened Wrappers
  import opened Lives
  import opened ExprSem
  import opened StatSem
  import opened StatWritten
  import opened StatRight
  import opened StatReach
  import opened StatFunction
  import opened StatProof
  import opened StatGen

  datatype Term = ByContinue | ByBreak | ByReturn

  datatype Occurs = No | Maybe | Yes

  /** How statements were last seen to be left, and whether they always are. A
      statement that says nothing about it keeps what was found before. */
  datatype Found = Found(term: Term, occurs: Occurs)

  /** `NoTarget` is no error of the analysis: code generation asserts that a `continue`
      has a target. */
  datatype Error = UnreachableCode | ContinuesNowhere | DoesNotReturn | MayNotReturn | NoTarget

  function MaxTerm(a: Term, b: Term): Term {
    if a.ByReturn? || b.ByReturn? then ByReturn else if a.ByBreak? || b.ByBreak? then ByBreak else ByContinue
  }

  datatype Checked = Checked(s: Stmt, found: Found)

  function Check(s: Stmt, f: Found): Result<Checked, Error>
    decreases s, 1
  {
    match s
    case Block(stats, _) =>
      (match CheckSeq(stats, |stats|, f)
       case Err(e) => Err(e)
       case Ok(r) =>
         var occurs := if r.maybeLeave then Maybe else r.found.occurs;
         Ok(Checked(Block(r.stats, occurs != Yes), Found(r.term, occurs))))
    case If(cond, body, elseBody) =>
      (match Check(body, f)
       case Err(e) => Err(e)
       case Ok(b) =>
         if elseBody.None? then Ok(Checked(If(cond, b.s, None), Joined(b.found, b.found.(occurs := No))))
         else
           match Check(elseBody.value, b.found)
           case Err(e) => Err(e)
           case Ok(c) => Ok(Checked(If(cond, b.s, Some(c.s)), Joined(b.found, c.found))))
    case Switch(expr, cases, _) =>
      (match CheckCases(s, |cases|, f)
       case Err(e) => Err(e)
       case Ok(r) =>
         var always := r.returning == r.total && DefaultIndex(cases) < |cases|;
         var occurs := if always then Yes else if r.maybeReturns || r.returning != 0 then Maybe else No;
         Ok(Checked(Switch(expr, r.cases, always), Found(ByReturn, occurs))))
    case Break => Ok(Checked(s, Found(ByBreak, Yes)))
    case Continue => Ok(Checked(s, Found(ByContinue, Yes)))
    case Return(_) => Ok(Checked(s, Found(ByReturn, Yes)))
    case While(cond, body) =>
      (match Check(body, f)
       case Err(e) => Err(e)
       case Ok(b) => Ok(Checked(While(cond, b.s), AfterLoop(b.found))))
    case For(init, cond, incr, body) =>
      (match Check(body, f)
       case Err(e) => Err(e)
       case Ok(b) => Ok(Checked(For(init, cond, incr, b.s), AfterLoop(b.found))))
    case Plain(_) => Ok(Checked(s, f))
  }

  function Joined(troo: Found, fols: Found): Found {
    Found(if troo.term.ByReturn? then ByReturn else fols.term, if fols != troo then Maybe else fols.occurs)
  }

  function AfterLoop(f: Found): Found {
    if f.term.ByReturn? then f.(occurs := if f.occurs != No then Maybe else No) else Found(ByReturn, No)
  }

  datatype SeqChecked = SeqChecked(stats: seq<Stmt>, found: Found, term: Term, maybeLeave: bool)

  /** The first `n` statements of a block. */
  function CheckSeq(stats: seq<Stmt>, n: nat, f: Found): (r: Result<SeqChecked, Error>)
    requires n <= |stats|
    ensures r.Ok? ==> |r.value.stats| == n
    decreases stats, 0, n
  {
    if n == 0 then Ok(SeqChecked([], f.(occurs := No), ByContinue, false))
    else
      match CheckSeq(stats, n - 1, f)
      case Err(e) => Err(e)
      case Ok(r) =>
        if n > 1 && r.found.occurs == Yes then Err(UnreachableCode)
        else
          match Check(stats[n - 1], r.found)
          case Err(e) => Err(e)
          case Ok(c) =>
            Ok(SeqChecked(r.stats + [c.s], c.found, MaxTerm(r.term, c.found.term),
                          r.maybeLeave || (c.found.occurs == Maybe && c.found.term != ByReturn)))
  }

  /** `total` leaves out the cases that always continue. */
  datatype CasesChecked = CasesChecked(cases: seq<Case>, found: Found, returning: nat, total: nat, maybeReturns: bool)

  /** The first `n` cases of a switch. */
  function CheckCases(s: Stmt, n: nat, f: Found): (r: Result<CasesChecked, Error>)
    requires s.Switch? && n <= |s.cases|
    ensures r.Ok? ==> |r.value.cases| == n && |s.cases| - n <= r.value.total
    decreases s, 0, n
  {
    if n == 0 then Ok(CasesChecked([], f, 0, |s.cases|, false))
    else
      match CheckCases(s, n - 1, f)
      case Err(e) => Err(e)
      case Ok(r) =>
        match Check(s.cases[n - 1].cbody, r.found)
        case Err(e) => Err(e)
        case Ok(c) =>
          var cases := r.cases + [Case(s.cases[n - 1].test, c.s)];
          var byReturn, byContinue := c.found.term.ByReturn?, c.found.term.ByContinue?;
          if byContinue && c.found.occurs != No && n == |s.cases| then Err(ContinuesNowhere)
          else Ok(CasesChecked(cases, c.found, if byReturn && c.found.occurs == Yes then r.returning + 1 else r.returning,
                               if byContinue && c.found.occurs == Yes then r.total - 1 else r.total,
                               r.maybeReturns || (byReturn && c.found.occurs == Maybe)))
  }

  const NOTHING_FOUND := Found(ByContinue, No)

  /** A function that returns nothing gets a return where it may come to its end. */
  function CheckFunction(stats: seq<Stmt>, returnsNothing: bool): Result<seq<Stmt>, Error> {
    match Check(Block(stats, false), NOTHING_FOUND)
    case Err(e) => Err(e)
    case Ok(c) =>
      if c.found.occurs == Yes then Ok(c.s.stats)
      else if returnsNothing then Ok(c.s.stats + [Return(Atom)])
      else Err(if c.found.occurs == No then DoesNotReturn else MayNotReturn)
  }

  class Visitor {
    var term: Term
    var occurs: Occurs

    constructor ()
      ensures Now() == NOTHING_FOUND
    {
      term, occurs := ByContinue, No;
    }

    ghost function Now(): Found
      reads this
    {
      Found(term, occurs)
    }

    /** The marked statement, and what is known now, are as `Check` says. */
    ghost predicate Computes(c: Result<Checked, Error>, r: Result<Stmt, Error>)
      reads this
    {
      match c
      case Err(e) => r == Err(e)
      case Ok(c) => r == Ok(c.s) && Now() == c.found
    }

    method Visit(s: Stmt) returns (r: Result<Stmt, Error>)
      modifies this
      ensures Computes(Check(s, old(Now())), r)
      decreases s, 1
    {
      match s
      case Block(_, _) => r := VisitBlock(s);
      case If(_, _, _) => r := VisitIf(s);
      case Switch(_, _, _) => r := VisitSwitch(s);
      case Break =>
        term, occurs := ByBreak, Yes;
        r := Ok(s);
      case Continue =>
        term, occurs := ByContinue, Yes;
        r := Ok(s);
      case Return(_) =>
        term, occurs := ByReturn, Yes;
        r := Ok(s);
      case While(cond, body) =>
        r := Visit(body);
        if r.Ok? {
          LeaveLoop();
          r := Ok(While(cond, r.value));
        }
      case For(init, cond, incr, body) =>
        r := Visit(body);
        if r.Ok? {
          LeaveLoop();
          r := Ok(For(init, cond, incr, r.value));
        }
      case Plain(_) => r := Ok(s);
    }

    method LeaveLoop()
      modifies this
      ensures Now() == AfterLoop(old(Now()))
    {
      if term == ByReturn {
        if occurs != No {
          occurs := Maybe;
        }
      } else {
        term, occurs := ByReturn, No;
      }
    }

    method VisitBlock(s: Stmt) returns (r: Result<Stmt, Error>)
      requires s.Block?
      modifies this
      ensures Computes(Check(s, old(Now())), r)
      decreases s, 0
    {
      occurs := No;
      var maybeLeave, blockTerm, done: seq<Stmt> := false, ByContinue, [];
      var i := 0;
      while i < |s.stats|
        invariant i <= |s.stats| && CheckSeq(s.stats, i, old(Now())) == Ok(SeqChecked(done, Now(), blockTerm, maybeLeave))
        invariant i < |s.stats| && i > 0 ==> occurs != Yes
      {
        ghost var before := Now();
        r := Visit(s.stats[i]);
        if r.Err? {
          SeqFails(s.stats, i + 1, old(Now()));
          return;
        }
        if occurs == Yes && i + 1 < |s.stats| {
          SeqFails(s.stats, i + 2, old(Now()));
          return Err(UnreachableCode);
        }
        if occurs == Maybe && term != ByReturn {
          maybeLeave := true;
        }
        blockTerm := MaxTerm(blockTerm, term);
        done := done + [r.value];
        i := i + 1;
      }
      term := blockTerm;
      if maybeLeave {
        occurs := Maybe;
      }
      r := Ok(Block(done, occurs != Yes));
    }

    method VisitIf(s: Stmt) returns (r: Result<Stmt, Error>)
      requires s.If?
      modifies this
      ensures Computes(Check(s, old(Now())), r)
      decreases s, 0
    {
      r := Visit(s.body);
      if r.Err? {
        return;
      }
      var body, trooTerm, trooOccurs, elseBody: Option<Stmt> := r.value, term, occurs, None;
      if s.elseBody.Some? {
        r := Visit(s.elseBody.value);
        if r.Err? {
          return;
        }
        elseBody := Some(r.value);
      } else {
        occurs := No;
      }
      if occurs != trooOccurs || term != trooTerm {
        occurs := Maybe;
      }
      if trooTerm == ByReturn {
        term := ByReturn;
      }
      r := Ok(If(s.cond, body, elseBody));
    }

    method VisitSwitch(s: Stmt) returns (r: Result<Stmt, Error>)
      requires s.Switch?
      modifies this
      ensures Computes(Check(s, old(Now())), r)
      decreases s, 0
    {
      hide Check, CheckCases, DefaultIndex;
      var foundDefault, retCount, totalCases, maybeRet, done: seq<Case> := false, 0, |s.cases|, false, [];
      var c := 0;
      NoCases(s, Now());
      while c < |s.cases|
        invariant c <= |s.cases| && foundDefault == (DefaultIndex(s.cases) < c) && 0 <= retCount && |s.cases| - c <= totalCases
        invariant CheckCases(s, c, old(Now())) == Ok(CasesChecked(done, Now(), retCount, totalCases, maybeRet))
      {
        if s.cases[c].test.None? {
          foundDefault := true;
        }
        DefaultNext(s.cases, c);
        CasesNext(s, c, old(Now()), CasesChecked(done, Now(), retCount, totalCases, maybeRet));
        r := Visit(s.cases[c].cbody);
        if r.Err? {
          CasesFail(s, c + 1, old(Now()));
          SwitchFails(s, old(Now()));
          return;
        }
        if term == ByReturn {
          if occurs == Maybe {
            maybeRet := true;
          } else if occurs == Yes {
            retCount := retCount + 1;
          }
        } else if term == ByContinue {
          if occurs != No && c + 1 == |s.cases| {
            SwitchFails(s, old(Now()));
            return Err(ContinuesNowhere);
          }
          if occurs == Yes {
            totalCases := totalCases - 1;
          }
        }
        done := done + [Case(s.cases[c].test, r.value)];
        c := c + 1;
      }
      var always := retCount == totalCases && foundDefault;
      term, occurs := ByReturn, if always then Yes else if maybeRet || retCount != 0 then Maybe else No;
      r := Ok(Switch(s.expr, done, always));
      SwitchIs(s, old(Now()));
    }
  }

  lemma NoCases(s: Stmt, f: Found)
    requires s.Switch?
    ensures CheckCases(s, 0, f) == Ok(CasesChecked([], f, 0, |s.cases|, false))
  {
  }

  /** One more case. */
  lemma CasesNext(s: Stmt, n: nat, f: Found, r: CasesChecked)
    requires s.Switch? && n < |s.cases| && CheckCases(s, n, f) == Ok(r)
    ensures var next := CheckCases(s, n + 1, f);
      match Check(s.cases[n].cbody, r.found)
      case Err(e) => next == Err(e)
      case Ok(c) =>
        if c.found.term == ByContinue && c.found.occurs != No && n + 1 == |s.cases| then next == Err(ContinuesNowhere)
        else next == Ok(CasesChecked(
          r.cases + [Case(s.cases[n].test, c.s)], c.found,
          if c.found == Found(ByReturn, Yes) then r.returning + 1 else r.returning,
          if c.found == Found(ByContinue, Yes) then r.total - 1 else r.total,
          r.maybeReturns || c.found == Found(ByReturn, Maybe)))
  {
    hide Check;
  }

  lemma CasesStep(s: Stmt, n: nat, f: Found)
    requires s.Switch? && 0 < n <= |s.cases|
    ensures match CheckCases(s, n - 1, f)
      case Err(e) => CheckCases(s, n, f) == Err(e)
      case Ok(r) =>
        match Check(s.cases[n - 1].cbody, r.found)
        case Err(e) => CheckCases(s, n, f) == Err(e)
        case Ok(c) =>
          if c.found.term == ByContinue && c.found.occurs != No && n == |s.cases| then CheckCases(s, n, f) == Err(ContinuesNowhere)
          else CheckCases(s, n, f) == Ok(CasesChecked(
            r.cases + [Case(s.cases[n - 1].test, c.s)], c.found,
            if c.found == Found(ByReturn, Yes) then r.returning + 1 else r.returning,
            if c.found == Found(ByContinue, Yes) then r.total - 1 else r.total,
            r.maybeReturns || c.found == Found(ByReturn, Maybe)))
  {
    hide Check;
  }

  lemma SwitchFails(s: Stmt, f: Found)
    requires s.Switch? && CheckCases(s, |s.cases|, f).Err?
    ensures Check(s, f) == Err(CheckCases(s, |s.cases|, f).error)
  {
  }

  lemma SwitchIs(s: Stmt, f: Found)
    requires s.Switch? && CheckCases(s, |s.cases|, f).Ok?
    ensures var r := CheckCases(s, |s.cases|, f).value; var always := r.returning == r.total && DefaultIndex(s.cases) < |s.cases|;
      Check(s, f) == Ok(Checked(Switch(s.expr, r.cases, always),
        Found(ByReturn, if always then Yes else if r.maybeReturns || r.returning != 0 then Maybe else No)))
  {
  }

  lemma {:induction false} SeqFails(stats: seq<Stmt>, n: nat, f: Found)
    requires n <= |stats| && CheckSeq(stats, n, f).Err?
    ensures CheckSeq(stats, |stats|, f) == Err(CheckSeq(stats, n, f).error)
    decreases |stats| - n
  {
    if n < |stats| {
      SeqFails(stats, n + 1, f);
    }
  }

  lemma {:induction false} CasesFail(s: Stmt, n: nat, f: Found)
    requires s.Switch? && n <= |s.cases| && CheckCases(s, n, f).Err?
    ensures CheckCases(s, |s.cases|, f) == Err(CheckCases(s, n, f).error)
    decreases |s.cases| - n
  {
    if n < |s.cases| {
      CasesFail(s, n + 1, f);
    }
  }

  lemma DefaultNext(cases: seq<Case>, c: nat)
    requires c < |cases|
    ensures DefaultIndex(cases) < c + 1 <==> DefaultIndex(cases) < c || cases[c].test.None?
  {
  }

  // ---- what a found result means

  /** Bodies are blocks, except that an if can stand behind else; increments declare
      nothing; expressions are balanced. */
  predicate Braced(s: Stmt)
    decreases s
  {
    match s
    case Block(stats, _) => forall k: nat :: k < |stats| ==> Braced(stats[k])
    case If(cond, body, elseBody) =>
      && Balanced(cond) && body.Block? && Braced(body)
      && (elseBody.Some? ==> (elseBody.value.Block? || elseBody.value.If?) && Braced(elseBody.value))
    case Switch(expr, cases, _) =>
      && Balanced(expr) && BalancedTests(cases)
      && forall c: nat :: c < |cases| ==> cases[c].cbody.Block? && Braced(cases[c].cbody)
    case Return(result) => Balanced(result)
    case While(cond, body) => Balanced(cond) && body.Block? && Braced(body)
    case For(init, cond, incr, body) =>
      OptSettled(init) && Balanced(cond) && OptSettled(incr) && OptLocals(incr) == [] && body.Block? && Braced(body)
    case Plain(simple) => Settled(SimpleWork(simple))
    case _ => true
  }

  /** Switches that were found to always return do not come to their end. */
  predicate MarksHold(s: Stmt)
    decreases s
  {
    match s
    case Block(stats, _) => forall k: nat :: k < |stats| ==> MarksHold(stats[k])
    case If(_, body, elseBody) => MarksHold(body) && (elseBody.Some? ==> MarksHold(elseBody.value))
    case Switch(_, cases, alwaysReturns) =>
      && (alwaysReturns ==> Ends(s, FRESH) == {})
      && forall c: nat :: c < |cases| ==> MarksHold(cases[c].cbody)
    case While(_, body) => MarksHold(body)
    case For(_, _, _, body) => MarksHold(body)
    case _ => true
  }

  /** What is found to be always left is not left at its end, and every block that can
      be left at its end gets a Terminate node. */
  lemma {:induction false} CheckedIsOrderly(s: Stmt, f: Found)
    requires Check(s, f).Ok? && Braced(s) && MarksHold(Check(s, f).value.s) && (s.Plain? ==> f.occurs != Yes)
    ensures var c := Check(s, f).value;
      && Orderly(c.s) && c.s.Block? == s.Block? && c.s.If? == s.If?
      && (c.found.occurs == Yes ==> forall h: Held :: Ends(c.s, h) == {})
    decreases s, 1
  {
    match s
    case Block(stats, _) => SeqIsOrderly(stats, |stats|, f);
    case If(_, body, elseBody) =>
      CheckedIsOrderly(body, f);
      if elseBody.Some? {
        CheckedIsOrderly(elseBody.value, Check(body, f).value.found);
      }
    case Switch(_, _, _) =>
      CasesAreOrderly(s, |s.cases|, f);
      SameTests(s.cases, CheckCases(s, |s.cases|, f).value.cases);
    case While(_, body) => CheckedIsOrderly(body, f);
    case For(_, _, _, body) => CheckedIsOrderly(body, f);
    case _ =>
  }

  lemma {:induction false} SeqIsOrderly(stats: seq<Stmt>, n: nat, f: Found)
    requires n <= |stats| && CheckSeq(stats, n, f).Ok? && forall k: nat :: k < |stats| ==> Braced(stats[k])
    requires forall k: nat :: k < n ==> MarksHold(CheckSeq(stats, n, f).value.stats[k])
    ensures var r := CheckSeq(stats, n, f).value;
      && (forall k: nat :: k < n ==> Orderly(r.stats[k]))
      && (r.found.occurs == Yes ==> forall h: Held :: EndsSeq(r.stats, h) == {})
    decreases stats, 0, n
  {
    if n > 0 {
      hide Orderly, Ends, Check, Braced, MarksHold;
      var before, after := CheckSeq(stats, n - 1, f).value, CheckSeq(stats, n, f).value;
      var c := Check(stats[n - 1], before.found).value;
      assert after.stats == before.stats + [c.s] && after.stats[n - 1] == c.s;
      assert forall k: nat :: k < n - 1 ==> before.stats[k] == after.stats[k];
      SeqIsOrderly(stats, n - 1, f);
      CheckedIsOrderly(stats[n - 1], before.found);
      if c.found.occurs == Yes {
        forall h: Held ensures EndsSeq(after.stats, h) == {} {
          LastNeverEnds(before.stats, c.s, h);
        }
      }
    }
  }

  lemma LastNeverEnds(front: seq<Stmt>, last: Stmt, h: Held)
    requires forall g: Held :: Ends(last, g) == {}
    ensures EndsSeq(front + [last], h) == {}
  {
    hide Ends;
    var all := front + [last];
    assert all[..|all| - 1] == front && all[|all| - 1] == last;
  }

  /** What is known of the first `n` cases. */
  ghost predicate OrderlyCases(s: Stmt, n: nat, r: CasesChecked)
    requires s.Switch?
  {
    && |r.cases| == n <= |s.cases|
    && (forall k: nat :: k < n ==> Orderly(r.cases[k].cbody) && r.cases[k].cbody.Block? && r.cases[k].test == s.cases[k].test)
    && r.returning + (|s.cases| - r.total) <= n
    && (r.returning + (|s.cases| - r.total) == n ==> forall k: nat :: k < n ==> Ends(r.cases[k].cbody, FRESH) == {})
  }

  lemma OneMoreOrderly(s: Stmt, n: nat, r: CasesChecked, r': CasesChecked, body: Stmt, always: bool)
    requires s.Switch? && n < |s.cases| && OrderlyCases(s, n, r)
    requires Orderly(body) && body.Block? && (always ==> Ends(body, FRESH) == {})
    requires r'.cases == r.cases + [Case(s.cases[n].test, body)]
    requires r'.returning - r'.total == r.returning - r.total + if always then 1 else 0
    ensures OrderlyCases(s, n + 1, r')
  {
    hide Orderly, Ends;
    assert forall k: nat :: k < n ==> r'.cases[k] == r.cases[k];
  }

  lemma {:induction false} CasesAreOrderly(s: Stmt, n: nat, f: Found)
    requires s.Switch? && n <= |s.cases| && CheckCases(s, n, f).Ok? && Braced(s)
    requires forall k: nat :: k < n ==> MarksHold(CheckCases(s, n, f).value.cases[k].cbody)
    ensures OrderlyCases(s, n, CheckCases(s, n, f).value)
    decreases s, 0, n
  {
    if n > 0 {
      hide OrderlyCases, Orderly, Ends, Check, CheckCases, MarksHold, Braced;
      BracedCase(s, n - 1);
      CasesStep(s, n, f);
      var before, after := CheckCases(s, n - 1, f).value, CheckCases(s, n, f).value;
      var c := Check(s.cases[n - 1].cbody, before.found).value;
      assert after.cases[n - 1].cbody == c.s;
      assert forall k: nat :: k < n - 1 ==> before.cases[k] == after.cases[k];
      CasesAreOrderly(s, n - 1, f);
      CheckedIsOrderly(s.cases[n - 1].cbody, before.found);
      OneMoreOrderly(s, n - 1, before, after, c.s, c.found == Found(ByReturn, Yes) || c.found == Found(ByContinue, Yes));
    }
  }

  lemma BracedCase(s: Stmt, c: nat)
    requires s.Switch? && Braced(s) && c < |s.cases|
    ensures s.cases[c].cbody.Block? && Braced(s.cases[c].cbody)
  {
  }

  lemma SameTests(a: seq<Case>, b: seq<Case>)
    requires |a| == |b| && (forall k: nat :: k < |a| ==> a[k].test == b[k].test)
    ensures BalancedTests(a) <==> BalancedTests(b)
  {
    hide Balanced;
  }

  lemma {:induction false} SameDefault(a: seq<Case>, b: seq<Case>)
    requires |a| == |b| && forall k: nat :: k < |a| ==> a[k].test == b[k].test
    ensures DefaultIndex(a) == DefaultIndex(b)
    decreases |a|
  {
    if a != [] && a[0].test.Some? {
      SameDefault(a[1..], b[1..]);
    }
  }

  /** A switch is rightly said to always return exactly if no case can break: a break
      is overlooked in `{ if (a) { break; } else if (b) { return; } return; }`. */
  lemma MarkDecides(s: Stmt, f: Found)
    requires s.Switch? && Check(s, f).Ok? && Braced(s) && Check(s, f).value.s.alwaysReturns
    requires forall k: nat :: k < |Check(s, f).value.s.cases| ==> MarksHold(Check(s, f).value.s.cases[k].cbody)
    ensures var marked := Check(s, f).value.s;
      Ends(marked, FRESH) == {} <==> forall k: nat :: k < |marked.cases| ==> !MayJump(marked.cases[k].cbody, Break)
  {
    hide Check, CheckCases, Braced, MarksHold, DefaultIndex, MayJump;
    SwitchChecked(s, f);
    var r := CheckCases(s, |s.cases|, f).value;
    assert Check(s, f).value.s == Switch(s.expr, r.cases, true);
    CasesAreOrderly(s, |s.cases|, f);
    SameDefault(s.cases, r.cases);
  }

  lemma SwitchChecked(s: Stmt, f: Found)
    requires s.Switch? && Check(s, f).Ok?
    ensures CheckCases(s, |s.cases|, f).Ok?
    ensures var r := CheckCases(s, |s.cases|, f).value;
      Check(s, f).value.s == Switch(s.expr, r.cases, r.returning == r.total && DefaultIndex(s.cases) < |s.cases|)
  {
  }

  /** The marks do not change where jumps go. */
  lemma {:induction false} LegalKept(s: Stmt, f: Found, brk: bool, cont: bool)
    requires Check(s, f).Ok?
    ensures Legal(Check(s, f).value.s, brk, cont) <==> Legal(s, brk, cont)
    decreases s, 1
  {
    hide CheckCases, CheckSeq;
    match s
    case Block(stats, _) => SeqLegalKept(stats, |stats|, f, brk, cont);
    case If(_, body, elseBody) =>
      LegalKept(body, f, brk, cont);
      if elseBody.Some? {
        LegalKept(elseBody.value, Check(body, f).value.found, brk, cont);
      }
    case Switch(_, _, _) => SwitchLegalKept(s, f, brk, cont);
    case While(_, body) => LegalKept(body, f, true, true);
    case For(_, _, _, body) => LegalKept(body, f, true, true);
    case _ =>
  }

  lemma SwitchLegalKept(s: Stmt, f: Found, brk: bool, cont: bool)
    requires s.Switch? && Check(s, f).Ok?
    ensures Legal(Check(s, f).value.s, brk, cont) <==> Legal(s, brk, cont)
    decreases s, 0, |s.cases| + 1
  {
    hide Check, CheckCases;
    SwitchChecked(s, f);
    CasesLegalKept(s, |s.cases|, f);
    SameDefault(s.cases, CheckCases(s, |s.cases|, f).value.cases);
  }

  lemma {:induction false} SeqLegalKept(stats: seq<Stmt>, n: nat, f: Found, brk: bool, cont: bool)
    requires n <= |stats| && CheckSeq(stats, n, f).Ok?
    ensures forall k: nat :: k < n ==> (Legal(CheckSeq(stats, n, f).value.stats[k], brk, cont) <==> Legal(stats[k], brk, cont))
    decreases stats, 0, n
  {
    if n > 0 {
      hide Legal, Check;
      SeqLegalKept(stats, n - 1, f, brk, cont);
      LegalKept(stats[n - 1], CheckSeq(stats, n - 1, f).value.found, brk, cont);
    }
  }

  lemma {:induction false} CasesLegalKept(s: Stmt, n: nat, f: Found)
    requires s.Switch? && n <= |s.cases| && CheckCases(s, n, f).Ok?
    ensures var r := CheckCases(s, n, f).value; forall k: nat :: k < n ==>
      && r.cases[k].test == s.cases[k].test
      && (Legal(r.cases[k].cbody, true, k + 1 < |s.cases|) <==> Legal(s.cases[k].cbody, true, k + 1 < |s.cases|))
    decreases s, 0, n
  {
    if n > 0 {
      hide Check, Legal;
      CasesLegalKept(s, n - 1, f);
      LegalKept(s.cases[n - 1].cbody, CheckCases(s, n - 1, f).value.found, true, n < |s.cases|);
    }
  }

  // ---- where a continue goes

  /** What the traversal of statements has established: jumps stand in the body of a
      loop or of a case, and a switch has at most one default case. */
  predicate Placed(s: Stmt, flow: bool)
    decreases s
  {
    match s
    case Block(stats, _) => forall k: nat :: k < |stats| ==> Placed(stats[k], flow)
    case If(_, body, elseBody) => Placed(body, flow) && (elseBody.Some? ==> Placed(elseBody.value, flow))
    case Switch(_, cases, _) =>
      && (forall c: nat :: c < |cases| ==> Placed(cases[c].cbody, true))
      && (forall c: nat :: DefaultIndex(cases) < c < |cases| ==> cases[c].test.Some?)
    case Break => flow
    case Continue => flow
    case While(_, body) => Placed(body, true)
    case For(_, _, _, body) => Placed(body, true)
    case _ => true
  }

  /** A `continue` that belongs to the loop or case around the statement. */
  predicate OwnContinue(s: Stmt)
    decreases s
  {
    match s
    case Block(stats, _) => exists k: nat :: k < |stats| && OwnContinue(stats[k])
    case If(_, body, elseBody) => OwnContinue(body) || (elseBody.Some? && OwnContinue(elseBody.value))
    case Continue => true
    case _ => false
  }

  predicate LastContinues(cases: seq<Case>) {
    cases != [] && OwnContinue(cases[|cases| - 1].cbody)
  }

  /** No `continue` belongs to the last case of a switch. */
  predicate NoLastContinue(s: Stmt)
    decreases s
  {
    match s
    case Block(stats, _) => forall k: nat :: k < |stats| ==> NoLastContinue(stats[k])
    case If(_, body, elseBody) => NoLastContinue(body) && (elseBody.Some? ==> NoLastContinue(elseBody.value))
    case Switch(_, cases, _) => !LastContinues(cases) && forall c: nat :: c < |cases| ==> NoLastContinue(cases[c].cbody)
    case While(_, body) => NoLastContinue(body)
    case For(_, _, _, body) => NoLastContinue(body)
    case _ => true
  }

  lemma {:induction false} LegalIs(s: Stmt, brk: bool, cont: bool)
    requires cont ==> brk
    ensures Legal(s, brk, cont) <==> Placed(s, brk) && NoLastContinue(s) && (OwnContinue(s) ==> cont)
    decreases s
  {
    match s
    case Block(stats, _) =>
      forall k: nat | k < |stats| {
        LegalIs(stats[k], brk, cont);
      }
    case If(_, body, elseBody) =>
      LegalIs(body, brk, cont);
      if elseBody.Some? {
        LegalIs(elseBody.value, brk, cont);
      }
    case Switch(_, cases, _) =>
      forall c: nat | c < |cases| {
        LegalIs(cases[c].cbody, true, c + 1 < |cases|);
      }
    case While(_, body) => LegalIs(body, true, true);
    case For(_, _, _, body) => LegalIs(body, true, true);
    case _ =>
  }

  lemma {:induction false} PlacedOutside(s: Stmt)
    requires Placed(s, false)
    ensures !OwnContinue(s)
    decreases s
  {
    match s
    case Block(stats, _) =>
      forall k: nat | k < |stats| ensures !OwnContinue(stats[k]) {
        PlacedOutside(stats[k]);
      }
    case If(_, body, elseBody) =>
      PlacedOutside(body);
      if elseBody.Some? {
        PlacedOutside(elseBody.value);
      }
    case _ =>
  }

  predicate AllPlaced(stats: seq<Stmt>) {
    forall k: nat :: k < |stats| ==> Placed(stats[k], false)
  }

  predicate AllNoLastContinue(stats: seq<Stmt>) {
    forall k: nat :: k < |stats| ==> NoLastContinue(stats[k])
  }

  /** Every jump of a function has a target exactly if no `continue` belongs to the last
      case of a switch. */
  lemma LegalDecides(stats: seq<Stmt>)
    requires AllPlaced(stats)
    ensures LegalSeq(stats) <==> AllNoLastContinue(stats)
  {
    hide Placed, NoLastContinue, OwnContinue, Legal;
    forall k: nat | k < |stats| ensures Legal(stats[k], false, false) <==> NoLastContinue(stats[k]) {
      LegalIs(stats[k], false, false);
      PlacedOutside(stats[k]);
    }
  }

  /** What has a `continue` is found to be left, unless it is said to return. */
  lemma {:induction false} ContinueFound(s: Stmt, f: Found)
    requires Check(s, f).Ok? && OwnContinue(s)
    ensures var found := Check(s, f).value.found; found.occurs != No || found.term == ByReturn
    decreases s, 1
  {
    match s
    case Block(stats, _) => SeqContinueFound(stats, |stats|, f);
    case If(_, body, elseBody) =>
      if OwnContinue(body) {
        ContinueFound(body, f);
      } else {
        ContinueFound(elseBody.value, Check(body, f).value.found);
      }
    case Continue =>
  }

  lemma {:induction false} SeqContinueFound(stats: seq<Stmt>, n: nat, f: Found)
    requires n <= |stats| && CheckSeq(stats, n, f).Ok? && exists k: nat :: k < n && OwnContinue(stats[k])
    ensures var r := CheckSeq(stats, n, f).value; r.maybeLeave || r.found.occurs != No || r.term == ByReturn
    ensures n < |stats| && CheckSeq(stats, n + 1, f).Ok? ==> var r := CheckSeq(stats, n, f).value; r.maybeLeave || r.term == ByReturn
    decreases stats, 0, n
  {
    hide OwnContinue, Check;
    if OwnContinue(stats[n - 1]) {
      ContinueFound(stats[n - 1], CheckSeq(stats, n - 1, f).value.found);
    } else {
      SeqContinueFound(stats, n - 1, f);
    }
  }

  /** A `continue` in the last case of a switch is overlooked if that case was found to
      break or return. */
  predicate Overlooked(s: Stmt, f: Found)
    requires Check(s, f).Ok?
    decreases s, 1
  {
    match s
    case Block(stats, _) => OverlookedIn(stats, |stats|, f)
    case If(_, body, elseBody) =>
      Overlooked(body, f) || (elseBody.Some? && Overlooked(elseBody.value, Check(body, f).value.found))
    case Switch(_, cases, _) =>
      || OverlookedInCases(s, |cases|, f)
      || (LastContinues(cases) && CheckCases(s, |cases|, f).value.found.term != ByContinue)
    case While(_, body) => Overlooked(body, f)
    case For(_, _, _, body) => Overlooked(body, f)
    case _ => false
  }

  predicate OverlookedIn(stats: seq<Stmt>, n: nat, f: Found)
    requires n <= |stats| && CheckSeq(stats, n, f).Ok?
    decreases stats, 0, n
  {
    n > 0 && (OverlookedIn(stats, n - 1, f) || Overlooked(stats[n - 1], CheckSeq(stats, n - 1, f).value.found))
  }

  predicate OverlookedInCases(s: Stmt, n: nat, f: Found)
    requires s.Switch? && n <= |s.cases| && CheckCases(s, n, f).Ok?
    decreases s, 0, n
  {
    n > 0 && (OverlookedInCases(s, n - 1, f) || Overlooked(s.cases[n - 1].cbody, CheckCases(s, n - 1, f).value.found))
  }

  /** In what is accepted, no `continue` belongs to the last case of a switch unless the
      analysis has overlooked it. */
  lemma {:induction false} OverlookedDecides(s: Stmt, f: Found)
    requires Check(s, f).Ok?
    ensures NoLastContinue(s) <==> !Overlooked(s, f)
    decreases s, 1
  {
    match s
    case Block(stats, _) => SeqOverlooked(stats, |stats|, f);
    case If(_, body, elseBody) =>
      OverlookedDecides(body, f);
      if elseBody.Some? {
        OverlookedDecides(elseBody.value, Check(body, f).value.found);
      }
    case Switch(_, cases, _) =>
      CasesOverlooked(s, |cases|, f);
      if LastContinues(cases) {
        ContinueFound(cases[|cases| - 1].cbody, CheckCases(s, |cases| - 1, f).value.found);
      }
    case While(_, body) => OverlookedDecides(body, f);
    case For(_, _, _, body) => OverlookedDecides(body, f);
    case _ =>
  }

  lemma {:induction false} SeqOverlooked(stats: seq<Stmt>, n: nat, f: Found)
    requires n <= |stats| && CheckSeq(stats, n, f).Ok?
    ensures (forall k: nat :: k < n ==> NoLastContinue(stats[k])) <==> !OverlookedIn(stats, n, f)
    decreases stats, 0, n
  {
    if n > 0 {
      hide NoLastContinue, Check, Overlooked;
      SeqOverlooked(stats, n - 1, f);
      OverlookedDecides(stats[n - 1], CheckSeq(stats, n - 1, f).value.found);
    }
  }

  lemma {:induction false} CasesOverlooked(s: Stmt, n: nat, f: Found)
    requires s.Switch? && n <= |s.cases| && CheckCases(s, n, f).Ok?
    ensures (forall c: nat :: c < n ==> NoLastContinue(s.cases[c].cbody)) <==> !OverlookedInCases(s, n, f)
    decreases s, 0, n
  {
    if n > 0 {
      hide NoLastContinue, Check, Overlooked;
      CasesOverlooked(s, n - 1, f);
      OverlookedDecides(s.cases[n - 1].cbody, CheckCases(s, n - 1, f).value.found);
    }
  }

  // ---- statements without break and continue

  /** Bodies are blocks, except that an if can stand behind else, and nothing is left but
      by return. */
  predicate Jumpless(s: Stmt)
    decreases s
  {
    match s
    case Block(stats, _) => forall k: nat :: k < |stats| ==> Jumpless(stats[k])
    case If(_, body, elseBody) =>
      && body.Block? && Jumpless(body)
      && (elseBody.Some? ==> (elseBody.value.Block? || elseBody.value.If?) && Jumpless(elseBody.value))
    case Switch(_, cases, _) => forall c: nat :: c < |cases| ==> cases[c].cbody.Block? && Jumpless(cases[c].cbody)
    case While(_, body) => body.Block? && Jumpless(body)
    case For(_, _, _, body) => body.Block? && Jumpless(body)
    case Break => false
    case Continue => false
    case _ => true
  }

  /** Every statement that stands behind another in a block can be reached from there. */
  predicate AllReached(s: Stmt)
    decreases s, 0
  {
    match s
    case Block(stats, _) => ReachedIn(stats, |stats|)
    case If(_, body, elseBody) => AllReached(body) && (elseBody.Some? ==> AllReached(elseBody.value))
    case Switch(_, cases, _) => forall c: nat :: c < |cases| ==> AllReached(cases[c].cbody)
    case While(_, body) => AllReached(body)
    case For(_, _, _, body) => AllReached(body)
    case _ => true
  }

  predicate ReachedIn(stats: seq<Stmt>, n: nat)
    requires n <= |stats|
    decreases stats, 0
  {
    forall k: nat :: k < n ==> (k > 0 ==> EndsSeq(stats[..k], FRESH) != {}) && AllReached(stats[k])
  }

  /** Whether the end can be reached does not depend on what is held. */
  ghost predicate Never(s: Stmt) {
    forall h: Held :: Ends(s, h) == {}
  }

  ghost predicate Sometimes(s: Stmt) {
    forall h: Held :: Ends(s, h) != {}
  }

  /** All that is ever known of such statements: whether they return. */
  predicate OfReturns(f: Found) {
    f.term == ByReturn || f == NOTHING_FOUND
  }

  /** What the analysis has found is what is so. */
  ghost predicate Exact(s: Stmt, c: Result<Checked, Error>) {
    && (c.Ok? <==> AllReached(s))
    && (c.Err? ==> c.error == UnreachableCode)
    && (c.Ok? ==> OfReturns(c.value.found) && if c.value.found.occurs == Yes then Never(s) else Sometimes(s))
  }

  lemma {:induction false} JumplessExact(s: Stmt, f: Found)
    requires Jumpless(s) && OfReturns(f) && (s.Plain? ==> f.occurs != Yes)
    ensures Exact(s, Check(s, f))
    decreases s, 1
  {
    match s
    case Block(stats, _) => BlockExact(s, f);
    case If(_, _, _) => IfExact(s, f);
    case Switch(_, _, _) => SwitchExact(s, f);
    case While(_, body) =>
      JumplessExact(body, f);
    case For(_, _, _, body) =>
      JumplessExact(body, f);
    case Return(_) =>
    case Plain(simple) =>
      forall h: Held ensures Ends(s, h) != {} {
        assert Held(h.whole, h.none && SimpleLocals(simple) == []) in Ends(s, h);
      }
  }

  lemma BlockExact(s: Stmt, f: Found)
    requires s.Block? && Jumpless(s) && OfReturns(f)
    ensures Exact(s, Check(s, f))
    decreases s, 0, |s.stats| + 1
  {
    SeqExact(s.stats, |s.stats|, f);
    assert s.stats[..|s.stats|] == s.stats;
    if EndsSeq(s.stats, FRESH) == {} {
      assert Never(s);
    } else {
      forall h: Held ensures Ends(s, h) != {} {
        assert h in Ends(s, h);
      }
    }
  }

  /** What is known of the first `n` statements. */
  ghost predicate SeqFound(stats: seq<Stmt>, n: nat, r: SeqChecked)
    requires n <= |stats|
  {
    && OfReturns(r.found) && !r.maybeLeave && (r.found.occurs != No ==> r.term == ByReturn) && (r.term == ByReturn || r.term == ByContinue)
    && (r.found.occurs == Yes <==> EndsSeq(stats[..n], FRESH) == {})
  }

  lemma OneMoreFound(stats: seq<Stmt>, n: nat, r: SeqChecked, c: Checked)
    requires n < |stats| && SeqFound(stats, n, r) && r.found.occurs != Yes && OfReturns(c.found)
    requires if c.found.occurs == Yes then Never(stats[n]) else Sometimes(stats[n])
    ensures SeqFound(stats, n + 1, SeqChecked(r.stats + [c.s], c.found, MaxTerm(r.term, c.found.term),
      r.maybeLeave || (c.found.occurs == Maybe && c.found.term != ByReturn)))
  {
    hide EndsSeq, Never, Sometimes;
    assert stats[..n + 1][..n] == stats[..n] && stats[..n + 1][n] == stats[n];
    LastEnds(stats[..n + 1], FRESH);
  }

  lemma {:induction false} SeqExact(stats: seq<Stmt>, n: nat, f: Found)
    requires n <= |stats| && OfReturns(f) && forall k: nat :: k < |stats| ==> Jumpless(stats[k])
    ensures CheckSeq(stats, n, f).Ok? <==> ReachedIn(stats, n)
    ensures CheckSeq(stats, n, f).Err? ==> CheckSeq(stats, n, f).error == UnreachableCode
    ensures CheckSeq(stats, n, f).Ok? ==> SeqFound(stats, n, CheckSeq(stats, n, f).value)
    decreases stats, 0, n
  {
    if n == 0 {
      assert stats[..0] == [];
    } else {
      hide SeqFound, EndsSeq, Check, CheckSeq, Jumpless, AllReached, ReachedIn, Never, Sometimes;
      SeqStep(stats, n, f);
      ReachedStep(stats, n);
      SeqExact(stats, n - 1, f);
      if CheckSeq(stats, n - 1, f).Ok? {
        var r := CheckSeq(stats, n - 1, f).value;
        FoundIs(stats, n - 1, r);
        NothingYet(stats);
        if n == 1 || r.found.occurs != Yes {
          JumplessExact(stats[n - 1], r.found);
          if Check(stats[n - 1], r.found).Ok? {
            OneMoreFound(stats, n - 1, r, Check(stats[n - 1], r.found).value);
          }
        }
      }
    }
  }

  lemma FoundIs(stats: seq<Stmt>, n: nat, r: SeqChecked)
    requires n <= |stats| && SeqFound(stats, n, r)
    ensures OfReturns(r.found) && (r.found.occurs == Yes <==> EndsSeq(stats[..n], FRESH) == {})
  {
  }

  lemma NothingYet(stats: seq<Stmt>)
    ensures EndsSeq(stats[..0], FRESH) != {}
  {
    assert FRESH in EndsSeq(stats[..0], FRESH);
  }

  /** One more statement. */
  lemma SeqStep(stats: seq<Stmt>, n: nat, f: Found)
    requires 0 < n <= |stats|
    ensures match CheckSeq(stats, n - 1, f)
      case Err(e) => CheckSeq(stats, n, f) == Err(e)
      case Ok(r) =>
        if n > 1 && r.found.occurs == Yes then CheckSeq(stats, n, f) == Err(UnreachableCode)
        else
          match Check(stats[n - 1], r.found)
          case Err(e) => CheckSeq(stats, n, f) == Err(e)
          case Ok(c) => CheckSeq(stats, n, f) == Ok(SeqChecked(r.stats + [c.s], c.found, MaxTerm(r.term, c.found.term),
            r.maybeLeave || (c.found.occurs == Maybe && c.found.term != ByReturn)))
  {
    hide Check;
  }

  lemma ReachedStep(stats: seq<Stmt>, n: nat)
    requires 0 < n <= |stats|
    ensures ReachedIn(stats, n) <==> ReachedIn(stats, n - 1) && (n > 1 ==> EndsSeq(stats[..n - 1], FRESH) != {}) && AllReached(stats[n - 1])
  {
    hide AllReached, EndsSeq;
  }

  lemma LastEnds(stats: seq<Stmt>, h: Held)
    requires stats != [] && EndsSeq(stats[..|stats| - 1], h) != {}
    ensures Never(stats[|stats| - 1]) ==> EndsSeq(stats, h) == {}
    ensures Sometimes(stats[|stats| - 1]) ==> EndsSeq(stats, h) != {}
  {
    hide Ends;
    var last := stats[|stats| - 1];
    var m :| m in EndsSeq(stats[..|stats| - 1], h);
    if Sometimes(last) {
      assert Ends(last, m) != {};
      var g :| g in Ends(last, m);
      assert g in EndsSeq(stats, h);
    }
  }

  lemma IfExact(s: Stmt, f: Found)
    requires s.If? && Jumpless(s) && OfReturns(f)
    ensures Exact(s, Check(s, f))
    decreases s, 0
  {
    JumplessExact(s.body, f);
    if Check(s.body, f).Ok? {
      if s.elseBody.Some? {
        JumplessExact(s.elseBody.value, Check(s.body, f).value.found);
      }
      EitherEnds(s);
    }
  }

  lemma EitherEnds(s: Stmt)
    requires s.If?
    ensures s.elseBody.None? ==> Sometimes(s)
    ensures s.elseBody.Some? && Never(s.body) && Never(s.elseBody.value) ==> Never(s)
    ensures s.elseBody.Some? && (Sometimes(s.body) || Sometimes(s.elseBody.value)) ==> Sometimes(s)
  {
    forall h: Held ensures s.elseBody.None? ==> Ends(s, h) != {} {
      ElseEnds(s, h);
    }
    if s.elseBody.Some? && (Sometimes(s.body) || Sometimes(s.elseBody.value)) {
      forall h: Held ensures Ends(s, h) != {} {
        ElseEnds(s, h);
        if Sometimes(s.body) {
          var g :| g in Ends(s.body, h);
          BodyEnds(s, h, g);
        }
      }
    }
  }

  lemma {:induction false} JumplessStays(s: Stmt, jump: Stmt)
    requires Jumpless(s)
    ensures !MayJump(s, jump)
    decreases s
  {
    match s
    case Block(stats, _) => JumplessAllStay(stats, jump);
    case If(_, body, elseBody) =>
      JumplessStays(body, jump);
      if elseBody.Some? {
        JumplessStays(elseBody.value, jump);
      }
    case _ =>
  }

  lemma {:induction false} JumplessAllStay(stats: seq<Stmt>, jump: Stmt)
    requires forall k: nat :: k < |stats| ==> Jumpless(stats[k])
    ensures !MayJumpSeq(stats, jump)
    decreases stats
  {
    if stats != [] {
      JumplessAllStay(stats[..|stats| - 1], jump);
      JumplessStays(stats[|stats| - 1], jump);
    }
  }

  lemma SwitchExact(s: Stmt, f: Found)
    requires s.Switch? && Jumpless(s) && OfReturns(f)
    ensures Exact(s, Check(s, f))
    decreases s, 0, |s.cases| + 1
  {
    hide Check, CheckCases, DefaultIndex, AllReached;
    CasesExact(s, |s.cases|, f);
    ReachedCases(s);
    if CheckCases(s, |s.cases|, f).Err? {
      SwitchFails(s, f);
    } else {
      SwitchIs(s, f);
      CasesEnds(s);
    }
  }

  lemma ReachedCases(s: Stmt)
    requires s.Switch?
    ensures AllReached(s) <==> forall c: nat :: c < |s.cases| ==> AllReached(s.cases[c].cbody)
  {
  }

  lemma CasesEnds(s: Stmt)
    requires s.Switch? && Jumpless(s)
    ensures if DefaultIndex(s.cases) < |s.cases| && forall c: nat :: c < |s.cases| ==> Ends(s.cases[c].cbody, FRESH) == {} then Never(s) else Sometimes(s)
  {
    hide DefaultIndex, MayJump;
    forall c: nat | c < |s.cases| ensures !MayJump(s.cases[c].cbody, Break) {
      JumplessStays(s.cases[c].cbody, Break);
    }
    if !(DefaultIndex(s.cases) < |s.cases| && forall c: nat :: c < |s.cases| ==> Ends(s.cases[c].cbody, FRESH) == {}) {
      forall h: Held ensures Ends(s, h) != {} {
        assert h in Ends(s, h);
      }
    }
  }

  ghost predicate CasesFound(s: Stmt, n: nat, r: CasesChecked)
    requires s.Switch? && n <= |s.cases|
  {
    && OfReturns(r.found) && r.total == |s.cases| && r.returning <= n
    && (r.returning == n <==> forall c: nat :: c < n ==> Ends(s.cases[c].cbody, FRESH) == {})
  }

  lemma OneMoreCase(s: Stmt, n: nat, r: CasesChecked, r': CasesChecked, found: Found)
    requires s.Switch? && n < |s.cases| && CasesFound(s, n, r) && OfReturns(found) && r'.found == found && r'.total == r.total
    requires if found.occurs == Yes then Never(s.cases[n].cbody) else Sometimes(s.cases[n].cbody)
    requires r'.returning == if found == Found(ByReturn, Yes) then r.returning + 1 else r.returning
    ensures CasesFound(s, n + 1, r')
  {
    hide Ends;
  }

  lemma {:induction false} CasesExact(s: Stmt, n: nat, f: Found)
    requires s.Switch? && n <= |s.cases| && Jumpless(s) && OfReturns(f)
    ensures CheckCases(s, n, f).Ok? <==> forall c: nat :: c < n ==> AllReached(s.cases[c].cbody)
    ensures CheckCases(s, n, f).Err? ==> CheckCases(s, n, f).error == UnreachableCode
    ensures CheckCases(s, n, f).Ok? ==> CasesFound(s, n, CheckCases(s, n, f).value)
    decreases s, 0, n
  {
    if n > 0 {
      hide CasesFound, Check, CheckCases, AllReached, Never, Sometimes;
      CasesStep(s, n, f);
      CasesExact(s, n - 1, f);
      if CheckCases(s, n - 1, f).Ok? {
        var r := CheckCases(s, n - 1, f).value;
        var body := s.cases[n - 1].cbody;
        assert OfReturns(r.found) by {
          CasesFoundIs(s, n - 1, r);
        }
        JumplessExact(body, r.found);
        if Check(body, r.found).Ok? {
          OneMoreCase(s, n - 1, r, CheckCases(s, n, f).value, Check(body, r.found).value.found);
        }
      }
    }
  }

  lemma CasesFoundIs(s: Stmt, n: nat, r: CasesChecked)
    requires s.Switch? && n <= |s.cases| && CasesFound(s, n, r)
    ensures OfReturns(r.found)
  {
  }

  lemma {:induction false} JumplessLegal(s: Stmt, brk: bool, cont: bool)
    requires Jumpless(s) && Placed(s, false)
    ensures Legal(s, brk, cont)
    decreases s
  {
    match s
    case Block(stats, _) =>
      forall k: nat | k < |stats| ensures Legal(stats[k], brk, cont) {
        JumplessLegal(stats[k], brk, cont);
      }
    case If(_, body, elseBody) =>
      JumplessLegal(body, brk, cont);
      if elseBody.Some? {
        JumplessLegal(elseBody.value, brk, cont);
      }
    case Switch(_, cases, _) =>
      forall c: nat | c < |cases| ensures Legal(cases[c].cbody, true, c + 1 < |cases|) {
        JumplessPlaced(cases[c].cbody, true, false);
        JumplessLegal(cases[c].cbody, true, c + 1 < |cases|);
      }
    case While(_, body) =>
      JumplessPlaced(body, true, false);
      JumplessLegal(body, true, true);
    case For(_, _, _, body) =>
      JumplessPlaced(body, true, false);
      JumplessLegal(body, true, true);
    case _ =>
  }

  lemma {:induction false} JumplessPlaced(s: Stmt, flow: bool, other: bool)
    requires Jumpless(s) && Placed(s, flow)
    ensures Placed(s, other)
    decreases s
  {
    match s
    case Block(stats, _) =>
      forall k: nat | k < |stats| ensures Placed(stats[k], other) {
        JumplessPlaced(stats[k], flow, other);
      }
    case If(_, body, elseBody) =>
      JumplessPlaced(body, flow, other);
      if elseBody.Some? {
        JumplessPlaced(elseBody.value, flow, other);
      }
    case _ =>
  }

  /** No run comes to the end of the function. */
  ghost predicate AlwaysReturns(stats: seq<Stmt>) {
    forall o: Answers :: ExecSeq(stats, o).out != Normal
  }

  lemma EndsAreRuns(stats: seq<Stmt>)
    requires LegalSeq(stats)
    ensures EndsSeq(stats, FRESH) == {} <==> AlwaysReturns(stats)
  {
    hide ExecSeq, EndsSeq, Part, State, Legal;
    FreshState();
    if EndsSeq(stats, FRESH) == {} {
      forall o: Answers ensures ExecSeq(stats, o).out != Normal {
        if ExecSeq(stats, o).out == Normal {
          SeqEnds(stats, o, [], []);
        }
      }
    } else {
      var g :| g in EndsSeq(stats, FRESH);
      var o := RealiseSeq(stats, [], [], g, false, false);
    }
  }

  // ---- whole functions

  /** An accepted function can be compiled exactly if the analysis has not overlooked a
      `continue` in the last case of a switch. */
  lemma AcceptedIsLegal(stats: seq<Stmt>, returnsNothing: bool)
    requires AllPlaced(stats) && CheckFunction(stats, returnsNothing).Ok?
    ensures CheckSeq(stats, |stats|, NOTHING_FOUND).Ok?
    ensures LegalSeq(stats) <==> !OverlookedIn(stats, |stats|, NOTHING_FOUND)
  {
    hide CheckFunction, CheckSeq, LegalSeq, AllPlaced;
    CheckedFunction(stats, returnsNothing);
    LegalDecides(stats);
    SeqOverlooked(stats, |stats|, NOTHING_FOUND);
  }

  predicate AllBraced(stats: seq<Stmt>) {
    forall k: nat :: k < |stats| ==> Braced(stats[k])
  }

  predicate AllMarksHold(stats: seq<Stmt>) {
    forall k: nat :: k < |stats| ==> MarksHold(stats[k])
  }

  predicate AllJumpless(stats: seq<Stmt>) {
    forall k: nat :: k < |stats| ==> Jumpless(stats[k])
  }

  /** Of functions of blocks without `break` and `continue` the analysis is exact. It
      accepts those in which every statement can be reached and every run returns, the
      latter only if something has to be returned; and a return is added exactly if a
      run can come to the end. */
  lemma JumplessDecides(stats: seq<Stmt>, returnsNothing: bool)
    requires AllPlaced(stats) && AllJumpless(stats)
    ensures CheckFunction(stats, returnsNothing).Ok? <==> ReachedIn(stats, |stats|) && (returnsNothing || AlwaysReturns(stats))
    ensures CheckFunction(stats, returnsNothing).Ok? && returnsNothing ==>
      (|CheckFunction(stats, returnsNothing).value| == |stats| <==> AlwaysReturns(stats))
    ensures !ReachedIn(stats, |stats|) ==> CheckFunction(stats, returnsNothing) == Err(UnreachableCode)
  {
    hide CheckSeq, ReachedIn, Placed, Jumpless, Legal, Ends, EndsSeq;
    forall k: nat | k < |stats| ensures Legal(stats[k], false, false) {
      JumplessLegal(stats[k], false, false);
    }
    EndsAreRuns(stats);
    SeqExact(stats, |stats|, NOTHING_FOUND);
    assert stats[..|stats|] == stats;
  }

  lemma CheckedFunction(stats: seq<Stmt>, returnsNothing: bool)
    requires CheckFunction(stats, returnsNothing).Ok?
    ensures var checked := CheckFunction(stats, returnsNothing).value; var r := CheckSeq(stats, |stats|, NOTHING_FOUND);
      r.Ok? && (checked == r.value.stats + [Return(Atom)] || (checked == r.value.stats && r.value.found.occurs == Yes))
  {
  }

  /** A function of blocks that passes the analysis is one that is compiled rightly. */
  lemma CheckedIsRight(stats: seq<Stmt>, returnsNothing: bool)
    requires CheckFunction(stats, returnsNothing).Ok?
    ensures AllBraced(stats) && AllMarksHold(CheckFunction(stats, returnsNothing).value) ==> Right(CheckFunction(stats, returnsNothing).value)
  {
    hide CheckFunction, CheckSeq, Braced, MarksHold, Orderly, Ends, Right;
    var checked, r := CheckFunction(stats, returnsNothing).value, CheckSeq(stats, |stats|, NOTHING_FOUND);
    CheckedFunction(stats, returnsNothing);
    if AllBraced(stats) && AllMarksHold(checked) {
      assert forall k: nat :: k < |stats| ==> r.value.stats[k] == checked[k];
      SeqIsOrderly(stats, |stats|, NOTHING_FOUND);
      ReturnIs();
      if checked != r.value.stats {
        LastNeverEnds(r.value.stats, Return(Atom), FRESH);
      }
      BlocksAreRight(checked);
    }
  }

  lemma ReturnIs()
    ensures Orderly(Return(Atom)) && forall h: Held :: Ends(Return(Atom), h) == {}
    ensures forall brk: bool, cont: bool :: Legal(Return(Atom), brk, cont)
  {
  }

  lemma CheckedIsLegal(stats: seq<Stmt>, returnsNothing: bool)
    requires CheckFunction(stats, returnsNothing).Ok?
    ensures LegalSeq(CheckFunction(stats, returnsNothing).value) <==> LegalSeq(stats)
  {
    hide CheckFunction, CheckSeq, Legal;
    var checked, r := CheckFunction(stats, returnsNothing).value, CheckSeq(stats, |stats|, NOTHING_FOUND);
    CheckedFunction(stats, returnsNothing);
    SeqLegalKept(stats, |stats|, NOTHING_FOUND, false, false);
    ReturnIs();
    assert forall k: nat :: k < |stats| ==> checked[k] == r.value.stats[k];
  }

  /** Nothing is added to a function that has to return something, and to others only a
      return at the end, unless the body was found to be always left. What is accepted
      never comes to its end, if bodies are blocks and marks are right. */
  method CheckMissingRet(stats: seq<Stmt>, returnsNothing: bool) returns (r: Result<seq<Stmt>, Error>)
    ensures r == CheckFunction(stats, returnsNothing)
    ensures r.Ok? && !returnsNothing ==> |r.value| == |stats|
    ensures r.Ok? && returnsNothing ==>
      if Check(Block(stats, false), NOTHING_FOUND).value.found.occurs == Yes then |r.value| == |stats|
      else |r.value| == |stats| + 1 && r.value[|stats|] == Return(Atom)
    ensures r.Err? && returnsNothing ==> r.error == UnreachableCode || r.error == ContinuesNowhere
    ensures r.Ok? && AllBraced(stats) && AllMarksHold(r.value) ==> EndsSeq(r.value, FRESH) == {}
    ensures AllPlaced(stats) && AllJumpless(stats) ==> (r.Ok? <==> ReachedIn(stats, |stats|) && (returnsNothing || AlwaysReturns(stats)))
    ensures AllPlaced(stats) && AllJumpless(stats) && r.Ok? && returnsNothing ==> (|r.value| == |stats| <==> AlwaysReturns(stats))
  {
    hide AllPlaced, AllJumpless, ReachedIn, AlwaysReturns, AllBraced, AllMarksHold, EndsSeq, CheckSeq;
    if AllPlaced(stats) && AllJumpless(stats) {
      JumplessDecides(stats, returnsNothing);
    }
    AcceptedReturns(stats, returnsNothing);
    BlockErrors(stats);
    var v := new Visitor();
    var b := v.Visit(Block(stats, false));
    if b.Err? {
      return Err(b.error);
    }
    BlockKeepsLength(stats);
    if v.occurs == Yes {
      return Ok(b.value.stats);
    }
    if returnsNothing {
      return Ok(b.value.stats + [Return(Atom)]);
    }
    return Err(if v.occurs == No then DoesNotReturn else MayNotReturn);
  }

  lemma AcceptedReturns(stats: seq<Stmt>, returnsNothing: bool)
    ensures var r := CheckFunction(stats, returnsNothing);
      r.Ok? && AllBraced(stats) && AllMarksHold(r.value) ==> EndsSeq(r.value, FRESH) == {}
  {
    hide CheckFunction, AllBraced, AllMarksHold, EndsSeq, SafeSeq;
    if CheckFunction(stats, returnsNothing).Ok? {
      CheckedIsRight(stats, returnsNothing);
    }
  }

  lemma BlockKeepsLength(stats: seq<Stmt>)
    requires Check(Block(stats, false), NOTHING_FOUND).Ok?
    ensures var s := Check(Block(stats, false), NOTHING_FOUND).value.s; s.Block? && |s.stats| == |stats|
  {
  }

  /** What the visitor itself can complain of. */
  lemma BlockErrors(stats: seq<Stmt>)
    ensures var c := Check(Block(stats, false), NOTHING_FOUND); c.Err? ==> c.error == UnreachableCode || c.error == ContinuesNowhere
  {
    hide Check;
    CheckErrors(Block(stats, false), NOTHING_FOUND);
  }

  lemma {:induction false} CheckErrors(s: Stmt, f: Found)
    ensures var c := Check(s, f); c.Err? ==> c.error == UnreachableCode || c.error == ContinuesNowhere
    decreases s, 1
  {
    match s
    case Block(stats, _) => SeqErrors(stats, |stats|, f);
    case If(_, body, elseBody) =>
      CheckErrors(body, f);
      if Check(body, f).Ok? && elseBody.Some? {
        CheckErrors(elseBody.value, Check(body, f).value.found);
      }
    case Switch(_, cases, _) => CasesErrors(s, |cases|, f);
    case While(_, body) => CheckErrors(body, f);
    case For(_, _, _, body) => CheckErrors(body, f);
    case _ =>
  }

  lemma {:induction false} SeqErrors(stats: seq<Stmt>, n: nat, f: Found)
    requires n <= |stats|
    ensures var c := CheckSeq(stats, n, f); c.Err? ==> c.error == UnreachableCode || c.error == ContinuesNowhere
    decreases stats, 0, n
  {
    if n > 0 {
      hide Check;
      SeqErrors(stats, n - 1, f);
      if CheckSeq(stats, n - 1, f).Ok? {
        CheckErrors(stats[n - 1], CheckSeq(stats, n - 1, f).value.found);
      }
    }
  }

  lemma {:induction false} CasesErrors(s: Stmt, n: nat, f: Found)
    requires s.Switch? && n <= |s.cases|
    ensures var c := CheckCases(s, n, f); c.Err? ==> c.error == UnreachableCode || c.error == ContinuesNowhere
    decreases s, 0, n
  {
    if n > 0 {
      hide Check;
      CasesErrors(s, n - 1, f);
      if CheckCases(s, n - 1, f).Ok? {
        CheckErrors(s.cases[n - 1].cbody, CheckCases(s, n - 1, f).value.found);
      }
    }
  }

  /** `func f() -> sint { }`. */
  lemma EmptyDoesNotReturn()
    ensures CheckFunction([], false) == Err(DoesNotReturn)
  {
    SeqNone([], NOTHING_FOUND);
  }

  /** `if (a) { return x; }`. */
  lemma IfMayNotReturn(a: Expr, x: Expr)
    ensures CheckFunction([If(a, Block([Return(x)], false), None)], false) == Err(MayNotReturn)
  {
    hide Check, CheckSeq;
    var s := If(a, Block([Return(x)], false), None);
    OneJump(Return(x), NOTHING_FOUND);
    IfDone(s, NOTHING_FOUND, Checked(Block([Return(x)], false), Found(ByReturn, Yes)));
    OneStatement(s, Checked(s, Found(ByReturn, Maybe)));
  }

  /** `while (a) { return x; }` and `while (a) { break; }`. */
  lemma LoopMayNotReturn(a: Expr, x: Expr)
    ensures CheckFunction([While(a, Block([Return(x)], false))], false) == Err(MayNotReturn)
    ensures CheckFunction([While(a, Block([Break], false))], false) == Err(DoesNotReturn)
  {
    hide Check, CheckSeq;
    var s, t := While(a, Block([Return(x)], false)), While(a, Block([Break], false));
    OneJump(Return(x), NOTHING_FOUND);
    OneJump(Break, NOTHING_FOUND);
    LoopDone(s, NOTHING_FOUND, Checked(Block([Return(x)], false), Found(ByReturn, Yes)));
    LoopDone(t, NOTHING_FOUND, Checked(Block([Break], false), Found(ByBreak, Yes)));
    OneStatement(s, Checked(s, Found(ByReturn, Maybe)));
    OneStatement(t, Checked(t, Found(ByReturn, No)));
  }

  lemma OneStatement(s: Stmt, c: Checked)
    requires Check(s, NOTHING_FOUND) == Ok(c) && c.found.term == ByReturn
    ensures CheckFunction([s], false) == if c.found.occurs == Yes then Ok([c.s]) else Err(if c.found.occurs == No then DoesNotReturn else MayNotReturn)
  {
    hide Check, CheckSeq;
    SeqNone([s], NOTHING_FOUND);
    assert [] + [c.s] == [c.s];
    SeqNext([s], 0, NOTHING_FOUND, SeqChecked([], NOTHING_FOUND, ByContinue, false), c);
    BlockDone([s], NOTHING_FOUND, SeqChecked([c.s], c.found, ByReturn, false));
  }

  /** `switch (v) { case a { continue; } default { return x; } }`: a case that always goes on
      with the next one need not return itself. */
  lemma ContinuedCaseReturns(v: Expr, a: Expr, x: Expr)
    ensures var cases := [Case(Some(a), Block([Continue], false)), Case(None, Block([Return(x)], false))];
      CheckFunction([Switch(v, cases, false)], false) == Ok([Switch(v, cases, true)])
  {
    hide Check, CheckSeq, CheckCases;
    var first, last := Block([Continue], false), Block([Return(x)], false);
    var cases := [Case(Some(a), first), Case(None, last)];
    var s, on := Switch(v, cases, false), Found(ByContinue, Yes);
    OneJump(Continue, NOTHING_FOUND);
    OneJump(Return(x), on);
    NoCases(s, NOTHING_FOUND);
    CasesNext(s, 0, NOTHING_FOUND, CasesChecked([], NOTHING_FOUND, 0, 2, false));
    assert [] + [cases[0]] == [cases[0]] && [cases[0]] + [cases[1]] == cases;
    CasesNext(s, 1, NOTHING_FOUND, CasesChecked([cases[0]], on, 0, 1, false));
    assert DefaultIndex(cases) == 1 by {
      SecondIsDefault(cases);
    }
    SwitchIs(s, NOTHING_FOUND);
    OneStatement(s, Checked(Switch(v, cases, true), Found(ByReturn, Yes)));
  }

  lemma SecondIsDefault(cases: seq<Case>)
    requires |cases| == 2 && cases[0].test.Some? && cases[1].test.None?
    ensures DefaultIndex(cases) == 1
  {
    assert cases[1..][0] == cases[1];
  }

  /** `return; x = y;`. */
  lemma NothingBehindReturn(t: Stmt, returnsNothing: bool)
    ensures CheckFunction([Return(Atom), t], returnsNothing) == Err(UnreachableCode)
  {
    hide Check, CheckSeq;
    var stats, left := [Return(Atom), t], Found(ByReturn, Yes);
    SeqNone(stats, NOTHING_FOUND);
    ReturnDone(Return(Atom), NOTHING_FOUND);
    SeqNext(stats, 0, NOTHING_FOUND, SeqChecked([], NOTHING_FOUND, ByContinue, false), Checked(Return(Atom), left));
    SeqStep(stats, 2, NOTHING_FOUND);
    BlockFails(stats, NOTHING_FOUND, UnreachableCode);
  }

  // ---- marks on statements without break and continue

  lemma {:induction false} JumplessKept(s: Stmt, f: Found)
    requires Check(s, f).Ok? && Jumpless(s)
    ensures var c := Check(s, f).value.s; Jumpless(c) && c.Block? == s.Block? && c.If? == s.If?
    decreases s, 1
  {
    hide CheckCases, CheckSeq;
    match s
    case Block(stats, _) => SeqJumplessKept(stats, |stats|, f);
    case If(_, body, elseBody) =>
      JumplessKept(body, f);
      if elseBody.Some? {
        JumplessKept(elseBody.value, Check(body, f).value.found);
      }
    case Switch(_, _, _) => CasesJumplessKept(s, |s.cases|, f);
    case While(_, body) => JumplessKept(body, f);
    case For(_, _, _, body) => JumplessKept(body, f);
    case _ =>
  }

  lemma {:induction false} SeqJumplessKept(stats: seq<Stmt>, n: nat, f: Found)
    requires n <= |stats| && CheckSeq(stats, n, f).Ok? && forall k: nat :: k < |stats| ==> Jumpless(stats[k])
    ensures forall k: nat :: k < n ==> Jumpless(CheckSeq(stats, n, f).value.stats[k])
    decreases stats, 0, n
  {
    if n > 0 {
      hide Jumpless, Check;
      SeqJumplessKept(stats, n - 1, f);
      JumplessKept(stats[n - 1], CheckSeq(stats, n - 1, f).value.found);
    }
  }

  lemma {:induction false} CasesJumplessKept(s: Stmt, n: nat, f: Found)
    requires s.Switch? && n <= |s.cases| && CheckCases(s, n, f).Ok? && forall c: nat :: c < |s.cases| ==> s.cases[c].cbody.Block? && Jumpless(s.cases[c].cbody)
    ensures var r := CheckCases(s, n, f).value; forall k: nat :: k < n ==> r.cases[k].cbody.Block? && Jumpless(r.cases[k].cbody)
    decreases s, 0, n
  {
    if n > 0 {
      hide Jumpless, Check;
      CasesJumplessKept(s, n - 1, f);
      JumplessKept(s.cases[n - 1].cbody, CheckCases(s, n - 1, f).value.found);
    }
  }

  /** Only a break can make a mark wrong. */
  lemma {:induction false} JumplessMarks(s: Stmt, f: Found)
    requires Check(s, f).Ok? && Jumpless(s) && Braced(s)
    ensures MarksHold(Check(s, f).value.s)
    decreases s, 1
  {
    hide CheckCases, CheckSeq;
    match s
    case Block(stats, _) => SeqJumplessMarks(stats, |stats|, f);
    case If(_, body, elseBody) =>
      JumplessMarks(body, f);
      if elseBody.Some? {
        JumplessMarks(elseBody.value, Check(body, f).value.found);
      }
    case Switch(_, _, _) => SwitchJumplessMarks(s, f);
    case While(_, body) => JumplessMarks(body, f);
    case For(_, _, _, body) => JumplessMarks(body, f);
    case _ =>
  }

  lemma {:induction false} SeqJumplessMarks(stats: seq<Stmt>, n: nat, f: Found)
    requires n <= |stats| && CheckSeq(stats, n, f).Ok? && forall k: nat :: k < |stats| ==> Jumpless(stats[k]) && Braced(stats[k])
    ensures forall k: nat :: k < n ==> MarksHold(CheckSeq(stats, n, f).value.stats[k])
    decreases stats, 0, n
  {
    if n > 0 {
      hide Jumpless, Braced, MarksHold, Check;
      SeqJumplessMarks(stats, n - 1, f);
      JumplessMarks(stats[n - 1], CheckSeq(stats, n - 1, f).value.found);
    }
  }

  lemma SwitchJumplessMarks(s: Stmt, f: Found)
    requires s.Switch? && Check(s, f).Ok? && Jumpless(s) && Braced(s)
    ensures MarksHold(Check(s, f).value.s)
    decreases s, 0, |s.cases| + 1
  {
    hide Check, CheckCases, DefaultIndex, Jumpless, Braced, MayJump, Ends;
    SwitchChecked(s, f);
    CasesJumplessMarks(s, |s.cases|, f);
    var marked := Check(s, f).value.s;
    if marked.alwaysReturns {
      MarkDecides(s, f);
    }
  }

  lemma {:induction false} CasesJumplessMarks(s: Stmt, n: nat, f: Found)
    requires s.Switch? && n <= |s.cases| && CheckCases(s, n, f).Ok? && Jumpless(s) && Braced(s)
    ensures var r := CheckCases(s, n, f).value;
      forall k: nat :: k < n ==> MarksHold(r.cases[k].cbody) && !MayJump(r.cases[k].cbody, Break)
    decreases s, 0, n
  {
    if n > 0 {
      hide Braced, MarksHold, Check, MayJump;
      BracedCase(s, n - 1);
      CasesJumplessMarks(s, n - 1, f);
      var body, before := s.cases[n - 1].cbody, CheckCases(s, n - 1, f).value.found;
      JumplessMarks(body, before);
      JumplessKept(body, before);
      JumplessStays(Check(body, before).value.s, Break);
    }
  }

  lemma JumplessFunction(stats: seq<Stmt>, returnsNothing: bool)
    requires AllPlaced(stats) && AllJumpless(stats) && CheckFunction(stats, returnsNothing).Ok?
    ensures LegalSeq(stats) && (AllBraced(stats) ==> AllMarksHold(CheckFunction(stats, returnsNothing).value))
  {
    hide CheckFunction, CheckSeq, Placed, Jumpless, Legal, Braced, MarksHold;
    forall k: nat | k < |stats| ensures Legal(stats[k], false, false) {
      JumplessLegal(stats[k], false, false);
    }
    CheckedFunction(stats, returnsNothing);
    if AllBraced(stats) {
      SeqJumplessMarks(stats, |stats|, NOTHING_FOUND);
      assert MarksHold(Return(Atom)) by {
        ReturnHolds();
      }
    }
  }

  lemma ReturnHolds()
    ensures MarksHold(Return(Atom))
  {
  }

  /** Analysis and code generation, for what has been traversed: every run of the code
      of a function of blocks returns, or waits, with every object destroyed once and in
      reverse order. An accepted function without a target for a `continue` fails the
      assertion of code generation. */
  method CompileFunction(stats: seq<Stmt>, returnsNothing: bool) returns (r: Result<(seq<Stmt>, Code), Error>)
    requires AllPlaced(stats)
    ensures CheckFunction(stats, returnsNothing).Err? ==> r == Err(CheckFunction(stats, returnsNothing).error)
    ensures CheckFunction(stats, returnsNothing).Ok? && !AllNoLastContinue(stats) ==> r == Err(NoTarget)
    ensures CheckFunction(stats, returnsNothing).Ok? && AllNoLastContinue(stats) ==>
      r.Ok? && CheckFunction(stats, returnsNothing) == Ok(r.value.0)
    ensures r.Ok? && AllBraced(stats) && AllMarksHold(r.value.0) ==>
      forall o: Answers :: RunsLike(r.value.1, ExecSeq(r.value.0, o), o) && Clean(r.value.1, o)
    ensures AllJumpless(stats) ==> (r.Ok? <==> ReachedIn(stats, |stats|) && (returnsNothing || AlwaysReturns(stats)))
    ensures AllJumpless(stats) && AllBraced(stats) && r.Ok? ==>
      forall o: Answers :: RunsLike(r.value.1, ExecSeq(r.value.0, o), o) && Clean(r.value.1, o)
  {
    hide CheckFunction, LegalSeq, AllPlaced, AllNoLastContinue, AllBraced, AllMarksHold, AllJumpless, ReachedIn, AlwaysReturns;
    hide RunsLike, Clean, Right, Distinct, RunsAs;
    if AllJumpless(stats) && CheckFunction(stats, returnsNothing).Ok? {
      JumplessFunction(stats, returnsNothing);
    }
    var checked := CheckMissingRet(stats, returnsNothing);
    if checked.Err? {
      return Err(checked.error);
    }
    CheckedIsLegal(stats, returnsNothing);
    LegalDecides(stats);
    if !LegalSeq(checked.value) {
      return Err(NoTarget);
    }
    var f := GenerateStat(checked.value);
    CheckedIsRight(stats, returnsNothing);
    return Ok((checked.value, f));
  }

  // ---- what the analysis gets wrong

  lemma SeqNext(stats: seq<Stmt>, n: nat, f: Found, r: SeqChecked, c: Checked)
    requires n < |stats| && CheckSeq(stats, n, f) == Ok(r) && Check(stats[n], r.found) == Ok(c) && (n == 0 || r.found.occurs != Yes)
    ensures CheckSeq(stats, n + 1, f) == Ok(SeqChecked(r.stats + [c.s], c.found, MaxTerm(r.term, c.found.term),
      r.maybeLeave || (c.found.occurs == Maybe && c.found.term != ByReturn)))
  {
  }

  lemma SeqNone(stats: seq<Stmt>, f: Found)
    ensures CheckSeq(stats, 0, f) == Ok(SeqChecked([], f.(occurs := No), ByContinue, false))
  {
  }

  lemma BlockDone(stats: seq<Stmt>, f: Found, r: SeqChecked)
    requires CheckSeq(stats, |stats|, f) == Ok(r)
    ensures var occurs := if r.maybeLeave then Maybe else r.found.occurs;
      Check(Block(stats, false), f) == Ok(Checked(Block(r.stats, occurs != Yes), Found(r.term, occurs)))
  {
  }

  lemma OneJump(s: Stmt, f: Found)
    requires s.Break? || s.Continue? || s.Return?
    ensures var term := if s.Break? then ByBreak else if s.Continue? then ByContinue else ByReturn;
      Check(Block([s], false), f) == Ok(Checked(Block([s], false), Found(term, Yes)))
  {
    var term := if s.Break? then ByBreak else if s.Continue? then ByContinue else ByReturn;
    SeqNone([s], f);
    assert [] + [s] == [s];
    SeqNext([s], 0, f, SeqChecked([], f.(occurs := No), ByContinue, false), Checked(s, Found(term, Yes)));
    BlockDone([s], f, SeqChecked([s], Found(term, Yes), term, false));
  }

  lemma IfDone(s: Stmt, f: Found, b: Checked)
    requires s.If? && s.elseBody.None? && Check(s.body, f) == Ok(b)
    ensures Check(s, f) == Ok(Checked(If(s.cond, b.s, None), Joined(b.found, b.found.(occurs := No))))
  {
  }

  lemma LoopDone(s: Stmt, f: Found, b: Checked)
    requires s.While? && Check(s.wbody, f) == Ok(b)
    ensures Check(s, f) == Ok(Checked(While(s.wcond, b.s), AfterLoop(b.found)))
  {
  }

  /** The loop of `StatGen.WrittenBehindBreak` is what the analysis makes of this. */
  lemma TerminateBehindBreak(x: nat)
    ensures var body := Block([Plain(Declare(x, Atom)), If(Atom, Block([Continue], false), None), Break], false);
      Check(While(Atom, body), NOTHING_FOUND) == Ok(Checked(While(Atom, BodyThatBreaks(x)), Found(ByReturn, No)))
  {
    hide CheckSeq, Check;
    var first, second := Plain(Declare(x, Atom)), If(Atom, Block([Continue], false), None);
    var stats, maybe, leaves := [first, second, Break], Found(ByContinue, Maybe), Found(ByBreak, Yes);
    OneJump(Continue, NOTHING_FOUND);
    IfDone(second, NOTHING_FOUND, Checked(Block([Continue], false), Found(ByContinue, Yes)));
    SimpleDone(first, NOTHING_FOUND);
    SimpleDone(Break, maybe);
    SeqNone(stats, NOTHING_FOUND);
    assert [] + [first] == [first] && [first] + [second] == [first, second] && [first, second] + [Break] == stats;
    SeqNext(stats, 0, NOTHING_FOUND, SeqChecked([], NOTHING_FOUND, ByContinue, false), Checked(first, NOTHING_FOUND));
    SeqNext(stats, 1, NOTHING_FOUND, SeqChecked([first], NOTHING_FOUND, ByContinue, false), Checked(second, maybe));
    SeqNext(stats, 2, NOTHING_FOUND, SeqChecked([first, second], maybe, ByContinue, true), Checked(Break, leaves));
    BlockDone(stats, NOTHING_FOUND, SeqChecked(stats, leaves, ByBreak, true));
    LoopDone(While(Atom, Block(stats, false)), NOTHING_FOUND, Checked(Block(stats, true), Found(ByBreak, Maybe)));
  }

  lemma SimpleDone(s: Stmt, f: Found)
    ensures s.Plain? ==> Check(s, f) == Ok(Checked(s, f))
    ensures s.Break? ==> Check(s, f) == Ok(Checked(s, Found(ByBreak, Yes)))
  {
  }

  /** A case that may break, and is taken for one that always returns. */
  const CASE_THAT_BREAKS := Block([If(Atom, Block([Break], false), Some(If(Atom, Block([Return(Atom)], false), None))), Return(Atom)], false)

  function SwitchThatBreaks(always: bool): Stmt {
    Switch(Atom, [Case(Some(Atom), CASE_THAT_BREAKS), Case(None, Block([Return(Atom)], false))], always)
  }

  lemma BreakOverlooked()
    ensures Check(CASE_THAT_BREAKS, NOTHING_FOUND) == Ok(Checked(CASE_THAT_BREAKS, Found(ByReturn, Yes)))
  {
    hide CheckSeq;
    var inner := If(Atom, Block([Return(Atom)], false), None);
    var first, last := If(Atom, Block([Break], false), Some(inner)), Return(Atom);
    var stats, maybe, leaves := [first, last], Found(ByReturn, Maybe), Found(ByReturn, Yes);
    OneJump(Break, NOTHING_FOUND);
    OneJump(Return(Atom), Found(ByBreak, Yes));
    assert Check(inner, Found(ByBreak, Yes)) == Ok(Checked(inner, maybe));
    assert Check(first, NOTHING_FOUND) == Ok(Checked(first, maybe));
    SeqNone(stats, NOTHING_FOUND);
    assert [] + [first] == [first] && [first] + [last] == stats;
    SeqNext(stats, 0, NOTHING_FOUND, SeqChecked([], NOTHING_FOUND, ByContinue, false), Checked(first, maybe));
    SeqNext(stats, 1, NOTHING_FOUND, SeqChecked([first], maybe, ByReturn, false), Checked(last, leaves));
    BlockDone(stats, NOTHING_FOUND, SeqChecked(stats, leaves, ByReturn, false));
  }

  /** A function of blocks that passes the analysis although a run of its code comes to
      an instruction that was to be unreachable. */
  lemma FalselyAlwaysReturns()
    ensures var s, marked := SwitchThatBreaks(false), SwitchThatBreaks(true);
      && LegalSeq([s]) && AllBraced([s]) && CheckFunction([s], false) == Ok([marked])
      && FunctionRun([marked], [YES, YES, YES]).out == Stuck
  {
    hide Check, CheckSeq, CheckCases, FunctionRun;
    var s, marked := SwitchThatBreaks(false), SwitchThatBreaks(true);
    var always := Found(ByReturn, Yes);
    SwitchIsSound();
    SwitchIsMarked();
    SeqNone([s], NOTHING_FOUND);
    assert [] + [marked] == [marked];
    SeqNext([s], 0, NOTHING_FOUND, SeqChecked([], NOTHING_FOUND, ByContinue, false), Checked(marked, always));
    BlockDone([s], NOTHING_FOUND, SeqChecked([marked], always, ByReturn, false));
    StuckRun();
  }

  lemma JumpIsSound(s: Stmt, cont: bool)
    requires s.Break? || s == Return(Atom)
    ensures Legal(s, true, cont) && Braced(s) && Legal(Block([s], false), true, cont) && Braced(Block([s], false))
  {
    AtomIs();
  }

  lemma CaseIsSound()
    ensures Legal(CASE_THAT_BREAKS, true, true) && Braced(CASE_THAT_BREAKS)
    ensures Legal(Block([Return(Atom)], false), true, false) && Braced(Block([Return(Atom)], false))
  {
    var last, jump := Block([Return(Atom)], false), Block([Break], false);
    var inner := If(Atom, last, None);
    var first := If(Atom, jump, Some(inner));
    AtomIs();
    JumpIsSound(Return(Atom), true);
    JumpIsSound(Return(Atom), false);
    JumpIsSound(Break, true);
    BranchIsSound(inner);
    BranchIsSound(first);
    BothAreSound(first, Return(Atom));
  }

  lemma BranchIsSound(s: Stmt)
    requires s.If? && s.body.Block? && Legal(s.body, true, true) && Braced(s.body) && Balanced(s.cond)
    requires s.elseBody.Some? ==> s.elseBody.value.If? && Legal(s.elseBody.value, true, true) && Braced(s.elseBody.value)
    ensures Legal(s, true, true) && Braced(s)
  {
  }

  lemma BothAreSound(s: Stmt, t: Stmt)
    requires Legal(s, true, true) && Braced(s) && Legal(t, true, true) && Braced(t)
    ensures Legal(Block([s, t], false), true, true) && Braced(Block([s, t], false))
  {
  }

  lemma SwitchIsSound()
    ensures Legal(SwitchThatBreaks(false), false, false) && Braced(SwitchThatBreaks(false))
  {
    var s := SwitchThatBreaks(false);
    CaseIsSound();
    AtomIs();
    assert s.cases[1..][0] == s.cases[1];
  }

  lemma SwitchIsMarked()
    ensures Check(SwitchThatBreaks(false), NOTHING_FOUND) == Ok(Checked(SwitchThatBreaks(true), Found(ByReturn, Yes)))
  {
    hide Check, CheckCases;
    var s, body, last, always := SwitchThatBreaks(false), CASE_THAT_BREAKS, Block([Return(Atom)], false), Found(ByReturn, Yes);
    BreakOverlooked();
    OneJump(Return(Atom), always);
    NoCases(s, NOTHING_FOUND);
    CasesNext(s, 0, NOTHING_FOUND, CasesChecked([], NOTHING_FOUND, 0, 2, false));
    assert [] + [Case(Some(Atom), body)] == [Case(Some(Atom), body)];
    CasesNext(s, 1, NOTHING_FOUND, CasesChecked([Case(Some(Atom), body)], always, 1, 2, false));
    assert [Case(Some(Atom), body)] + [Case(None, last)] == s.cases;
    SwitchIs(s, NOTHING_FOUND);
  }

  lemma StuckRun()
    ensures FunctionRun([SwitchThatBreaks(true)], [YES, YES, YES]).out == Stuck
  {
    hide Wrote, Value, Dtors, TempsOf;
    var s, o := SwitchThatBreaks(true), [YES, YES, YES];
    var scopes: Scopes := [[]];
    var none: seq<Stmt> := [];
    var inner := scopes + [TempsOf(s.expr)];
    assert [s][..|[s]| - 1] == none && o[1..] == [YES, YES] && [YES, YES][1..] == [YES];
    PushTwice(scopes, [], []);
    BreakRun(inner);
    assert Dispatch(s.cases, 0, [YES, YES], true) == Dispatched(Wrote(CaseTest(Atom), YES), Normal, 0, [YES]);
    assert DidCases(s, 0, [YES], inner).out == Normal;
    SwitchParts(s, o, scopes, 0);
    assert Did(s, o, scopes, 0).out == Stuck;
    assert DidSeq(none, o, scopes, 0) == Ran([], Normal, o);
  }

  lemma BreakRun(scopes: Scopes)
    requires scopes != []
    ensures Did(CASE_THAT_BREAKS, [YES], scopes + [[]], |scopes|).out == Breaks
  {
    hide Did;
    var stats, inner := CASE_THAT_BREAKS.stats, scopes + [[]] + [[]];
    BlockBreaks(Block([Break], false), [], inner, |scopes|);
    BranchBreaks(stats[0], inner, |scopes|);
    assert stats[..|stats| - 1] == [stats[0]];
    FirstBreaks(stats[0], [YES], inner, |scopes|);
    BlockBreaks(CASE_THAT_BREAKS, [YES], scopes + [[]], |scopes|);
  }

  lemma FirstBreaks(s: Stmt, o: Answers, scopes: Scopes, index: nat)
    requires scopes != [] && Did(s, o, scopes, index).out == Breaks
    ensures DidSeq([s], o, scopes, index).out == Breaks
  {
    hide Did;
    assert [s][..0] == [];
    PushTwice(scopes, [], []);
  }

  lemma BranchBreaks(s: Stmt, scopes: Scopes, index: nat)
    requires s.If? && s.cond == Atom && scopes != [] && Did(s.body, [], scopes, index).out == Breaks
    ensures Did(s, [YES], scopes, index).out == Breaks
  {
    assert [YES][1..] == [];
  }

  lemma BlockBreaks(s: Stmt, o: Answers, scopes: Scopes, index: nat)
    requires s.Block? && scopes != []
    ensures DidSeq(s.stats, o, scopes + [[]], index).out == Breaks ==> Did(s, o, scopes, index).out == Breaks
    ensures s.stats == [Break] ==> Did(s, o, scopes, index).out == Breaks
  {
    hide DidSeq;
    if s.stats == [Break] {
      FirstBreaks(Break, o, scopes + [[]], index);
    }
  }

  // ---- continues in the last case of a switch

  /** A switch of one case, the default one, which starts with an `if`. */
  function LoneSwitch(body: Stmt, elseBody: Option<Stmt>, rest: seq<Stmt>, terminate: bool): Stmt {
    Switch(Atom, [Case(None, Block([If(Atom, body, elseBody)] + rest, terminate))], false)
  }

  lemma LoneChecked(body: Stmt, elseBody: Option<Stmt>, rest: seq<Stmt>, c: Result<Checked, Error>)
    requires Check(Block([If(Atom, body, elseBody)] + rest, false), NOTHING_FOUND) == c
    ensures var s := LoneSwitch(body, elseBody, rest, false);
      match c
      case Err(e) => Check(s, NOTHING_FOUND) == Err(e)
      case Ok(c) =>
        if c.found.term == ByContinue && c.found.occurs != No then Check(s, NOTHING_FOUND) == Err(ContinuesNowhere)
        else c.found == Found(ByReturn, Maybe) ==>
          Check(s, NOTHING_FOUND) == Ok(Checked(Switch(Atom, [Case(None, c.s)], false), Found(ByReturn, Maybe)))
  {
    hide Check, CheckCases;
    var s := LoneSwitch(body, elseBody, rest, false);
    NoCases(s, NOTHING_FOUND);
    CasesNext(s, 0, NOTHING_FOUND, CasesChecked([], NOTHING_FOUND, 0, 1, false));
    if CheckCases(s, 1, NOTHING_FOUND).Err? {
      SwitchFails(s, NOTHING_FOUND);
    } else {
      assert [] + [Case(None, c.value.s)] == [Case(None, c.value.s)];
      assert DefaultIndex(s.cases) == 0;
      SwitchIs(s, NOTHING_FOUND);
    }
  }

  /** `switch (v) { default { if (a) { continue; } return; } }` passes, because its case
      may return, and then has no target for its `continue`. */
  lemma ContinueOverlooked()
    ensures var s := LoneSwitch(Block([Continue], false), None, [Return(Atom)], false);
      && AllPlaced([s]) && AllBraced([s]) && !LegalSeq([s])
      && CheckFunction([s], true) == Ok([LoneSwitch(Block([Continue], false), None, [Return(Atom)], true), Return(Atom)])
  {
    hide Check, CheckSeq, CheckCases;
    var jump, last := Block([Continue], false), Return(Atom);
    var first := If(Atom, jump, None);
    var s, stats := LoneSwitch(jump, None, [last], false), [first, last];
    var marked := LoneSwitch(jump, None, [last], true);
    var maybe, leaves := Found(ByContinue, Maybe), Found(ByReturn, Yes);
    assert [first] + [last] == stats && [] + [first] == [first];
    OneJump(Continue, NOTHING_FOUND);
    IfDone(first, NOTHING_FOUND, Checked(jump, Found(ByContinue, Yes)));
    SeqNone(stats, NOTHING_FOUND);
    SeqNext(stats, 0, NOTHING_FOUND, SeqChecked([], NOTHING_FOUND, ByContinue, false), Checked(first, maybe));
    ReturnDone(last, maybe);
    SeqNext(stats, 1, NOTHING_FOUND, SeqChecked([first], maybe, ByContinue, true), Checked(last, leaves));
    BlockDone(stats, NOTHING_FOUND, SeqChecked(stats, leaves, ByReturn, true));
    LoneChecked(jump, None, [last], Ok(Checked(Block(stats, true), Found(ByReturn, Maybe))));
    FunctionOfOne(s, true, Checked(marked, Found(ByReturn, Maybe)));
    LoneIs(jump, None, [last]);
    assert OwnContinue(jump) by {
      assert OwnContinue(jump.stats[0]);
    }
    LegalDecides([s]);
  }

  /** `switch (v) { default { if (a) { break; } else { } } }` has no `continue`, and is
      rejected for it. */
  lemma BreakTakenForContinue()
    ensures var s := LoneSwitch(Block([Break], false), Some(Block([], false)), [], false);
      && AllPlaced([s]) && AllBraced([s]) && LegalSeq([s])
      && CheckFunction([s], true) == Err(ContinuesNowhere)
  {
    hide Check, CheckSeq, CheckCases;
    var jump, other := Block([Break], false), Block([], false);
    var first, left := If(Atom, jump, Some(other)), Found(ByBreak, Yes);
    var s := LoneSwitch(jump, Some(other), [], false);
    var stats, maybe := [first], Found(ByContinue, Maybe);
    assert [first] + [] == stats && [] + [first] == stats;
    OneJump(Break, NOTHING_FOUND);
    SeqNone([], left);
    BlockDone([], left, SeqChecked([], Found(ByBreak, No), ByContinue, false));
    BranchesDone(first, NOTHING_FOUND, Checked(jump, left), Checked(Block([], true), Found(ByContinue, No)));
    SeqNone(stats, NOTHING_FOUND);
    var marked := If(Atom, jump, Some(Block([], true)));
    assert [] + [marked] == [marked];
    SeqNext(stats, 0, NOTHING_FOUND, SeqChecked([], NOTHING_FOUND, ByContinue, false), Checked(marked, maybe));
    BlockDone(stats, NOTHING_FOUND, SeqChecked([marked], maybe, ByContinue, true));
    LoneChecked(jump, Some(other), [], Check(Block(stats, false), NOTHING_FOUND));
    FunctionFails(s, true, ContinuesNowhere);
    LoneIs(jump, Some(other), []);
    LegalDecides([s]);
  }

  lemma LoneIs(body: Stmt, elseBody: Option<Stmt>, rest: seq<Stmt>)
    requires rest == [] || rest == [Return(Atom)]
    requires body.Block? && (body.stats == [Break] || body.stats == [Continue])
    requires elseBody.Some? ==> elseBody.value == Block([], false)
    ensures var s := LoneSwitch(body, elseBody, rest, false);
      AllPlaced([s]) && AllBraced([s]) && (AllNoLastContinue([s]) <==> !OwnContinue(body))
  {
    hide Placed, Braced, NoLastContinue, OwnContinue;
    var s, first := LoneSwitch(body, elseBody, rest, false), If(Atom, body, elseBody);
    JumpIs(body);
    JumpIs(Block([], false));
    BranchIs(first);
    CaseIs(first, rest);
    assert s.cases == [Case(None, Block([first] + rest, false))];
    DefaultOnly(s);
    assert [s][0] == s;
  }

  lemma JumpIs(s: Stmt)
    requires s.Block? && (s.stats == [Break] || s.stats == [Continue] || s.stats == [])
    ensures Placed(s, true) && Braced(s) && NoLastContinue(s) && (s.stats == [] ==> !OwnContinue(s))
  {
  }

  lemma BranchIs(s: Stmt)
    requires s.If? && s.cond == Atom && s.body.Block? && Placed(s.body, true) && Braced(s.body) && NoLastContinue(s.body)
    requires s.elseBody.Some? ==>
      s.elseBody.value == Block([], false) && Placed(s.elseBody.value, true) && Braced(s.elseBody.value)
        && NoLastContinue(s.elseBody.value) && !OwnContinue(s.elseBody.value)
    ensures Placed(s, true) && Braced(s) && NoLastContinue(s) && (OwnContinue(s) <==> OwnContinue(s.body))
  {
    AtomIs();
  }

  lemma CaseIs(first: Stmt, rest: seq<Stmt>)
    requires Placed(first, true) && Braced(first) && NoLastContinue(first) && (rest == [] || rest == [Return(Atom)])
    ensures var s := Block([first] + rest, false);
      Placed(s, true) && Braced(s) && NoLastContinue(s) && (OwnContinue(s) <==> OwnContinue(first))
  {
    AtomIs();
    var s := Block([first] + rest, false);
    assert s.stats[0] == first && forall k: nat :: 0 < k < |s.stats| ==> s.stats[k] == Return(Atom);
  }

  lemma DefaultOnly(s: Stmt)
    requires s.Switch? && s.expr == Atom && |s.cases| == 1 && s.cases[0].test.None? && s.cases[0].cbody.Block?
    requires Placed(s.cases[0].cbody, true) && Braced(s.cases[0].cbody) && NoLastContinue(s.cases[0].cbody)
    ensures Placed(s, false) && Braced(s) && (NoLastContinue(s) <==> !OwnContinue(s.cases[0].cbody))
  {
    AtomIs();
  }

  lemma ReturnDone(s: Stmt, f: Found)
    requires s.Return?
    ensures Check(s, f) == Ok(Checked(s, Found(ByReturn, Yes)))
  {
  }

  lemma BranchesDone(s: Stmt, f: Found, b: Checked, c: Checked)
    requires s.If? && s.elseBody.Some? && Check(s.body, f) == Ok(b) && Check(s.elseBody.value, b.found) == Ok(c)
    ensures Check(s, f) == Ok(Checked(If(s.cond, b.s, Some(c.s)), Joined(b.found, c.found)))
  {
  }

  lemma FunctionOfOne(s: Stmt, returnsNothing: bool, c: Checked)
    requires Check(s, NOTHING_FOUND) == Ok(c) && c.found == Found(ByReturn, Maybe) && returnsNothing
    ensures CheckFunction([s], returnsNothing) == Ok([c.s, Return(Atom)])
  {
    hide Check, CheckSeq;
    SeqNone([s], NOTHING_FOUND);
    assert [] + [c.s] == [c.s] && [c.s] + [Return(Atom)] == [c.s, Return(Atom)];
    SeqNext([s], 0, NOTHING_FOUND, SeqChecked([], NOTHING_FOUND, ByContinue, false), c);
    BlockDone([s], NOTHING_FOUND, SeqChecked([c.s], c.found, ByReturn, false));
  }

  lemma FunctionFails(s: Stmt, returnsNothing: bool, e: Error)
    requires Check(s, NOTHING_FOUND) == Err(e)
    ensures CheckFunction([s], returnsNothing) == Err(e)
  {
    hide Check;
    SeqNone([s], NOTHING_FOUND);
    assert CheckSeq([s], 1, NOTHING_FOUND) == Err(e);
    assert Check(Block([s], false), NOTHING_FOUND) == Err(e) by {
      BlockFails([s], NOTHING_FOUND, e);
    }
  }

  lemma BlockFails(stats: seq<Stmt>, f: Found, e: Error)
    requires CheckSeq(stats, |stats|, f) == Err(e)
    ensures Check(Block(stats, false), f) == Err(e)
  {
  }
}
