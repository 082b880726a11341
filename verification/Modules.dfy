/** The order in which modules are compiled: a depth-first walk along imports that
    finds cycles and missing modules. */
module Modules {
  import opened Wrappers
  import opened Sorting

  datatype Module = Module(name: string, imports: seq<string>)

  datatype Error = Duplicate(dup: string) | NotFound(missing: string) | Cyclic(name: string)

  function Names(asts: seq<Module>): seq<string> {
    seq(|asts|, i requires 0 <= i < |asts| => asts[i].name)
  }

  method CheckDuplicateModules(asts: seq<Module>, compiled: seq<string>) returns (error: Option<Error>)
    ensures error.None? <==> Distinct(Names(asts) + compiled)
    ensures error.Some? ==> error.value.Duplicate? && multiset(Names(asts) + compiled)[error.value.dup] > 1
  {
    var dup := FindDuplicate(Names(asts) + compiled);
    return if dup.Some? then Some(Duplicate(dup.value)) else None;
  }

  // ---- the graph of imports

  ghost predicate Imports(asts: seq<Module>, i: nat, j: nat) {
    i < |asts| && j < |asts| && asts[j].name in asts[i].imports
  }

  ghost predicate Path(asts: seq<Module>, p: seq<nat>) {
    forall k: nat {:trigger p[k]} :: k + 1 < |p| ==> Imports(asts, p[k], p[k + 1])
  }

  /** A walk along imports from a module back to itself. */
  ghost predicate Cycle(asts: seq<Module>, p: seq<nat>) {
    |p| > 1 && Path(asts, p) && p[0] == p[|p| - 1]
  }

  ghost predicate Acyclic(asts: seq<Module>) {
    forall p: seq<nat> :: !Cycle(asts, p)
  }

  ghost predicate Given(asts: seq<Module>, name: string) {
    exists i: nat :: i < |asts| && asts[i].name == name
  }

  ghost predicate Resolvable(asts: seq<Module>, compiled: seq<string>) {
    forall i: nat, name: string :: i < |asts| && name in asts[i].imports ==> Given(asts, name) || name in compiled
  }

  /** An import that names a given module must have that one in `done`; others must
      have been compiled before. */
  ghost predicate Resolved(asts: seq<Module>, compiled: seq<string>, name: string, done: seq<nat>) {
    (exists i: nat :: i < |asts| && i in done && asts[i].name == name) || (!Given(asts, name) && name in compiled)
  }

  /** Everything a module imports comes before it. */
  ghost predicate Ordered(asts: seq<Module>, compiled: seq<string>, order: seq<nat>) {
    && (forall k: nat :: k < |order| ==> order[k] < |asts|)
    && (forall k: nat, name: string :: k < |order| && name in asts[order[k]].imports ==> Resolved(asts, compiled, name, order[..k]))
  }

  ghost predicate NoRepeats(s: seq<nat>) {
    forall i: nat, j: nat :: i < j < |s| ==> s[i] != s[j]
  }

  /** The reason for an error is there in the modules. */
  ghost predicate Blamed(asts: seq<Module>, compiled: seq<string>, error: Error) {
    match error
    case Cyclic(name) => exists p: seq<nat> :: Cycle(asts, p) && asts[p[0]].name == name
    case NotFound(name) =>
      !Given(asts, name) && name !in compiled && exists i: nat :: i < |asts| && name in asts[i].imports
    case Duplicate(name) => multiset(Names(asts) + compiled)[name] > 1
  }

  // ---- the walk

  /** The state of the walk: what has been visited is on the stack or in the order,
      never in both, and the stack spells a path of imports. */
  ghost predicate Walking(asts: seq<Module>, compiled: seq<string>, order: seq<nat>, stack: seq<nat>, visited: seq<bool>) {
    && |visited| == |asts|
    && (forall i: nat :: i < |asts| ==> (visited[i] <==> i in stack || i in order))
    && (forall i: nat :: i in stack ==> i < |asts| && i !in order)
    && NoRepeats(stack) && NoRepeats(order)
    && Path(asts, stack) && Ordered(asts, compiled, order)
  }

  ghost function Unvisited(visited: seq<bool>): set<nat> {
    set i: nat | i < |visited| && !visited[i]
  }

  /** An import that leads back onto the stack closes a cycle. */
  lemma StackCycle(asts: seq<Module>, stack: seq<nat>, i: nat, name: string)
    requires Path(asts, stack) && stack != [] && i in stack && Imports(asts, stack[|stack| - 1], i) && asts[i].name == name
    ensures exists p: seq<nat> :: Cycle(asts, p) && asts[p[0]].name == name
  {
    var k: nat :| k < |stack| && stack[k] == i;
    var p := stack[k..] + [i];
    assert Path(asts, p);
    assert Cycle(asts, p);
  }

  lemma ResolvedLater(asts: seq<Module>, compiled: seq<string>, name: string, done: seq<nat>, later: seq<nat>)
    requires Resolved(asts, compiled, name, done) && done <= later
    ensures Resolved(asts, compiled, name, later)
  {
  }

  lemma Enter(asts: seq<Module>, compiled: seq<string>, order: seq<nat>, stack: seq<nat>, visited: seq<bool>, i: nat)
    requires Walking(asts, compiled, order, stack, visited) && i < |asts| && !visited[i]
    requires stack != [] ==> Imports(asts, stack[|stack| - 1], i)
    ensures Walking(asts, compiled, order, stack + [i], visited[i := true])
    ensures Unvisited(visited[i := true]) < Unvisited(visited)
  {
    assert i in Unvisited(visited) && i !in Unvisited(visited[i := true]);
    var stack' := stack + [i];
    assert NoRepeats(stack');
    forall k: nat | k + 1 < |stack'| ensures Imports(asts, stack'[k], stack'[k + 1]) {
      if k + 1 < |stack| {
        assert stack[k] == stack'[k];
      }
    }
  }

  lemma Leave(asts: seq<Module>, compiled: seq<string>, order: seq<nat>, stack: seq<nat>, visited: seq<bool>, i: nat)
    requires Walking(asts, compiled, order, stack + [i], visited) && i < |asts|
    requires forall name: string :: name in asts[i].imports ==> Resolved(asts, compiled, name, order)
    ensures Walking(asts, compiled, order + [i], stack, visited)
  {
    var stack', order' := stack + [i], order + [i];
    assert stack'[|stack|] == i && i in stack' && i !in order;
    assert forall k: nat :: k < |order'| ==> order'[k] < |asts| && (k < |order| ==> order'[k] == order[k]);
    forall k: nat | k < |stack| ensures stack[k] == stack'[k] && stack[k] != i {
    }
    forall k: nat, name: string | k < |order'| && name in asts[order'[k]].imports
      ensures Resolved(asts, compiled, name, order'[..k])
    {
      assert order'[..k] == order[..k] && order[..|order|] == order;
    }
    assert order'[|order|] == i;
    forall j: nat | j in order ensures j in order' {
    }
    forall k: nat | k + 1 < |stack| ensures Imports(asts, stack[k], stack[k + 1]) {
      assert stack'[k] == stack[k];
    }
  }

  class Visitor {
    var order: seq<nat>
    var stack: seq<nat>
    var visited: seq<bool>
    const asts: seq<Module>
    const compiled: seq<string>

    ghost predicate Valid()
      reads this
    {
      Distinct(Names(asts)) && Walking(asts, compiled, order, stack, visited)
    }

    constructor (asts: seq<Module>, compiled: seq<string>)
      requires Distinct(Names(asts))
      ensures Valid() && this.asts == asts && this.compiled == compiled && stack == [] && order == []
    {
      this.asts, this.compiled := asts, compiled;
      order, stack, visited := [], [], seq(|asts|, _ => false);
    }

    method CheckCycle(index: nat, name: string) returns (error: Option<Error>)
      requires Valid() && stack != [] && Imports(asts, stack[|stack| - 1], index) && asts[index].name == name
      ensures error.None? <==> index !in stack
      ensures error.Some? ==> Blamed(asts, compiled, error.value)
    {
      hide Distinct, Ordered, Path;
      if index in stack {
        StackCycle(asts, stack, index, name);
        return Some(Cyclic(name));
      }
      return None;
    }

    /** Visits the module of that name, which the innermost module on the stack imports. */
    method VisitName(name: string) returns (error: Option<Error>)
      requires Valid() && stack != [] && stack[|stack| - 1] < |asts| && name in asts[stack[|stack| - 1]].imports
      modifies this
      ensures error.None? ==> Valid() && stack == old(stack) && old(order) <= order && Unvisited(visited) <= old(Unvisited(visited))
      ensures error.None? ==> Resolved(asts, compiled, name, order)
      ensures error.Some? ==> Blamed(asts, compiled, error.value)
      decreases Unvisited(visited), 1
    {
      hide Walking, Distinct, Path, Cycle, Unvisited;
      var i := 0;
      while i < |asts|
        invariant i <= |asts| && forall j: nat :: j < i ==> asts[j].name != name
      {
        if asts[i].name == name {
          error := CheckCycle(i, name);
          if error.None? {
            error := Visit(i);
          }
          return;
        }
        i := i + 1;
      }
      assert !Given(asts, name);
      if name !in compiled {
        return Some(NotFound(name));
      }
      return None;
    }

    method Visit(index: nat) returns (error: Option<Error>)
      requires Valid() && index < |asts| && index !in stack && (stack != [] ==> Imports(asts, stack[|stack| - 1], index))
      modifies this
      ensures error.None? ==> Valid() && stack == old(stack) && old(order) <= order && Unvisited(visited) <= old(Unvisited(visited))
      ensures error.None? ==> index in order
      ensures error.Some? ==> Blamed(asts, compiled, error.value)
      decreases Unvisited(visited), 0
    {
      hide Path, Distinct, Ordered, Unvisited;
      if visited[index] {
        return None;
      }
      Enter(asts, compiled, order, stack, visited, index);
      visited := visited[index := true];
      stack := stack + [index];
      var d := 0;
      while d < |asts[index].imports|
        invariant d <= |asts[index].imports| && Valid() && stack == old(stack) + [index] && old(order) <= order
        invariant Unvisited(visited) < old(Unvisited(visited))
        invariant forall e: nat :: e < d ==> Resolved(asts, compiled, asts[index].imports[e], order)
      {
        hide Walking, Resolved;
        ghost var before := order;
        error := VisitName(asts[index].imports[d]);
        if error.Some? {
          return;
        }
        forall e: nat | e < d ensures Resolved(asts, compiled, asts[index].imports[e], order) {
          ResolvedLater(asts, compiled, asts[index].imports[e], before, order);
        }
        d := d + 1;
      }
      Leave(asts, compiled, order, old(stack), visited, index);
      stack := stack[..|stack| - 1];
      assert stack == old(stack);
      order := order + [index];
      return None;
    }

    method VisitAll() returns (error: Option<Error>)
      requires Valid() && stack == []
      modifies this
      ensures error.None? ==> Valid() && stack == [] && forall i: nat :: i < |asts| ==> i in order
      ensures error.Some? ==> Blamed(asts, compiled, error.value)
    {
      hide Walking, Distinct;
      var i := 0;
      while i < |asts|
        invariant i <= |asts| && Valid() && stack == [] && forall j: nat :: j < i ==> j in order
      {
        ghost var before := order;
        error := Visit(i);
        if error.Some? {
          return;
        }
        forall j: nat | j < i ensures j in order {
          assert j in before && before <= order;
        }
        i := i + 1;
      }
      return None;
    }
  }

  // ---- when there is an order

  function Position(order: seq<nat>, i: nat): (k: nat)
    requires i in order
    ensures k < |order| && order[k] == i
  {
    if order[0] == i then 0 else 1 + Position(order[1..], i)
  }

  /** Along imports the position in the order decreases. */
  lemma {:induction false} PathGoesBack(asts: seq<Module>, compiled: seq<string>, order: seq<nat>, p: seq<nat>)
    requires Distinct(Names(asts)) && Ordered(asts, compiled, order) && NoRepeats(order)
    requires forall i: nat :: i < |asts| ==> i in order
    requires |p| > 1 && Path(asts, p)
    ensures p[0] < |asts| && p[|p| - 1] < |asts| && Position(order, p[|p| - 1]) < Position(order, p[0])
    decreases |p|
  {
    var n := |p| - 1;
    assert Imports(asts, p[n - 1], p[n]);
    ImportGoesBack(asts, compiled, order, p[n - 1], p[n]);
    if |p| > 2 {
      assert p[..n][n - 1] == p[n - 1];
      PathGoesBack(asts, compiled, order, p[..n]);
    }
  }

  lemma SameName(asts: seq<Module>, i: nat, j: nat)
    requires Distinct(Names(asts)) && i < |asts| && j < |asts| && asts[i].name == asts[j].name
    ensures i == j
  {
    assert Names(asts)[i] == Names(asts)[j];
  }

  lemma ImportGoesBack(asts: seq<Module>, compiled: seq<string>, order: seq<nat>, i: nat, j: nat)
    requires Distinct(Names(asts)) && Ordered(asts, compiled, order) && NoRepeats(order)
    requires forall k: nat :: k < |asts| ==> k in order
    requires Imports(asts, i, j)
    ensures Position(order, j) < Position(order, i)
  {
    var k := Position(order, i);
    assert Resolved(asts, compiled, asts[j].name, order[..k]);
    assert Given(asts, asts[j].name);
    var m: nat :| m < |asts| && m in order[..k] && asts[m].name == asts[j].name;
    SameName(asts, m, j);
    var l: nat :| l < k && order[l] == j;
  }

  lemma OrderDecides(asts: seq<Module>, compiled: seq<string>, order: seq<nat>)
    requires Distinct(Names(asts)) && Ordered(asts, compiled, order) && NoRepeats(order)
    requires forall i: nat :: i < |asts| ==> i in order
    ensures Acyclic(asts) && Resolvable(asts, compiled)
    ensures |order| == |asts|
  {
    forall p: seq<nat> ensures !Cycle(asts, p) {
      if Cycle(asts, p) {
        PathGoesBack(asts, compiled, order, p);
      }
    }
    forall i: nat, name: string | i < |asts| && name in asts[i].imports ensures Given(asts, name) || name in compiled {
      assert Resolved(asts, compiled, name, order[..Position(order, i)]);
    }
    SameSize(order, |asts|);
  }

  lemma {:induction false} SameSize(order: seq<nat>, n: nat)
    requires NoRepeats(order) && forall i: nat :: i in order <==> i < n
    ensures |order| == n
    decreases n
  {
    if n == 0 {
      assert forall k: nat :: k < |order| ==> order[k] in order;
    } else {
      var k := Position(order, n - 1);
      var rest := order[..k] + order[k + 1..];
      forall i: nat ensures i in rest <==> i < n - 1 {
        assert i in order <==> i in order[..k] || i == order[k] || i in order[k + 1..] by {
          assert order == order[..k] + [order[k]] + order[k + 1..];
        }
      }
      SameSize(rest, n - 1);
    }
  }

  /** An order exists exactly when names are distinct, every import can be found and
      no module imports itself by any way round. */
  method FindModuleOrder(asts: seq<Module>, compiled: seq<string>) returns (r: Result<seq<nat>, Error>)
    ensures r.Ok? <==> Distinct(Names(asts) + compiled) && Resolvable(asts, compiled) && Acyclic(asts)
    ensures r.Ok? ==> |r.value| == |asts| && NoRepeats(r.value) && forall i: nat :: i < |asts| ==> i in r.value
    ensures r.Ok? ==> Ordered(asts, compiled, r.value)
    ensures r.Err? ==> Blamed(asts, compiled, r.error)
    ensures r.Err? && r.error.Duplicate? <==> !Distinct(Names(asts) + compiled)
  {
    var error := CheckDuplicateModules(asts, compiled);
    if error.Some? {
      return Err(error.value);
    }
    FrontDistinct(Names(asts), compiled);
    var visitor := new Visitor(asts, compiled);
    error := visitor.VisitAll();
    if error.Some? {
      BlamedFails(asts, compiled, error.value);
      return Err(error.value);
    }
    OrderDecides(asts, compiled, visitor.order);
    return Ok(visitor.order);
  }

  lemma FrontDistinct(a: seq<string>, b: seq<string>)
    requires Distinct(a + b)
    ensures Distinct(a)
  {
    forall i: nat, j: nat | i < j < |a| ensures a[i] != a[j] {
      assert (a + b)[i] != (a + b)[j];
    }
  }

  lemma BlamedFails(asts: seq<Module>, compiled: seq<string>, error: Error)
    requires Blamed(asts, compiled, error)
    ensures !(Distinct(Names(asts) + compiled) && Resolvable(asts, compiled) && Acyclic(asts))
    ensures error.Duplicate? ==> !Distinct(Names(asts) + compiled)
  {
    DistinctCounts(Names(asts) + compiled);
  }
}
