/** Looking up identifiers inside nested lambdas: which lambdas have to capture the
    variable, and where each of them takes it from. */
module Capture {
  import opened Wrappers

  /** A closure scope belongs to a lambda. */
  datatype Kind = Ns | Block | Func | Flow | Closure(lambda: nat)

  datatype Symbol = Object(id: nat) | Callable

  datatype Scope = Scope(parent: Option<nat>, kind: Kind, table: map<string, Symbol>)

  /** `index` is a capture of the enclosing lambda; without it, the variable is in
      reach of the code that makes the closure. */
  datatype Cap = Cap(obj: nat, index: Option<nat>)

  datatype Lambda = Lambda(scope: nat, captures: seq<Cap>)

  /** What an identifier stands for. */
  datatype Ident = Variable(definition: nat, captureIndex: Option<nat>) | Function

  datatype Error = Redefinition(name: string) | Undefined(name: string)

  // ---- scopes

  /** Scopes are kept in the order in which they were entered. */
  predicate ScopesOk(scopes: seq<Scope>) {
    forall i: nat :: i < |scopes| && scopes[i].parent.Some? ==> scopes[i].parent.value < i
  }

  /** The nearest closure scope from `s` outwards. */
  function Nearest(scopes: seq<Scope>, s: nat): (r: Option<nat>)
    requires ScopesOk(scopes) && s < |scopes|
    ensures r.Some? ==> r.value <= s && scopes[r.value].kind.Closure?
    decreases s
  {
    if scopes[s].kind.Closure? then Some(s)
    else if scopes[s].parent.None? then None
    else Nearest(scopes, scopes[s].parent.value)
  }

  function NearestAround(scopes: seq<Scope>, s: nat): (r: Option<nat>)
    requires ScopesOk(scopes) && s < |scopes|
    ensures r.Some? ==> r.value < s && scopes[r.value].kind.Closure?
  {
    if scopes[s].parent.None? then None else Nearest(scopes, scopes[s].parent.value)
  }

  /** Scope `a` is `s` or around it. */
  predicate Encloses(scopes: seq<Scope>, a: nat, s: nat)
    requires ScopesOk(scopes) && s < |scopes|
    decreases s
  {
    a == s || (scopes[s].parent.Some? && Encloses(scopes, a, scopes[s].parent.value))
  }

  predicate EnclosesProperly(scopes: seq<Scope>, a: nat, s: nat)
    requires ScopesOk(scopes) && s < |scopes|
  {
    scopes[s].parent.Some? && Encloses(scopes, a, scopes[s].parent.value)
  }

  function FindScope(scopes: seq<Scope>, s: nat, name: string): (r: Option<nat>)
    requires ScopesOk(scopes) && s < |scopes|
    ensures r.Some? ==> r.value < |scopes| && name in scopes[r.value].table && Encloses(scopes, r.value, s)
    decreases s
  {
    if name in scopes[s].table then Some(s)
    else if scopes[s].parent.None? then None
    else FindScope(scopes, scopes[s].parent.value, name)
  }

  /** It is the innermost of the scopes that know the name. */
  lemma {:induction false} FindsInnermost(scopes: seq<Scope>, s: nat, name: string, a: nat)
    requires ScopesOk(scopes) && s < |scopes| && Encloses(scopes, a, s) && a < |scopes| && name in scopes[a].table
    ensures FindScope(scopes, s, name).Some? && Encloses(scopes, a, FindScope(scopes, s, name).value)
    decreases s
  {
    if name !in scopes[s].table {
      FindsInnermost(scopes, scopes[s].parent.value, name, a);
    }
  }

  lemma {:induction false} EnclosesThen(scopes: seq<Scope>, a: nat, b: nat, s: nat)
    requires ScopesOk(scopes) && s < |scopes| && Encloses(scopes, b, s) && b < |scopes| && Encloses(scopes, a, b)
    ensures Encloses(scopes, a, s)
    decreases s
  {
    if b != s {
      EnclosesThen(scopes, a, b, scopes[s].parent.value);
    }
  }

  lemma {:induction false} EnclosesOrder(scopes: seq<Scope>, a: nat, s: nat)
    requires ScopesOk(scopes) && s < |scopes| && Encloses(scopes, a, s)
    ensures a <= s
    decreases s
  {
    if a != s {
      EnclosesOrder(scopes, a, scopes[s].parent.value);
    }
  }

  lemma NotInside(scopes: seq<Scope>, s: nat)
    requires ScopesOk(scopes) && s < |scopes|
    ensures !EnclosesProperly(scopes, s, s)
  {
    if scopes[s].parent.Some? && Encloses(scopes, s, scopes[s].parent.value) {
      EnclosesOrder(scopes, s, scopes[s].parent.value);
    }
  }

  /** The nearest closure of an inner scope is that of the outer one, or lies in between. */
  lemma {:induction false} NearestBetween(scopes: seq<Scope>, a: nat, s: nat)
    requires ScopesOk(scopes) && s < |scopes| && Encloses(scopes, a, s) && a < |scopes|
    ensures Nearest(scopes, s).Some? ==> Encloses(scopes, Nearest(scopes, s).value, s)
    ensures Nearest(scopes, s) != Nearest(scopes, a) ==>
      Nearest(scopes, s).Some? && EnclosesProperly(scopes, a, Nearest(scopes, s).value)
    decreases s
  {
    if !scopes[s].kind.Closure? && scopes[s].parent.Some? {
      var p := scopes[s].parent.value;
      NearestBetween(scopes, if a == s then p else a, p);
    }
  }

  /** More scopes, and more names in scopes. */
  ghost predicate Grew(scopes: seq<Scope>, scopes': seq<Scope>) {
    |scopes| <= |scopes'| &&
    forall i: nat :: i < |scopes| ==> scopes'[i].parent == scopes[i].parent && scopes'[i].kind == scopes[i].kind
  }

  lemma {:induction false} GrewKeeps(scopes: seq<Scope>, scopes': seq<Scope>, s: nat, a: nat)
    requires ScopesOk(scopes) && ScopesOk(scopes') && Grew(scopes, scopes') && s < |scopes|
    ensures Nearest(scopes', s) == Nearest(scopes, s) && NearestAround(scopes', s) == NearestAround(scopes, s)
    ensures Encloses(scopes', a, s) == Encloses(scopes, a, s) && EnclosesProperly(scopes', a, s) == EnclosesProperly(scopes, a, s)
    decreases s
  {
    if scopes[s].parent.Some? {
      GrewKeeps(scopes, scopes', scopes[s].parent.value, a);
    }
  }

  // ---- captures

  /** Each closure scope belongs to one lambda, and each lambda to one closure scope. */
  ghost predicate LambdasOk(scopes: seq<Scope>, lambdas: seq<Lambda>) {
    && (forall l: nat :: l < |lambdas| ==> lambdas[l].scope < |scopes| && scopes[lambdas[l].scope].kind == Closure(l))
    && (forall s: nat :: s < |scopes| && scopes[s].kind.Closure? ==>
          scopes[s].kind.lambda < |lambdas| && lambdas[scopes[s].kind.lambda].scope == s)
  }

  /** A captured variable is declared around the lambda, and not globally. If it
      belongs to the same lambda as the code that makes the closure, it is taken from
      there; if not, from that lambda's capture of it. */
  ghost predicate CapOk(scopes: seq<Scope>, objects: seq<nat>, lambdas: seq<Lambda>, s: nat, cap: Cap)
    requires ScopesOk(scopes) && LambdasOk(scopes, lambdas) && s < |scopes|
  {
    && cap.obj < |objects| && objects[cap.obj] < |scopes|
    && scopes[objects[cap.obj]].kind != Ns
    && EnclosesProperly(scopes, objects[cap.obj], s)
    && (cap.index.None? <==> Nearest(scopes, objects[cap.obj]) == NearestAround(scopes, s))
    && (cap.index.Some? ==>
          && NearestAround(scopes, s).Some?
          && var outer := lambdas[scopes[NearestAround(scopes, s).value].kind.lambda].captures;
             cap.index.value < |outer| && outer[cap.index.value].obj == cap.obj)
  }

  ghost predicate NoRepeats(captures: seq<Cap>) {
    forall c: nat, d: nat :: c < d < |captures| ==> captures[c].obj != captures[d].obj
  }

  ghost predicate Consistent(scopes: seq<Scope>, objects: seq<nat>, lambdas: seq<Lambda>) {
    && ScopesOk(scopes) && LambdasOk(scopes, lambdas)
    && (forall o: nat :: o < |objects| ==> objects[o] < |scopes|)
    && (forall s: nat, name: string :: s < |scopes| && name in scopes[s].table && scopes[s].table[name].Object? ==>
          scopes[s].table[name].id < |objects| && objects[scopes[s].table[name].id] == s)
    && (forall l: nat :: l < |lambdas| ==> NoRepeats(lambdas[l].captures))
    && (forall l: nat, c: nat :: l < |lambdas| && c < |lambdas[l].captures| ==>
          CapOk(scopes, objects, lambdas, lambdas[l].scope, lambdas[l].captures[c]))
  }

  /** Follows a capture outwards: the variable and the closure scope in which it is
      found without a capture. */
  ghost function Follow(scopes: seq<Scope>, objects: seq<nat>, lambdas: seq<Lambda>, l: nat, c: nat): (nat, Option<nat>)
    requires Consistent(scopes, objects, lambdas) && l < |lambdas| && c < |lambdas[l].captures|
    decreases lambdas[l].scope
  {
    var cap, outer := lambdas[l].captures[c], NearestAround(scopes, lambdas[l].scope);
    assert CapOk(scopes, objects, lambdas, lambdas[l].scope, cap);
    if cap.index.None? then (cap.obj, outer)
    else Follow(scopes, objects, lambdas, scopes[outer.value].kind.lambda, cap.index.value)
  }

  /** That is the captured variable, in the lambda in which it was declared. */
  lemma {:induction false} FollowReaches(scopes: seq<Scope>, objects: seq<nat>, lambdas: seq<Lambda>, l: nat, c: nat)
    requires Consistent(scopes, objects, lambdas) && l < |lambdas| && c < |lambdas[l].captures|
    ensures var o := lambdas[l].captures[c].obj;
            o < |objects| && Follow(scopes, objects, lambdas, l, c) == (o, Nearest(scopes, objects[o]))
    decreases lambdas[l].scope
  {
    var cap, outer := lambdas[l].captures[c], NearestAround(scopes, lambdas[l].scope);
    assert CapOk(scopes, objects, lambdas, lambdas[l].scope, cap);
    if cap.index.Some? {
      FollowReaches(scopes, objects, lambdas, scopes[outer.value].kind.lambda, cap.index.value);
    }
  }

  /** Captures are only appended. */
  ghost predicate Kept(lambdas: seq<Lambda>, lambdas': seq<Lambda>) {
    |lambdas| <= |lambdas'| &&
    forall l: nat :: l < |lambdas| ==> lambdas'[l].scope == lambdas[l].scope && lambdas[l].captures <= lambdas'[l].captures
  }

  /** Only lambdas between the variable and the place of its use capture it, each at
      most once more. */
  ghost predicate CapturedBetween(scopes: seq<Scope>, lambdas: seq<Lambda>, lambdas': seq<Lambda>, obj: nat, home: nat, s: nat)
    requires ScopesOk(scopes) && LambdasOk(scopes, lambdas) && s < |scopes|
  {
    && |lambdas'| == |lambdas|
    && forall l: nat :: l < |lambdas| ==>
         && lambdas'[l].scope == lambdas[l].scope
         && (lambdas'[l].captures == lambdas[l].captures ||
             (&& |lambdas'[l].captures| == |lambdas[l].captures| + 1
              && lambdas[l].captures == lambdas'[l].captures[..|lambdas[l].captures|]
              && lambdas'[l].captures[|lambdas[l].captures|].obj == obj
              && Encloses(scopes, lambdas[l].scope, s) && EnclosesProperly(scopes, home, lambdas[l].scope)))
  }

  /** What is captured where the identifier stands. */
  ghost predicate Captured(scopes: seq<Scope>, lambdas: seq<Lambda>, obj: nat, s: nat, index: nat)
    requires ScopesOk(scopes) && LambdasOk(scopes, lambdas) && s < |scopes|
  {
    && Nearest(scopes, s).Some?
    && var captures := lambdas[scopes[Nearest(scopes, s).value].kind.lambda].captures;
       index < |captures| && captures[index].obj == obj
  }

  /** A variable has to be captured if it is not global and not of the same lambda. */
  predicate MustCapture(scopes: seq<Scope>, home: nat, s: nat)
    requires ScopesOk(scopes) && s < |scopes| && home < |scopes|
  {
    scopes[home].kind != Ns && Nearest(scopes, s).Some? && Nearest(scopes, home) != Nearest(scopes, s)
  }

  lemma AppendKeeps(scopes: seq<Scope>, objects: seq<nat>, lambdas: seq<Lambda>, l: nat, cap: Cap)
    requires Consistent(scopes, objects, lambdas) && l < |lambdas|
    requires CapOk(scopes, objects, lambdas, lambdas[l].scope, cap)
    requires forall c: nat :: c < |lambdas[l].captures| ==> lambdas[l].captures[c].obj != cap.obj
    ensures Consistent(scopes, objects, lambdas[l := lambdas[l].(captures := lambdas[l].captures + [cap])])
  {
    var lambdas' := lambdas[l := lambdas[l].(captures := lambdas[l].captures + [cap])];
    assert LambdasOk(scopes, lambdas');
    forall m: nat, c: nat | m < |lambdas'| && c < |lambdas'[m].captures|
      ensures CapOk(scopes, objects, lambdas', lambdas'[m].scope, lambdas'[m].captures[c])
    {
      if c < |lambdas[m].captures| {
        assert CapOk(scopes, objects, lambdas, lambdas[m].scope, lambdas[m].captures[c]);
      }
    }
    assert forall m: nat :: m < |lambdas'| ==> NoRepeats(lambdas'[m].captures) by {
      forall m: nat | m < |lambdas'| ensures NoRepeats(lambdas'[m].captures) {
        assert NoRepeats(lambdas[m].captures);
      }
    }
  }

  /** A variable used in lambda `l`, whose scope lies within that of the variable but
      is not the one the variable belongs to, has the scope around it to take it from. */
  lemma CapturedFrom(scopes: seq<Scope>, objects: seq<nat>, lambdas: seq<Lambda>, l: nat, obj: nat, index: Option<nat>)
    requires Consistent(scopes, objects, lambdas) && l < |lambdas| && obj < |objects|
    requires scopes[objects[obj]].kind != Ns && EnclosesProperly(scopes, objects[obj], lambdas[l].scope)
    requires index.Some? <==> MustCapture(scopes, objects[obj], scopes[lambdas[l].scope].parent.value)
    requires index.Some? ==> Captured(scopes, lambdas, obj, scopes[lambdas[l].scope].parent.value, index.value)
    ensures CapOk(scopes, objects, lambdas, lambdas[l].scope, Cap(obj, index))
  {
    NearestBetween(scopes, objects[obj], scopes[lambdas[l].scope].parent.value);
  }

  lemma Parts(scopes: seq<Scope>, objects: seq<nat>, lambdas: seq<Lambda>)
    requires Consistent(scopes, objects, lambdas)
    ensures ScopesOk(scopes) && LambdasOk(scopes, lambdas)
    ensures forall o: nat :: o < |objects| ==> objects[o] < |scopes|
  {
  }

  lemma NothingCaptured(scopes: seq<Scope>, lambdas: seq<Lambda>, obj: nat, home: nat, s: nat)
    requires ScopesOk(scopes) && LambdasOk(scopes, lambdas) && s < |scopes|
    ensures CapturedBetween(scopes, lambdas, lambdas, obj, home, s)
  {
  }

  /** Capturing around a lambda does not touch the lambda itself. */
  lemma InnerUntouched(scopes: seq<Scope>, before: seq<Lambda>, lambdas: seq<Lambda>, obj: nat, home: nat, l: nat)
    requires ScopesOk(scopes) && LambdasOk(scopes, before) && l < |before| && scopes[before[l].scope].parent.Some?
    requires CapturedBetween(scopes, before, lambdas, obj, home, scopes[before[l].scope].parent.value)
    ensures |lambdas| == |before| && lambdas[l] == before[l]
  {
    NotInside(scopes, before[l].scope);
  }

  lemma PushedBetween(scopes: seq<Scope>, before: seq<Lambda>, lambdas: seq<Lambda>, obj: nat, home: nat, l: nat, s: nat, cap: Cap)
    requires ScopesOk(scopes) && LambdasOk(scopes, before) && l < |before| && s < |scopes| && cap.obj == obj
    requires EnclosesProperly(scopes, home, before[l].scope) && Encloses(scopes, before[l].scope, s)
    requires CapturedBetween(scopes, before, lambdas, obj, home, scopes[before[l].scope].parent.value)
    requires |lambdas| == |before| && lambdas[l] == before[l]
    ensures CapturedBetween(scopes, before, lambdas[l := lambdas[l].(captures := lambdas[l].captures + [cap])], obj, home, s)
  {
    forall m: nat | m < |before| && Encloses(scopes, before[m].scope, scopes[before[l].scope].parent.value)
      ensures Encloses(scopes, before[m].scope, s)
    {
      assert Encloses(scopes, before[m].scope, before[l].scope);
      EnclosesThen(scopes, before[m].scope, before[l].scope, s);
    }
  }

  /** An identifier that was bound to a capture stays bound to it, however much is
      analysed later, and the captures lead from it to its declaration. */
  lemma IdentReaches(scopes: seq<Scope>, lambdas: seq<Lambda>, scopes': seq<Scope>, objects: seq<nat>, lambdas': seq<Lambda>,
                     obj: nat, s: nat, index: nat)
    requires ScopesOk(scopes) && LambdasOk(scopes, lambdas) && s < |scopes| && Captured(scopes, lambdas, obj, s, index)
    requires Consistent(scopes', objects, lambdas') && Grew(scopes, scopes') && Kept(lambdas, lambdas')
    ensures Captured(scopes', lambdas', obj, s, index)
    ensures var l := scopes'[Nearest(scopes', s).value].kind.lambda;
            obj < |objects| && Follow(scopes', objects, lambdas', l, index) == (obj, Nearest(scopes', objects[obj]))
  {
    GrewKeeps(scopes, scopes', s, 0);
    var l := scopes'[Nearest(scopes', s).value].kind.lambda;
    assert lambdas'[l].captures[index] == lambdas[l].captures[index];
    FollowReaches(scopes', objects, lambdas', l, index);
  }

  class ExprLookup {
    var scopes: seq<Scope>
    var cur: nat
    var objects: seq<nat>      // of each variable, the scope that it is declared in
    var lambdas: seq<Lambda>

    ghost predicate Valid()
      reads this
    {
      cur < |scopes| && Consistent(scopes, objects, lambdas)
    }

    /** The global scope. */
    constructor ()
      ensures Valid() && scopes == [Scope(None, Ns, map[])] && cur == 0 && objects == [] && lambdas == []
    {
      scopes, cur, objects, lambdas := [Scope(None, Ns, map[])], 0, [], [];
    }

    method EnterScope(kind: Kind)
      requires Valid() && !kind.Closure?
      modifies this
      ensures Valid() && objects == old(objects) && lambdas == old(lambdas)
      ensures scopes == old(scopes) + [Scope(Some(old(cur)), kind, map[])] && cur == |old(scopes)|
    {
      ScopeAdded(scopes, objects, lambdas, Scope(Some(cur), kind, map[]), []);
      assert lambdas + [] == lambdas;
      scopes := scopes + [Scope(Some(cur), kind, map[])];
      cur := |scopes| - 1;
    }

    method EnterLambda() returns (lambda: nat)
      requires Valid()
      modifies this
      ensures Valid() && objects == old(objects) && lambda == |old(lambdas)|
      ensures scopes == old(scopes) + [Scope(Some(old(cur)), Closure(lambda), map[])] && cur == |old(scopes)|
      ensures lambdas == old(lambdas) + [Lambda(cur, [])] && Kept(old(lambdas), lambdas)
    {
      lambda := |lambdas|;
      ScopeAdded(scopes, objects, lambdas, Scope(Some(cur), Closure(lambda), map[]), [Lambda(|scopes|, [])]);
      scopes := scopes + [Scope(Some(cur), Closure(lambda), map[])];
      cur := |scopes| - 1;
      lambdas := lambdas + [Lambda(cur, [])];
    }

    method LeaveScope()
      requires Valid() && scopes[cur].parent.Some?
      modifies this`cur
      ensures Valid() && cur == old(scopes[cur].parent.value)
    {
      cur := scopes[cur].parent.value;
    }

    method DeclareObject(name: string) returns (r: Result<nat, Error>)
      requires Valid()
      modifies this`scopes, this`objects
      ensures Valid()
      ensures r.Err? <==> name in old(scopes[cur].table)
      ensures r.Err? ==> r.error == Redefinition(name) && scopes == old(scopes) && objects == old(objects)
      ensures r.Ok? ==> r.value == |old(objects)| && objects == old(objects) + [cur]
      ensures r.Ok? ==> scopes == old(scopes)[cur := old(scopes[cur]).(table := old(scopes[cur].table)[name := Object(r.value)])]
    {
      if name in scopes[cur].table {
        return Err(Redefinition(name));
      }
      ObjectAdded(scopes, objects, lambdas, cur, name);
      r := Ok(|objects|);
      scopes := scopes[cur := scopes[cur].(table := scopes[cur].table[name := Object(|objects|)])];
      objects := objects + [cur];
    }

    method PushCapture(lambda: nat, cap: Cap) returns (captureIndex: nat)
      requires Valid() && lambda < |lambdas| && CapOk(scopes, objects, lambdas, lambdas[lambda].scope, cap)
      requires forall c: nat :: c < |lambdas[lambda].captures| ==> lambdas[lambda].captures[c].obj != cap.obj
      modifies this`lambdas
      ensures Valid() && captureIndex == |old(lambdas[lambda].captures)|
      ensures lambdas == old(lambdas)[lambda := old(lambdas[lambda]).(captures := old(lambdas[lambda].captures) + [cap])]
    {
      AppendKeeps(scopes, objects, lambdas, lambda, cap);
      captureIndex := |lambdas[lambda].captures|;
      lambdas := lambdas[lambda := lambdas[lambda].(captures := lambdas[lambda].captures + [cap])];
    }

    method FindCapture(lambda: nat, obj: nat) returns (c: nat)
      requires lambda < |lambdas|
      ensures c <= |lambdas[lambda].captures|
      ensures c < |lambdas[lambda].captures| ==> lambdas[lambda].captures[c].obj == obj
      ensures forall d: nat :: d < c ==> lambdas[lambda].captures[d].obj != obj
    {
      c := 0;
      while c < |lambdas[lambda].captures| && lambdas[lambda].captures[c].obj != obj
        invariant c <= |lambdas[lambda].captures|
        invariant forall d: nat :: d < c ==> lambdas[lambda].captures[d].obj != obj
      {
        c := c + 1;
      }
    }

    /** Makes every lambda between the variable and its use capture it, from the
        outermost inwards. */
    method LambdaCapture(obj: nat, scope: nat, currentScope: nat) returns (captureIndex: Option<nat>)
      requires Valid() && obj < |objects| && objects[obj] == scope
      requires currentScope < |scopes| && Encloses(scopes, scope, currentScope)
      modifies this`lambdas
      ensures Valid()
      ensures captureIndex.Some? <==> MustCapture(scopes, scope, currentScope)
      ensures captureIndex.Some? ==> Captured(scopes, lambdas, obj, currentScope, captureIndex.value)
      ensures CapturedBetween(scopes, old(lambdas), lambdas, obj, scope, currentScope)
      decreases currentScope
    {
      hide Consistent, CapOk, CapturedBetween, Encloses, Nearest;
      ghost var before := lambdas;
      Parts(scopes, objects, lambdas);
      NothingCaptured(scopes, lambdas, obj, scope, currentScope);
      if scopes[scope].kind == Ns {
        return None;
      }
      var nearest := Nearest(scopes, currentScope);
      if nearest.None? || Nearest(scopes, scope) == nearest {
        return None;
      }
      NearestBetween(scopes, scope, currentScope);
      var closureScope := nearest.value;
      var lambda := scopes[closureScope].kind.lambda;
      var c := FindCapture(lambda, obj);
      if c < |lambdas[lambda].captures| {
        return Some(c);
      }
      var parent := scopes[closureScope].parent.value;
      NothingCaptured(scopes, lambdas, obj, scope, parent);
      var index := None;
      var parentClosure := NearestAround(scopes, closureScope);
      if parentClosure.Some? {
        var inner := LambdaCapture(obj, scope, parent);
        Parts(scopes, objects, lambdas);
        if inner.Some? {
          var d := FindCapture(scopes[parentClosure.value].kind.lambda, obj);
          index := Some(d);
        }
      }
      InnerUntouched(scopes, before, lambdas, obj, scope, lambda);
      CapturedFrom(scopes, objects, lambdas, lambda, obj, index);
      PushedBetween(scopes, before, lambdas, obj, scope, lambda, currentScope, Cap(obj, index));
      var pushed := PushCapture(lambda, Cap(obj, index));
      Parts(scopes, objects, lambdas);
      return Some(pushed);
    }

    method LookupIdent(name: string) returns (r: Result<Ident, Error>)
      requires Valid()
      modifies this`lambdas
      ensures Valid() && Kept(old(lambdas), lambdas)
      ensures var found := FindScope(scopes, cur, name);
        && (found.None? ==> r == Err(Undefined(name)) && lambdas == old(lambdas))
        && (found.Some? ==>
              match scopes[found.value].table[name]
              case Callable => r == Ok(Function) && lambdas == old(lambdas)
              case Object(id) =>
                && r.Ok? && r.value.Variable? && r.value.definition == id
                && (r.value.captureIndex.Some? <==> MustCapture(scopes, found.value, cur))
                && (r.value.captureIndex.Some? ==> Captured(scopes, lambdas, id, cur, r.value.captureIndex.value))
                && CapturedBetween(scopes, old(lambdas), lambdas, id, found.value, cur))
    {
      var found := FindScope(scopes, cur, name);
      if found.None? {
        return Err(Undefined(name));
      }
      match scopes[found.value].table[name]
      case Callable => return Ok(Function);
      case Object(id) =>
        var captureIndex := LambdaCapture(id, found.value, cur);
        return Ok(Variable(id, captureIndex));
    }
  }

  lemma CapStays(scopes: seq<Scope>, objects: seq<nat>, lambdas: seq<Lambda>, scopes': seq<Scope>, objects': seq<nat>, lambdas': seq<Lambda>,
                 s: nat, cap: Cap)
    requires ScopesOk(scopes) && LambdasOk(scopes, lambdas) && s < |scopes| && CapOk(scopes, objects, lambdas, s, cap)
    requires ScopesOk(scopes') && LambdasOk(scopes', lambdas') && Grew(scopes, scopes') && objects <= objects' && lambdas <= lambdas'
    ensures CapOk(scopes', objects', lambdas', s, cap)
  {
    GrewKeeps(scopes, scopes', s, objects[cap.obj]);
    GrewKeeps(scopes, scopes', objects[cap.obj], 0);
  }

  lemma ScopeAdded(scopes: seq<Scope>, objects: seq<nat>, lambdas: seq<Lambda>, scope: Scope, added: seq<Lambda>)
    requires Consistent(scopes, objects, lambdas) && scope.parent.Some? && scope.parent.value < |scopes| && scope.table == map[]
    requires added == if scope.kind == Closure(|lambdas|) then [Lambda(|scopes|, [])] else []
    requires scope.kind.Closure? ==> scope.kind == Closure(|lambdas|)
    ensures Consistent(scopes + [scope], objects, lambdas + added)
  {
    var scopes', lambdas' := scopes + [scope], lambdas + added;
    forall l: nat, c: nat | l < |lambdas'| && c < |lambdas'[l].captures|
      ensures CapOk(scopes', objects, lambdas', lambdas'[l].scope, lambdas'[l].captures[c])
    {
      CapStays(scopes, objects, lambdas, scopes', objects, lambdas', lambdas[l].scope, lambdas[l].captures[c]);
    }
  }

  lemma ObjectAdded(scopes: seq<Scope>, objects: seq<nat>, lambdas: seq<Lambda>, s: nat, name: string)
    requires Consistent(scopes, objects, lambdas) && s < |scopes|
    ensures Consistent(scopes[s := scopes[s].(table := scopes[s].table[name := Object(|objects|)])], objects + [s], lambdas)
  {
    var scopes', objects' := scopes[s := scopes[s].(table := scopes[s].table[name := Object(|objects|)])], objects + [s];
    forall l: nat, c: nat | l < |lambdas| && c < |lambdas[l].captures|
      ensures CapOk(scopes', objects', lambdas, lambdas[l].scope, lambdas[l].captures[c])
    {
      CapStays(scopes, objects, lambdas, scopes', objects', lambdas, lambdas[l].scope, lambdas[l].captures[c]);
    }
  }
}
