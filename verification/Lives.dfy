/** The lives of objects in the frame of a function. */
module Lives {
  import opened Wrappers

  /** A variable, or an object that an expression makes. Only objects whose destructor
      does something are counted: a number begins and ends without an event. */
  datatype Obj = Local(id: nat) | Temp(id: nat)

  type Objs = seq<Obj>

  /** The lives of objects, and the work of a statement itself. */
  datatype Event = Ctor(obj: Obj) | Dtor(obj: Obj) | Act

  /** Destruction in reverse order of construction. */
  function Dtors(objs: Objs): seq<Event> {
    seq(|objs|, i requires 0 <= i < |objs| => Dtor(objs[|objs| - 1 - i]))
  }

  /** The objects alive, each kind in order of construction. */
  datatype Alive = Alive(locals: Objs, temps: Objs)

  const NOTHING := Alive([], [])

  /** Follows a sequence of events; fails if something other than the youngest
      object of its kind is destroyed. */
  function Replay(ev: seq<Event>, a: Alive): Option<Alive>
    decreases |ev|
  {
    if ev == [] then Some(a)
    else
      match Occur(ev[0], a)
      case None => None
      case Some(a') => Replay(ev[1..], a')
  }

  function Occur(e: Event, a: Alive): Option<Alive> {
    match e
    case Act => Some(a)
    case Ctor(x) => Some(if x.Temp? then a.(temps := a.temps + [x]) else a.(locals := a.locals + [x]))
    case Dtor(x) =>
      if x.Temp? then
        if a.temps != [] && a.temps[|a.temps| - 1] == x then Some(a.(temps := a.temps[..|a.temps| - 1])) else None
      else
        if a.locals != [] && a.locals[|a.locals| - 1] == x then Some(a.(locals := a.locals[..|a.locals| - 1])) else None
  }

  /** Objects of one kind end in reverse order, each once, and only after they began. */
  lemma YoungestFirst(x: Obj, y: Obj)
    requires x.Temp? == y.Temp? && x != y
    ensures Replay([Ctor(x), Ctor(y), Dtor(y), Dtor(x)], NOTHING) == Some(NOTHING)
    ensures Replay([Ctor(x), Ctor(y), Dtor(x)], NOTHING).None? && Replay([Dtor(x)], NOTHING).None?
    ensures Replay([Ctor(x), Dtor(x), Dtor(x)], NOTHING).None? && Replay([Ctor(x)], NOTHING) != Some(NOTHING)
  {
    var one, two := Occur(Ctor(x), NOTHING).value, Occur(Ctor(y), Occur(Ctor(x), NOTHING).value).value;
    Begins([Ctor(y), Dtor(y), Dtor(x)], Ctor(x), NOTHING);
    Begins([Dtor(y), Dtor(x)], Ctor(y), one);
    Begins([Dtor(x)], Dtor(y), two);
    Begins([], Dtor(x), one);
    Begins([Ctor(y), Dtor(x)], Ctor(x), NOTHING);
    Begins([Dtor(x)], Ctor(y), one);
    Begins([], Dtor(x), two);
    Begins([], Dtor(x), NOTHING);
    Begins([Dtor(x), Dtor(x)], Ctor(x), NOTHING);
    Begins([Dtor(x)], Dtor(x), one);
    Begins([], Ctor(x), NOTHING);
    assert two == (if x.Temp? then Alive([], [x, y]) else Alive([x, y], []));
    assert one == (if x.Temp? then Alive([], [x]) else Alive([x], []));
  }

  lemma Begins(ev: seq<Event>, e: Event, a: Alive)
    ensures Replay([e] + ev, a) == match Occur(e, a) case None => None case Some(a') => Replay(ev, a')
  {
    assert ([e] + ev)[1..] == ev;
  }

  function WithObjs(a: Alive, objs: Objs): Alive
    decreases |objs|
  {
    if objs == [] then a
    else
      var a' := WithObjs(a, objs[..|objs| - 1]);
      var x := objs[|objs| - 1];
      if x.Temp? then a'.(temps := a'.temps + [x]) else a'.(locals := a'.locals + [x])
  }

  lemma {:induction false} ReplayThen(e1: seq<Event>, e2: seq<Event>, a: Alive)
    ensures Replay(e1 + e2, a) == (match Replay(e1, a) case None => None case Some(a') => Replay(e2, a'))
    decreases |e1|
  {
    if e1 == [] {
      assert e1 + e2 == e2;
    } else {
      assert (e1 + e2)[1..] == e1[1..] + e2;
      match Occur(e1[0], a) {
        case None =>
        case Some(a') => ReplayThen(e1[1..], e2, a');
      }
    }
  }

  lemma ReplayOne(e: Event, a: Alive)
    ensures Replay([e], a) == Occur(e, a)
    ensures e.Ctor? ==> Replay([e], a) == Some(WithObjs(a, [e.obj]))
  {
    assert [e][1..] == [];
    if e.Ctor? {
      assert [e.obj][..0] == [];
    }
  }

  lemma {:induction false} ReplayDtors(objs: Objs, a: Alive)
    ensures Replay(Dtors(objs), WithObjs(a, objs)) == Some(a)
    decreases |objs|
  {
    if objs != [] {
      var front, x := objs[..|objs| - 1], objs[|objs| - 1];
      var before, after := WithObjs(a, front), WithObjs(a, objs);
      assert Dtors(objs)[0] == Dtor(x) && Dtors(objs)[1..] == Dtors(front);
      assert (before.temps + [x])[..|before.temps|] == before.temps && (before.locals + [x])[..|before.locals|] == before.locals;
      assert Occur(Dtor(x), after) == Some(before);
      ReplayDtors(front, a);
    }
  }

  lemma {:induction false} WithObjsThen(a: Alive, x: Objs, y: Objs)
    ensures WithObjs(a, x + y) == WithObjs(WithObjs(a, x), y)
    decreases |y|
  {
    if y == [] {
      assert x + y == x;
    } else {
      WithObjsThen(a, x, y[..|y| - 1]);
      assert (x + y)[..|x + y| - 1] == x + y[..|y| - 1];
    }
  }

  /** Temporaries and variables do not mix. */
  lemma {:induction false} TempsBeside(a: Alive, temps: Objs, x: Obj)
    requires (forall t :: t in temps ==> t.Temp?) && !x.Temp?
    ensures WithObjs(WithObjs(a, temps), [x]) == WithObjs(WithObjs(a, [x]), temps)
    decreases |temps|
  {
    assert [x][..0] == [];
    if temps != [] {
      TempsBeside(a, temps[..|temps| - 1], x);
    }
  }

  lemma ReplayAct(ev: seq<Event>, a: Alive)
    ensures Replay(ev + [Act], a) == Replay(ev, a)
  {
    ReplayThen(ev, [Act], a);
    assert [Act][1..] == [];
  }

  // ---- counting

  /** Constructions of an object less its destructions. */
  function N(ev: seq<Event>, x: Obj): int {
    if ev == [] then 0
    else (if ev[0] == Ctor(x) then 1 else if ev[0] == Dtor(x) then -1 else 0) + N(ev[1..], x)
  }

  lemma {:induction false} NThen(e1: seq<Event>, e2: seq<Event>, x: Obj)
    ensures N(e1 + e2, x) == N(e1, x) + N(e2, x)
  {
    if e1 == [] {
      assert e1 + e2 == e2;
    } else {
      assert (e1 + e2)[1..] == e1[1..] + e2;
      NThen(e1[1..], e2, x);
    }
  }

  lemma {:induction false} NDtors(objs: Objs, x: Obj)
    ensures N(Dtors(objs), x) + multiset(objs)[x] == 0
    decreases |objs|
  {
    if objs != [] {
      var front, last := objs[..|objs| - 1], objs[|objs| - 1];
      assert objs == front + [last];
      assert Dtors(objs)[1..] == Dtors(front);
      NDtors(front, x);
    }
  }

  lemma NOne(e: Event, x: Obj)
    ensures N([e], x) == if e == Ctor(x) then 1 else if e == Dtor(x) then -1 else 0
  {
    assert [e][1..] == [];
  }

  function Total(a: Alive, x: Obj): nat {
    multiset(a.locals)[x] + multiset(a.temps)[x]
  }

  lemma {:induction false} ReplayCounts(ev: seq<Event>, a: Alive, x: Obj)
    ensures Replay(ev, a).Some? ==> Total(Replay(ev, a).value, x) == Total(a, x) + N(ev, x)
    decreases |ev|
  {
    if ev != [] {
      match Occur(ev[0], a) {
        case None =>
        case Some(a') =>
          OccurCounts(ev[0], a, x);
          ReplayCounts(ev[1..], a', x);
      }
    }
  }

  lemma OccurCounts(e: Event, a: Alive, x: Obj)
    ensures Occur(e, a).Some? ==> Total(Occur(e, a).value, x) == Total(a, x) + N([e], x)
  {
    NOne(e, x);
    if e.Dtor? && Occur(e, a).Some? {
      if e.obj.Temp? {
        assert a.temps == a.temps[..|a.temps| - 1] + [e.obj];
      } else {
        assert a.locals == a.locals[..|a.locals| - 1] + [e.obj];
      }
    }
  }

  lemma {:induction false} WithCounts(a: Alive, objs: Objs, x: Obj)
    ensures Total(WithObjs(a, objs), x) == Total(a, x) + multiset(objs)[x]
    decreases |objs|
  {
    if objs != [] {
      WithCounts(a, objs[..|objs| - 1], x);
      assert objs == objs[..|objs| - 1] + [objs[|objs| - 1]];
    }
  }

  /** Nothing can be destroyed more often than it was constructed. */
  lemma NeverBelow(ev: seq<Event>, k: nat, x: Obj)
    requires k <= |ev| && N(ev[..k], x) < 0
    ensures Replay(ev, NOTHING).None?
  {
    assert ev == ev[..k] + ev[k..];
    ReplayThen(ev[..k], ev[k..], NOTHING);
    ReplayCounts(ev[..k], NOTHING, x);
  }

  lemma NothingLeft(ev: seq<Event>, x: Obj)
    requires Replay(ev, NOTHING) == Some(NOTHING)
    ensures N(ev, x) == 0
  {
    ReplayCounts(ev, NOTHING, x);
  }
}
