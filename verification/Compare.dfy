/** The comparison operators generated for each type, over objects in memory. */
module Compare {
  import opened Types
  import opened HeapState

  // ---- what objects denote

  /** The value of an object: a number, or the values of its elements or fields. */
  datatype Val = Num(n: int) | List(vs: seq<Val>)

  /** The number a bit pattern stands for; `char` and `sint` are signed. */
  function Interpret(k: Btn, bits: nat): int {
    if (k.Char? || k.Sint?) && 2 * bits >= Width(k) then bits - Width(k) else bits
  }

  ghost function Value(st: State, t: Type, a: nat): Val
    decreases t, 0
  {
    match t
    case BtnType(k) =>
      if a < |st.mem| && st.mem[a].Bits? then Num(Interpret(k, st.mem[a].bits)) else Num(0)
    case ArrayType(e) =>
      if a < |st.mem| && st.mem[a].Handle? && st.mem[a].ptr < |st.strg| then
        var s := st.strg[st.mem[a].ptr];
        List(ElemValues(st, e, s.dat, s.len))
      else List([])
    case StructType(fs) => List(FieldValues(st, fs, a))
  }

  ghost function ElemValues(st: State, e: Type, dat: nat, len: nat): seq<Val>
    decreases e, 1
  {
    seq(len, k requires 0 <= k < len => Value(st, e, dat + Span(e, k)))
  }

  ghost function FieldValues(st: State, fs: seq<Type>, a: nat): seq<Val>
    decreases fs
  {
    seq(|fs|, k requires 0 <= k < |fs| => Value(st, fs[k], a + |FlatAll(fs[..k])|))
  }

  /** The object and everything it refers to is initialised and not moved from. */
  ghost predicate Readable(st: State, t: Type, a: nat)
    decreases t, 0
  {
    match t
    case BtnType(k) => a < |st.mem| && st.mem[a].Bits? && st.mem[a].bits < Width(k)
    case ArrayType(e) =>
      && a < |st.mem| && st.mem[a].Handle? && st.mem[a].ptr < |st.strg| && st.strg[st.mem[a].ptr].elem == e
      && ReadableRow(st, e, st.strg[st.mem[a].ptr].dat, st.strg[st.mem[a].ptr].len)
    case StructType(fs) => forall k: nat :: k < |fs| ==> Readable(st, fs[k], a + |FlatAll(fs[..k])|)
  }

  ghost predicate ReadableRow(st: State, e: Type, dat: nat, len: nat)
    decreases e, 1
  {
    forall k: nat :: k < len ==> Readable(st, e, dat + Span(e, k))
  }

  // ---- the order the generated code computes, on values

  ghost predicate HasType(t: Type, v: Val)
    decreases t
  {
    match t
    case BtnType(_) => v.Num?
    case ArrayType(e) => v.List? && forall x :: x in v.vs ==> HasType(e, x)
    case StructType(fs) => v.List? && |v.vs| == |fs| && forall k: nat :: k < |fs| ==> HasType(fs[k], v.vs[k])
  }

  /** Less-than as the generated functions decide it. An array loop compares
      element addresses with end addresses, so elements without any cell are
      never looked at. */
  ghost predicate Less(t: Type, x: Val, y: Val)
    requires HasType(t, x) && HasType(t, y)
    decreases t, 0
  {
    match t
    case BtnType(_) => x.n < y.n
    case ArrayType(e) => |Flat(e)| > 0 && ElemsLess(e, x.vs, y.vs)
    case StructType(fs) => FieldsLess(fs, x.vs, y.vs)
  }

  ghost predicate AllHaveType(e: Type, xs: seq<Val>) {
    forall x :: x in xs ==> HasType(e, x)
  }

  ghost predicate ElemsLess(e: Type, xs: seq<Val>, ys: seq<Val>)
    requires AllHaveType(e, xs) && AllHaveType(e, ys)
    decreases e, 1, |ys|
  {
    if ys == [] then false
    else if xs == [] then true
    else if Less(e, xs[0], ys[0]) then true
    else if Less(e, ys[0], xs[0]) then false
    else ElemsLess(e, xs[1..], ys[1..])
  }

  ghost predicate FieldsHaveType(fs: seq<Type>, xs: seq<Val>) {
    |xs| == |fs| && forall k: nat :: k < |fs| ==> HasType(fs[k], xs[k])
  }

  ghost predicate FieldsLess(fs: seq<Type>, xs: seq<Val>, ys: seq<Val>)
    requires FieldsHaveType(fs, xs) && FieldsHaveType(fs, ys)
    decreases fs
  {
    if fs == [] then false
    else if Less(fs[0], xs[0], ys[0]) then true
    else if Less(fs[0], ys[0], xs[0]) then false
    else FieldsLess(fs[1..], xs[1..], ys[1..])
  }

  // ---- when it is a total order

  /** No array inside the type has elements that occupy no memory. */
  predicate Sized(t: Type) {
    match t
    case BtnType(_) => true
    case ArrayType(e) => |Flat(e)| > 0 && Sized(e)
    case StructType(fs) => forall k: nat :: k < |fs| ==> Sized(fs[k])
  }

  /** Exactly one of less, equal and greater. */
  ghost predicate Comparable(t: Type, x: Val, y: Val)
    requires HasType(t, x) && HasType(t, y)
  {
    && (Less(t, x, y) || x == y || Less(t, y, x))
    && !(Less(t, x, y) && Less(t, y, x))
    && (x == y ==> !Less(t, x, y))
  }

  lemma {:induction false} Trichotomy(t: Type, x: Val, y: Val)
    requires HasType(t, x) && HasType(t, y) && Sized(t)
    ensures Comparable(t, x, y)
    decreases t, 0
  {
    match t
    case BtnType(_) =>
    case ArrayType(e) =>
      ElemsTrichotomy(e, x.vs, y.vs);
    case StructType(fs) =>
      FieldsTrichotomy(fs, x.vs, y.vs);
  }

  lemma {:induction false} ElemsTrichotomy(e: Type, xs: seq<Val>, ys: seq<Val>)
    requires AllHaveType(e, xs) && AllHaveType(e, ys) && Sized(e)
    ensures ElemsLess(e, xs, ys) || xs == ys || ElemsLess(e, ys, xs)
    ensures !(ElemsLess(e, xs, ys) && ElemsLess(e, ys, xs))
    ensures xs == ys ==> !ElemsLess(e, xs, ys)
    decreases e, 1, |ys|
  {
    if xs != [] && ys != [] {
      Trichotomy(e, xs[0], ys[0]);
      ElemsTrichotomy(e, xs[1..], ys[1..]);
      assert xs == [xs[0]] + xs[1..] && ys == [ys[0]] + ys[1..];
    }
  }

  lemma {:induction false} FieldsTrichotomy(fs: seq<Type>, xs: seq<Val>, ys: seq<Val>)
    requires FieldsHaveType(fs, xs) && FieldsHaveType(fs, ys) && forall k: nat :: k < |fs| ==> Sized(fs[k])
    ensures FieldsLess(fs, xs, ys) || xs == ys || FieldsLess(fs, ys, xs)
    ensures !(FieldsLess(fs, xs, ys) && FieldsLess(fs, ys, xs))
    ensures xs == ys ==> !FieldsLess(fs, xs, ys)
    decreases fs
  {
    if fs != [] {
      Trichotomy(fs[0], xs[0], ys[0]);
      FieldsTrichotomy(fs[1..], xs[1..], ys[1..]);
      assert xs == [xs[0]] + xs[1..] && ys == [ys[0]] + ys[1..];
    }
  }

  lemma {:induction false} Transitive(t: Type, x: Val, y: Val, z: Val)
    requires HasType(t, x) && HasType(t, y) && HasType(t, z) && Sized(t)
    requires Less(t, x, y) && Less(t, y, z)
    ensures Less(t, x, z)
    decreases t, 0
  {
    match t
    case BtnType(_) =>
    case ArrayType(e) =>
      ElemsTransitive(e, x.vs, y.vs, z.vs);
    case StructType(fs) =>
      FieldsTransitive(fs, x.vs, y.vs, z.vs);
  }

  lemma {:induction false} ElemsTransitive(e: Type, xs: seq<Val>, ys: seq<Val>, zs: seq<Val>)
    requires AllHaveType(e, xs) && AllHaveType(e, ys) && AllHaveType(e, zs) && Sized(e)
    requires ElemsLess(e, xs, ys) && ElemsLess(e, ys, zs)
    ensures ElemsLess(e, xs, zs)
    decreases e, 1, |ys|
  {
    if xs != [] {
      Trichotomy(e, xs[0], ys[0]);
      Trichotomy(e, ys[0], zs[0]);
      Trichotomy(e, xs[0], zs[0]);
      if Less(e, xs[0], ys[0]) && Less(e, ys[0], zs[0]) {
        Transitive(e, xs[0], ys[0], zs[0]);
      } else if xs[0] == ys[0] == zs[0] {
        ElemsTransitive(e, xs[1..], ys[1..], zs[1..]);
      }
    }
  }

  lemma {:induction false} FieldsTransitive(fs: seq<Type>, xs: seq<Val>, ys: seq<Val>, zs: seq<Val>)
    requires FieldsHaveType(fs, xs) && FieldsHaveType(fs, ys) && FieldsHaveType(fs, zs)
    requires forall k: nat :: k < |fs| ==> Sized(fs[k])
    requires FieldsLess(fs, xs, ys) && FieldsLess(fs, ys, zs)
    ensures FieldsLess(fs, xs, zs)
    decreases fs
  {
    Trichotomy(fs[0], xs[0], ys[0]);
    Trichotomy(fs[0], ys[0], zs[0]);
    Trichotomy(fs[0], xs[0], zs[0]);
    if Less(fs[0], xs[0], ys[0]) && Less(fs[0], ys[0], zs[0]) {
      Transitive(fs[0], xs[0], ys[0], zs[0]);
    } else if xs[0] == ys[0] == zs[0] {
      FieldsTransitive(fs[1..], xs[1..], ys[1..], zs[1..]);
    }
  }

  /** Lexicographic order without recursion: the first difference decides. */
  ghost predicate Lexicographic(e: Type, xs: seq<Val>, ys: seq<Val>)
    requires AllHaveType(e, xs) && AllHaveType(e, ys)
  {
    exists k: nat {:trigger xs[..k]} :: k <= |xs| && k < |ys| && xs[..k] == ys[..k]
                && (k == |xs| || Less(e, xs[k], ys[k]))
  }

  lemma {:induction false} ElemsLessIsLexicographic(e: Type, xs: seq<Val>, ys: seq<Val>)
    requires AllHaveType(e, xs) && AllHaveType(e, ys) && Sized(e)
    ensures ElemsLess(e, xs, ys) <==> Lexicographic(e, xs, ys)
    decreases |ys|
  {
    hide Less, HasType;
    if ys == [] {
    } else if xs == [] {
      assert xs[..0] == ys[..0];
    } else {
      Trichotomy(e, xs[0], ys[0]);
      LessIrreflexive(e, xs[0]);
      ElemsLessIsLexicographic(e, xs[1..], ys[1..]);
      if Less(e, xs[0], ys[0]) {
        assert xs[..0] == ys[..0];
      } else if ElemsLess(e, xs, ys) {
        var k: nat :| k <= |xs[1..]| && k < |ys[1..]| && xs[1..][..k] == ys[1..][..k]
          && (k == |xs[1..]| || Less(e, xs[1..][k], ys[1..][k]));
        assert xs[..k + 1] == [xs[0]] + xs[1..][..k] && ys[..k + 1] == [ys[0]] + ys[1..][..k];
      }
      if Lexicographic(e, xs, ys) {
        var k: nat :| k <= |xs| && k < |ys| && xs[..k] == ys[..k] && (k == |xs| || Less(e, xs[k], ys[k]));
        if k > 0 {
          assert xs[0] == xs[..k][0] == ys[..k][0] == ys[0];
          assert xs[1..][..k - 1] == xs[..k][1..] == ys[..k][1..] == ys[1..][..k - 1];
        }
      }
    }
  }

  /** Structs are ordered by the first field that differs. */
  lemma {:induction false} FieldsLessIsLexicographic(fs: seq<Type>, xs: seq<Val>, ys: seq<Val>)
    requires FieldsHaveType(fs, xs) && FieldsHaveType(fs, ys) && forall k: nat :: k < |fs| ==> Sized(fs[k])
    ensures FieldsLess(fs, xs, ys) <==> exists k: nat {:trigger xs[..k]} :: k < |fs| && xs[..k] == ys[..k] && Less(fs[k], xs[k], ys[k])
    decreases |fs|
  {
    hide Less, HasType;
    if fs != [] {
      Trichotomy(fs[0], xs[0], ys[0]);
      LessIrreflexive(fs[0], xs[0]);
      FieldsLessIsLexicographic(fs[1..], xs[1..], ys[1..]);
      if Less(fs[0], xs[0], ys[0]) {
        assert xs[..0] == ys[..0];
      } else if FieldsLess(fs, xs, ys) {
        var k: nat :| k < |fs[1..]| && xs[1..][..k] == ys[1..][..k] && Less(fs[1..][k], xs[1..][k], ys[1..][k]);
        assert xs[..k + 1] == [xs[0]] + xs[1..][..k] && ys[..k + 1] == [ys[0]] + ys[1..][..k];
      }
      if k: nat :| k < |fs| && xs[..k] == ys[..k] && Less(fs[k], xs[k], ys[k]) {
        if k > 0 {
          assert xs[0] == xs[..k][0] == ys[..k][0] == ys[0];
          assert xs[1..][..k - 1] == xs[..k][1..] == ys[..k][1..] == ys[1..][..k - 1];
        }
      }
    }
  }

  // ---- ... and when it is not

  function Default(t: Type): (v: Val)
    ensures HasType(t, v)
  {
    match t
    case BtnType(_) => Num(0)
    case ArrayType(_) => List([])
    case StructType(fs) => List(seq(|fs|, k requires 0 <= k < |fs| => Default(fs[k])))
  }

  /** Two different values of a type that is not sized, neither of which is less. */
  lemma {:induction false} Incomparable(t: Type) returns (x: Val, y: Val)
    requires !Sized(t)
    ensures HasType(t, x) && HasType(t, y) && x != y && !Less(t, x, y) && !Less(t, y, x)
  {
    match t
    case ArrayType(e) =>
      if |Flat(e)| == 0 {
        x, y := List([]), List([Default(e)]);
      } else {
        var x', y' := Incomparable(e);
        x, y := List([x']), List([y']);
        SinglesIncomparable(e, x', y');
      }
    case StructType(fs) =>
      var i: nat :| i < |fs| && !Sized(fs[i]);
      var x', y' := Incomparable(fs[i]);
      x, y := DefaultExcept(t, i, x'), DefaultExcept(t, i, y');
      FieldsIncomparable(t, i, x', y');
  }

  lemma SinglesIncomparable(e: Type, x: Val, y: Val)
    requires HasType(e, x) && HasType(e, y) && !Less(e, x, y) && !Less(e, y, x)
    ensures !ElemsLess(e, [x], [y]) && !ElemsLess(e, [y], [x])
  {
    assert [x][1..] == [] && [y][1..] == [];
    assert !ElemsLess(e, [], []);
  }

  /** A struct of default values but for one field. */
  function DefaultExcept(t: Type, i: nat, x: Val): (v: Val)
    requires t.StructType? && i < |t.fields| && HasType(t.fields[i], x)
    ensures HasType(t, v) && v.vs[i] == x
  {
    List(Default(t).vs[i := x])
  }

  lemma FieldsIncomparable(t: Type, i: nat, x: Val, y: Val)
    requires t.StructType? && i < |t.fields| && HasType(t.fields[i], x) && HasType(t.fields[i], y)
    requires !Less(t.fields[i], x, y) && !Less(t.fields[i], y, x)
    ensures !Less(t, DefaultExcept(t, i, x), DefaultExcept(t, i, y))
    ensures !Less(t, DefaultExcept(t, i, y), DefaultExcept(t, i, x))
  {
    FieldsAgree(t.fields, DefaultExcept(t, i, x).vs, DefaultExcept(t, i, y).vs);
    FieldsAgree(t.fields, DefaultExcept(t, i, y).vs, DefaultExcept(t, i, x).vs);
  }

  lemma {:induction false} FieldsAgree(fs: seq<Type>, xs: seq<Val>, ys: seq<Val>)
    requires FieldsHaveType(fs, xs) && FieldsHaveType(fs, ys)
    requires forall k: nat :: k < |fs| ==> xs[k] == ys[k] || (!Less(fs[k], xs[k], ys[k]) && !Less(fs[k], ys[k], xs[k]))
    ensures !FieldsLess(fs, xs, ys)
    decreases fs
  {
    if fs != [] {
      LessIrreflexive(fs[0], xs[0]);
      FieldsAgree(fs[1..], xs[1..], ys[1..]);
    }
  }

  lemma {:induction false} LessIrreflexive(t: Type, x: Val)
    requires HasType(t, x)
    ensures !Less(t, x, x)
    decreases t, 0
  {
    match t
    case BtnType(_) =>
    case ArrayType(e) => ElemsIrreflexive(e, x.vs);
    case StructType(fs) => FieldsIrreflexive(fs, x.vs);
  }

  lemma {:induction false} ElemsIrreflexive(e: Type, xs: seq<Val>)
    requires AllHaveType(e, xs)
    ensures !ElemsLess(e, xs, xs)
    decreases e, 1, |xs|
  {
    if xs != [] {
      LessIrreflexive(e, xs[0]);
      ElemsIrreflexive(e, xs[1..]);
    }
  }

  lemma {:induction false} FieldsIrreflexive(fs: seq<Type>, xs: seq<Val>)
    requires FieldsHaveType(fs, xs)
    ensures !FieldsLess(fs, xs, xs)
    decreases fs
  {
    if fs != [] {
      LessIrreflexive(fs[0], xs[0]);
      FieldsIrreflexive(fs[1..], xs[1..]);
    }
  }

  /** The comparison operators order all values of a type exactly when no array in
      the type has elements without cells, such as empty structs. */
  lemma TotalOrderIffSized(t: Type)
    ensures Sized(t) <==> forall x: Val, y: Val :: HasType(t, x) && HasType(t, y) ==> Comparable(t, x, y)
  {
    if Sized(t) {
      forall x: Val, y: Val | HasType(t, x) && HasType(t, y) ensures Comparable(t, x, y) {
        Trichotomy(t, x, y);
      }
    } else {
      var x, y := Incomparable(t);
      assert !Comparable(t, x, y);
    }
  }

  // ---- the generated functions

  lemma {:induction false} ValueHasType(st: State, t: Type, a: nat)
    requires Readable(st, t, a)
    ensures HasType(t, Value(st, t, a))
    decreases t
  {
    match t
    case BtnType(_) =>
    case ArrayType(e) =>
      var s := st.strg[st.mem[a].ptr];
      forall x | x in ElemValues(st, e, s.dat, s.len) ensures HasType(e, x) {
        var k: nat :| k < s.len && x == ElemValues(st, e, s.dat, s.len)[k];
        ValueHasType(st, e, s.dat + Span(e, k));
      }
    case StructType(fs) =>
      forall k: nat | k < |fs| ensures HasType(fs[k], FieldValues(st, fs, a)[k]) {
        ValueHasType(st, fs[k], a + |FlatAll(fs[..k])|);
      }
  }

  /** In a heap that keeps the invariant, an initialised object can be read unless
      something in it has been moved from. */
  lemma {:induction false} HoldsReadable(st: State, extra: multiset<nat>, t: Type, a: nat)
    requires Inv(st, extra, {}) && Holds(st, a, Flat(t))
    requires forall i: nat :: i < |st.mem| ==> !st.mem[i].Null?
    ensures Readable(st, t, a)
    decreases t
  {
    hide Inv, Holds, FlatN, Span, Flat, FlatAll;
    match t
    case BtnType(k) =>
      NumberCell(st, a, t);
    case ArrayType(e) =>
      HandleCell(st, extra, a, t);
      var s := st.strg[st.mem[a].ptr];
      forall k: nat | k < s.len ensures Readable(st, e, s.dat + Span(e, k)) {
        ElemHolds(st, s.dat, e, s.len, k);
        HoldsReadable(st, extra, e, s.dat + Span(e, k));
      }
    case StructType(fs) =>
      forall k: nat | k < |fs| ensures Readable(st, fs[k], a + |FlatAll(fs[..k])|) {
        StructField(st, a, t, k);
        HoldsReadable(st, extra, fs[k], a + |FlatAll(fs[..k])|);
      }
  }

  lemma NumberCell(st: State, a: nat, t: Type)
    requires t.BtnType? && Holds(st, a, Flat(t))
    ensures a < |st.mem| && st.mem[a].Bits? && st.mem[a].bits < Width(t.kind)
  {
    assert CellOk(st, st.mem[a + 0], Flat(t)[0]);
  }

  lemma HandleCell(st: State, extra: multiset<nat>, a: nat, t: Type)
    requires t.ArrayType? && Inv(st, extra, {}) && Holds(st, a, Flat(t))
    requires a < |st.mem| ==> !st.mem[a].Null?
    ensures a < |st.mem| && st.mem[a].Handle? && st.mem[a].ptr < |st.strg| && st.strg[st.mem[a].ptr].elem == t.elem
    ensures var s := st.strg[st.mem[a].ptr]; Holds(st, s.dat, FlatN(t.elem, s.len))
  {
    assert CellOk(st, st.mem[a + 0], Flat(t)[0]);
    HandleIsLive(st, extra, a);
    assert AtRest(st, st.mem[a].ptr);
  }

  lemma StructField(st: State, a: nat, t: Type, k: nat)
    requires t.StructType? && Holds(st, a, Flat(t)) && k < |t.fields|
    ensures Holds(st, a + |FlatAll(t.fields[..k])|, Flat(t.fields[k]))
  {
    var fs := t.fields;
    FieldAt(fs, k);
    var n := |FlatAll(fs[..k])|;
    HoldsSplit(st, a, FlatAll(fs), n + |Flat(fs[k])|);
    HoldsSplit(st, a, FlatAll(fs)[..n + |Flat(fs[k])|], n);
    assert FlatAll(fs)[..n + |Flat(fs[k])|][n..] == Flat(fs[k]);
  }

  lemma ElemCount(st: State, e: Type, dat: nat, len: nat)
    ensures |ElemValues(st, e, dat, len)| == len
  {
  }

  lemma ReadElem(st: State, e: Type, dat: nat, len: nat, k: nat)
    requires ReadableRow(st, e, dat, len) && k < len
    ensures |ElemValues(st, e, dat, len)| == len && ElemValues(st, e, dat, len)[k] == Value(st, e, dat + Span(e, k))
    ensures Readable(st, e, dat + Span(e, k))
  {
  }

  lemma ReadField(st: State, t: Type, a: nat, k: nat)
    requires t.StructType? && Readable(st, t, a) && k < |t.fields|
    ensures |FieldValues(st, t.fields, a)| == |t.fields|
    ensures FieldValues(st, t.fields, a)[k] == Value(st, t.fields[k], a + |FlatAll(t.fields[..k])|)
    ensures Readable(st, t.fields[k], a + |FlatAll(t.fields[..k])|)
  {
  }

  lemma ReadStruct(st: State, t: Type, a: nat)
    requires t.StructType?
    ensures Value(st, t, a) == List(FieldValues(st, t.fields, a)) && |FieldValues(st, t.fields, a)| == |t.fields|
  {
  }

  method Eq(st: State, t: Type, a: nat, b: nat) returns (r: bool)
    requires Readable(st, t, a) && Readable(st, t, b)
    ensures r == (Value(st, t, a) == Value(st, t, b))
    ensures t.BtnType? ==> r == (st.mem[a].bits == st.mem[b].bits)
    decreases t, 1
  {
    match t
    case BtnType(k) =>
      r := st.mem[a].bits == st.mem[b].bits;
    case ArrayType(e) =>
      r := ArrEq(st, e, st.mem[a].ptr, st.mem[b].ptr);
    case StructType(fs) =>
      r := SrtEq(st, t, a, b);
  }

  method ArrEq(st: State, e: Type, p: nat, q: nat) returns (r: bool)
    requires p < |st.strg| && q < |st.strg|
    requires ReadableRow(st, e, st.strg[p].dat, st.strg[p].len) && ReadableRow(st, e, st.strg[q].dat, st.strg[q].len)
    ensures r == (ElemValues(st, e, st.strg[p].dat, st.strg[p].len) == ElemValues(st, e, st.strg[q].dat, st.strg[q].len))
    decreases e, 2
  {
    hide ElemValues, Value, Readable, ReadableRow, Span, Flat;
    var lhs, rhs := st.strg[p], st.strg[q];
    ghost var xs, ys := ElemValues(st, e, lhs.dat, lhs.len), ElemValues(st, e, rhs.dat, rhs.len);
    ElemCount(st, e, lhs.dat, lhs.len);
    ElemCount(st, e, rhs.dat, rhs.len);
    NoElems(e);
    if lhs.len != rhs.len {
      assert |xs| != |ys|;
      return false;
    }
    var l, r', rEnd := lhs.dat, rhs.dat, rhs.dat + Span(e, rhs.len);
    ghost var k: nat := 0;
    while r' != rEnd
      invariant k <= rhs.len && l == lhs.dat + Span(e, k) && r' == rhs.dat + Span(e, k)
      invariant xs[..k] == ys[..k]
      decreases rhs.len - k
    {
      RowStep(e, k, rhs.len);
      ReadElem(st, e, lhs.dat, lhs.len, k);
      ReadElem(st, e, rhs.dat, rhs.len, k);
      var eq := Eq(st, e, l, r');
      if !eq {
        assert xs[k] != ys[k];
        return false;
      }
      assert xs[..k + 1] == xs[..k] + [xs[k]] && ys[..k + 1] == ys[..k] + [ys[k]];
      l, r', k := l + |Flat(e)|, r' + |Flat(e)|, k + 1;
    }
    RowEnd(st, e, k, rhs.len, lhs.dat, rhs.dat);
    return true;
  }

  lemma NoElems(e: Type)
    ensures Span(e, 0) == 0
  {
  }

  /** The end address has not been reached: there is another element. */
  lemma RowStep(e: Type, k: nat, len: nat)
    requires k <= len && Span(e, k) != Span(e, len)
    ensures k < len && Span(e, k + 1) == Span(e, k) + |Flat(e)| && |Flat(e)| > 0
  {
    if |Flat(e)| == 0 {
      SpanIsProduct(e, k);
      SpanIsProduct(e, len);
    }
  }

  /** The end address has been reached: all elements were seen, or they have no cells
      and so are all alike. */
  lemma RowEnd(st: State, e: Type, k: nat, len: nat, a: nat, b: nat)
    requires k <= len && Span(e, k) == Span(e, len)
    requires ElemValues(st, e, a, len)[..k] == ElemValues(st, e, b, len)[..k]
    ensures |Flat(e)| > 0 ==> k == len
    ensures ElemValues(st, e, a, len) == ElemValues(st, e, b, len)
  {
    if |Flat(e)| > 0 {
      if k < len {
        SpanMonotone(e, k + 1, len);
      }
      assert ElemValues(st, e, a, len)[..k] == ElemValues(st, e, a, len);
      assert ElemValues(st, e, b, len)[..k] == ElemValues(st, e, b, len);
    } else {
      forall i: nat | i < len ensures Value(st, e, a + Span(e, i)) == Value(st, e, b + Span(e, i)) {
        NoCells(st, e, a + Span(e, i), b + Span(e, i));
      }
    }
  }

  lemma {:induction false} NoCells(st: State, t: Type, a: nat, b: nat)
    requires |Flat(t)| == 0
    ensures Value(st, t, a) == Value(st, t, b)
    decreases t
  {
    match t
    case StructType(fs) =>
      forall k: nat | k < |fs| ensures FieldValues(st, fs, a)[k] == FieldValues(st, fs, b)[k] {
        FieldAt(fs, k);
        NoCells(st, fs[k], a + |FlatAll(fs[..k])|, b + |FlatAll(fs[..k])|);
      }
      assert FieldValues(st, fs, a) == FieldValues(st, fs, b);
  }

  method SrtEq(st: State, t: Type, a: nat, b: nat) returns (r: bool)
    requires t.StructType? && Readable(st, t, a) && Readable(st, t, b)
    ensures r == (Value(st, t, a) == Value(st, t, b))
    decreases t, 0
  {
    hide FieldValues, Value, Readable, FlatAll, Flat;
    var fs, m := t.fields, 0;
    ghost var xs, ys := FieldValues(st, fs, a), FieldValues(st, fs, b);
    ReadStruct(st, t, a);
    ReadStruct(st, t, b);
    while m < |fs|
      invariant m <= |fs| && xs[..m] == ys[..m]
    {
      ReadField(st, t, a, m);
      ReadField(st, t, b, m);
      var eq := Eq(st, fs[m], a + |FlatAll(fs[..m])|, b + |FlatAll(fs[..m])|);
      if !eq {
        assert xs[m] != ys[m];
        return false;
      }
      assert xs[..m + 1] == xs[..m] + [xs[m]] && ys[..m + 1] == ys[..m] + [ys[m]];
      m := m + 1;
    }
    assert xs[..m] == xs && ys[..m] == ys;
    return true;
  }

  /** `char` and `sint` are compared as signed numbers of 8 and 32 bits, the others as
      unsigned ones. */
  method Lt(st: State, t: Type, a: nat, b: nat) returns (r: bool)
    requires Readable(st, t, a) && Readable(st, t, b)
    ensures HasType(t, Value(st, t, a)) && HasType(t, Value(st, t, b))
    ensures r == Less(t, Value(st, t, a), Value(st, t, b))
    ensures t == BtnType(Sint) || t == BtnType(Char) ==>
      var x, y, half := st.mem[a].bits, st.mem[b].bits, if t == BtnType(Sint) then 0x8000_0000 else 0x80;
      r == ((if x >= half then x - 2 * half else x) < (if y >= half then y - 2 * half else y))
    ensures t == BtnType(Bool) || t == BtnType(Byte) || t == BtnType(Uint) ==> r == (st.mem[a].bits < st.mem[b].bits)
    decreases t, 1
  {
    ValueHasType(st, t, a);
    ValueHasType(st, t, b);
    match t
    case BtnType(k) =>
      r := Interpret(k, st.mem[a].bits) < Interpret(k, st.mem[b].bits);
    case ArrayType(e) =>
      r := ArrLt(st, e, st.mem[a].ptr, st.mem[b].ptr);
    case StructType(fs) =>
      r := SrtLt(st, t, a, b);
  }

  lemma RowHasType(st: State, e: Type, dat: nat, len: nat)
    requires ReadableRow(st, e, dat, len)
    ensures AllHaveType(e, ElemValues(st, e, dat, len))
  {
    hide Value, HasType, Readable, Span;
    var xs := ElemValues(st, e, dat, len);
    forall x | x in xs ensures HasType(e, x) {
      var k: nat :| k < len && x == xs[k];
      ValueHasType(st, e, dat + Span(e, k));
    }
  }

  method ArrLt(st: State, e: Type, p: nat, q: nat) returns (r: bool)
    requires p < |st.strg| && q < |st.strg|
    requires ReadableRow(st, e, st.strg[p].dat, st.strg[p].len) && ReadableRow(st, e, st.strg[q].dat, st.strg[q].len)
    ensures var xs := ElemValues(st, e, st.strg[p].dat, st.strg[p].len);
            var ys := ElemValues(st, e, st.strg[q].dat, st.strg[q].len);
            AllHaveType(e, xs) && AllHaveType(e, ys) && r == (|Flat(e)| > 0 && ElemsLess(e, xs, ys))
    decreases e, 2
  {
    hide ElemValues, Value, Readable, ReadableRow, Span, Flat, HasType, Less;
    var lhs, rhs := st.strg[p], st.strg[q];
    ghost var xs, ys := ElemValues(st, e, lhs.dat, lhs.len), ElemValues(st, e, rhs.dat, rhs.len);
    ElemCount(st, e, lhs.dat, lhs.len);
    ElemCount(st, e, rhs.dat, rhs.len);
    NoElems(e);
    RowHasType(st, e, lhs.dat, lhs.len);
    RowHasType(st, e, rhs.dat, rhs.len);
    var l, r' := lhs.dat, rhs.dat;
    var lEnd, rEnd := lhs.dat + Span(e, lhs.len), rhs.dat + Span(e, rhs.len);
    ghost var k: nat := 0;
    assert xs[0..] == xs && ys[0..] == ys;
    while r' != rEnd
      invariant k <= rhs.len && k <= lhs.len && l == lhs.dat + Span(e, k) && r' == rhs.dat + Span(e, k)
      invariant AllHaveType(e, xs[k..]) && AllHaveType(e, ys[k..])
      invariant ElemsLess(e, xs, ys) == ElemsLess(e, xs[k..], ys[k..])
      decreases rhs.len - k
    {
      RowStep(e, k, rhs.len);
      if l == lEnd {
        RowEnd(st, e, k, lhs.len, lhs.dat, lhs.dat);
        return true;
      }
      RowStep(e, k, lhs.len);
      ReadElem(st, e, lhs.dat, lhs.len, k);
      ReadElem(st, e, rhs.dat, rhs.len, k);
      assert xs[k..][0] == xs[k] && ys[k..][0] == ys[k] && xs[k..][1..] == xs[k + 1..] && ys[k..][1..] == ys[k + 1..];
      var less := Lt(st, e, l, r');
      if less {
        return true;
      }
      var greater := Lt(st, e, r', l);
      if greater {
        return false;
      }
      l, r', k := l + |Flat(e)|, r' + |Flat(e)|, k + 1;
    }
    RowEnd(st, e, k, rhs.len, rhs.dat, rhs.dat);
    return false;
  }

  lemma LessStruct(t: Type, x: Val, y: Val)
    requires t.StructType? && HasType(t, x) && HasType(t, y)
    ensures x.List? && y.List? && FieldsHaveType(t.fields, x.vs) && FieldsHaveType(t.fields, y.vs)
    ensures Less(t, x, y) == FieldsLess(t.fields, x.vs, y.vs)
  {
  }

  method SrtLt(st: State, t: Type, a: nat, b: nat) returns (r: bool)
    requires t.StructType? && Readable(st, t, a) && Readable(st, t, b)
    ensures HasType(t, Value(st, t, a)) && HasType(t, Value(st, t, b))
    ensures r == Less(t, Value(st, t, a), Value(st, t, b))
    decreases t, 0
  {
    hide FieldValues, Value, Readable, FlatAll, Flat, Less, HasType;
    ValueHasType(st, t, a);
    ValueHasType(st, t, b);
    var fs, m := t.fields, 0;
    ghost var xs, ys := FieldValues(st, fs, a), FieldValues(st, fs, b);
    ReadStruct(st, t, a);
    ReadStruct(st, t, b);
    LessStruct(t, Value(st, t, a), Value(st, t, b));
    assert fs[0..] == fs && xs[0..] == xs && ys[0..] == ys;
    while m < |fs|
      invariant m <= |fs| && FieldsHaveType(fs[m..], xs[m..]) && FieldsHaveType(fs[m..], ys[m..])
      invariant FieldsLess(fs, xs, ys) == FieldsLess(fs[m..], xs[m..], ys[m..])
    {
      assert fs[m..][0] == fs[m] && xs[m..][0] == xs[m] && ys[m..][0] == ys[m];
      assert fs[m..][1..] == fs[m + 1..] && xs[m..][1..] == xs[m + 1..] && ys[m..][1..] == ys[m + 1..];
      ReadField(st, t, a, m);
      ReadField(st, t, b, m);
      var less := Lt(st, fs[m], a + |FlatAll(fs[..m])|, b + |FlatAll(fs[..m])|);
      if less {
        return true;
      }
      var greater := Lt(st, fs[m], b + |FlatAll(fs[..m])|, a + |FlatAll(fs[..m])|);
      if greater {
        return false;
      }
      m := m + 1;
    }
    return false;
  }

  // The other operators are made from these two.

  method Ne(st: State, t: Type, a: nat, b: nat) returns (r: bool)
    requires Readable(st, t, a) && Readable(st, t, b)
    ensures r == (Value(st, t, a) != Value(st, t, b))
  {
    var eq := Eq(st, t, a, b);
    r := !eq;
  }

  method Gt(st: State, t: Type, a: nat, b: nat) returns (r: bool)
    requires Readable(st, t, a) && Readable(st, t, b)
    ensures HasType(t, Value(st, t, a)) && HasType(t, Value(st, t, b))
    ensures r == Less(t, Value(st, t, b), Value(st, t, a))
  {
    r := Lt(st, t, b, a);
  }

  /** On sized types, not greater means less or equal. */
  method Le(st: State, t: Type, a: nat, b: nat) returns (r: bool)
    requires Readable(st, t, a) && Readable(st, t, b)
    ensures HasType(t, Value(st, t, a)) && HasType(t, Value(st, t, b))
    ensures r == !Less(t, Value(st, t, b), Value(st, t, a))
    ensures Sized(t) ==> r == (Less(t, Value(st, t, a), Value(st, t, b)) || Value(st, t, a) == Value(st, t, b))
  {
    var greater := Lt(st, t, b, a);
    if Sized(t) {
      Trichotomy(t, Value(st, t, a), Value(st, t, b));
    }
    r := !greater;
  }

  method Ge(st: State, t: Type, a: nat, b: nat) returns (r: bool)
    requires Readable(st, t, a) && Readable(st, t, b)
    ensures HasType(t, Value(st, t, a)) && HasType(t, Value(st, t, b))
    ensures r == !Less(t, Value(st, t, a), Value(st, t, b))
    ensures Sized(t) ==> r == (Less(t, Value(st, t, b), Value(st, t, a)) || Value(st, t, a) == Value(st, t, b))
  {
    var less := Lt(st, t, a, b);
    if Sized(t) {
      Trichotomy(t, Value(st, t, a), Value(st, t, b));
    }
    r := !less;
  }
}
