/** The types whose values the generated runtime handles, and their layout in memory.

    A named type is represented by the type it stands for: every code generator
    starts by resolving aliases away. */
module Types {

  datatype Btn = Bool | Byte | Char | Sint | Uint

  /** How many bit patterns a number has. */
  function Width(k: Btn): nat {
    match k
    case Bool => 2
    case Byte => 0x100
    case Char => 0x100
    case Sint => 0x1_0000_0000
    case Uint => 0x1_0000_0000
  }

  datatype Type =
    | BtnType(kind: Btn)
    | ArrayType(elem: Type)
    | StructType(fields: seq<Type>)

  /** How a type may be duplicated and moved. */
  datatype TypeCat = TriviallyCopyable | TriviallyRelocatable | Nontrivial

  function ClassifyType(t: Type): TypeCat {
    match t
    case BtnType(_) => TriviallyCopyable
    case ArrayType(_) => TriviallyRelocatable
    case StructType(_) => Nontrivial
  }

  /** What one memory cell of an object holds: a number, or a handle to an
      array storage with elements of a known type. */
  datatype Leaf = Word(kind: Btn) | Ref(elem: Type)

  /** The cells of an object, in address order; a struct is its fields in order. */
  function Flat(t: Type): seq<Leaf>
    decreases t, 0
  {
    match t
    case BtnType(k) => [Word(k)]
    case ArrayType(e) => [Ref(e)]
    case StructType(fs) => FlatAll(fs)
  }

  function FlatAll(ts: seq<Type>): seq<Leaf>
    decreases ts
  {
    if ts == [] then [] else FlatAll(ts[..|ts| - 1]) + Flat(ts[|ts| - 1])
  }

  /** The cells of `n` consecutive objects of one type. */
  function FlatN(t: Type, n: nat): seq<Leaf> {
    if n == 0 then [] else FlatN(t, n - 1) + Flat(t)
  }

  /** Where element `n` of an array starts, counted in cells. */
  function Span(t: Type, n: nat): nat {
    |FlatN(t, n)|
  }

  lemma {:induction false} SpanIsProduct(t: Type, n: nat)
    ensures Span(t, n) == n * |Flat(t)|
  {
    if n > 0 {
      SpanIsProduct(t, n - 1);
    }
  }

  lemma {:induction false} FlatNSplit(t: Type, a: nat, b: nat)
    ensures FlatN(t, a + b) == FlatN(t, a) + FlatN(t, b)
  {
    if b > 0 {
      FlatNSplit(t, a, b - 1);
    }
  }

  lemma FlatNFront(t: Type, n: nat)
    requires n > 0
    ensures FlatN(t, n) == Flat(t) + FlatN(t, n - 1)
  {
    FlatNSplit(t, 1, n - 1);
    assert FlatN(t, 1) == FlatN(t, 0) + Flat(t);
  }

  lemma SpanMonotone(t: Type, a: nat, b: nat)
    requires a <= b
    ensures Span(t, a) <= Span(t, b)
    ensures FlatN(t, b)[..Span(t, a)] == FlatN(t, a)
  {
    FlatNSplit(t, a, b - a);
  }

  /** Nesting depth of arrays. Types cannot be recursive, so a storage with
      elements of type `e` only ever holds handles to storages of lower rank. */
  function Rank(t: Type): nat
    decreases t, 0
  {
    match t
    case BtnType(_) => 0
    case ArrayType(e) => 1 + Rank(e)
    case StructType(fs) => RankAll(fs)
  }

  function RankAll(ts: seq<Type>): nat
    decreases ts
  {
    if ts == [] then 0
    else
      var (front, last) := (RankAll(ts[..|ts| - 1]), Rank(ts[|ts| - 1]));
      if front < last then last else front
  }

  lemma {:induction false} LeafRank(t: Type, i: nat)
    requires i < |Flat(t)| && Flat(t)[i].Ref?
    ensures Rank(Flat(t)[i].elem) < Rank(t)
    decreases t, 0
  {
    match t
    case BtnType(_) =>
    case ArrayType(_) =>
    case StructType(fs) => LeafRankAll(fs, i);
  }

  lemma {:induction false} LeafRankAll(ts: seq<Type>, i: nat)
    requires i < |FlatAll(ts)| && FlatAll(ts)[i].Ref?
    ensures Rank(FlatAll(ts)[i].elem) < RankAll(ts)
    decreases ts
  {
    var k := |FlatAll(ts[..|ts| - 1])|;
    if i < k {
      LeafRankAll(ts[..|ts| - 1], i);
    } else {
      LeafRank(ts[|ts| - 1], i - k);
    }
  }

  lemma {:induction false} LeafRankN(t: Type, n: nat, i: nat)
    requires i < |FlatN(t, n)| && FlatN(t, n)[i].Ref?
    ensures Rank(FlatN(t, n)[i].elem) < Rank(t)
  {
    if i < |FlatN(t, n - 1)| {
      LeafRankN(t, n - 1, i);
    } else {
      LeafRank(t, i - |FlatN(t, n - 1)|);
    }
  }

  /** A field is never of higher rank than its struct. */
  lemma {:induction false} FieldRank(ts: seq<Type>, k: nat)
    requires k < |ts|
    ensures Rank(ts[k]) <= RankAll(ts)
    decreases |ts|
  {
    if k < |ts| - 1 {
      FieldRank(ts[..|ts| - 1], k);
    }
  }

  lemma SpanIsLength(e: Type, n: nat)
    ensures Span(e, n) == |FlatN(e, n)|
  {
  }

  lemma ElemSlice(e: Type, len: nat, k: nat)
    requires k < len
    ensures |FlatN(e, k)| + |Flat(e)| == Span(e, k + 1) <= Span(e, len) == |FlatN(e, len)|
    ensures FlatN(e, len)[..|FlatN(e, k)| + |Flat(e)|] == FlatN(e, k) + Flat(e)
  {
    hide Flat;
    assert FlatN(e, k + 1) == FlatN(e, k) + Flat(e);
    FlatNSplit(e, k + 1, len - k - 1);
  }

  lemma NoFields(fs: seq<Type>)
    ensures FlatAll(fs[..0]) == []
  {
  }

  /** Field `k` of a struct starts after the cells of the fields before it. */
  lemma {:induction false} FieldAt(ts: seq<Type>, k: nat)
    requires k < |ts|
    ensures |FlatAll(ts[..k + 1])| == |FlatAll(ts[..k])| + |Flat(ts[k])| <= |FlatAll(ts)|
    ensures FlatAll(ts)[|FlatAll(ts[..k])|..|FlatAll(ts[..k + 1])|] == Flat(ts[k])
    decreases |ts|
  {
    assert ts[..k + 1][..k] == ts[..k];
    if k == |ts| - 1 {
      assert ts[..k + 1] == ts;
    } else {
      var front := ts[..|ts| - 1];
      FieldAt(front, k);
      assert front[..k] == ts[..k] && front[..k + 1] == ts[..k + 1];
    }
  }

  lemma FieldFits(t: Type, k: nat)
    requires t.StructType? && k < |t.fields|
    ensures |FlatAll(t.fields[..k + 1])| == |FlatAll(t.fields[..k])| + |Flat(t.fields[k])| <= |Flat(t)|
    ensures Rank(t.fields[k]) <= Rank(t)
  {
    FieldAt(t.fields, k);
    FieldRank(t.fields, k);
  }
}
