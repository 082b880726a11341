/** Types whose names have been looked up: when two of them are the same type, given
    that some names stand for other types and some for types of their own. */
module TypeEq {
  import opened Wrappers

  datatype BtnKind = Void | Opaq | Bool | Byte | Char | Real | Sint | Uint

  /** `def` is the alias that a name refers to. */
  datatype Type =
    | BtnType(kind: BtnKind)
    | ArrayType(elem: Type)
    | FuncType(params: seq<ParamType>, ret: Option<Type>)
    | NamedType(name: string, def: nat)
    | StructType(fields: seq<Field>)

  datatype ParamType = ParamType(ref: bool, paramType: Type)

  datatype Field = Field(field: string, fieldType: Type)

  /** A weak alias is another name for its type, a strong one is a type of its own. */
  datatype Alias = Alias(name: string, aliased: Type, strong: bool)

  type Aliases = seq<Alias>

  // ---- aliases refer to earlier aliases

  function Max(a: nat, b: nat): nat {
    if a < b then b else a
  }

  /** One more than the latest alias that a type mentions. */
  function Rank(t: Type): nat
    decreases t, 0
  {
    match t
    case BtnType(_) => 0
    case ArrayType(elem) => Rank(elem)
    case FuncType(params, ret) => Max(RankParams(params), if ret.Some? then Rank(ret.value) else 0)
    case NamedType(_, def) => def + 1
    case StructType(fields) => RankFields(fields)
  }

  function RankParams(ps: seq<ParamType>): nat
    decreases ps
  {
    if ps == [] then 0 else Max(RankParam(ps[0]), RankParams(ps[1..]))
  }

  function RankParam(p: ParamType): nat
    decreases p, 1
  {
    Rank(p.paramType)
  }

  function RankFields(fs: seq<Field>): nat
    decreases fs
  {
    if fs == [] then 0 else Max(Rank(fs[0].fieldType), RankFields(fs[1..]))
  }

  /** Every name is that of its alias. */
  predicate Named(al: Aliases, t: Type)
    decreases t, 0
  {
    match t
    case BtnType(_) => true
    case ArrayType(elem) => Named(al, elem)
    case FuncType(params, ret) =>
      (forall p :: p in params ==> NamedParam(al, p)) && (ret.Some? ==> Named(al, ret.value))
    case NamedType(name, def) => def < |al| && al[def].name == name
    case StructType(fields) => forall f :: f in fields ==> NamedField(al, f)
  }

  predicate NamedParam(al: Aliases, p: ParamType)
    decreases p, 1
  {
    Named(al, p.paramType)
  }

  predicate NamedField(al: Aliases, f: Field)
    decreases f, 1
  {
    Named(al, f.fieldType)
  }

  predicate AliasesOk(al: Aliases) {
    forall i: nat :: i < |al| ==> Named(al, al[i].aliased) && Rank(al[i].aliased) <= i
  }

  predicate Mentions(t: Type, def: nat)
    decreases t, 0
  {
    match t
    case BtnType(_) => false
    case ArrayType(elem) => Mentions(elem, def)
    case FuncType(params, ret) =>
      (exists p :: p in params && ParamMentions(p, def)) || (ret.Some? && Mentions(ret.value, def))
    case NamedType(_, d) => d == def
    case StructType(fields) => exists f :: f in fields && FieldMentions(f, def)
  }

  predicate ParamMentions(p: ParamType, def: nat)
    decreases p, 1
  {
    Mentions(p.paramType, def)
  }

  predicate FieldMentions(f: Field, def: nat)
    decreases f, 1
  {
    Mentions(f.fieldType, def)
  }

  lemma {:induction false} MentionsBelow(t: Type, def: nat)
    requires Mentions(t, def)
    ensures def < Rank(t)
    decreases t, 0
  {
    match t
    case ArrayType(elem) => MentionsBelow(elem, def);
    case FuncType(params, ret) =>
      if ret.Some? && Mentions(ret.value, def) {
        MentionsBelow(ret.value, def);
      } else {
        ParamsBelow(params, def);
      }
    case NamedType(_, _) =>
    case StructType(fields) => FieldsBelow(fields, def);
  }

  lemma {:induction false} ParamsBelow(ps: seq<ParamType>, def: nat)
    requires exists p :: p in ps && ParamMentions(p, def)
    ensures def < RankParams(ps)
    decreases ps, 0
  {
    if ParamMentions(ps[0], def) {
      ParamBelow(ps[0], def);
    } else {
      var p :| p in ps && ParamMentions(p, def);
      assert ps == [ps[0]] + ps[1..];
      assert p in ps[1..];
      ParamsBelow(ps[1..], def);
    }
  }

  lemma {:induction false} ParamBelow(p: ParamType, def: nat)
    requires ParamMentions(p, def)
    ensures def < RankParam(p)
    decreases p, 1
  {
    MentionsBelow(p.paramType, def);
  }

  lemma {:induction false} FieldsBelow(fs: seq<Field>, def: nat)
    requires exists f :: f in fs && FieldMentions(f, def)
    ensures def < RankFields(fs)
    decreases fs, 0
  {
    if FieldMentions(fs[0], def) {
      MentionsBelow(fs[0].fieldType, def);
    } else {
      var f :| f in fs && FieldMentions(f, def);
      assert fs == [fs[0]] + fs[1..];
      assert f in fs[1..];
      FieldsBelow(fs[1..], def);
    }
  }

  /** Along the references of aliases one always comes to earlier aliases: there is no
      way back, so none refers to itself. */
  lemma {:induction false} AliasesAcyclic(al: Aliases, path: seq<nat>)
    requires AliasesOk(al) && |path| > 1 && forall k: nat :: k < |path| ==> path[k] < |al|
    requires forall k: nat {:trigger path[k]} :: k + 1 < |path| ==> Mentions(al[path[k]].aliased, path[k + 1])
    ensures path[|path| - 1] < path[0]
    decreases |path|
  {
    var n := |path| - 1;
    assert Mentions(al[path[n - 1]].aliased, path[n]);
    MentionsBelow(al[path[n - 1]].aliased, path[n]);
    if n > 1 {
      assert path[..n][n - 1] == path[n - 1];
      AliasesAcyclic(al, path[..n]);
    }
  }

  // ---- comparing types

  /** A type that is not given is equal to no type but another one not given. */
  predicate CompareTypes(al: Aliases, a: Option<Type>, b: Option<Type>)
    requires AliasesOk(al) && (a.Some? ==> Named(al, a.value)) && (b.Some? ==> Named(al, b.value))
    decreases (if a.Some? then Rank(a.value) else 0) + (if b.Some? then Rank(b.value) else 0), a, 3
  {
    if a.None? && b.None? then true
    else if a.None? || b.None? then false
    else VisitLeft(al, a.value, b.value)
  }

  predicate VisitLeft(al: Aliases, lhs: Type, rhs: Type)
    requires AliasesOk(al) && Named(al, lhs) && Named(al, rhs)
    decreases Rank(lhs) + Rank(rhs), lhs, 2
  {
    if lhs.NamedType? && !al[lhs.def].strong then VisitLeft(al, al[lhs.def].aliased, rhs)
    else VisitRight(al, lhs, rhs)
  }

  predicate VisitRight(al: Aliases, lhs: Type, rhs: Type)
    requires AliasesOk(al) && Named(al, lhs) && Named(al, rhs)
    decreases Rank(lhs) + Rank(rhs), lhs, 1
  {
    if rhs.NamedType? && !al[rhs.def].strong then VisitRight(al, lhs, al[rhs.def].aliased)
    else Compare(al, lhs, rhs)
  }

  predicate Compare(al: Aliases, lhs: Type, rhs: Type)
    requires AliasesOk(al) && Named(al, lhs) && Named(al, rhs)
    decreases Rank(lhs) + Rank(rhs), lhs, 0
  {
    match (lhs, rhs)
    case (BtnType(k), BtnType(l)) => k == l
    case (ArrayType(e), ArrayType(f)) => VisitLeft(al, e, f)
    case (FuncType(ps, r), FuncType(qs, s)) => CompareTypes(al, r, s) && CompareParams(al, ps, qs)
    case (NamedType(m, _), NamedType(n, _)) => m == n
    case (StructType(fs), StructType(gs)) => CompareFields(al, fs, gs)
    case _ => false
  }

  predicate CompareParams(al: Aliases, ps: seq<ParamType>, qs: seq<ParamType>)
    requires AliasesOk(al) && (forall p :: p in ps ==> NamedParam(al, p)) && (forall q :: q in qs ==> NamedParam(al, q))
    decreases RankParams(ps) + RankParams(qs), ps, 0
  {
    |ps| == |qs| &&
    (ps == [] ||
     (ps[0].ref == qs[0].ref && CompareParam(al, ps[0], qs[0]) && CompareParams(al, ps[1..], qs[1..])))
  }

  predicate CompareParam(al: Aliases, p: ParamType, q: ParamType)
    requires AliasesOk(al) && NamedParam(al, p) && NamedParam(al, q)
    decreases RankParam(p) + RankParam(q), p, 4
  {
    VisitLeft(al, p.paramType, q.paramType)
  }

  predicate CompareField(al: Aliases, f: Field, g: Field)
    requires AliasesOk(al) && NamedField(al, f) && NamedField(al, g)
    decreases Rank(f.fieldType) + Rank(g.fieldType), f, 4
  {
    VisitLeft(al, f.fieldType, g.fieldType)
  }

  predicate CompareFields(al: Aliases, fs: seq<Field>, gs: seq<Field>)
    requires AliasesOk(al) && (forall f :: f in fs ==> NamedField(al, f)) && (forall g :: g in gs ==> NamedField(al, g))
    decreases RankFields(fs) + RankFields(gs), fs, 0
  {
    |fs| == |gs| &&
    (fs == [] ||
     (fs[0].field == gs[0].field && CompareField(al, fs[0], gs[0]) && CompareFields(al, fs[1..], gs[1..])))
  }

  // ---- normal forms

  /** A type with all weak aliases replaced; strong ones are known by their names. */
  datatype Normal =
    | NBtn(nkind: BtnKind)
    | NArray(nelem: Normal)
    | NFunc(nparams: seq<NParam>, nret: Option<Normal>)
    | NStrong(nname: string)
    | NStruct(nfields: seq<NField>)

  datatype NParam = NParam(nref: bool, ntype: Normal)

  datatype NField = NField(nfield: string, nfieldType: Normal)

  ghost function Normalise(al: Aliases, t: Type): Normal
    requires AliasesOk(al) && Named(al, t)
    decreases Rank(t), t, 0
  {
    match t
    case BtnType(k) => NBtn(k)
    case ArrayType(e) => NArray(Normalise(al, e))
    case FuncType(ps, r) => NFunc(NormalParams(al, ps), NormalOpt(al, r))
    case NamedType(name, def) => if al[def].strong then NStrong(name) else Normalise(al, al[def].aliased)
    case StructType(fs) => NStruct(NormalFields(al, fs))
  }

  ghost function NormalOpt(al: Aliases, t: Option<Type>): Option<Normal>
    requires AliasesOk(al) && (t.Some? ==> Named(al, t.value))
    decreases if t.Some? then Rank(t.value) else 0, t, 1
  {
    if t.None? then None else Some(Normalise(al, t.value))
  }

  ghost function NormalParam(al: Aliases, p: ParamType): NParam
    requires AliasesOk(al) && NamedParam(al, p)
    decreases RankParam(p), p, 1
  {
    NParam(p.ref, Normalise(al, p.paramType))
  }

  ghost function NormalParams(al: Aliases, ps: seq<ParamType>): (r: seq<NParam>)
    requires AliasesOk(al) && forall p :: p in ps ==> NamedParam(al, p)
    ensures |r| == |ps|
    decreases RankParams(ps), ps, 0
  {
    if ps == [] then [] else [NormalParam(al, ps[0])] + NormalParams(al, ps[1..])
  }

  ghost function NormalField(al: Aliases, f: Field): NField
    requires AliasesOk(al) && NamedField(al, f)
    decreases Rank(f.fieldType), f, 1
  {
    NField(f.field, Normalise(al, f.fieldType))
  }

  ghost function NormalFields(al: Aliases, fs: seq<Field>): (r: seq<NField>)
    requires AliasesOk(al) && forall f :: f in fs ==> NamedField(al, f)
    ensures |r| == |fs|
    decreases RankFields(fs), fs, 0
  {
    if fs == [] then [] else [NormalField(al, fs[0])] + NormalFields(al, fs[1..])
  }

  // ---- comparing types is comparing normal forms

  lemma {:induction false} LeftNormal(al: Aliases, lhs: Type, rhs: Type)
    requires AliasesOk(al) && Named(al, lhs) && Named(al, rhs)
    ensures VisitLeft(al, lhs, rhs) <==> Normalise(al, lhs) == Normalise(al, rhs)
    decreases Rank(lhs) + Rank(rhs), lhs, 2
  {
    if lhs.NamedType? && !al[lhs.def].strong {
      LeftNormal(al, al[lhs.def].aliased, rhs);
    } else {
      RightNormal(al, lhs, rhs);
    }
  }

  lemma {:induction false} RightNormal(al: Aliases, lhs: Type, rhs: Type)
    requires AliasesOk(al) && Named(al, lhs) && Named(al, rhs) && (lhs.NamedType? ==> al[lhs.def].strong)
    ensures VisitRight(al, lhs, rhs) <==> Normalise(al, lhs) == Normalise(al, rhs)
    decreases Rank(lhs) + Rank(rhs), lhs, 1
  {
    if rhs.NamedType? && !al[rhs.def].strong {
      RightNormal(al, lhs, al[rhs.def].aliased);
    } else {
      match (lhs, rhs)
      case (ArrayType(e), ArrayType(f)) => LeftNormal(al, e, f);
      case (FuncType(ps, r), FuncType(qs, s)) =>
        CompareNormal(al, r, s);
        ParamsNormal(al, ps, qs);
      case (StructType(fs), StructType(gs)) => FieldsNormal(al, fs, gs);
      case _ =>
    }
  }

  /** Two types are the same exactly if their normal forms are. */
  lemma {:induction false} CompareNormal(al: Aliases, a: Option<Type>, b: Option<Type>)
    requires AliasesOk(al) && (a.Some? ==> Named(al, a.value)) && (b.Some? ==> Named(al, b.value))
    ensures CompareTypes(al, a, b) <==> NormalOpt(al, a) == NormalOpt(al, b)
    decreases (if a.Some? then Rank(a.value) else 0) + (if b.Some? then Rank(b.value) else 0), a, 3
  {
    if a.Some? && b.Some? {
      LeftNormal(al, a.value, b.value);
    }
  }

  lemma {:induction false} ParamsNormal(al: Aliases, ps: seq<ParamType>, qs: seq<ParamType>)
    requires AliasesOk(al) && (forall p :: p in ps ==> NamedParam(al, p)) && (forall q :: q in qs ==> NamedParam(al, q))
    ensures CompareParams(al, ps, qs) <==> NormalParams(al, ps) == NormalParams(al, qs)
    decreases RankParams(ps) + RankParams(qs), ps, 0
  {
    if ps != [] && |ps| == |qs| {
      ParamNormal(al, ps[0], qs[0]);
      ParamsNormal(al, ps[1..], qs[1..]);
      HeadAndTail(NormalParam(al, ps[0]), NormalParams(al, ps[1..]), NormalParam(al, qs[0]), NormalParams(al, qs[1..]));
    }
  }

  lemma HeadAndTail<T>(x: T, xs: seq<T>, y: T, ys: seq<T>)
    ensures [x] + xs == [y] + ys <==> x == y && xs == ys
  {
    if [x] + xs == [y] + ys {
      assert xs == ([x] + xs)[1..] && ys == ([y] + ys)[1..];
      assert ([x] + xs)[0] == ([y] + ys)[0];
    }
  }

  lemma {:induction false} ParamNormal(al: Aliases, p: ParamType, q: ParamType)
    requires AliasesOk(al) && NamedParam(al, p) && NamedParam(al, q)
    ensures p.ref == q.ref && CompareParam(al, p, q) <==> NormalParam(al, p) == NormalParam(al, q)
    decreases RankParam(p) + RankParam(q), p, 4
  {
    LeftNormal(al, p.paramType, q.paramType);
  }

  lemma {:induction false} FieldNormal(al: Aliases, f: Field, g: Field)
    requires AliasesOk(al) && NamedField(al, f) && NamedField(al, g)
    ensures f.field == g.field && CompareField(al, f, g) <==> NormalField(al, f) == NormalField(al, g)
    decreases Rank(f.fieldType) + Rank(g.fieldType), f, 4
  {
    LeftNormal(al, f.fieldType, g.fieldType);
  }

  lemma {:induction false} FieldsNormal(al: Aliases, fs: seq<Field>, gs: seq<Field>)
    requires AliasesOk(al) && (forall f :: f in fs ==> NamedField(al, f)) && (forall g :: g in gs ==> NamedField(al, g))
    ensures CompareFields(al, fs, gs) <==> NormalFields(al, fs) == NormalFields(al, gs)
    decreases RankFields(fs) + RankFields(gs), fs, 0
  {
    if fs != [] && |fs| == |gs| {
      FieldNormal(al, fs[0], gs[0]);
      FieldsNormal(al, fs[1..], gs[1..]);
      HeadAndTail(NormalField(al, fs[0]), NormalFields(al, fs[1..]), NormalField(al, gs[0]), NormalFields(al, gs[1..]));
    }
  }

  /** So being the same type is an equivalence. */
  lemma CompareIsEquivalence(al: Aliases, a: Option<Type>, b: Option<Type>, c: Option<Type>)
    requires AliasesOk(al) && (a.Some? ==> Named(al, a.value)) && (b.Some? ==> Named(al, b.value)) && (c.Some? ==> Named(al, c.value))
    ensures CompareTypes(al, a, a)
    ensures CompareTypes(al, a, b) ==> CompareTypes(al, b, a)
    ensures CompareTypes(al, a, b) && CompareTypes(al, b, c) ==> CompareTypes(al, a, c)
  {
    hide CompareTypes, NormalOpt;
    CompareNormal(al, a, a);
    CompareNormal(al, a, b);
    CompareNormal(al, b, a);
    CompareNormal(al, b, c);
    CompareNormal(al, a, c);
  }

  // ---- looking through aliases

  function LookupStrong(al: Aliases, t: Type): (r: Type)
    requires AliasesOk(al) && Named(al, t)
    ensures Named(al, r) && (r.NamedType? ==> al[r.def].strong)
    decreases Rank(t)
  {
    if t.NamedType? && !al[t.def].strong then LookupStrong(al, al[t.def].aliased) else t
  }

  function LookupConcrete(al: Aliases, t: Type): (r: Type)
    requires AliasesOk(al) && Named(al, t)
    ensures Named(al, r) && !r.NamedType?
    decreases Rank(t)
  {
    if t.NamedType? then LookupConcrete(al, al[t.def].aliased) else t
  }

  /** Weak aliases can be looked through without changing the type; a concrete type is
      the same type exactly if no strong alias was in the way. */
  lemma {:induction false} LookupsKeepType(al: Aliases, t: Type)
    requires AliasesOk(al) && Named(al, t)
    ensures VisitLeft(al, t, LookupStrong(al, t))
    ensures VisitLeft(al, t, LookupConcrete(al, t)) <==> !LookupStrong(al, t).NamedType?
    decreases Rank(t)
  {
    LeftNormal(al, t, LookupStrong(al, t));
    LeftNormal(al, t, LookupConcrete(al, t));
    if t.NamedType? && !al[t.def].strong {
      var next := al[t.def].aliased;
      LookupsKeepType(al, next);
      LeftNormal(al, next, LookupStrong(al, next));
      LeftNormal(al, next, LookupConcrete(al, next));
    } else {
      NotStrong(al, LookupConcrete(al, t));
    }
  }

  lemma NotStrong(al: Aliases, t: Type)
    requires AliasesOk(al) && Named(al, t) && !t.NamedType?
    ensures !Normalise(al, t).NStrong?
  {
  }

  ghost predicate StrongNamesDistinct(al: Aliases) {
    forall i: nat, j: nat :: i < j < |al| && al[i].strong && al[j].strong ==> al[i].name != al[j].name
  }

  /** Strong aliases are told apart by their names alone, so that a strong alias is a
      type of its own exactly as long as no other one has its name. */
  lemma StrongAliasesApart(al: Aliases)
    requires AliasesOk(al)
    ensures StrongNamesDistinct(al) <==>
      forall i: nat, j: nat :: i < |al| && j < |al| && al[i].strong && al[j].strong ==>
        (VisitLeft(al, NamedType(al[i].name, i), NamedType(al[j].name, j)) <==> i == j)
  {
    forall i: nat, j: nat | i < |al| && j < |al| && al[i].strong && al[j].strong
      ensures VisitLeft(al, NamedType(al[i].name, i), NamedType(al[j].name, j)) <==> al[i].name == al[j].name
    {
      LeftNormal(al, NamedType(al[i].name, i), NamedType(al[j].name, j));
    }
  }

  // ---- what comparing types means

  ghost predicate Same(al: Aliases, a: Type, b: Type)
    requires AliasesOk(al) && Named(al, a) && Named(al, b)
  {
    CompareTypes(al, Some(a), Some(b))
  }

  /** Nothing to look through. */
  lemma Direct(al: Aliases, a: Type, b: Type)
    requires AliasesOk(al) && Named(al, a) && Named(al, b)
    requires (a.NamedType? ==> al[a.def].strong) && (b.NamedType? ==> al[b.def].strong)
    ensures Same(al, a, b) == VisitLeft(al, a, b) == Compare(al, a, b)
  {
    hide Compare;
    assert VisitRight(al, a, b) == Compare(al, a, b);
    assert VisitLeft(al, a, b) == VisitRight(al, a, b);
  }

  lemma Looked(al: Aliases, a: Type, b: Type)
    requires AliasesOk(al) && Named(al, a) && Named(al, b)
    ensures Same(al, a, b) == VisitLeft(al, a, b)
  {
  }

  /** No name occurs in the type. */
  predicate Nameless(t: Type)
    decreases t, 0
  {
    match t
    case BtnType(_) => true
    case ArrayType(elem) => Nameless(elem)
    case FuncType(params, ret) => (forall p :: p in params ==> NamelessParam(p)) && (ret.Some? ==> Nameless(ret.value))
    case NamedType(_, _) => false
    case StructType(fields) => forall f :: f in fields ==> NamelessField(f)
  }

  predicate NamelessParam(p: ParamType)
    decreases p, 1
  {
    Nameless(p.paramType)
  }

  predicate NamelessField(f: Field)
    decreases f, 1
  {
    Nameless(f.fieldType)
  }

  /** Without names, types are the same exactly if they are written the same. */
  lemma {:induction false} PlainEquality(al: Aliases, a: Type, b: Type)
    requires AliasesOk(al) && Nameless(a) && Nameless(b)
    ensures Named(al, a) && Named(al, b) && (CompareTypes(al, Some(a), Some(b)) <==> a == b)
    decreases a, 1
  {
    NamelessIsNamed(al, a);
    NamelessIsNamed(al, b);
    Direct(al, a, b);
    match (a, b)
    case (ArrayType(e), ArrayType(f)) => PlainEquality(al, e, f);
    case (FuncType(ps, r), FuncType(qs, s)) =>
      PlainParams(al, ps, qs);
      if r.Some? && s.Some? {
        PlainEquality(al, r.value, s.value);
      }
    case (StructType(fs), StructType(gs)) => PlainFields(al, fs, gs);
    case _ =>
  }

  lemma {:induction false} NamelessIsNamed(al: Aliases, t: Type)
    requires Nameless(t)
    ensures Named(al, t)
    decreases t, 0
  {
    match t
    case BtnType(_) =>
    case ArrayType(elem) => NamelessIsNamed(al, elem);
    case FuncType(params, ret) =>
      forall p | p in params ensures NamedParam(al, p) {
        assert NamelessParam(p);
        NamelessIsNamed(al, p.paramType);
      }
      if ret.Some? {
        NamelessIsNamed(al, ret.value);
      }
    case StructType(fields) =>
      forall f | f in fields ensures NamedField(al, f) {
        assert NamelessField(f);
        NamelessIsNamed(al, f.fieldType);
      }
  }

  lemma {:induction false} PlainParams(al: Aliases, ps: seq<ParamType>, qs: seq<ParamType>)
    requires AliasesOk(al) && (forall p :: p in ps ==> NamelessParam(p)) && (forall q :: q in qs ==> NamelessParam(q))
    ensures (forall p :: p in ps ==> NamedParam(al, p)) && (forall q :: q in qs ==> NamedParam(al, q))
    ensures CompareParams(al, ps, qs) <==> ps == qs
    decreases ps, 0
  {
    forall p | p in ps + qs ensures NamedParam(al, p) {
      assert NamelessParam(p);
      NamelessIsNamed(al, p.paramType);
    }
    if ps != [] && |ps| == |qs| {
      assert NamelessParam(ps[0]) && NamelessParam(qs[0]) && ps[0].paramType < ps[0];
      PlainEquality(al, ps[0].paramType, qs[0].paramType);
      PlainParams(al, ps[1..], qs[1..]);
      HeadAndTail(ps[0], ps[1..], qs[0], qs[1..]);
      assert ps == [ps[0]] + ps[1..] && qs == [qs[0]] + qs[1..];
    }
  }

  lemma {:induction false} PlainFields(al: Aliases, fs: seq<Field>, gs: seq<Field>)
    requires AliasesOk(al) && (forall f :: f in fs ==> NamelessField(f)) && (forall g :: g in gs ==> NamelessField(g))
    ensures (forall f :: f in fs ==> NamedField(al, f)) && (forall g :: g in gs ==> NamedField(al, g))
    ensures CompareFields(al, fs, gs) <==> fs == gs
    decreases fs, 0
  {
    forall f | f in fs + gs ensures NamedField(al, f) {
      assert NamelessField(f);
      NamelessIsNamed(al, f.fieldType);
    }
    if fs != [] && |fs| == |gs| {
      assert NamelessField(fs[0]) && NamelessField(gs[0]) && fs[0].fieldType < fs[0];
      PlainEquality(al, fs[0].fieldType, gs[0].fieldType);
      PlainFields(al, fs[1..], gs[1..]);
      HeadAndTail(fs[0], fs[1..], gs[0], gs[1..]);
      assert fs == [fs[0]] + fs[1..] && gs == [gs[0]] + gs[1..];
    }
  }

  /** Function types are the same exactly if they have the same result and the same
      parameters, passed in the same way and in the same order. */
  lemma FuncsSame(al: Aliases, a: Type, b: Type)
    requires AliasesOk(al) && a.FuncType? && b.FuncType? && Named(al, a) && Named(al, b)
    ensures Same(al, a, b) <==>
      && CompareTypes(al, a.ret, b.ret)
      && |a.params| == |b.params|
      && forall k: nat :: k < |a.params| ==>
           NamedParam(al, a.params[k]) && NamedParam(al, b.params[k])
           && a.params[k].ref == b.params[k].ref && Same(al, a.params[k].paramType, b.params[k].paramType)
  {
    hide Same, VisitLeft, CompareParams, CompareTypes;
    Direct(al, a, b);
    ParamsSame(al, a.params, b.params);
  }

  lemma {:induction false} ParamsSame(al: Aliases, ps: seq<ParamType>, qs: seq<ParamType>)
    requires AliasesOk(al) && (forall p :: p in ps ==> NamedParam(al, p)) && (forall q :: q in qs ==> NamedParam(al, q))
    ensures CompareParams(al, ps, qs) <==>
      |ps| == |qs| && forall k: nat :: k < |ps| ==>
        NamedParam(al, ps[k]) && NamedParam(al, qs[k]) && ps[k].ref == qs[k].ref && Same(al, ps[k].paramType, qs[k].paramType)
    decreases ps
  {
    hide VisitLeft;
    if ps != [] && |ps| == |qs| {
      ParamsSame(al, ps[1..], qs[1..]);
      assert forall k: nat :: 0 < k < |ps| ==> ps[k] == ps[1..][k - 1] && qs[k] == qs[1..][k - 1];
      assert forall k: nat :: k < |ps[1..]| ==> ps[1..][k] == ps[k + 1] && qs[1..][k] == qs[k + 1];
    }
  }

  /** Struct types are the same exactly if their fields have the same names and types in
      the same order. */
  lemma StructsSame(al: Aliases, a: Type, b: Type)
    requires AliasesOk(al) && a.StructType? && b.StructType? && Named(al, a) && Named(al, b)
    ensures Same(al, a, b) <==>
      && |a.fields| == |b.fields|
      && forall k: nat :: k < |a.fields| ==>
           NamedField(al, a.fields[k]) && NamedField(al, b.fields[k])
           && a.fields[k].field == b.fields[k].field && Same(al, a.fields[k].fieldType, b.fields[k].fieldType)
  {
    hide Same, VisitLeft, CompareFields;
    Direct(al, a, b);
    FieldsSame(al, a.fields, b.fields);
  }

  lemma {:induction false} FieldsSame(al: Aliases, fs: seq<Field>, gs: seq<Field>)
    requires AliasesOk(al) && (forall f :: f in fs ==> NamedField(al, f)) && (forall g :: g in gs ==> NamedField(al, g))
    ensures CompareFields(al, fs, gs) <==>
      |fs| == |gs| && forall k: nat :: k < |fs| ==>
        NamedField(al, fs[k]) && NamedField(al, gs[k]) && fs[k].field == gs[k].field && Same(al, fs[k].fieldType, gs[k].fieldType)
    decreases fs
  {
    hide VisitLeft;
    if fs != [] && |fs| == |gs| {
      FieldsSame(al, fs[1..], gs[1..]);
      assert forall k: nat :: 0 < k < |fs| ==> fs[k] == fs[1..][k - 1] && gs[k] == gs[1..][k - 1];
      assert forall k: nat :: k < |fs[1..]| ==> fs[1..][k] == fs[k + 1] && gs[1..][k] == gs[k + 1];
    }
  }

  /** Arrays are the same exactly if their elements are, builtin types if they are one
      type, and types of different forms never. */
  lemma FormsApart(al: Aliases, a: Type, b: Type)
    requires AliasesOk(al) && Named(al, a) && Named(al, b) && !a.NamedType? && !b.NamedType?
    ensures a.ArrayType? && b.ArrayType? ==> (Same(al, a, b) <==> Same(al, a.elem, b.elem))
    ensures a.BtnType? && b.BtnType? ==> (Same(al, a, b) <==> a.kind == b.kind)
    ensures Same(al, a, b) ==>
      (a.BtnType? <==> b.BtnType?) && (a.ArrayType? <==> b.ArrayType?) && (a.FuncType? <==> b.FuncType?) && (a.StructType? <==> b.StructType?)
  {
    hide Same, VisitLeft, CompareTypes, CompareParams, CompareFields;
    Direct(al, a, b);
    if a.ArrayType? && b.ArrayType? {
      Looked(al, a.elem, b.elem);
    }
  }

  /** A weak name is its type, and a strong one is no type but those of its name. */
  lemma NamesSame(al: Aliases, def: nat, b: Type)
    requires AliasesOk(al) && def < |al| && Named(al, b)
    ensures var a := NamedType(al[def].name, def);
      && (!al[def].strong ==> (Same(al, a, b) <==> Same(al, al[def].aliased, b)) && (Same(al, b, a) <==> Same(al, b, al[def].aliased)))
      && (al[def].strong && !b.NamedType? ==> !Same(al, a, b) && !Same(al, b, a))
      && (al[def].strong && b.NamedType? && al[b.def].strong ==> (Same(al, a, b) <==> al[def].name == al[b.def].name))
  {
    hide Normalise, Same, VisitLeft;
    var a, t := NamedType(al[def].name, def), al[def].aliased;
    forall c: Type | c == a || c == t ensures Named(al, c) && (Same(al, c, b) <==> Normalise(al, c) == Normalise(al, b)) && Same(al, b, c) == Same(al, c, b) {
      Looked(al, c, b);
      Looked(al, b, c);
      LeftNormal(al, c, b);
      LeftNormal(al, b, c);
    }
    NormalName(al, def);
    if b.NamedType? {
      NormalName(al, b.def);
    } else {
      NotStrong(al, b);
    }
  }

  lemma NormalName(al: Aliases, def: nat)
    requires AliasesOk(al) && def < |al|
    ensures Normalise(al, NamedType(al[def].name, def)) == if al[def].strong then NStrong(al[def].name) else Normalise(al, al[def].aliased)
  {
  }
}
