/** Declaring type aliases: the type of an alias is validated, and its names are
    looked up, before the name of the alias is known. */
module Aliases {
  import opened Wrappers
  import opened Sorting
  import opened TypeEq
  import S = Syntax

  datatype Symbol = TypeName(def: nat) | Other

  type Scopes = seq<map<string, Symbol>>

  datatype Error = NotAType(name: string) | NoSuchType(name: string) | DuplicateField(name: string) | Redefinition(name: string)

  /** The innermost scope that knows the name decides. */
  function LookupTypeName(scopes: Scopes, name: string): Result<nat, Error>
    decreases |scopes|
  {
    if scopes == [] then Err(NoSuchType(name))
    else
      var scope := scopes[|scopes| - 1];
      if name in scope then
        match scope[name]
        case TypeName(def) => Ok(def)
        case Other => Err(NotAType(name))
      else LookupTypeName(scopes[..|scopes| - 1], name)
  }

  function FieldNames(fs: seq<S.Field>): seq<string> {
    seq(|fs|, i requires 0 <= i < |fs| => fs[i].field)
  }

  /** All names are names of types, and no struct has two fields of one name. */
  predicate Sound(scopes: Scopes, t: S.Type)
    decreases t, 0
  {
    match t
    case NamedType(name) => LookupTypeName(scopes, name).Ok?
    case ArrayType(elem) => Sound(scopes, elem)
    case FuncType(params, ret) =>
      (forall p :: p in params ==> SoundParam(scopes, p)) && (ret.Some? ==> Sound(scopes, ret.value))
    case StructType(fields) => (forall f :: f in fields ==> SoundField(scopes, f)) && Distinct(FieldNames(fields))
  }

  predicate SoundParam(scopes: Scopes, p: S.ParamType)
    decreases p, 1
  {
    Sound(scopes, p.paramType)
  }

  predicate SoundField(scopes: Scopes, f: S.Field)
    decreases f, 1
  {
    Sound(scopes, f.fieldType)
  }

  /** What validation makes of a sound type: names refer to aliases, and a function
      type without a result returns nothing. */
  function Resolved(scopes: Scopes, t: S.Type): Type
    requires Sound(scopes, t)
    decreases t, 0
  {
    match t
    case NamedType(name) => NamedType(name, LookupTypeName(scopes, name).value)
    case ArrayType(elem) => ArrayType(Resolved(scopes, elem))
    case FuncType(params, ret) =>
      FuncType(ResolvedParams(scopes, params), Some(if ret.Some? then Resolved(scopes, ret.value) else BtnType(Void)))
    case StructType(fields) => StructType(ResolvedFields(scopes, fields))
  }

  function ResolvedParam(scopes: Scopes, p: S.ParamType): ParamType
    requires SoundParam(scopes, p)
    decreases p, 1
  {
    ParamType(p.ref, Resolved(scopes, p.paramType))
  }

  function ResolvedParams(scopes: Scopes, ps: seq<S.ParamType>): seq<ParamType>
    requires forall p :: p in ps ==> SoundParam(scopes, p)
    decreases ps, 0
  {
    if ps == [] then [] else ResolvedParams(scopes, ps[..|ps| - 1]) + [ResolvedParam(scopes, ps[|ps| - 1])]
  }

  function ResolvedField(scopes: Scopes, f: S.Field): Field
    requires SoundField(scopes, f)
    decreases f, 1
  {
    Field(f.field, Resolved(scopes, f.fieldType))
  }

  function ResolvedFields(scopes: Scopes, fs: seq<S.Field>): seq<Field>
    requires forall f :: f in fs ==> SoundField(scopes, f)
    decreases fs, 0
  {
    if fs == [] then [] else ResolvedFields(scopes, fs[..|fs| - 1]) + [ResolvedField(scopes, fs[|fs| - 1])]
  }

  /** The error is about something in the type. */
  ghost predicate Blamed(scopes: Scopes, t: S.Type, e: Error)
    decreases t, 0
  {
    match t
    case NamedType(name) => LookupTypeName(scopes, name) == Err(e)
    case ArrayType(elem) => Blamed(scopes, elem, e)
    case FuncType(params, ret) =>
      (exists p :: p in params && BlamedParam(scopes, p, e)) || (ret.Some? && Blamed(scopes, ret.value, e))
    case StructType(fields) =>
      || (exists f :: f in fields && BlamedField(scopes, f, e))
      || (e.DuplicateField? && multiset(FieldNames(fields))[e.name] > 1)
  }

  ghost predicate BlamedParam(scopes: Scopes, p: S.ParamType, e: Error)
    decreases p, 1
  {
    Blamed(scopes, p.paramType, e)
  }

  ghost predicate BlamedField(scopes: Scopes, f: S.Field, e: Error)
    decreases f, 1
  {
    Blamed(scopes, f.fieldType, e)
  }

  /** The innermost of the scopes that declare a name says what it is, and a name that
      none of them declares is an error of its own. */
  lemma {:induction false} InnermostDecides(scopes: Scopes, name: string, i: nat)
    requires i < |scopes| && name in scopes[i] && forall k: nat :: i < k < |scopes| ==> name !in scopes[k]
    ensures scopes[i][name].TypeName? ==> LookupTypeName(scopes, name) == Ok(scopes[i][name].def)
    ensures scopes[i][name].Other? ==> LookupTypeName(scopes, name) == Err(NotAType(name))
    decreases |scopes|
  {
    if |scopes| > i + 1 {
      InnermostDecides(scopes[..|scopes| - 1], name, i);
    }
  }

  lemma {:induction false} DeclaredNowhere(scopes: Scopes, name: string)
    ensures LookupTypeName(scopes, name) == Err(NoSuchType(name)) <==> forall k: nat :: k < |scopes| ==> name !in scopes[k]
    decreases |scopes|
  {
    if scopes != [] {
      var front := scopes[..|scopes| - 1];
      DeclaredNowhere(front, name);
      assert forall k: nat :: k < |front| ==> front[k] == scopes[k];
    }
  }

  /** What makes a type sound, part by part: the innermost declaration of a name is a type,
      and the fields of a struct have different names. */
  lemma SoundIs(scopes: Scopes, t: S.Type)
    ensures t.NamedType? ==> (Sound(scopes, t) <==> exists i: nat ::
      i < |scopes| && t.name in scopes[i] && scopes[i][t.name].TypeName? && forall k: nat :: i < k < |scopes| ==> t.name !in scopes[k])
    ensures t.ArrayType? ==> (Sound(scopes, t) <==> Sound(scopes, t.elem))
    ensures t.FuncType? ==> (Sound(scopes, t) <==>
      (forall k: nat :: k < |t.params| ==> Sound(scopes, t.params[k].paramType)) && (t.ret.Some? ==> Sound(scopes, t.ret.value)))
    ensures t.StructType? ==> (Sound(scopes, t) <==>
      (forall k: nat :: k < |t.fields| ==> Sound(scopes, t.fields[k].fieldType))
      && forall j: nat, k: nat :: j < k < |t.fields| ==> t.fields[j].field != t.fields[k].field)
  {
    match t
    case NamedType(name) => NameIsType(scopes, name);
    case ArrayType(_) =>
    case FuncType(params, _) =>
      if forall k: nat :: k < |params| ==> Sound(scopes, params[k].paramType) {
        forall p | p in params ensures SoundParam(scopes, p) {
        }
      } else {
        var k: nat :| k < |params| && !Sound(scopes, params[k].paramType);
        assert params[k] in params && !SoundParam(scopes, params[k]);
      }
    case StructType(fields) =>
      if forall k: nat :: k < |fields| ==> Sound(scopes, fields[k].fieldType) {
        forall f | f in fields ensures SoundField(scopes, f) {
        }
      } else {
        var k: nat :| k < |fields| && !Sound(scopes, fields[k].fieldType);
        assert fields[k] in fields && !SoundField(scopes, fields[k]);
      }
      assert forall k: nat :: k < |fields| ==> FieldNames(fields)[k] == fields[k].field;
  }

  lemma {:induction false} NameIsType(scopes: Scopes, name: string)
    ensures LookupTypeName(scopes, name).Ok? <==> exists i: nat ::
      i < |scopes| && name in scopes[i] && scopes[i][name].TypeName? && forall k: nat :: i < k < |scopes| ==> name !in scopes[k]
    decreases |scopes|
  {
    if scopes != [] {
      var front, last := scopes[..|scopes| - 1], |scopes| - 1;
      NameIsType(front, name);
      if name !in scopes[last] {
        assert forall k: nat :: k < last ==> front[k] == scopes[k];
        if i: nat :| i < |front| && name in front[i] && front[i][name].TypeName? && forall k: nat :: i < k < |front| ==> name !in front[k] {
          assert name in scopes[i] && scopes[i][name].TypeName? && forall k: nat :: i < k < |scopes| ==> name !in scopes[k];
        }
      }
    }
  }

  /** Validation leaves the shape of a type, the way parameters are passed and the names
      of fields as they are, part by part; a function without a result returns `Void`. */
  lemma ResolvedIs(scopes: Scopes, t: S.Type)
    requires Sound(scopes, t)
    ensures var r := Resolved(scopes, t);
      match t
      case NamedType(name) => r.NamedType? && r.name == name && LookupTypeName(scopes, name) == Ok(r.def)
      case ArrayType(elem) => r == ArrayType(Resolved(scopes, elem))
      case FuncType(params, ret) =>
        && r.FuncType? && |r.params| == |params|
        && (forall k: nat :: k < |params| ==> SoundParam(scopes, params[k]) && r.params[k] == ResolvedParam(scopes, params[k]) && r.params[k].ref == params[k].ref)
        && (if ret.None? then r.ret == Some(BtnType(Void)) else r.ret == Some(Resolved(scopes, ret.value)))
      case StructType(fields) =>
        && r.StructType? && |r.fields| == |fields|
        && forall k: nat :: k < |fields| ==> SoundField(scopes, fields[k]) && r.fields[k] == ResolvedField(scopes, fields[k]) && r.fields[k].field == fields[k].field
  {
    match t
    case FuncType(params, _) => ParamsAre(scopes, params);
    case StructType(fields) => FieldsAre(scopes, fields);
    case _ =>
  }

  lemma {:induction false} ParamsAre(scopes: Scopes, ps: seq<S.ParamType>)
    requires forall p :: p in ps ==> SoundParam(scopes, p)
    ensures var r := ResolvedParams(scopes, ps);
      |r| == |ps| && forall k: nat :: k < |ps| ==> SoundParam(scopes, ps[k]) && r[k] == ResolvedParam(scopes, ps[k]) && r[k].ref == ps[k].ref
    decreases |ps|
  {
    hide Resolved;
    if ps != [] {
      ParamsAre(scopes, ps[..|ps| - 1]);
    }
  }

  lemma {:induction false} FieldsAre(scopes: Scopes, fs: seq<S.Field>)
    requires forall f :: f in fs ==> SoundField(scopes, f)
    ensures var r := ResolvedFields(scopes, fs);
      |r| == |fs| && forall k: nat :: k < |fs| ==> SoundField(scopes, fs[k]) && r[k] == ResolvedField(scopes, fs[k]) && r[k].field == fs[k].field
    decreases |fs|
  {
    hide Resolved;
    if fs != [] {
      FieldsAre(scopes, fs[..|fs| - 1]);
    }
  }

  // ---- resolved types refer to aliases that are there

  ghost predicate ScopesOk(scopes: Scopes, al: seq<Alias>) {
    forall s: nat, name: string :: s < |scopes| && name in scopes[s] && scopes[s][name].TypeName? ==>
      scopes[s][name].def < |al| && al[scopes[s][name].def].name == name
  }

  lemma {:induction false} LookupOk(scopes: Scopes, al: seq<Alias>, name: string)
    requires ScopesOk(scopes, al) && LookupTypeName(scopes, name).Ok?
    ensures LookupTypeName(scopes, name).value < |al| && al[LookupTypeName(scopes, name).value].name == name
    decreases |scopes|
  {
    var front := scopes[..|scopes| - 1];
    if name !in scopes[|scopes| - 1] {
      assert forall s: nat :: s < |front| ==> front[s] == scopes[s];
      LookupOk(front, al, name);
    }
  }

  lemma {:induction false} ResolvedOk(scopes: Scopes, al: seq<Alias>, t: S.Type)
    requires ScopesOk(scopes, al) && Sound(scopes, t)
    ensures Named(al, Resolved(scopes, t)) && Rank(Resolved(scopes, t)) <= |al|
    decreases t, 0
  {
    match t
    case NamedType(name) => LookupOk(scopes, al, name);
    case ArrayType(elem) => ResolvedOk(scopes, al, elem);
    case FuncType(params, ret) =>
      ParamsOk(scopes, al, params);
      if ret.Some? {
        ResolvedOk(scopes, al, ret.value);
      }
    case StructType(fields) => FieldsOk(scopes, al, fields);
  }

  lemma {:induction false} ParamsOk(scopes: Scopes, al: seq<Alias>, ps: seq<S.ParamType>)
    requires ScopesOk(scopes, al) && forall p :: p in ps ==> SoundParam(scopes, p)
    ensures forall p :: p in ResolvedParams(scopes, ps) ==> NamedParam(al, p)
    ensures RankParams(ResolvedParams(scopes, ps)) <= |al|
    decreases ps, 0
  {
    if ps != [] {
      var front, last := ps[..|ps| - 1], ps[|ps| - 1];
      ParamsOk(scopes, al, front);
      ParamOk(scopes, al, last);
      RankParamsFront(ResolvedParams(scopes, front), ResolvedParam(scopes, last));
    }
  }

  lemma {:induction false} ParamOk(scopes: Scopes, al: seq<Alias>, p: S.ParamType)
    requires ScopesOk(scopes, al) && SoundParam(scopes, p)
    ensures NamedParam(al, ResolvedParam(scopes, p)) && RankParam(ResolvedParam(scopes, p)) <= |al|
    decreases p, 1
  {
    ResolvedOk(scopes, al, p.paramType);
  }

  lemma {:induction false} RankParamsFront(ps: seq<ParamType>, p: ParamType)
    ensures RankParams(ps + [p]) == Max(RankParams(ps), RankParam(p))
  {
    if ps == [] {
      assert ps + [p] == [p] && [p][1..] == [];
    } else {
      assert (ps + [p])[1..] == ps[1..] + [p];
      RankParamsFront(ps[1..], p);
    }
  }

  lemma {:induction false} FieldsOk(scopes: Scopes, al: seq<Alias>, fs: seq<S.Field>)
    requires ScopesOk(scopes, al) && forall f :: f in fs ==> SoundField(scopes, f)
    ensures forall f :: f in ResolvedFields(scopes, fs) ==> NamedField(al, f)
    ensures RankFields(ResolvedFields(scopes, fs)) <= |al|
    decreases fs, 0
  {
    if fs != [] {
      var front, last := fs[..|fs| - 1], fs[|fs| - 1];
      FieldsOk(scopes, al, front);
      FieldOk(scopes, al, last);
      RankFieldsFront(ResolvedFields(scopes, front), ResolvedField(scopes, last));
    }
  }

  lemma {:induction false} FieldOk(scopes: Scopes, al: seq<Alias>, f: S.Field)
    requires ScopesOk(scopes, al) && SoundField(scopes, f)
    ensures NamedField(al, ResolvedField(scopes, f)) && Rank(ResolvedField(scopes, f).fieldType) <= |al|
    decreases f, 1
  {
    ResolvedOk(scopes, al, f.fieldType);
  }

  lemma {:induction false} RankFieldsFront(fs: seq<Field>, f: Field)
    ensures RankFields(fs + [f]) == Max(RankFields(fs), Rank(f.fieldType))
  {
    if fs == [] {
      assert fs + [f] == [f] && [f][1..] == [];
    } else {
      assert (fs + [f])[1..] == fs[1..] + [f];
      RankFieldsFront(fs[1..], f);
    }
  }

  // ---- more aliases change nothing for those that were there

  lemma {:induction false} NamedLater(al: seq<Alias>, al': seq<Alias>, t: Type)
    requires Named(al, t) && al <= al'
    ensures Named(al', t)
    decreases t, 0
  {
    match t
    case BtnType(_) =>
    case ArrayType(elem) => NamedLater(al, al', elem);
    case FuncType(params, ret) =>
      forall p | p in params ensures NamedParam(al', p) {
        assert NamedParam(al, p);
        NamedParamLater(al, al', p);
      }
      if ret.Some? {
        NamedLater(al, al', ret.value);
      }
    case NamedType(_, def) => assert al'[def] == al[def];
    case StructType(fields) =>
      forall f | f in fields ensures NamedField(al', f) {
        assert NamedField(al, f);
        NamedFieldLater(al, al', f);
      }
  }

  lemma {:induction false} NamedParamLater(al: seq<Alias>, al': seq<Alias>, p: ParamType)
    requires NamedParam(al, p) && al <= al'
    ensures NamedParam(al', p)
    decreases p, 1
  {
    NamedLater(al, al', p.paramType);
  }

  lemma {:induction false} NamedFieldLater(al: seq<Alias>, al': seq<Alias>, f: Field)
    requires NamedField(al, f) && al <= al'
    ensures NamedField(al', f)
    decreases f, 1
  {
    NamedLater(al, al', f.fieldType);
  }

  lemma AliasAdded(al: seq<Alias>, a: Alias)
    requires AliasesOk(al) && Named(al, a.aliased) && Rank(a.aliased) <= |al|
    ensures AliasesOk(al + [a])
  {
    forall i: nat | i < |al + [a]|
      ensures Named(al + [a], (al + [a])[i].aliased) && Rank((al + [a])[i].aliased) <= i
    {
      NamedLater(al, al + [a], (al + [a])[i].aliased);
    }
  }

  /** The builtin types have names like any other. */
  const BUILTINS: seq<Alias> := [
    Alias("opaq", BtnType(Opaq), false), Alias("bool", BtnType(Bool), false), Alias("byte", BtnType(Byte), false),
    Alias("char", BtnType(Char), false), Alias("real", BtnType(Real), false), Alias("sint", BtnType(Sint), false),
    Alias("uint", BtnType(Uint), false)
  ]

  const BUILTIN_NAMES: map<string, Symbol> := map[
    "opaq" := TypeName(0), "bool" := TypeName(1), "byte" := TypeName(2), "char" := TypeName(3),
    "real" := TypeName(4), "sint" := TypeName(5), "uint" := TypeName(6)
  ]

  ghost predicate StandsFor(name: string, kind: BtnKind) {
    && AliasesOk(BUILTINS) && Sound([BUILTIN_NAMES], S.NamedType(name))
    && var t := Resolved([BUILTIN_NAMES], S.NamedType(name));
       Named(BUILTINS, t) && CompareTypes(BUILTINS, Some(t), Some(BtnType(kind)))
  }

  /** What the names of the builtin types stand for. */
  lemma BuiltinsAre()
    ensures StandsFor("opaq", Opaq) && StandsFor("bool", Bool) && StandsFor("byte", Byte) && StandsFor("char", Char)
    ensures StandsFor("real", Real) && StandsFor("sint", Sint) && StandsFor("uint", Uint)
  {
    hide StandsFor, AliasesOk;
    assert AliasesOk(BUILTINS) by {
      BuiltinsOk();
    }
    BuiltinIs("opaq", 0, Opaq);
    BuiltinIs("bool", 1, Bool);
    BuiltinIs("byte", 2, Byte);
    BuiltinIs("char", 3, Char);
    BuiltinIs("real", 4, Real);
    BuiltinIs("sint", 5, Sint);
    BuiltinIs("uint", 6, Uint);
  }

  lemma BuiltinsOk()
    ensures AliasesOk(BUILTINS)
  {
  }

  lemma BuiltinIs(name: string, def: nat, kind: BtnKind)
    requires name in BUILTIN_NAMES && BUILTIN_NAMES[name] == TypeName(def)
    requires AliasesOk(BUILTINS) && def < |BUILTINS| && BUILTINS[def] == Alias(name, BtnType(kind), false)
    ensures StandsFor(name, kind)
  {
    hide AliasesOk, BUILTINS, BUILTIN_NAMES, Same;
    InnermostDecides([BUILTIN_NAMES], name, 0);
    NamesSame(BUILTINS, def, BtnType(kind));
    FormsApart(BUILTINS, BtnType(kind), BtnType(kind));
    SameIs(BUILTINS, NamedType(name, def), BtnType(kind));
  }

  lemma SameIs(al: seq<Alias>, a: Type, b: Type)
    requires AliasesOk(al) && Named(al, a) && Named(al, b)
    ensures Same(al, a, b) == CompareTypes(al, Some(a), Some(b))
  {
  }

  class Analyser {
    var aliases: seq<Alias>
    var scopes: Scopes

    /** Every alias refers to earlier aliases only, so that looking through aliases
        comes to an end. */
    ghost predicate Valid()
      reads this
    {
      scopes != [] && AliasesOk(aliases) && ScopesOk(scopes, aliases)
    }

    constructor ()
      ensures Valid() && aliases == BUILTINS && scopes == [BUILTIN_NAMES]
    {
      aliases, scopes := BUILTINS, [BUILTIN_NAMES];
    }

    method EnterScope()
      requires Valid()
      modifies this`scopes
      ensures Valid() && scopes == old(scopes) + [map[]]
    {
      scopes := scopes + [map[]];
    }

    method LeaveScope()
      requires Valid() && |scopes| > 1
      modifies this`scopes
      ensures Valid() && scopes == old(scopes)[..|old(scopes)| - 1]
    {
      scopes := scopes[..|scopes| - 1];
    }

    method Validate(t: S.Type) returns (r: Result<Type, Error>)
      ensures r.Ok? <==> Sound(scopes, t)
      ensures r.Ok? ==> r.value == Resolved(scopes, t)
      ensures r.Ok? && t.FuncType? && t.ret.None? ==> r.value.FuncType? && r.value.ret == Some(BtnType(Void))
      ensures r.Err? ==> Blamed(scopes, t, r.error)
      decreases t, 0
    {
      match t
      case NamedType(name) =>
        var found := LookupTypeName(scopes, name);
        return if found.Ok? then Ok(NamedType(name, found.value)) else Err(found.error);
      case ArrayType(elem) =>
        r := Validate(elem);
        return if r.Ok? then Ok(ArrayType(r.value)) else r;
      case FuncType(params, ret) =>
        var result := BtnType(Void);
        if ret.Some? {
          r := Validate(ret.value);
          if r.Err? {
            return;
          }
          result := r.value;
        }
        var ps := ValidateParams(params);
        return if ps.Ok? then Ok(FuncType(ps.value, Some(result))) else Err(ps.error);
      case StructType(fields) =>
        var fs := ValidateFields(fields);
        if fs.Err? {
          return Err(fs.error);
        }
        var dup := FindDuplicate(FieldNames(fields));
        return if dup.Some? then Err(DuplicateField(dup.value)) else Ok(StructType(fs.value));
    }

    method ValidateParams(params: seq<S.ParamType>) returns (r: Result<seq<ParamType>, Error>)
      ensures r.Ok? <==> forall p :: p in params ==> SoundParam(scopes, p)
      ensures r.Ok? ==> r.value == ResolvedParams(scopes, params)
      ensures r.Err? ==> exists p :: p in params && BlamedParam(scopes, p, r.error)
      decreases params, 0
    {
      var done := [];
      var i := 0;
      while i < |params|
        invariant i <= |params| && forall p :: p in params[..i] ==> SoundParam(scopes, p)
        invariant done == ResolvedParams(scopes, params[..i])
      {
        assert params[i] in params && params[i].paramType < params[i];
        var t := Validate(params[i].paramType);
        assert SoundParam(scopes, params[i]) <==> t.Ok?;
        if t.Err? {
          assert BlamedParam(scopes, params[i], t.error);
          return Err(t.error);
        }
        assert params[..i + 1] == params[..i] + [params[i]];
        assert params[..i + 1][..i] == params[..i] && params[..i + 1][i] == params[i];
        done := done + [ParamType(params[i].ref, t.value)];
        i := i + 1;
      }
      assert params[..i] == params;
      return Ok(done);
    }

    method ValidateFields(fields: seq<S.Field>) returns (r: Result<seq<Field>, Error>)
      ensures r.Ok? <==> forall f :: f in fields ==> SoundField(scopes, f)
      ensures r.Ok? ==> r.value == ResolvedFields(scopes, fields)
      ensures r.Err? ==> exists f :: f in fields && BlamedField(scopes, f, r.error)
      decreases fields, 0
    {
      var done := [];
      var i := 0;
      while i < |fields|
        invariant i <= |fields| && forall f :: f in fields[..i] ==> SoundField(scopes, f)
        invariant done == ResolvedFields(scopes, fields[..i])
      {
        assert fields[i] in fields && fields[i].fieldType < fields[i];
        var t := Validate(fields[i].fieldType);
        assert SoundField(scopes, fields[i]) <==> t.Ok?;
        if t.Err? {
          assert BlamedField(scopes, fields[i], t.error);
          return Err(t.error);
        }
        assert fields[..i + 1] == fields[..i] + [fields[i]];
        assert fields[..i + 1][..i] == fields[..i] && fields[..i + 1][i] == fields[i];
        done := done + [Field(fields[i].field, t.value)];
        i := i + 1;
      }
      assert fields[..i] == fields;
      return Ok(done);
    }

    /** The new alias can be named by what follows, but not by its own type. */
    method DeclareAlias(name: string, t: S.Type, strong: bool) returns (r: Result<nat, Error>)
      requires Valid()
      modifies this
      ensures Valid()
      ensures r.Ok? <==> old(Sound(scopes, t) && name !in scopes[|scopes| - 1])
      ensures r.Ok? ==> r.value == |old(aliases)| && aliases == old(aliases) + [Alias(name, Resolved(old(scopes), t), strong)]
      ensures r.Ok? ==> scopes == old(scopes)[|old(scopes)| - 1 := old(scopes[|scopes| - 1])[name := TypeName(r.value)]]
      ensures r.Err? ==> aliases == old(aliases) && scopes == old(scopes)
      ensures r.Err? ==> Blamed(scopes, t, r.error) || r.error == Redefinition(name)
    {
      var valid := Validate(t);
      if valid.Err? {
        return Err(valid.error);
      }
      var innermost := scopes[|scopes| - 1];
      if name in innermost {
        return Err(Redefinition(name));
      }
      ResolvedOk(scopes, aliases, t);
      AliasAdded(aliases, Alias(name, valid.value, strong));
      r := Ok(|aliases|);
      aliases := aliases + [Alias(name, valid.value, strong)];
      scopes := scopes[|scopes| - 1 := innermost[name := TypeName(r.value)]];
    }
  }

  /** A weak alias is the same type as what it was declared to be; a strong one only
      if what it was declared to be is a strong type of the same name. */
  lemma AliasMeans(al: seq<Alias>, def: nat)
    requires AliasesOk(al) && def < |al|
    ensures VisitLeft(al, NamedType(al[def].name, def), al[def].aliased) <==>
      !al[def].strong || (LookupStrong(al, al[def].aliased).NamedType? && LookupStrong(al, al[def].aliased).name == al[def].name)
  {
    var t := al[def].aliased;
    LeftNormal(al, NamedType(al[def].name, def), t);
    LookupsKeepType(al, t);
    LeftNormal(al, t, LookupStrong(al, t));
    if !LookupStrong(al, t).NamedType? {
      NotStrong(al, LookupStrong(al, t));
    }
  }

  /** A run that declares two strong aliases of one name in two scopes: they stand for
      different types, and yet they are the same type. */
  method DeclareTwice(name: string) returns (al: seq<Alias>, i: nat, j: nat)
    ensures AliasesOk(al) && i < j < |al| && al[i].strong && al[j].strong && al[i].name == al[j].name == name
    ensures !VisitLeft(al, al[i].aliased, al[j].aliased)
    ensures VisitLeft(al, NamedType(al[i].name, i), NamedType(al[j].name, j))
  {
    hide AliasesOk, ScopesOk, LookupTypeName, VisitLeft, BUILTINS, BUILTIN_NAMES;
    var analyser := new Analyser();
    BuiltinLookup();
    analyser.EnterScope();
    var first := analyser.DeclareAlias(name, S.NamedType("sint"), true);
    analyser.LeaveScope();
    analyser.EnterScope();
    var second := analyser.DeclareAlias(name, S.NamedType("bool"), true);
    al, i, j := analyser.aliases, first.value, second.value;
    TwoAlike(al, name);
  }

  lemma TwoAlike(al: seq<Alias>, name: string)
    requires AliasesOk(al) && al == BUILTINS + [Alias(name, NamedType("sint", 5), true)] + [Alias(name, NamedType("bool", 1), true)]
    ensures |BUILTINS| == 7 && !VisitLeft(al, NamedType("sint", 5), NamedType("bool", 1))
    ensures VisitLeft(al, NamedType(name, 7), NamedType(name, 8))
  {
    LeftNormal(al, NamedType(name, 7), NamedType(name, 8));
    LeftNormal(al, NamedType("sint", 5), NamedType("bool", 1));
  }

  lemma BuiltinLookup()
    ensures var scopes: Scopes := [BUILTIN_NAMES] + [map[]];
      && Sound(scopes, S.NamedType("sint")) && Resolved(scopes, S.NamedType("sint")) == NamedType("sint", 5)
      && Sound(scopes, S.NamedType("bool")) && Resolved(scopes, S.NamedType("bool")) == NamedType("bool", 1)
  {
    var scopes: Scopes := [BUILTIN_NAMES] + [map[]];
    assert scopes[..|scopes| - 1] == [BUILTIN_NAMES];
    assert LookupTypeName([BUILTIN_NAMES], "sint") == Ok(5) && LookupTypeName([BUILTIN_NAMES], "bool") == Ok(1);
  }
}
