/**
 Tightening an author's schema for strict providers, and mapping their answers back
 (src/worker/schema.ts). Validity follows JSON Schema Validation draft-07, sections 6.1, 6.4 and 6.5.
 */
module Schema {
  import opened Options

  datatype Json = Null | Bool(b: bool) | Num(n: real) | Str(s: string) | Arr(elems: seq<Json>) | Obj(fields: map<string,
    Json>)

  predicate Scalar(v: Json) { !v.Arr? && !v.Obj? }

  datatype TypeName = NullType | BooleanType | NumberType | IntegerType | StringType | ArrayType | ObjectType

  datatype Types = Untyped | One(t: TypeName) | Many(ts: seq<TypeName>)

  datatype Props = NoProps | Props(schemas: map<string, Schema>)

  datatype Union = NoUnion | Union(branches: seq<Schema>)

  datatype Additional = Anything | Forbidden | Conforming(schema: Schema)

  /** A schema by its keywords; `members` is enum and `fixed` is const. */
  datatype Schema = Schema(
    types: Types,
    members: Option<seq<Json>>,
    fixed: Option<Json>,
    properties: Props,
    required: set<string>,
    additional: Additional,
    items: Option<Schema>,
    anyOf: Union)

  const EMPTY: Schema := Schema(Untyped, Nothing, Nothing, NoProps, {}, Anything, Nothing, NoUnion)

  const NULL_SCHEMA: Schema := EMPTY.(types := One(NullType))

  function Properties(s: Schema): map<string, Schema> { if s.properties.Props? then s.properties.schemas else map[] }

  function Items(s: Schema): Schema { if s.items.Just? then s.items.value else EMPTY }

  function Property(s: Schema, k: string): Schema { if k in Properties(s) then Properties(s)[k] else EMPTY }

  /* ----- validity ----- */

  predicate Matches(v: Json, t: TypeName) {
    match t
    case NullType => v.Null?
    case BooleanType => v.Bool?
    case NumberType => v.Num?
    case IntegerType => v.Num? && v.n == v.n.Floor as real
    case StringType => v.Str?
    case ArrayType => v.Arr?
    case ObjectType => v.Obj?
  }

  predicate Typed(v: Json, types: Types) {
    match types
    case Untyped => true
    case One(t) => Matches(v, t)
    case Many(ts) => exists t :: t in ts && Matches(v, t)
  }

  predicate Valid(v: Json, s: Schema)
    decreases s
  {
    && Typed(v, s.types)
    && (s.members.Just? ==> v in s.members.value)
    && (s.fixed.Just? ==> v == s.fixed.value)
    && (v.Arr? && s.items.Just? ==> forall i :: 0 <= i < |v.elems| ==> Valid(v.elems[i], s.items.value))
    && (v.Obj? ==> s.required <= v.fields.Keys)
    && (v.Obj? && s.properties.Props? ==>
         forall k :: k in s.properties.schemas && k in v.fields ==> Valid(v.fields[k], s.properties.schemas[k]))
    && (v.Obj? && !s.additional.Anything? ==>
         forall k :: k in v.fields && k !in Properties(s) ==>
           s.additional.Conforming? && Valid(v.fields[k], s.additional.schema))
    && (s.anyOf.Union? ==> exists i :: 0 <= i < |s.anyOf.branches| && Valid(v, s.anyOf.branches[i]))
  }

  predicate IsWhole(n: real, i: int) { n == i as real }

  /** A number is an integer by its value: 1.0 is one. */
  lemma IntegerIsWhole(n: real)
    ensures Valid(Num(n), EMPTY.(types := One(IntegerType))) <==> exists i: int :: IsWhole(n, i)
  {
    if Valid(Num(n), EMPTY.(types := One(IntegerType))) { assert IsWhole(n, n.Floor); }
  }

  /* ----- the transformations ----- */

  function AddNull(s: Schema): Schema {
    if s.members.Just? && Null !in s.members.value then s.(members := Just(s.members.value + [Null])) else s
  }

  function MakeNullable(s: Schema): Schema {
    match s.types
    case One(t) => if t.NullType? then s else AddNull(s).(types := Many([t, NullType]))
    case Many(ts) => if NullType in ts then AddNull(s) else AddNull(s).(types := Many(ts + [NullType]))
    case Untyped => if s.members.Just? then AddNull(s) else EMPTY.(anyOf := Union([s, NULL_SCHEMA]))
  }

  function Strictify(s: Schema): Schema
    decreases s
  {
    var t := s.(
      items := if s.items.Just? then Just(Strictify(s.items.value)) else Nothing,
      anyOf := if s.anyOf.Union? then
        Union(seq(|s.anyOf.branches|, i requires 0 <= i < |s.anyOf.branches| => Strictify(s.anyOf.branches[i])))
        else NoUnion);
    if s.properties.Props? then
      t.(properties := Props(map k | k in s.properties.schemas ::
                              if k in s.required then Strictify(s.properties.schemas[k])
                                else MakeNullable(Strictify(s.properties.schemas[k]))),
         required := s.properties.schemas.Keys,
         additional := Forbidden)
    else t.(additional := if s.additional.Conforming? then Conforming(Strictify(s.additional.schema)) else s.additional)
  }

  predicate AllowsNull(s: Schema)
    decreases s
  {
    || s.types == One(NullType)
    || (s.types.Many? && NullType in s.types.ts)
    || (s.members.Just? && Null in s.members.value)
    || (s.anyOf.Union? && exists i :: 0 <= i < |s.anyOf.branches| && AllowsNull(s.anyOf.branches[i]))
  }

  /** A null that stands for an absent property. */
  predicate StandsForAbsent(v: Json, s: Schema, k: string) {
    v.Null? && k !in s.required && !(k in Properties(s) && AllowsNull(Properties(s)[k]))
  }

  /** Assigning to it on a plain object makes no member. */
  const PROTO: string := "__proto__"

  /** A member that stripping loses: one that stands for absent, or one it cannot assign. */
  predicate Lost(v: Json, s: Schema, k: string) { k == PROTO || StandsForAbsent(v, s, k) }

  function Strip(v: Json, s: Schema): Json
    decreases v
  {
    match v
    case Arr(elems) => Arr(seq(|elems|, i requires 0 <= i < |elems| => Strip(elems[i], Items(s))))
    case Obj(fields) =>
      Obj(map k | k in fields && !Lost(fields[k], s, k) :: Strip(fields[k], Property(s, k)))
    case _ => v
  }

  /* ----- making a schema nullable ----- */

  /** What a schema must look like for makeNullable to make it accept null. */
  predicate TakesNull(s: Schema) {
    && s.types != One(NullType)
    && ((s.types.Untyped? && s.members.Nothing?)
        || ((s.fixed.Just? ==> s.fixed.value.Null?)
            && (s.anyOf.Union? ==> exists i :: 0 <= i < |s.anyOf.branches| && Valid(Null, s.anyOf.branches[i]))))
  }

  lemma WithNullType(v: Json, ts: seq<TypeName>)
    ensures Typed(v, Many(ts + [NullType])) <==> Typed(v, Many(ts)) || v.Null?
    ensures |ts| == 1 ==> (Typed(v, Many(ts)) <==> Matches(v, ts[0]))
  {
    assert NullType in ts + [NullType];
    forall t | t in ts ensures t in ts + [NullType] {}
    if |ts| == 1 { assert ts == [ts[0]]; }
  }

  lemma NullableTyped(v: Json, s: Schema, ts: seq<TypeName>)
    requires Typed(v, s.types) <==> Typed(v, Many(ts))
    ensures var t := AddNull(s).(types := Many(ts + [NullType]));
            v.Null? || (Valid(v, t) <==> Valid(v, s))
    ensures var t := AddNull(s).(types := Many(ts + [NullType]));
            Valid(Null, t) <==>
              ((s.fixed.Just? ==> s.fixed.value.Null?)
               && (s.anyOf.Union? ==> exists i :: 0 <= i < |s.anyOf.branches| && Valid(Null, s.anyOf.branches[i])))
  {
    WithNullType(v, ts);
    WithNullType(Null, ts);
    hide Matches;
  }

  /** A schema that has a type or an enum is made nullable once; any other is wrapped each time. */
  lemma NullableTwiceExactly(s: Schema)
    ensures MakeNullable(MakeNullable(s)) == MakeNullable(s) <==> !s.types.Untyped? || s.members.Just?
  {
    if s.types.Untyped? && s.members.Nothing? {
      var t := MakeNullable(s);
      assert MakeNullable(t).anyOf.branches[0] == t && t.anyOf.branches[0] == s;
    }
  }

  /** makeNullable adds null and nothing else; and it fails to add null exactly where TakesNull says. */
  lemma NullableExactly(v: Json, s: Schema)
    ensures Valid(v, MakeNullable(s)) <==> Valid(v, s) || (v.Null? && TakesNull(s))
  {
    match s.types
    case One(t) =>
      assert [t, NullType] == [t] + [NullType];
      WithNullType(v, [t]);
      NullableTyped(v, s, [t]);
    case Many(ts) =>
      NullableTyped(v, s, ts);
      if NullType in ts { NullAlready(v, s); }
    case Untyped =>
      if s.members.Nothing? {
        var w := MakeNullable(s);
        assert w.anyOf.branches[0] == s && w.anyOf.branches[1] == NULL_SCHEMA;
      }
  }

  lemma NullAlready(v: Json, s: Schema)
    requires s.types.Many? && NullType in s.types.ts
    ensures Valid(v, AddNull(s)) <==> Valid(v, AddNull(s).(types := Many(s.types.ts + [NullType])))
  {
    WithNullType(v, s.types.ts);
    assert v.Null? ==> Typed(v, s.types);
  }

  /** A typed constant stays a constant: makeNullable appends to its type list, and null is still refused. */
  lemma TypedConstantRefusesNull(t: TypeName, c: Json)
    requires t != NullType && c != Null
    ensures var s := EMPTY.(types := One(t), fixed := Just(c)); !TakesNull(s) && !Valid(Null, MakeNullable(s))
  {}

  /* ----- tightening is sound ----- */

  /** Strictness only concerns objects and arrays. */
  lemma {:induction false} StrictOnScalars(v: Json, s: Schema)
    requires Scalar(v)
    ensures Valid(v, Strictify(s)) <==> Valid(v, s)
    decreases s
  {
    var t := Strictify(s);
    if s.anyOf.Union? {
      forall i | 0 <= i < |s.anyOf.branches| ensures Valid(v, t.anyOf.branches[i]) <==> Valid(v, s.anyOf.branches[i]) {
        StrictOnScalars(v, s.anyOf.branches[i]);
      }
    }
  }

  /** No object or array can be valid: a scalar leaf, or a union of such. */
  predicate ScalarOnly(s: Schema)
    decreases s
  {
    || (s.types.One? && !(s.types.t.ArrayType? || s.types.t.ObjectType?))
    || (s.types.Many? && ArrayType !in s.types.ts && ObjectType !in s.types.ts)
    || (s.members.Just? && forall v :: v in s.members.value ==> Scalar(v))
    || (s.fixed.Just? && Scalar(s.fixed.value))
    || (s.anyOf.Union? && forall i :: 0 <= i < |s.anyOf.branches| ==> ScalarOnly(s.anyOf.branches[i]))
  }

  lemma {:induction false} ScalarOnlyMeans(v: Json, s: Schema)
    requires ScalarOnly(s) && (Valid(v, s) || Valid(v, Strictify(s)))
    ensures Scalar(v)
    decreases s
  {
    if s.anyOf.Union? && forall i :: 0 <= i < |s.anyOf.branches| ==> ScalarOnly(s.anyOf.branches[i]) {
      var t := Strictify(s);
      if Valid(v, s) {
        var i :| 0 <= i < |s.anyOf.branches| && Valid(v, s.anyOf.branches[i]);
        ScalarOnlyMeans(v, s.anyOf.branches[i]);
      } else {
        var i :| 0 <= i < |t.anyOf.branches| && Valid(v, t.anyOf.branches[i]);
        ScalarOnlyMeans(v, s.anyOf.branches[i]);
      }
    }
  }

  /**
   Dropping the null members of objects, at every depth, keeps answers valid: no required property takes null.
   That is what stripping does below additionalProperties, whose schema it does not look at.
   */
  predicate Tolerant(s: Schema)
    decreases s
  {
    || ScalarOnly(s)
    || (&& s.members.Nothing? && s.fixed.Nothing? && s.anyOf.NoUnion?
        && s.required <= Properties(s).Keys && PROTO !in Properties(s)
        && (s.items.Just? ==> Tolerant(s.items.value))
        && (s.properties.NoProps? && s.additional.Conforming? ==> Tolerant(s.additional.schema))
        && (s.properties.Props? ==> forall k :: k in s.properties.schemas ==>
             Tolerant(s.properties.schemas[k]) && (k in s.required ==> !Valid(Null, s.properties.schemas[k]))))
  }

  /**
   Scalar leaves, objects whose required properties are declared, or with additional members of a tolerant
   schema, and arrays of one item schema, nested in any way.
   */
  predicate Supported(s: Schema)
    decreases s
  {
    || ScalarOnly(s)
    || (&& s.members.Nothing? && s.fixed.Nothing? && s.anyOf.NoUnion?
        && s.required <= Properties(s).Keys && PROTO !in Properties(s)
        && (s.items.Just? ==> Supported(s.items.value))
        && (s.properties.NoProps? && s.additional.Conforming? ==> Tolerant(s.additional.schema))
        && (s.properties.Props? ==> forall k :: k in s.properties.schemas ==> Supported(s.properties.schemas[k])))
  }

  /** allowsNull() promises no null that an optional property's schema refuses. */
  predicate Honest(s: Schema)
    decreases s
  {
    && (s.items.Just? ==> Honest(s.items.value))
    && (s.properties.Props? ==> forall k :: k in s.properties.schemas ==>
         Honest(s.properties.schemas[k]) &&
           (k !in s.required && AllowsNull(s.properties.schemas[k]) ==> Valid(Null, s.properties.schemas[k])))
  }

  /** allowsNull() overlooks no null that an optional property's schema accepts. */
  predicate Seeing(s: Schema)
    decreases s
  {
    && (s.items.Just? ==> Seeing(s.items.value))
    && (s.properties.Props? ==> forall k :: k in s.properties.schemas ==>
         Seeing(s.properties.schemas[k]) &&
           (k !in s.required && Valid(Null, s.properties.schemas[k]) ==> AllowsNull(s.properties.schemas[k])))
  }

  lemma EverythingIsValid(v: Json)
    ensures Valid(v, EMPTY) && Supported(EMPTY) && Honest(EMPTY) && Seeing(EMPTY)
  {}

  /** A tolerant schema's strict answers stay valid when every null member is dropped. */
  lemma {:induction false} TolerantIsSound(v: Json, s: Schema)
    requires Tolerant(s) && Valid(v, Strictify(s))
    ensures Valid(Strip(v, EMPTY), s)
    decreases v
  {
    if Scalar(v) {
      StrictOnScalars(v, s);
    } else if ScalarOnly(s) {
      ScalarOnlyMeans(v, s);
    } else if v.Arr? {
      forall i | 0 <= i < |v.elems| && s.items.Just? ensures Valid(Strip(v.elems[i], EMPTY), Items(s)) {
        TolerantIsSound(v.elems[i], Items(s));
      }
    } else {
      var w := Strip(v, EMPTY);
      forall k | k in s.required ensures k in w.fields { RequiredStays(v, s, k); }
      forall k | k in w.fields && k in Properties(s) ensures Valid(w.fields[k], Properties(s)[k]) {
        if k !in s.required { NullableExactly(v.fields[k], Strictify(Properties(s)[k])); }
        TolerantIsSound(v.fields[k], Properties(s)[k]);
      }
      forall k | k in w.fields && k !in Properties(s) && s.additional.Conforming?
        ensures Valid(w.fields[k], s.additional.schema) {
        TolerantIsSound(v.fields[k], s.additional.schema);
      }
    }
  }

  lemma RequiredStays(v: Json, s: Schema, k: string)
    requires v.Obj? && k in s.required && Tolerant(s) && !ScalarOnly(s) && Valid(v, Strictify(s))
    ensures k in Strip(v, EMPTY).fields
  {
    assert k in Strictify(s).required;
    StrictOnScalars(Null, Properties(s)[k]);
  }

  /** Whatever answer satisfies the tightened schema, stripping it satisfies the author's. */
  lemma {:induction false} TighteningIsSound(v: Json, s: Schema)
    requires Supported(s) && Honest(s) && Valid(v, Strictify(s))
    ensures Valid(Strip(v, s), s)
    decreases v
  {
    if Scalar(v) {
      StrictOnScalars(v, s);
    } else if ScalarOnly(s) {
      ScalarOnlyMeans(v, s);
    } else if v.Arr? {
      forall i | 0 <= i < |v.elems| && s.items.Just? ensures Valid(Strip(v.elems[i], Items(s)), Items(s)) {
        TighteningIsSound(v.elems[i], Items(s));
      }
    } else {
      var w := Strip(v, s);
      forall k | k in w.fields && k in Properties(s) ensures Valid(w.fields[k], Properties(s)[k]) {
        PropertyIsSound(v, s, k);
      }
      forall k | k in w.fields && k !in Properties(s) && s.additional.Conforming?
        ensures Valid(w.fields[k], s.additional.schema) {
        TolerantIsSound(v.fields[k], s.additional.schema);
      }
    }
  }

  lemma {:induction false} PropertyIsSound(v: Json, s: Schema, k: string)
    requires v.Obj? && s.properties.Props? && k in v.fields && k in s.properties.schemas &&
               !Lost(v.fields[k], s, k)
    requires Supported(s) && Honest(s) && !ScalarOnly(s) && Valid(v, Strictify(s))
    ensures Valid(Strip(v.fields[k], s.properties.schemas[k]), s.properties.schemas[k])
    decreases v, 0
  {
    var p, u := s.properties.schemas[k], v.fields[k];
    if k !in s.required {
      assert Valid(u, MakeNullable(Strictify(p)));
      NullableExactly(u, Strictify(p));
    }
    if !(u.Null? && k !in s.required) {
      TighteningIsSound(u, p);
    }
  }

  /* ----- tightening loses no answers ----- */

  /** Each optional property's schema can be made to accept null. */
  predicate Fillable(s: Schema)
    decreases s
  {
    && (s.items.Just? ==> Fillable(s.items.value))
    && (s.properties.Props? ==> forall k :: k in s.properties.schemas ==>
         Fillable(s.properties.schemas[k]) &&
           (k !in s.required ==> Valid(Null, s.properties.schemas[k]) || TakesNull(s.properties.schemas[k])))
  }

  /** Only declared properties, at every depth. */
  predicate Declared(v: Json, s: Schema)
    decreases v
  {
    match v
    case Arr(elems) => forall i :: 0 <= i < |elems| ==> Declared(elems[i], Items(s))
    case Obj(fields) => fields.Keys <= Properties(s).Keys && forall k :: k in fields ==>
      Declared(fields[k], Property(s, k))
    case _ => true
  }

  /** The answer with an explicit null for every absent declared property. */
  function Fill(v: Json, s: Schema): Json
    decreases v
  {
    match v
    case Arr(elems) => Arr(seq(|elems|, i requires 0 <= i < |elems| => Fill(elems[i], Items(s))))
    case Obj(fields) => Obj(map k | k in fields.Keys + Properties(s).Keys ::
      if k in fields then Fill(fields[k], Property(s, k)) else Null)
    case _ => v
  }

  /** The answer with an explicit null for every absent optional property the author made nullable. */
  function Normal(v: Json, s: Schema): Json
    decreases v
  {
    match v
    case Arr(elems) => Arr(seq(|elems|, i requires 0 <= i < |elems| => Normal(elems[i], Items(s))))
    case Obj(fields) =>
      Obj(map k | k in fields.Keys + Properties(s).Keys && (k in fields || !StandsForAbsent(Null, s, k)) ::
            if k in fields then Normal(fields[k], Property(s, k)) else Null)
    case _ => v
  }

  lemma TakesNullStrictly(s: Schema)
    ensures TakesNull(Strictify(s)) <==> TakesNull(s)
  {
    if s.anyOf.Union? {
      forall i | 0 <= i < |s.anyOf.branches|
        ensures Valid(Null, Strictify(s).anyOf.branches[i]) <==> Valid(Null, s.anyOf.branches[i]) {
        StrictOnScalars(Null, s.anyOf.branches[i]);
      }
    }
  }

  /** Every answer the author accepts has a form the strict schema accepts. */
  lemma {:induction false} FilledIsStrictlyValid(v: Json, s: Schema)
    requires Supported(s) && Fillable(s) && Valid(v, s) && Declared(v, s)
    ensures Valid(Fill(v, s), Strictify(s))
    decreases v
  {
    if Scalar(v) {
      StrictOnScalars(v, s);
    } else if ScalarOnly(s) {
      ScalarOnlyMeans(v, s);
    } else if v.Arr? {
      forall i | 0 <= i < |v.elems| && s.items.Just? ensures Valid(Fill(v.elems[i], Items(s)), Strictify(Items(s))) {
        FilledIsStrictlyValid(v.elems[i], Items(s));
      }
    } else if s.properties.Props? {
      var w, t := Fill(v, s), Strictify(s);
      forall k | k in t.properties.schemas ensures Valid(w.fields[k], t.properties.schemas[k]) {
        FilledProperty(v, s, k);
      }
    }
  }

  lemma {:induction false} FilledProperty(v: Json, s: Schema, k: string)
    requires v.Obj? && s.properties.Props? && k in s.properties.schemas && !ScalarOnly(s)
    requires Supported(s) && Fillable(s) && Valid(v, s) && Declared(v, s)
    ensures Valid(Fill(v, s).fields[k], Strictify(s).properties.schemas[k])
    decreases v, 0
  {
    var p := s.properties.schemas[k];
    var u := Fill(v, s).fields[k];
    if k in v.fields { FilledIsStrictlyValid(v.fields[k], p); }
    if k !in s.required {
      NullableExactly(u, Strictify(p));
      TakesNullStrictly(p);
      StrictOnScalars(Null, p);
    }
  }

  /** Stripping gives the answer back, up to explicit nulls the author allows. */
  lemma {:induction false} StripUndoesFill(v: Json, s: Schema)
    requires Supported(s) && Seeing(s) && Valid(v, s) && Declared(v, s)
    ensures Strip(Fill(v, s), s) == Normal(v, s)
    decreases v
  {
    hide ScalarOnly, AllowsNull;
    if v.Arr? {
      if ScalarOnly(s) { ScalarOnlyMeans(v, s); }
      forall i | 0 <= i < |v.elems|
        ensures Strip(Fill(v.elems[i], Items(s)), Items(s)) == Normal(v.elems[i], Items(s)) {
        EverythingIsValid(v.elems[i]);
        StripUndoesFill(v.elems[i], Items(s));
      }
    } else if v.Obj? {
      forall k | k in v.fields
        ensures !Lost(Fill(v, s).fields[k], s, k)
        ensures Strip(Fill(v.fields[k], Property(s, k)), Property(s, k)) == Normal(v.fields[k], Property(s, k))
      {
        StripUndoesFillAt(v, s, k);
      }
      if ScalarOnly(s) { ScalarOnlyMeans(v, s); }
      FieldsComeBack(v, s);
    }
  }

  lemma FieldsComeBack(v: Json, s: Schema)
    requires v.Obj? && v.fields.Keys <= Properties(s).Keys && PROTO !in Properties(s)
    requires forall k :: k in v.fields ==>
               !Lost(Fill(v, s).fields[k], s, k)
               && Strip(Fill(v.fields[k], Property(s, k)), Property(s, k)) == Normal(v.fields[k], Property(s, k))
    ensures Strip(Fill(v, s), s) == Normal(v, s)
  {
    hide AllowsNull;
    assert Strip(Fill(v, s), s).fields == Normal(v, s).fields;
  }

  lemma {:induction false} StripUndoesFillAt(v: Json, s: Schema, k: string)
    requires v.Obj? && k in v.fields && Supported(s) && Seeing(s) && Valid(v, s) && Declared(v, s)
    ensures !Lost(Fill(v, s).fields[k], s, k)
    ensures Strip(Fill(v.fields[k], Property(s, k)), Property(s, k)) == Normal(v.fields[k], Property(s, k))
    decreases v, 0
  {
    if ScalarOnly(s) { ScalarOnlyMeans(v, s); }
    hide ScalarOnly, Normal, Strip;
    StripUndoesFill(v.fields[k], Property(s, k));
  }

  /** `w` is `v`, but for explicit nulls for absent optional properties whose schemas allow null, at every depth. */
  predicate UpToNulls(v: Json, w: Json, s: Schema)
    decreases v
  {
    match v
    case Arr(elems) => w.Arr? && |w.elems| == |elems| && forall i :: 0 <= i < |elems| ==>
      UpToNulls(elems[i], w.elems[i], Items(s))
    case Obj(fields) =>
      && w.Obj? && fields.Keys <= w.fields.Keys
      && (forall k :: k in fields ==> UpToNulls(fields[k], w.fields[k], Property(s, k)))
      && (forall k :: k in w.fields && k !in fields ==>
        w.fields[k].Null? && k in Properties(s) && k !in s.required && AllowsNull(Properties(s)[k]))
    case _ => w == v
  }

  /** What comes back is the answer up to such nulls. */
  lemma {:induction false} NormalAddsOnlyNulls(v: Json, s: Schema)
    requires Supported(s) && Valid(v, s) && Declared(v, s)
    ensures UpToNulls(v, Normal(v, s), s)
    decreases v
  {
    if !Scalar(v) && ScalarOnly(s) { ScalarOnlyMeans(v, s); }
    hide ScalarOnly;
    if v.Arr? {
      forall i | 0 <= i < |v.elems| ensures UpToNulls(v.elems[i], Normal(v, s).elems[i], Items(s)) {
        EverythingIsValid(v.elems[i]);
        NormalAddsOnlyNulls(v.elems[i], Items(s));
      }
    } else if v.Obj? {
      forall k | k in v.fields ensures UpToNulls(v.fields[k], Normal(v, s).fields[k], Property(s, k)) {
        NormalAddsOnlyNulls(v.fields[k], Property(s, k));
      }
    }
  }

  /** And such nulls do no harm: with an honest allowsNull(), the author's schema still accepts the answer. */
  lemma {:induction false} UpToNullsIsValid(v: Json, w: Json, s: Schema)
    requires Supported(s) && Honest(s) && Valid(v, s) && Declared(v, s) && UpToNulls(v, w, s)
    ensures Valid(w, s)
    decreases v
  {
    if !Scalar(v) && ScalarOnly(s) { ScalarOnlyMeans(v, s); }
    hide ScalarOnly, AllowsNull;
    if v.Arr? {
      forall i | 0 <= i < |v.elems| && s.items.Just? ensures Valid(w.elems[i], Items(s)) {
        UpToNullsIsValid(v.elems[i], w.elems[i], Items(s));
      }
    } else if v.Obj? {
      forall k | k in w.fields && k in Properties(s) ensures Valid(w.fields[k], Properties(s)[k]) {
        if k in v.fields { UpToNullsIsValid(v.fields[k], w.fields[k], Properties(s)[k]); }
      }
    }
  }

  /** No member anywhere is one that stripping loses. */
  predicate NothingLost(v: Json, s: Schema)
    decreases v
  {
    match v
    case Arr(elems) => forall i :: 0 <= i < |elems| ==> NothingLost(elems[i], Items(s))
    case Obj(fields) => forall k :: k in fields ==> !Lost(fields[k], s, k) && NothingLost(fields[k], Property(s, k))
    case _ => true
  }

  /** Any value passes through stripping unchanged, whatever the schema, exactly when it has no such member. */
  lemma {:induction false} StripIsHarmlessExactly(v: Json, s: Schema)
    ensures Strip(v, s) == v <==> NothingLost(v, s)
    decreases v
  {
    hide AllowsNull;
    if v.Arr? {
      forall i | 0 <= i < |v.elems|
        ensures Strip(v.elems[i], Items(s)) == v.elems[i] <==> NothingLost(v.elems[i], Items(s)) {
        StripIsHarmlessExactly(v.elems[i], Items(s));
      }
      assert Strip(v, s) == v <==> forall i :: 0 <= i < |v.elems| ==> Strip(v.elems[i], Items(s)) == v.elems[i];
    } else if v.Obj? {
      forall k | k in v.fields
        ensures Strip(v.fields[k], Property(s, k)) == v.fields[k] <==> NothingLost(v.fields[k], Property(s, k)) {
        StripIsHarmlessExactly(v.fields[k], Property(s, k));
      }
      StripKeeps(v, s);
    }
  }

  lemma StripKeeps(v: Json, s: Schema)
    requires v.Obj?
    ensures Strip(v, s) == v <==>
              forall k :: k in v.fields ==>
                !Lost(v.fields[k], s, k) && Strip(v.fields[k], Property(s, k)) == v.fields[k]
  {
    hide Lost;
    var w := Strip(v, s);
    if forall k :: k in v.fields ==>
      !Lost(v.fields[k], s, k) && Strip(v.fields[k], Property(s, k)) == v.fields[k] {
      assert w.fields == v.fields;
    }
    if w == v {
      forall k | k in v.fields
        ensures !Lost(v.fields[k], s, k) && Strip(v.fields[k], Property(s, k)) == v.fields[k] {
        assert k in w.fields;
      }
    }
  }

  /** No object has a null member its schema does not declare, or one named `__proto__`, at any depth. */
  predicate NoStray(v: Json, s: Schema)
    decreases v
  {
    match v
    case Arr(elems) => forall i :: 0 <= i < |elems| ==> NoStray(elems[i], Items(s))
    case Obj(fields) => forall k :: k in fields ==>
      k != PROTO && (fields[k].Null? ==> k in Properties(s)) && NoStray(fields[k], Property(s, k))
    case _ => true
  }

  /** For an answer the author accepts, when allowsNull() overlooks no null, that is all that can be lost. */
  lemma {:induction false} LostIsStray(v: Json, s: Schema)
    requires Supported(s) && Seeing(s) && Valid(v, s)
    ensures NothingLost(v, s) <==> NoStray(v, s)
    decreases v
  {
    if !Scalar(v) && ScalarOnly(s) { ScalarOnlyMeans(v, s); }
    hide ScalarOnly, AllowsNull;
    if v.Arr? {
      forall i | 0 <= i < |v.elems| ensures NothingLost(v.elems[i], Items(s)) <==> NoStray(v.elems[i], Items(s)) {
        EverythingIsValid(v.elems[i]);
        LostIsStray(v.elems[i], Items(s));
      }
    } else if v.Obj? {
      forall k | k in v.fields
        ensures NothingLost(v.fields[k], Property(s, k)) <==> NoStray(v.fields[k], Property(s, k))
        ensures Lost(v.fields[k], s, k) <==> k == PROTO || (v.fields[k].Null? && k !in Properties(s))
      {
        EverythingIsValid(v.fields[k]);
        LostIsStray(v.fields[k], Property(s, k));
      }
    }
  }

  lemma {:induction false} DeclaredHasNoStray(v: Json, s: Schema)
    requires Supported(s) && Valid(v, s) && Declared(v, s)
    ensures NoStray(v, s)
    decreases v
  {
    if !Scalar(v) && ScalarOnly(s) { ScalarOnlyMeans(v, s); }
    hide ScalarOnly;
    if v.Arr? {
      forall i | 0 <= i < |v.elems| ensures NoStray(v.elems[i], Items(s)) {
        EverythingIsValid(v.elems[i]);
        DeclaredHasNoStray(v.elems[i], Items(s));
      }
    } else if v.Obj? {
      forall k | k in v.fields ensures NoStray(v.fields[k], Property(s, k)) {
        DeclaredHasNoStray(v.fields[k], Property(s, k));
      }
    }
  }

  /** So a valid answer with declared properties only passes through unchanged, when allowsNull() overlooks no null. */
  lemma StripIsHarmless(v: Json, s: Schema)
    requires Supported(s) && Seeing(s) && Valid(v, s) && Declared(v, s)
    ensures Strip(v, s) == v
  {
    DeclaredHasNoStray(v, s);
    LostIsStray(v, s);
    StripIsHarmlessExactly(v, s);
  }

  /* ----- schemas that say plainly whether they take null ----- */

  predicate NamesNull(types: Types) { types == One(NullType) || (types.Many? && NullType in types.ts) }

  /** A type, an enum, or both where they agree about null; or a union of such. No constants. */
  predicate Plain(s: Schema)
    decreases s
  {
    && s.fixed.Nothing?
    && if s.anyOf.Union? then
         s.types.Untyped? && s.members.Nothing?
         && forall i :: 0 <= i < |s.anyOf.branches| ==> Plain(s.anyOf.branches[i])
       else if s.types.Untyped? then s.members.Just?
       else s.members.Just? ==> (Null in s.members.value <==> NamesNull(s.types))
  }

  /** On these, what allowsNull() says is so. */
  lemma {:induction false} PlainIsSeen(s: Schema)
    requires Plain(s)
    ensures AllowsNull(s) <==> Valid(Null, s)
    decreases s
  {
    if s.anyOf.Union? {
      forall i | 0 <= i < |s.anyOf.branches|
        ensures AllowsNull(s.anyOf.branches[i]) <==> Valid(Null, s.anyOf.branches[i]) {
        PlainIsSeen(s.anyOf.branches[i]);
      }
    } else if s.types.Many? && NullType in s.types.ts {
      assert Matches(Null, NullType);
    }
  }

  /** A null at an optional property of such a schema survives stripping, as null, exactly when the schema takes it. */
  lemma PlainNullSurvivesExactly(v: Json, s: Schema, k: string)
    requires v.Obj? && k in v.fields && v.fields[k].Null? && k in Properties(s) && k !in s.required && k != PROTO
    requires Plain(Properties(s)[k])
    ensures var w := Strip(v, s);
            w.Obj? && (k in w.fields <==> Valid(Null, Properties(s)[k])) && (k in w.fields ==> w.fields[k].Null?)
  {
    PlainIsSeen(Properties(s)[k]);
    hide Valid, AllowsNull, Plain;
  }

  /** Every optional property, at every depth, is of such a schema. */
  predicate PlainOptionals(s: Schema)
    decreases s
  {
    && (s.items.Just? ==> PlainOptionals(s.items.value))
    && (s.properties.Props? ==> forall k :: k in s.properties.schemas ==>
         PlainOptionals(s.properties.schemas[k]) && (k in s.required || Plain(s.properties.schemas[k])))
  }

  /** Then allowsNull() neither overpromises nor overlooks. */
  lemma {:induction false} PlainIsHonestAndSeeing(s: Schema)
    requires PlainOptionals(s)
    ensures Honest(s) && Seeing(s)
    decreases s
  {
    hide Plain, AllowsNull, Valid;
    if s.items.Just? { PlainIsHonestAndSeeing(s.items.value); }
    if s.properties.Props? {
      forall k | k in s.properties.schemas
        ensures Honest(s.properties.schemas[k]) && Seeing(s.properties.schemas[k])
        ensures k !in s.required ==> (AllowsNull(s.properties.schemas[k]) <==> Valid(Null, s.properties.schemas[k])) {
        PlainIsHonestAndSeeing(s.properties.schemas[k]);
        if k !in s.required { PlainIsSeen(s.properties.schemas[k]); }
      }
    }
  }

  /* ----- once is enough ----- */

  /**
   What strict providers demand: every object that lists properties requires them all and allows no others, at
   every depth.
   */
  predicate Strict(s: Schema)
    decreases s
  {
    && (s.properties.Props? ==> s.required == s.properties.schemas.Keys && s.additional.Forbidden?)
    && (s.properties.Props? ==> forall k :: k in s.properties.schemas ==> Strict(s.properties.schemas[k]))
    && (s.additional.Conforming? ==> Strict(s.additional.schema))
    && (s.items.Just? ==> Strict(s.items.value))
    && (s.anyOf.Union? ==> forall i :: 0 <= i < |s.anyOf.branches| ==> Strict(s.anyOf.branches[i]))
  }

  lemma NullableIsStrict(s: Schema)
    requires Strict(s)
    ensures Strict(MakeNullable(s))
  {}

  /** Tightening meets the demand. */
  lemma {:induction false} StrictifyIsStrict(s: Schema)
    ensures Strict(Strictify(s))
    decreases s
  {
    hide MakeNullable;
    var t := Strictify(s);
    if s.items.Just? { StrictifyIsStrict(s.items.value); }
    if s.additional.Conforming? { StrictifyIsStrict(s.additional.schema); }
    if s.anyOf.Union? {
      forall i | 0 <= i < |s.anyOf.branches| ensures Strict(t.anyOf.branches[i]) {
        StrictifyIsStrict(s.anyOf.branches[i]);
      }
    }
    if s.properties.Props? {
      forall k | k in s.properties.schemas ensures Strict(t.properties.schemas[k]) {
        StrictifyIsStrict(s.properties.schemas[k]);
        NullableIsStrict(Strictify(s.properties.schemas[k]));
      }
    }
  }

  /** It leaves alone exactly the schemas that meet it already. */
  lemma {:induction false} StrictExactly(s: Schema)
    ensures Strictify(s) == s <==> Strict(s)
    decreases s
  {
    StrictifyIsStrict(s);
    if Strict(s) { StrictIsFixed(s); }
  }

  lemma {:induction false} StrictIsFixed(s: Schema)
    requires Strict(s)
    ensures Strictify(s) == s
    decreases s
  {
    hide MakeNullable;
    var t := Strictify(s);
    if s.items.Just? { StrictIsFixed(s.items.value); }
    if s.additional.Conforming? { StrictIsFixed(s.additional.schema); }
    if s.anyOf.Union? {
      forall i | 0 <= i < |s.anyOf.branches| ensures t.anyOf.branches[i] == s.anyOf.branches[i] {
        StrictIsFixed(s.anyOf.branches[i]);
      }
      assert t.anyOf.branches == s.anyOf.branches;
    }
    if s.properties.Props? {
      forall k | k in s.properties.schemas ensures t.properties.schemas[k] == s.properties.schemas[k] {
        StrictIsFixed(s.properties.schemas[k]);
      }
      assert t.properties.schemas == s.properties.schemas;
    }
  }

  lemma StrictifyIsIdempotent(s: Schema)
    ensures Strictify(Strictify(s)) == Strictify(s)
  {
    StrictifyIsStrict(s);
    StrictIsFixed(Strictify(s));
  }

  lemma {:induction false} StripIsIdempotent(v: Json, s: Schema)
    ensures Strip(Strip(v, s), s) == Strip(v, s)
    ensures Strip(v, s).Null? <==> v.Null?
    decreases v
  {
    var w := Strip(v, s);
    if v.Arr? {
      forall i | 0 <= i < |v.elems| ensures Strip(w.elems[i], Items(s)) == w.elems[i] {
        StripIsIdempotent(v.elems[i], Items(s));
      }
    } else if v.Obj? {
      forall k | k in w.fields
        ensures Strip(w.fields[k], Property(s, k)) == w.fields[k] && (w.fields[k].Null? <==> v.fields[k].Null?)
      {
        StripIsIdempotent(v.fields[k], Property(s, k));
      }
      assert Strip(w, s).fields == w.fields;
    }
  }

  /* ----- where the laws stop ----- */

  /** An object with one optional property. */
  function Single(k: string, p: Schema): Schema {
    EMPTY.(types := One(ObjectType), properties := Props(map[k := p]))
  }

  lemma SingleIsValid(k: string, u: Json, p: Schema)
    ensures Valid(Obj(map[k := u]), Single(k, p)) <==> Valid(u, p)
    ensures Valid(Obj(map[k := u]), Strictify(Single(k, p))) <==> Valid(u, MakeNullable(Strictify(p)))
  {
    hide MakeNullable;
    var v, s := Obj(map[k := u]), Single(k, p);
    assert k in v.fields && v.fields[k] == u && k in s.properties.schemas;
    assert Strictify(s).properties.schemas == map[k := MakeNullable(Strictify(p))];
  }

  /**
   Of one optional property, a null answer survives stripping validly exactly when allowsNull() does not
   overpromise.
   */
  lemma OptionalNullIsSoundExactly(k: string, p: Schema)
    ensures Valid(Strip(Obj(map[k := Null]), Single(k, p)), Single(k, p)) <==>
              k == PROTO || (AllowsNull(p) ==> Valid(Null, p))
  {
    SingleIsValid(k, Null, p);
    SingleStrips(k, p);
    hide Valid, AllowsNull, Strip, Single;
  }

  lemma SingleStrips(k: string, p: Schema)
    ensures Strip(Obj(map[k := Null]), Single(k, p)) ==
              Obj(if k != PROTO && AllowsNull(p) then map[k := Null] else map[])
    ensures Valid(Obj(map[]), Single(k, p))
  {
    var s, v := Single(k, p), Obj(map[k := Null]);
    if k != PROTO && AllowsNull(p) {
      assert Strip(v, s).fields == map[k := Null];
    } else {
      assert Strip(v, s).fields == map[];
    }
  }

  /**
   `{"type": ["string", "null"], "enum": ["a"]}`: tightening widens the enum, and stripping keeps a null the
   author's schema refuses.
   */
  lemma OverpromisedNull()
    ensures var p := EMPTY.(types := Many([StringType, NullType]), members := Just([Str("a")]));
            var s, v := Single("k", p), Obj(map["k" := Null]);
            Valid(v, Strictify(s)) && !Valid(Strip(v, s), s)
  {
    var p := EMPTY.(types := Many([StringType, NullType]), members := Just([Str("a")]));
    var s, v := Single("k", p), Obj(map["k" := Null]);
    assert p.types.ts[1] == NullType;
    assert AllowsNull(p) && !Valid(Null, p);
    assert |"k"| != |PROTO|;
    OptionalNullIsSoundExactly("k", p);
    SingleIsValid("k", Null, p);
    assert MakeNullable(Strictify(p)).members.value == [Str("a"), Null];
    assert [Str("a"), Null][1] == Null && Strictify(p).types == p.types;
    assert Valid(Null, MakeNullable(Strictify(p)));
    hide Valid, MakeNullable, Strictify, AllowsNull, Strip;
  }

  /**
   An absent optional can be filled with null exactly when the property's schema already takes null or can be
   given it.
   */
  lemma OptionalIsFillableExactly(k: string, p: Schema)
    ensures Valid(Fill(Obj(map[]), Single(k, p)), Strictify(Single(k, p))) <==> Valid(Null, p) || TakesNull(p)
  {
    var s := Single(k, p);
    assert Fill(Obj(map[]), s).fields == map[k := Null];
    SingleIsValid(k, Null, p);
    NullableExactly(Null, Strictify(p));
    TakesNullStrictly(p);
    StrictOnScalars(Null, p);
    hide Valid, TakesNull, MakeNullable, Strictify;
  }

  /** `{"properties": {k: {}}}` accepts a null that allowsNull() overlooks, and stripping drops it. */
  lemma OverlookedNullIsDropped(k: string)
    ensures var s, v := Single(k, EMPTY), Obj(map[k := Null]);
            && Valid(v, s) && Declared(v, s) && Strip(v, s) == Obj(map[])
            && (k != PROTO ==> Supported(s) && Honest(s) && NoStray(v, s))
  {
    SingleIsValid(k, Null, EMPTY);
    SingleStrips(k, EMPTY);
  }

  /** A free-form object answers with a member named `__proto__`, and stripping loses it. */
  lemma ProtoIsLost(u: Json)
    ensures var s, v := EMPTY.(types := One(ObjectType)), Obj(map[PROTO := u]);
            Valid(v, s) && Valid(v, Strictify(s)) && Strip(v, s) == Obj(map[])
  {
    var s, v := EMPTY.(types := One(ObjectType)), Obj(map[PROTO := u]);
    assert Strip(v, s).fields == map[];
  }

  /** A free-form object answers with nulls, and stripping drops them. */
  lemma FreeFormNullsAreDropped(k: string)
    ensures var s, v := EMPTY.(types := One(ObjectType)), Obj(map[k := Null]);
            Valid(v, s) && Valid(v, Strictify(s)) && Strip(v, s) == Obj(map[])
  {
    var s, v := EMPTY.(types := One(ObjectType)), Obj(map[k := Null]);
    assert Strip(v, s).fields == map[];
  }

  /**
   Under `additionalProperties: {required: [k], ...}` the dropped null was needed: the stripped answer is no
   longer valid.
   */
  lemma AdditionalNullsAreNeeded(outer: string, k: string)
    requires outer != PROTO
    ensures var inner := EMPTY.(types := One(ObjectType), required := {k});
            var s, v := EMPTY.(types := One(ObjectType), additional := Conforming(inner)),
              Obj(map[outer := Obj(map[k := Null])]);
            Valid(v, Strictify(s)) && !Valid(Strip(v, s), s)
  {
    var inner := EMPTY.(types := One(ObjectType), required := {k});
    var s, v := EMPTY.(types := One(ObjectType), additional := Conforming(inner)),
      Obj(map[outer := Obj(map[k := Null])]);
    var w := Strip(v, s);
    assert outer in w.fields && w.fields[outer] == Strip(Obj(map[k := Null]), EMPTY);
    assert Strip(Obj(map[k := Null]), EMPTY).fields == map[];
  }

  /** `{"additionalProperties": {"properties": {k: p}, "required": [k]}}`, and an answer with a null there. */
  function Outer(k: string, p: Schema): Schema {
    EMPTY.(types := One(ObjectType), additional := Conforming(Single(k, p).(required := {k})))
  }

  /**
   There, stripping a null answer is sound exactly when the required property does not take null: the tolerance
   asked of additional members.
   */
  lemma RequiredNullIsSoundExactly(outer: string, k: string, p: Schema)
    ensures var s, v := Outer(k, p), Obj(map[outer := Obj(map[k := Null])]);
            (Valid(v, Strictify(s)) ==> Valid(Strip(v, s), s)) <==> outer == PROTO || !Valid(Null, p)
  {
    OuterIsValid(outer, k, p);
    OuterStrips(outer, k, p);
    hide Valid, Strip, Strictify, Outer;
  }

  lemma OuterIsValid(outer: string, k: string, p: Schema)
    ensures Valid(Obj(map[outer := Obj(map[k := Null])]), Strictify(Outer(k, p))) <==> Valid(Null, p)
  {
    hide MakeNullable, AddNull;
    var inner, u := Strictify(Single(k, p).(required := {k})), Obj(map[k := Null]);
    StrictOnScalars(Null, p);
    assert inner.properties.schemas == map[k := Strictify(p)];
    assert k in u.fields && k in inner.properties.schemas;
    assert outer in Obj(map[outer := u]).fields;
  }

  lemma OuterStrips(outer: string, k: string, p: Schema)
    ensures var s, v := Outer(k, p), Obj(map[outer := Obj(map[k := Null])]);
            Valid(Strip(v, s), s) <==> outer == PROTO
  {
    var s, u := Outer(k, p), Obj(map[k := Null]);
    var w := Strip(Obj(map[outer := u]), s);
    if outer == PROTO {
      assert w.fields == map[];
    } else {
      assert outer in w.fields && w.fields[outer] == Strip(u, EMPTY);
      assert Strip(u, EMPTY).fields == map[];
    }
  }
}
