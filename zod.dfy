/**
 * The zod schema combinators the route declarations use, and what it
 * means for a JSON value to pass them. An object schema lists its keys;
 * keys it does not declare are allowed (zod strips them); a key may be
 * missing only when its schema is optional or has a default.
 */
module Zod {
  import opened Wrappers
  import opened Json

  datatype Schema =
    | ZString
    | ZNumber
    | ZBoolean
    | ZNull
    | ZArray(element: Schema)
    | ZObject(shape: seq<Field>)
    | ZOptional(inner: Schema)
    | ZDefault(inner: Schema, default: Json)

  datatype Field = Field(name: string, schema: Schema)

  /** `.optional()` and `.default(v)` let the key be absent. */
  predicate MayBeAbsent(s: Schema) {
    s.ZOptional? || s.ZDefault?
  }

  /** The value passes the schema. */
  predicate Conforms(v: Json, s: Schema)
    decreases s
  {
    match s
    case ZString => v.JString?
    case ZNumber => v.JNumber?
    case ZBoolean => v.JBool?
    case ZNull => v.JNull?
    case ZArray(e) => v.JArray? && forall i :: 0 <= i < |v.items| ==> Conforms(v.items[i], e)
    case ZObject(shape) => v.JObject? && FieldsConform(v.members, s, 0)
    case ZOptional(inner) => Conforms(v, inner)
    case ZDefault(inner, _) => Conforms(v, inner)
  }

  /** The declared keys of object schema `s` from the `k`-th on hold in `members`. */
  predicate FieldsConform(members: seq<(string, Json)>, s: Schema, k: nat)
    requires s.ZObject? && k <= |s.shape|
    decreases s, |s.shape| - k
  {
    k == |s.shape| || (FieldConforms(members, s.shape[k], s) && FieldsConform(members, s, k + 1))
  }

  /** One declared key of an object schema `s` holds in `members`. */
  predicate FieldConforms(members: seq<(string, Json)>, f: Field, s: Schema)
    requires s.ZObject? && f in s.shape
    decreases s, 0
  {
    match Lookup(members, f.name)
    case None => MayBeAbsent(f.schema)
    case Some(x) => Conforms(x, f.schema)
  }

  /** Every default a schema carries passes the schema it stands in for. */
  predicate DefaultsConform(s: Schema)
    decreases s
  {
    match s
    case ZArray(e) => DefaultsConform(e)
    case ZObject(shape) => forall i :: 0 <= i < |shape| ==> DefaultsConform(shape[i].schema)
    case ZOptional(inner) => DefaultsConform(inner)
    case ZDefault(inner, d) => Conforms(d, inner) && DefaultsConform(inner)
    case _ => true
  }

  lemma {:induction false} FieldsConformAll(members: seq<(string, Json)>, s: Schema, k: nat)
    requires s.ZObject? && k <= |s.shape|
    ensures FieldsConform(members, s, k)
        <==> forall i :: k <= i < |s.shape| ==> FieldConforms(members, s.shape[i], s)
    decreases |s.shape| - k
  {
    if k < |s.shape| {
      FieldsConformAll(members, s, k + 1);
    }
  }

  /** An object passes an object schema when every declared key holds in it. */
  lemma ConformsObject(v: Json, s: Schema)
    requires s.ZObject?
    ensures Conforms(v, s)
        <==> v.JObject? && forall i :: 0 <= i < |s.shape| ==> FieldConforms(v.members, s.shape[i], s)
  {
    if v.JObject? {
      FieldsConformAll(v.members, s, 0);
    }
  }
}
