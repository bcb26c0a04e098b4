/**
 * The subset of JSON Schema draft 03 (draft-zyp-json-schema-03) that the
 * Marlin record schemas use: `type` (section 5.1) for string, object, array
 * and integer, `properties` (5.2), `items` as a single schema (5.5),
 * `required` as a boolean on a property schema (5.7), `minimum` (5.9),
 * `minItems` (5.13), `enum` (5.19, here only over strings) and `format`
 * (5.23, here only "date-time").  Properties a schema does not declare are
 * allowed, as draft 03's default `additionalProperties` says.
 *
 * Whether a string is a well-formed date-time is not decided here: callers
 * pass that test as the predicate `isDateTime`.
 */
module Draft03 {
  import opened Wrappers
  import opened JsonValue

  datatype JsonType = StringType | ObjectType | ArrayType | IntegerType

  datatype SchemaNode = SchemaNode(
    ty: JsonType,
    required: bool := false,
    dateTime: bool := false,
    enumeration: Option<seq<string>> := None,
    minItems: nat := 0,
    minimum: Option<int> := None,
    items: Option<SchemaNode> := None,
    properties: seq<Property> := [])

  datatype Property = Property(name: string, schema: SchemaNode)

  predicate IsInteger(n: real)
  {
    n.Floor as real == n
  }

  predicate HasType(t: JsonType, v: Json)
  {
    match t
    case StringType => v.JStr?
    case ObjectType => v.JObj?
    case ArrayType => v.JArr?
    case IntegerType => v.JNum? && IsInteger(v.n)
  }

  /** Does instance `v` satisfy every constraint of schema `s`? */
  predicate Conforms(s: SchemaNode, v: Json, isDateTime: string -> bool)
    decreases s
  {
    && HasType(s.ty, v)
    && (s.enumeration.Some? ==> v.JStr? && v.s in s.enumeration.value)
    && (s.dateTime && v.JStr? ==> isDateTime(v.s))
    && (v.JArr? ==> |v.elems| >= s.minItems)
    && (s.minimum.Some? && v.JNum? ==> v.n >= s.minimum.value as real)
    && (s.items.Some? && v.JArr? ==>
          forall i | 0 <= i < |v.elems| :: Conforms(s.items.value, v.elems[i], isDateTime))
    && (v.JObj? ==>
          forall i | 0 <= i < |s.properties| :: PropertyConforms(s.properties[i], v.fields, isDateTime))
  }

  /** A declared property: absent only if not required, and conforming when present. */
  predicate PropertyConforms(p: Property, fields: map<string, Json>, isDateTime: string -> bool)
    decreases p
  {
    if p.name in fields then Conforms(p.schema, fields[p.name], isDateTime) else !p.schema.required
  }
}
