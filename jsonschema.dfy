/**
 * The value types shared by the translators: JSON-like values (Go's `any`
 * inside `map[string]any`) and the project's own JSON schema record
 * (pkg/jsonschema/jsonschema.go).
 */
module JsonSchema {
  import opened Wrappers

  /** A decoded JSON value. Numbers are kept exact; Go holds them as float64. */
  datatype Json =
    | Null
    | Bool(b: bool)
    | Number(n: real)
    | Str(s: string)
    | Array(items: seq<Json>)
    | Object(fields: map<string, Json>)

  /** `map[string]any`: tool-call arguments and tool results. */
  type Payload = map<string, Json>

  /**
   * A schema's `Properties` map, which Go distinguishes from nil. (A
   * datatype of its own rather than an `Option`, so that recursion into a
   * property's schema is seen to terminate.)
   */
  datatype Properties = NilProperties | Properties(entries: map<string, Schema>)

  /**
   * `jsonschema.JSONSchema`. A nil `Items` pointer is `None`; Go's nil and
   * empty slices are both `[]`.
   */
  datatype Schema = Schema(
    typ: string,
    description: string,
    properties: Properties,
    required: seq<string>,
    propertyOrdering: seq<string>,
    items: Option<Schema>,
    examples: seq<Json>)

  /** The zero value `jsonschema.JSONSchema{}`. */
  function ZeroSchema(): Schema
  {
    Schema("", "", NilProperties, [], [], None, [])
  }
}
