/** Optional values: the model's stand-in for TypeScript's optional fields and
    nullable values (`string | undefined`, `string | null`). */
module Wrappers {

  datatype Option<+T> = None | Some(value: T)

  /** JavaScript truthiness of an optional string: present and not empty. */
  predicate Truthy(v: Option<string>)
  {
    v.Some? && v.value != ""
  }
}
