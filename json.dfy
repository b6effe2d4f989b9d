/**
 * Payload values as the mesh sees them after `JSON.parse`: the loosely typed
 * `data: any` that every agent receives.
 */
module Json {
  import opened Wrappers

  /** A parsed JSON value. Numbers are integers in this model. */
  datatype Json =
    | Null
    | Bool(b: bool)
    | Num(n: int)
    | Str(s: string)
    | Arr(items: seq<Json>)
    | Obj(fields: map<string, Json>)

  /**
   * Property access `v?.key` (and `v.key` when `v` is not null): the value of
   * an own field of an object, `None` standing for `undefined`.
   */
  function Get(v: Json, key: string): Option<Json>
  {
    if v.Obj? && key in v.fields then Some(v.fields[key]) else None
  }

  /**
   * The fields an object spread `{...v}` copies out of a parsed body.
   * Only objects contribute fields in this model.
   */
  function Spread(v: Json): map<string, Json>
  {
    if v.Obj? then v.fields else map[]
  }
}
