/**
 * Request parameters as the controllers see them after
 * `params.to_unsafe_h.symbolize_keys`: a map from key to a value that is either
 * one string or, for a key submitted as an array (`key[]`), a list of strings.
 */
module RequestParams {
  import opened Wrappers

  datatype ParamValue = Scalar(text: string) | List(items: seq<string>)

  type Params = map<string, ParamValue>

  /** The strings a value carries, in submission order. */
  function Submitted(v: ParamValue): (xs: seq<string>)
    ensures v.Scalar? ==> xs == [v.text]
    ensures v.List? ==> xs == v.items
  {
    match v
    case Scalar(t) => [t]
    case List(items) => items
  }

  /** `options[key]`: `nil` when the key is absent. */
  function Lookup(options: Params, key: string): (r: Option<ParamValue>)
    ensures r.Some? <==> key in options
    ensures r.Some? ==> r.value == options[key]
  {
    if key in options then Some(options[key]) else None
  }

  /**
   * Ruby's `a || b` on two parameter lookups. A parameter value is a string or
   * an array, never `nil` or `false`, so every present value is truthy, even
   * `""`, `"0"` and `[]`.
   */
  function Or(a: Option<ParamValue>, b: Option<ParamValue>): (r: Option<ParamValue>)
    ensures a.Some? ==> r == a
    ensures a.None? ==> r == b
  {
    if a.Some? then a else b
  }
}
