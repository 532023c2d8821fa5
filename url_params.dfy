/** The query string of a page URL, as `URLSearchParams` holds it: a value per
    parameter name. */
module UrlParams {
  import opened Common

  type Params = map<string, string>

  /** `params.get(key)`: the value, or null when the parameter is absent. */
  function Get(params: Params, key: string): (r: Option<string>)
    ensures r.Some? <==> key in params
    ensures r.Some? ==> r.value == params[key]
  {
    if key in params then Some(params[key]) else None
  }
}
