/** Maps an HTTP status code to a `NetworkError`: a constant map of four codes,
    behind a default that classifies everything else. */
module ErrorMapper {
  import opened Responses

  /** The four codes with a dedicated variant. */
  const ErrorMap: map<int, NetworkError> :=
    map[400 := BadRequest, 401 := Unauthorized, 404 := NotFound, 409 := Conflict]

  /** The `withDefault` fallback for codes the map lacks. */
  function DefaultError(code: int): NetworkError {
    if 500 <= code <= 599 then ServerError else Unknown(code)
  }

  /** `Map.getValue` on a map built with `withDefault`: the stored value, or the
      default computed from the key. It is defined on every key. */
  function GetValue(m: map<int, NetworkError>, default: int -> NetworkError, key: int): NetworkError {
    if key in m then m[key] else default(key)
  }

  function FromStatusCode(code: int): (r: NetworkError)
    ensures r == BadRequest <==> code == 400
    ensures r == Unauthorized <==> code == 401
    ensures r == NotFound <==> code == 404
    ensures r == Conflict <==> code == 409
    ensures r == ServerError <==> 500 <= code <= 599
    ensures r.Unknown? <==> code !in {400, 401, 404, 409} && !(500 <= code <= 599)
    ensures r.Unknown? ==> r.code == code
    ensures !r.CustomServerError? && !r.Exception?
  {
    GetValue(ErrorMap, DefaultError, code)
  }
}
