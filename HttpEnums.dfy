/** The library's enumerations: request methods, body content types and the
    header names it sets itself. */
module HttpEnums {

  datatype HttpMethod = GET | POST | PUT | DELETE | PATCH

  /** The enum constant's `name`, which is what the request line carries. */
  function MethodName(m: HttpMethod): string {
    match m
    case GET => "GET"
    case POST => "POST"
    case PUT => "PUT"
    case DELETE => "DELETE"
    case PATCH => "PATCH"
  }

  datatype ContentType = JSON | FORM | MULTIPART

  /** The MIME string attached to each content type. */
  function MediaType(c: ContentType): string {
    match c
    case JSON => "application/json; charset=utf-8"
    case FORM => "application/x-www-form-urlencoded; charset=utf-8"
    case MULTIPART => "multipart/form-data; charset=utf-8"
  }

  /** Distinct methods are sent under distinct names. */
  lemma MethodNameInjective(a: HttpMethod, b: HttpMethod)
    ensures MethodName(a) == MethodName(b) <==> a == b
  {
  }

  /** Distinct content types carry distinct media types. */
  lemma MediaTypeInjective(a: ContentType, b: ContentType)
    ensures MediaType(a) == MediaType(b) <==> a == b
  {
  }

  const AUTHORIZATION := "Authorization"
  const CONTENT_TYPE := "Content-Type"
  const ACCEPT := "Accept"
}
