/** The delegate: one call builds a request with the shared builder, hands it
    to the HTTP client, and turns what comes back into exactly one
    `NetworkResponse`. The client and Gson's decoding are parameters. */
module Delegate {
  import opened Jvm
  import opened LinkedMaps
  import opened HttpEnums
  import opened Responses
  import opened ErrorMapper
  import opened BodyExtensions
  import opened Requests

  /** OkHttp's `Response.isSuccessful`: a status code in 200..299. */
  predicate IsSuccessful(code: int) {
    200 <= code <= 299
  }

  /** What the client reports for an enqueued call: `onFailure` with an
      `IOException`, or `onResponse` with a status code and the body text
      (`null` when there is no body). */
  datatype CallOutcome = TransportFailure(e: string) | Received(code: int, body: Option<string>)

  /** What `gson.fromJson` does with a text: a value, or a
      `JsonSyntaxException`. */
  datatype Decoded<+X> = Ok(value: X) | SyntaxError(message: string)

  const RESPONSE_BODY_IS_NULL := "Response body is null"

  /** The arguments of `executeRequest`. */
  datatype CallArgs = CallArgs(
    endPoint: string,
    httpMethod: HttpMethod,
    contentType: ContentType,
    headers: LinkedMap<string, string>,
    queryParams: LinkedMap<string, string>,
    body: LinkedMap<string, Value>,
    files: LinkedMap<string, File>)

  /** The map the `headers { ... }` block of `executeRequest` fills. The
      caller's `headers` is a read-only `Map`, so the two `putIfAbsent` calls
      inside `headers.apply { ... }` resolve to the block's own fresh
      `MutableMap`: `Content-Type` and `Accept`, both set to the content type's
      media type, go in first, then `putAll(headers)` copies the caller's
      entries over them. As a dictionary, the two defaults overridden by the
      caller's headers; in iteration order, the two defaults first. */
  function WithDefaultHeaders(headers: LinkedMap<string, string>, contentType: ContentType): (r: LinkedMap<string, string>)
    ensures ToMap(r) == map[CONTENT_TYPE := MediaType(contentType), ACCEPT := MediaType(contentType)] + ToMap(headers)
    ensures |r| >= 2 && r[0].0 == CONTENT_TYPE && r[1].0 == ACCEPT
  {
    var mediaType := MediaType(contentType);
    assert CONTENT_TYPE[0] != ACCEPT[0];
    var defaults := PutIfAbsent(PutIfAbsent([], CONTENT_TYPE, mediaType), ACCEPT, mediaType);
    PutIfAbsentTwice([], CONTENT_TYPE, mediaType, ACCEPT, mediaType);
    assert defaults == [(CONTENT_TYPE, mediaType), (ACCEPT, mediaType)];
    PutAll(defaults, headers)
  }

  /** Had the two `putIfAbsent` calls gone to the caller's map instead, the
      builder would receive the same dictionary: only the order of the entries
      differs. */
  lemma DefaultsEitherWay(headers: LinkedMap<string, string>, contentType: ContentType)
    ensures var mediaType := MediaType(contentType);
            ToMap(PutIfAbsent(PutIfAbsent(headers, CONTENT_TYPE, mediaType), ACCEPT, mediaType))
              == ToMap(WithDefaultHeaders(headers, contentType))
  {
    var mediaType := MediaType(contentType);
    assert CONTENT_TYPE[0] != ACCEPT[0];
    PutIfAbsentTwice(headers, CONTENT_TYPE, mediaType, ACCEPT, mediaType);
  }

  /** A header the caller supplies keeps the caller's value; a default the
      caller leaves out takes the content type's media type. */
  lemma CallerHeadersWin(headers: LinkedMap<string, string>, contentType: ContentType)
    ensures var r := ToMap(WithDefaultHeaders(headers, contentType));
      && (CONTENT_TYPE in ToMap(headers) ==> r[CONTENT_TYPE] == ToMap(headers)[CONTENT_TYPE])
      && (CONTENT_TYPE !in ToMap(headers) ==> r[CONTENT_TYPE] == MediaType(contentType))
      && (ACCEPT in ToMap(headers) ==> r[ACCEPT] == ToMap(headers)[ACCEPT])
      && (ACCEPT !in ToMap(headers) ==> r[ACCEPT] == MediaType(contentType))
      && r.Keys == ToMap(headers).Keys + {CONTENT_TYPE, ACCEPT}
  {
    var mediaType := MediaType(contentType);
    var defaults := map[CONTENT_TYPE := mediaType, ACCEPT := mediaType];
    assert |CONTENT_TYPE| != |ACCEPT|;
    assert defaults.Keys == {CONTENT_TYPE, ACCEPT} && defaults[CONTENT_TYPE] == mediaType && defaults[ACCEPT] == mediaType;
    assert ToMap(WithDefaultHeaders(headers, contentType)) == defaults + ToMap(headers);
  }

  /** A call that brings no headers of its own sends exactly the two
      defaults, so no `Authorization`. */
  lemma OnlyDefaultsWithoutHeaders(contentType: ContentType)
    ensures ToMap(WithDefaultHeaders([], contentType)).Keys == {CONTENT_TYPE, ACCEPT}
    ensures AUTHORIZATION !in ToMap(WithDefaultHeaders([], contentType))
  {
    assert |AUTHORIZATION| != |CONTENT_TYPE| && |AUTHORIZATION| != |ACCEPT|;
  }

  /** The single response an outcome leads to: a transport failure is an
      `Exception`; a failure status is a `CustomServerError` carrying the
      decoded error body, or the status code's classification when that body
      does not parse; a success status without a body, or whose body does not
      parse, is an `Exception`; otherwise the decoded payload. */
  function ResponseFor<T, E>(outcome: CallOutcome, decodeData: string -> Decoded<T>, decodeError: Option<string> -> Decoded<E>): (r: NetworkResponse<T, E>)
    ensures outcome.TransportFailure? ==> r == Error(Exception(IOException(outcome.e)), None)
    ensures r.Success? <==>
      outcome.Received? && IsSuccessful(outcome.code) && outcome.body.Some? && decodeData(outcome.body.value).Ok?
    ensures r.Success? ==> r.data == decodeData(outcome.body.value).value
    ensures r.Error? && r.networkError.CustomServerError? <==>
      outcome.Received? && !IsSuccessful(outcome.code) && decodeError(outcome.body).Ok?
    ensures r.Error? && r.networkError.CustomServerError? ==>
      r.networkError.serverErrorCode == outcome.code && r.error == Some(decodeError(outcome.body).value)
    ensures r.Error? && r.error.Some? ==> r.networkError.CustomServerError?
    ensures outcome.Received? && !IsSuccessful(outcome.code) && decodeError(outcome.body).SyntaxError? ==>
      r == Error(FromStatusCode(outcome.code), None)
    ensures r == Error(Exception(RuntimeException(RESPONSE_BODY_IS_NULL)), None) <==>
      outcome.Received? && IsSuccessful(outcome.code) && outcome.body.None?
    ensures outcome.Received? && IsSuccessful(outcome.code) && outcome.body.Some? && decodeData(outcome.body.value).SyntaxError? ==>
      r == Error(Exception(JsonSyntaxException(decodeData(outcome.body.value).message)), None)
  {
    match outcome
    case TransportFailure(e) => Error(Exception(IOException(e)), None)
    case Received(code, body) =>
      if !IsSuccessful(code) then
        match decodeError(body)
        case Ok(errorModel) => Error(CustomServerError(code), Some(errorModel))
        case SyntaxError(_) => Error(FromStatusCode(code), None)
      else if body.None? then
        Error(Exception(RuntimeException(RESPONSE_BODY_IS_NULL)), None)
      else
        match decodeData(body.value)
        case Ok(result) => Success(result)
        case SyntaxError(e) => Error(Exception(JsonSyntaxException(e)), None)
  }

  /** A 404 whose body is not an `E` is `Error(NotFound)` with no detail; the
      same 404 with a parsable body is a `CustomServerError(404)` carrying it. */
  lemma NotFoundEitherWay<T, E>(body: Option<string>, decodeData: string -> Decoded<T>, decodeError: Option<string> -> Decoded<E>)
    ensures decodeError(body).SyntaxError? ==>
      ResponseFor(Received(404, body), decodeData, decodeError) == Error(NotFound, None)
    ensures decodeError(body).Ok? ==>
      ResponseFor(Received(404, body), decodeData, decodeError) == Error(CustomServerError(404), Some(decodeError(body).value))
  {
  }

  /** The suspended caller, with every value it has been resumed with. */
  class Continuation<T, E> {
    var resumed: seq<NetworkResponse<T, E>>

    constructor ()
      ensures resumed == []
    {
      resumed := [];
    }

    method Resume(r: NetworkResponse<T, E>)
      modifies this
      ensures resumed == old(resumed) + [r]
    {
      resumed := resumed + [r];
    }
  }

  /** `onFailure`: resumes the caller once, with the transport's exception. */
  method OnFailure<T, E>(continuation: Continuation<T, E>, e: string, decodeData: string -> Decoded<T>, decodeError: Option<string> -> Decoded<E>)
    modifies continuation
    ensures continuation.resumed == old(continuation.resumed) + [ResponseFor(TransportFailure(e), decodeData, decodeError)]
  {
    continuation.Resume(Error(Exception(IOException(e)), None));
  }

  /** `onResponse`: each of its paths, the two early returns included, resumes
      the caller exactly once. */
  method OnResponse<T, E>(continuation: Continuation<T, E>, code: int, responseBody: Option<string>,
                          decodeData: string -> Decoded<T>, decodeError: Option<string> -> Decoded<E>)
    modifies continuation
    ensures continuation.resumed == old(continuation.resumed) + [ResponseFor(Received(code, responseBody), decodeData, decodeError)]
  {
    if !IsSuccessful(code) {
      var error: NetworkResponse<T, E> :=
        match decodeError(responseBody)
        case Ok(errorModel) => Error(CustomServerError(code), Some(errorModel))
        case SyntaxError(_) => Error(FromStatusCode(code), None);
      continuation.Resume(error);
      return;
    }
    if responseBody.None? {
      continuation.Resume(Error(Exception(RuntimeException(RESPONSE_BODY_IS_NULL)), None));
      return;
    }
    match decodeData(responseBody.value)
    case Ok(result) =>
      continuation.Resume(Success(result));
    case SyntaxError(e) =>
      continuation.Resume(Error(Exception(JsonSyntaxException(e)), None));
  }

  /** The request a call sends through a builder whose headers map held
      `builderHeaders` before the call. */
  function Prepared(builderHeaders: LinkedMap<string, string>, baseUrl: string, args: CallArgs): (r: Request)
    ensures ToMap(r.headers) == ToMap(builderHeaders) + ToMap(WithDefaultHeaders(args.headers, args.contentType))
    ensures r.url.query == args.queryParams && r.methodName == MethodName(args.httpMethod)
    ensures r.body == ChooseBody(args.contentType, args.body, args.files)
  {
    Request(HttpUrl(baseUrl, TrimStart(args.endPoint, '/'), args.queryParams),
            MethodName(args.httpMethod),
            ChooseBody(args.contentType, args.body, args.files),
            PutAll(builderHeaders, WithDefaultHeaders(args.headers, args.contentType)))
  }

  /** The middle of the builder chain: merge `headers` (the call's headers
      with their defaults) into the builder's map, then set the method and the
      body. */
  method Configure(builder: RequestBuilder, args: CallArgs, headers: LinkedMap<string, string>)
    modifies builder`headersMap, builder`httpMethod, builder`requestBody
    ensures builder.headersMap == PutAll(old(builder.headersMap), headers)
    ensures builder.httpMethod == args.httpMethod
    ensures builder.requestBody == ChooseBody(args.contentType, args.body, args.files)
  {
    builder.Headers(headers);
    ghost var merged := builder.headersMap;
    builder.Method(args.httpMethod);
    builder.Body(args.contentType, args.body, args.files);
    assert builder.headersMap == merged;
  }

  /** The builder chain of one call: set the URL (throwing, with the builder
      untouched, when the base URL does not parse), merge `headers` (the
      call's headers with their defaults), set the method and body, and
      build. */
  method Prepare(builder: RequestBuilder, args: CallArgs, headers: LinkedMap<string, string>) returns (built: Try<Request>)
    modifies builder
    ensures !builder.baseUrlParses ==>
      built == Threw(IllegalArgumentException(INVALID_URL)) && unchanged(builder)
    ensures builder.baseUrlParses ==>
      && builder.url == Some(HttpUrl(builder.baseUrl, TrimStart(args.endPoint, '/'), args.queryParams))
      && builder.httpMethod == args.httpMethod
      && builder.requestBody == ChooseBody(args.contentType, args.body, args.files)
      && builder.headersMap == PutAll(old(builder.headersMap), headers)
      && built == Returned(builder.Current())
  {
    var urlSet := builder.Url(args.endPoint, args.queryParams);
    if urlSet.Threw? {
      return Threw(urlSet.exception);
    }
    Configure(builder, args, headers);
    built := builder.Build();
  }

  /** Sends `request` and resumes a fresh continuation through `onFailure` or
      `onResponse`; the one value it is resumed with is the outcome. */
  method Dispatch<T, E>(request: Request, client: Request -> CallOutcome,
                        decodeData: string -> Decoded<T>, decodeError: Option<string> -> Decoded<E>)
    returns (response: NetworkResponse<T, E>)
    ensures response == ResponseFor(client(request), decodeData, decodeError)
  {
    var continuation := new Continuation<T, E>();
    match client(request) {
      case TransportFailure(e) =>
        OnFailure(continuation, e, decodeData, decodeError);
      case Received(code, body) =>
        OnResponse(continuation, code, body, decodeData, decodeError);
    }
    response := continuation.resumed[0];
  }

  /** One call through `builder`: prepare the request, then dispatch it, and
      return the one value the caller is resumed with. */
  method Send<T, E>(builder: RequestBuilder, args: CallArgs, client: Request -> CallOutcome,
                    decodeData: string -> Decoded<T>, decodeError: Option<string> -> Decoded<E>)
    returns (result: Try<NetworkResponse<T, E>>)
    modifies builder
    ensures !builder.baseUrlParses ==>
      result == Threw(IllegalArgumentException(INVALID_URL)) && unchanged(builder)
    ensures builder.baseUrlParses ==>
      var sent := Prepared(old(builder.headersMap), builder.baseUrl, args);
      && builder.headersMap == sent.headers
      && builder.url == Some(sent.url) && builder.httpMethod == args.httpMethod && builder.requestBody == sent.body
      && result == Returned(ResponseFor(client(sent), decodeData, decodeError))
  {
    var built := Prepare(builder, args, WithDefaultHeaders(args.headers, args.contentType));
    if built.Threw? {
      return Threw(built.exception);
    }
    var response := Dispatch(built.value, client, decodeData, decodeError);
    result := Returned(response);
  }

  class NetworkRequestDelegate {
    const baseUrl: string
    /** Whether `baseUrl` parses as an `HttpUrl`. */
    const baseUrlParses: bool
    /** The one builder every call goes through. */
    const requestBuilder: RequestBuilder

    ghost predicate Valid() {
      requestBuilder.baseUrl == baseUrl && requestBuilder.baseUrlParses == baseUrlParses
    }

    constructor (baseUrl: string, baseUrlParses: bool)
      ensures Valid() && fresh(requestBuilder)
      ensures this.baseUrl == baseUrl && this.baseUrlParses == baseUrlParses
      ensures requestBuilder.httpMethod == GET && requestBuilder.url == None
      ensures requestBuilder.requestBody == None && requestBuilder.headersMap == []
    {
      this.baseUrl := baseUrl;
      this.baseUrlParses := baseUrlParses;
      requestBuilder := new RequestBuilder(baseUrl, baseUrlParses);
    }

    /** `executeRequest` as the library has it: the call goes through the
        shared builder, so its headers map keeps every header of every
        earlier call. */
    method ExecuteRequest<T, E>(args: CallArgs, client: Request -> CallOutcome,
                                decodeData: string -> Decoded<T>, decodeError: Option<string> -> Decoded<E>)
      returns (result: Try<NetworkResponse<T, E>>)
      requires Valid()
      modifies requestBuilder
      ensures !baseUrlParses ==>
        result == Threw(IllegalArgumentException(INVALID_URL)) && unchanged(requestBuilder)
      ensures baseUrlParses ==>
        var sent := Prepared(old(requestBuilder.headersMap), baseUrl, args);
        && requestBuilder.headersMap == sent.headers
        && requestBuilder.url == Some(sent.url) && requestBuilder.httpMethod == args.httpMethod
        && requestBuilder.requestBody == sent.body
        && result == Returned(ResponseFor(client(sent), decodeData, decodeError))
    {
      result := Send(requestBuilder, args, client, decodeData, decodeError);
    }

    /** `executeRequest` with a builder of its own: the request carries exactly
        this call's headers and the two defaults. */
    method ExecuteRequestFresh<T, E>(args: CallArgs, client: Request -> CallOutcome,
                                     decodeData: string -> Decoded<T>, decodeError: Option<string> -> Decoded<E>)
      returns (result: Try<NetworkResponse<T, E>>)
      ensures !baseUrlParses ==> result == Threw(IllegalArgumentException(INVALID_URL))
      ensures baseUrlParses ==>
        var sent := Prepared([], baseUrl, args);
        && sent.headers == WithDefaultHeaders(args.headers, args.contentType)
        && result == Returned(ResponseFor(client(sent), decodeData, decodeError))
    {
      var builder := new RequestBuilder(baseUrl, baseUrlParses);
      CopyKeepsOrder(WithDefaultHeaders(args.headers, args.contentType));
      result := Send(builder, args, client, decodeData, decodeError);
    }
  }

  /** A server that answers 200 with whether the request carried an
      `Authorization` header. */
  function AuthorizationEcho(request: Request): CallOutcome {
    Received(200, Some(if AUTHORIZATION in ToMap(request.headers) then "sent" else "absent"))
  }

  function DecodeEcho(text: string): Decoded<bool> {
    Ok(text == "sent")
  }

  function DecodeNothing(body: Option<string>): Decoded<string> {
    SyntaxError("no error model")
  }

  /** A login call that posts a JSON body and carries a bearer token, and a
      profile call that carries no headers and no body at all. */
  const LOGIN := CallArgs("/login", POST, JSON, Single(AUTHORIZATION, "Bearer t"), [], Single("user", Text("u")), [])
  const PROFILE := CallArgs("/profile", GET, JSON, [], [], [], [])

  /** Sent with only its own headers and the defaults, the profile call
      carries no `Authorization`... */
  lemma ProfileAloneSendsNoAuthorization(baseUrl: string)
    ensures AUTHORIZATION !in ToMap(Prepared([], baseUrl, PROFILE).headers)
  {
    OnlyDefaultsWithoutHeaders(JSON);
  }

  /** The echoing server's answer, decoded, says whether the request carried
      an `Authorization` header. */
  lemma EchoTellsAuthorization(request: Request)
    ensures ResponseFor(AuthorizationEcho(request), DecodeEcho, DecodeNothing) == Success(AUTHORIZATION in ToMap(request.headers))
  {
    assert DecodeEcho("sent") == Ok(true);
    assert DecodeEcho("absent") == Ok(false);
  }

  /** ... and the echoing server says so. */
  lemma ProfileAloneIsAnonymous(baseUrl: string)
    ensures ResponseFor(AuthorizationEcho(Prepared([], baseUrl, PROFILE)), DecodeEcho, DecodeNothing) == Success(false)
  {
    ProfileAloneSendsNoAuthorization(baseUrl);
    EchoTellsAuthorization(Prepared([], baseUrl, PROFILE));
  }

  /** A login call followed by a call with no headers at all: through the
      shared builder, the second call still carries the first call's
      `Authorization`. */
  method SharedBuilderLeaksHeaders() returns (second: Try<NetworkResponse<bool, string>>)
    ensures second == Returned(Success(true))
  {
    var delegate := new NetworkRequestDelegate("https://api.example.com/", true);
    var first := delegate.ExecuteRequest(LOGIN, AuthorizationEcho, DecodeEcho, DecodeNothing);
    assert AUTHORIZATION in ToMap(delegate.requestBuilder.headersMap) by {
      assert AUTHORIZATION in ToMap(LOGIN.headers) by {
        assert LOGIN.headers[0].0 == AUTHORIZATION;
      }
    }
    second := delegate.ExecuteRequest(PROFILE, AuthorizationEcho, DecodeEcho, DecodeNothing);
  }

  /** The same two calls, each with a builder of its own: the second call
      carries no `Authorization`. */
  method FreshBuilderKeepsCallsApart() returns (second: Try<NetworkResponse<bool, string>>)
    ensures second == Returned(Success(false))
  {
    var delegate := new NetworkRequestDelegate("https://api.example.com/", true);
    var first := delegate.ExecuteRequestFresh(LOGIN, AuthorizationEcho, DecodeEcho, DecodeNothing);
    second := delegate.ExecuteRequestFresh(PROFILE, AuthorizationEcho, DecodeEcho, DecodeNothing);
    ProfileAloneIsAnonymous(delegate.baseUrl);
  }
}
