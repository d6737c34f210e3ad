# BlabsNetwork, modelled in Dafny

BlabsNetwork is a thin Kotlin facade over OkHttp and Gson. A caller asks
`NetworkRequestDelegate.executeRequest` for one call. It gives an endpoint, a
method, a content type and maps of headers, query parameters, body fields and
files. The delegate then does four things:

- It drives one shared `RequestBuilder` through `url`, `headers`, `method`,
  `body` and `build`.
- It adds the default `Content-Type` and `Accept` headers.
- It enqueues the request on the OkHttp client.
- It resumes the caller exactly once with a `NetworkResponse`: `Success(data)`,
  or `Error(networkError, error)`. Here `networkError` is an `Exception`, or a
  `CustomServerError(code)`, or, for a failure response whose body does not
  decode, the status-code mapper's `NetworkErrorMapper.fromStatusCode(code)`.

The Dafny modules follow the library's files:

| module | file | what it holds |
|---|---|---|
| `Jvm` | | nullable values, the exceptions involved, and `Try` for a call that may throw |
| `LinkedMaps` | | Kotlin's insertion-ordered `LinkedHashMap`: a list of entries with distinct keys, plus `put`, `putAll` and `putIfAbsent` |
| `HttpEnums` | `enums/HttpMethod.kt` | methods, content types and header names |
| `Responses` | `response/NetworkResponse.kt`, `response/error/NetworkError.kt` | the error taxonomy and the response |
| `ErrorMapper` | `response/error/NetworkErrorMapper.kt` | the status-code classifier |
| `BodyExtensions` | `utils/BodyExtentions.kt` | the JSON body and the two multipart builders; the builders are loops over the maps, proved against part-list functions |
| `Requests` | `request/RequestBuilder.kt` | the `RequestBuilder` class; its fields are updated in place by its methods |
| `Delegate` | `delegate/NetworkRequestDelegate.kt` | the header block, the builder chain, the `onFailure`/`onResponse` chain and the delegate with its shared builder |

Things the model makes explicit:

- **`Conflict`.** The mapper returns `NetworkError.Conflict`
  (`response/error/NetworkErrorMapper.kt:15`). The sealed class in
  `response/NetworkResponse.kt:8-16` does not declare it. The model declares
  it so the mapper can be modelled.
- **Unparsable base URL.** `RequestBuilder.url` throws
  `IllegalArgumentException("Invalid URL")`. Nothing in `executeRequest`
  catches it, so it escapes the call rather than becoming an error
  response. The model returns `Threw(...)` from `Url`, `Send` and
  `ExecuteRequest` and leaves the builder unchanged.
- **Order of the default headers.** The caller's `headers` parameter is a
  read-only `Map`. So `putIfAbsent` inside `headers.apply { ... }` resolves to
  the outer `headers { ... }` block's fresh `MutableMap`. The two defaults go
  in first, and `putAll(headers)` then overwrites them with the caller's
  values. `Delegate.DefaultsEitherWay` shows that the other reading
  (defaults put into the caller's map) gives the same dictionary.
- **Parameters.** `Response.isSuccessful` is the range 200..299. The HTTP
  client is a function from the request to an outcome, and Gson's two
  `fromJson` calls are decoders passed in as parameters.

## Model

All source paths are below `BlabsNetwork/src/main/java/com/blabs/blabsnetwork/`, written out in full.

| member | source | states |
|---|---|---|
| LinkedMaps.Put | BlabsNetwork/src/main/java/com/blabs/blabsnetwork/request/RequestBuilder.kt:84 | a `put` into an insertion-ordered map: the dictionary gains or overwrites exactly that key; a present key keeps its position; a new key is appended at the end |
| LinkedMaps.PutAll | BlabsNetwork/src/main/java/com/blabs/blabsnetwork/request/RequestBuilder.kt:84 | `putAll` gives the old dictionary overridden by the new one (last write wins). No entry is removed, and every old entry keeps its position |
| LinkedMaps.PutIfAbsent | BlabsNetwork/src/main/java/com/blabs/blabsnetwork/delegate/NetworkRequestDelegate.kt:128-129 | `putIfAbsent` changes nothing when the key is present and appends the entry when it is absent |
| LinkedMaps.PutIfAbsentIsDefault | BlabsNetwork/src/main/java/com/blabs/blabsnetwork/delegate/NetworkRequestDelegate.kt:128-129 | as a dictionary, `putIfAbsent(k, v)` lays `k := v` under the existing entries |
| LinkedMaps.PutIfAbsentTwice | BlabsNetwork/src/main/java/com/blabs/blabsnetwork/delegate/NetworkRequestDelegate.kt:128-129 | two `putIfAbsent` calls on distinct keys lay both defaults under the map and keep the existing entries in front |
| LinkedMaps.CopyKeepsOrder | BlabsNetwork/src/main/java/com/blabs/blabsnetwork/request/RequestBuilder.kt:58 | `putAll` into an empty map copies the map entry for entry, in order |
| HttpEnums.MethodNameInjective | BlabsNetwork/src/main/java/com/blabs/blabsnetwork/enums/HttpMethod.kt:9-10 | two methods are sent under the same name if and only if they are the same method |
| HttpEnums.MediaTypeInjective | BlabsNetwork/src/main/java/com/blabs/blabsnetwork/enums/HttpMethod.kt:19-23 | two content types carry the same media type if and only if they are the same content type |
| ErrorMapper.FromStatusCode | BlabsNetwork/src/main/java/com/blabs/blabsnetwork/response/error/NetworkErrorMapper.kt:10-24 | in both directions: `BadRequest` exactly for 400, `Unauthorized` for 401, `NotFound` for 404, `Conflict` for 409, `ServerError` for 500..599, `Unknown(code)` with the same code for every other code, so `getValue` on the map built `withDefault` is defined for every code. Never `CustomServerError`, never `Exception` |
| BodyExtensions.ToJsonRequestBody | BlabsNetwork/src/main/java/com/blabs/blabsnetwork/utils/BodyExtentions.kt:19-20 | the body is Gson's JSON text of the field map, tagged with `contentType.mediaType` for every content type |
| BodyExtensions.JsonPayloadIgnoresContentType | BlabsNetwork/src/main/java/com/blabs/blabsnetwork/utils/BodyExtentions.kt:19-20 | FORM or MULTIPART with fields only still gives the same JSON payload; the bodies differ only in their tag, and only when the content types differ |
| BodyExtensions.FileParts | BlabsNetwork/src/main/java/com/blabs/blabsnetwork/utils/BodyExtentions.kt:27-32 | one file part per map entry |
| BodyExtensions.FieldParts | BlabsNetwork/src/main/java/com/blabs/blabsnetwork/utils/BodyExtentions.kt:46-48 | one string part per body field |
| BodyExtensions.FilePartsAt | BlabsNetwork/src/main/java/com/blabs/blabsnetwork/utils/BodyExtentions.kt:29-31 | the `i`-th file part is named by the `i`-th key and has that file's `name` as its filename |
| BodyExtensions.NatToString | BlabsNetwork/src/main/java/com/blabs/blabsnetwork/utils/BodyExtentions.kt:47 | the `toString()` of a natural number is a non-empty string of decimal digits with no leading zero |
| BodyExtensions.NatToStringReadsBack | BlabsNetwork/src/main/java/com/blabs/blabsnetwork/utils/BodyExtentions.kt:47 | the decimal digits a number's `toString()` gives read back as that number |
| BodyExtensions.FieldPartsAt | BlabsNetwork/src/main/java/com/blabs/blabsnetwork/utils/BodyExtentions.kt:46-48 | the `i`-th field part is a string part: the `i`-th key with its value's `toString()` |
| BodyExtensions.CombinedParts | BlabsNetwork/src/main/java/com/blabs/blabsnetwork/utils/BodyExtentions.kt:45-52 | the combined body has exactly the number of body fields plus the number of files as parts |
| BodyExtensions.CombinedPartsLayout | BlabsNetwork/src/main/java/com/blabs/blabsnetwork/utils/BodyExtentions.kt:41-53 | fields come first, each in map order as a string part; then files, each in map order as a file part; every string part precedes every file part |
| BodyExtensions.ToMultipartRequestBody | BlabsNetwork/src/main/java/com/blabs/blabsnetwork/utils/BodyExtentions.kt:27-32 | the loop builds a `MultipartBody.FORM` body whose parts are exactly the file parts in map order |
| BodyExtensions.CombineFilesAndBody | BlabsNetwork/src/main/java/com/blabs/blabsnetwork/utils/BodyExtentions.kt:41-53 | the two loops build a `MultipartBody.FORM` body whose parts are exactly the field parts followed by the file parts |
| Requests.TrimStart | BlabsNetwork/src/main/java/com/blabs/blabsnetwork/request/RequestBuilder.kt:60 | after `trimStart('/')` the path is empty or does not start with `/` |
| Requests.TrimStartSuffix | BlabsNetwork/src/main/java/com/blabs/blabsnetwork/request/RequestBuilder.kt:60 | `trimStart('/')` removes only a leading run made of `/`; what is left is a suffix of the endpoint |
| Requests.TrimStartIdempotent | BlabsNetwork/src/main/java/com/blabs/blabsnetwork/request/RequestBuilder.kt:60 | trimming an endpoint twice removes nothing more |
| Requests.TrimStartSkipsLeading | BlabsNetwork/src/main/java/com/blabs/blabsnetwork/request/RequestBuilder.kt:60 | `/x` and `x` give the same path segments |
| Requests.BodyPriority | BlabsNetwork/src/main/java/com/blabs/blabsnetwork/request/RequestBuilder.kt:99-104 | body selection by priority. Fields and files give the combined multipart body; files alone give the files multipart body; fields alone give the JSON body for `contentType`; neither gives no body. The body is multipart exactly when there are files, and JSON exactly when there are fields but no files |
| Requests.CopyOf | BlabsNetwork/src/main/java/com/blabs/blabsnetwork/request/RequestBuilder.kt:58 | the copied query map equals the caller's, order included |
| Requests.RequestBuilder.constructor | BlabsNetwork/src/main/java/com/blabs/blabsnetwork/request/RequestBuilder.kt:22-46 | a new builder has method `GET`, no URL yet (`lateinit`), no body and an empty headers map |
| Requests.RequestBuilder.Url | BlabsNetwork/src/main/java/com/blabs/blabsnetwork/request/RequestBuilder.kt:55-64 | on a parsable base URL, the URL becomes the base, then the endpoint without its leading `/`s, then the query parameters in map order. Otherwise it throws `IllegalArgumentException("Invalid URL")` and the URL is unchanged. Only `url` is written |
| Requests.RequestBuilder.Method | BlabsNetwork/src/main/java/com/blabs/blabsnetwork/request/RequestBuilder.kt:72-75 | the method is replaced; nothing else changes |
| Requests.RequestBuilder.Headers | BlabsNetwork/src/main/java/com/blabs/blabsnetwork/request/RequestBuilder.kt:83-86 | the headers map becomes the old one `putAll` the new headers, so headers accumulate and are never removed; only `headersMap` is written |
| Requests.RequestBuilder.Body | BlabsNetwork/src/main/java/com/blabs/blabsnetwork/request/RequestBuilder.kt:96-106 | the body is replaced by the one the priority rule selects, whatever it was before; only `requestBody` is written |
| Requests.RequestBuilder.Assemble | BlabsNetwork/src/main/java/com/blabs/blabsnetwork/request/RequestBuilder.kt:114-116 | the request carries the current URL, method name and body, plus one header line per headers-map entry, in map order, with distinct names |
| Requests.RequestBuilder.Build | BlabsNetwork/src/main/java/com/blabs/blabsnetwork/request/RequestBuilder.kt:113-117 | throws `UninitializedPropertyAccessException` if the URL was never set; otherwise returns the request assembled from the current fields |
| Delegate.WithDefaultHeaders | BlabsNetwork/src/main/java/com/blabs/blabsnetwork/delegate/NetworkRequestDelegate.kt:125-132 | as a dictionary: `Content-Type` and `Accept` set to the media type, overridden by the caller's headers. In order: the two defaults come first |
| Delegate.DefaultsEitherWay | BlabsNetwork/src/main/java/com/blabs/blabsnetwork/delegate/NetworkRequestDelegate.kt:126-130 | putting the defaults into the caller's map instead would give the same dictionary |
| Delegate.CallerHeadersWin | BlabsNetwork/src/main/java/com/blabs/blabsnetwork/delegate/NetworkRequestDelegate.kt:127-129 | a `Content-Type` or `Accept` from the caller keeps the caller's value; one the caller leaves out takes the media type. The keys are the caller's keys plus the two defaults |
| Delegate.OnlyDefaultsWithoutHeaders | BlabsNetwork/src/main/java/com/blabs/blabsnetwork/delegate/NetworkRequestDelegate.kt:104-132 | a call with the default empty headers sends exactly `Content-Type` and `Accept`, and no `Authorization` |
| Delegate.ResponseFor | BlabsNetwork/src/main/java/com/blabs/blabsnetwork/delegate/NetworkRequestDelegate.kt:139-221 | the one response for an outcome. A transport failure gives `Error(Exception(e))`. A failure status gives `CustomServerError(code)` with the decoded error body exactly when that body decodes, and otherwise `fromStatusCode(code)` with no detail; it never gives the null-body error. A success status gives the null-body `RuntimeException` exactly when there is no body, `Success(decoded)` exactly when the body decodes, and otherwise `Exception(JsonSyntaxException)` |
| Delegate.NotFoundEitherWay | BlabsNetwork/src/main/java/com/blabs/blabsnetwork/delegate/NetworkRequestDelegate.kt:166-181 | a 404 whose body is not an `E` is `Error(NotFound)` with no detail; a 404 whose body is an `E` is `CustomServerError(404)` carrying it |
| Delegate.Continuation.Resume | BlabsNetwork/src/main/java/com/blabs/blabsnetwork/delegate/NetworkRequestDelegate.kt:147 | resuming records one more value handed to the caller |
| Delegate.OnFailure | BlabsNetwork/src/main/java/com/blabs/blabsnetwork/delegate/NetworkRequestDelegate.kt:139-148 | `onFailure` resumes the caller exactly once, with the transport failure's response |
| Delegate.OnResponse | BlabsNetwork/src/main/java/com/blabs/blabsnetwork/delegate/NetworkRequestDelegate.kt:150-224 | every path of `onResponse`, including the two early returns, resumes the caller exactly once, with the response for that outcome |
| Delegate.Prepared | BlabsNetwork/src/main/java/com/blabs/blabsnetwork/delegate/NetworkRequestDelegate.kt:122-135 | the request a call sends: its headers are the builder's previous headers overridden by this call's headers and defaults; its query, method name and body are this call's |
| Delegate.Configure | BlabsNetwork/src/main/java/com/blabs/blabsnetwork/delegate/NetworkRequestDelegate.kt:125-134 | `headers`, `method` and `body` in a row: the headers are merged, then the method and body are replaced, and none undoes another |
| Delegate.Prepare | BlabsNetwork/src/main/java/com/blabs/blabsnetwork/delegate/NetworkRequestDelegate.kt:122-135 | the builder chain. An unparsable base URL throws and leaves the builder unchanged. Otherwise the URL, method, body and merged headers are set, and the request built from them is returned |
| Delegate.Dispatch | BlabsNetwork/src/main/java/com/blabs/blabsnetwork/delegate/NetworkRequestDelegate.kt:137-226 | the caller is resumed with exactly the response `ResponseFor` gives for the client's outcome |
| Delegate.Send | BlabsNetwork/src/main/java/com/blabs/blabsnetwork/delegate/NetworkRequestDelegate.kt:121-228 | one call through a builder: it throws on an unparsable base URL and leaves the builder unchanged. Otherwise it sends the prepared request and leaves the builder holding that request's URL, method, body and headers. It returns the response for the client's outcome |
| Delegate.NetworkRequestDelegate.constructor | BlabsNetwork/src/main/java/com/blabs/blabsnetwork/delegate/NetworkRequestDelegate.kt:67 | the delegate owns one builder for its base URL, starting in the builder's initial state |
| Delegate.NetworkRequestDelegate.ExecuteRequest | BlabsNetwork/src/main/java/com/blabs/blabsnetwork/delegate/NetworkRequestDelegate.kt:84-229 | `executeRequest` as written: the request goes through the shared builder and carries every header of earlier calls, overridden by this call's headers and defaults. Afterwards the shared builder holds this call's URL, method, body and accumulated headers |
| Delegate.NetworkRequestDelegate.ExecuteRequestFresh | BlabsNetwork/src/main/java/com/blabs/blabsnetwork/delegate/NetworkRequestDelegate.kt:121-136 | with a builder per call, the request's headers are exactly this call's headers with the defaults |
| Delegate.ProfileAloneSendsNoAuthorization | BlabsNetwork/src/main/java/com/blabs/blabsnetwork/delegate/NetworkRequestDelegate.kt:104-132 | a call without headers, built on an empty headers map, carries no `Authorization` |
| Delegate.EchoTellsAuthorization | BlabsNetwork/src/main/java/com/blabs/blabsnetwork/delegate/NetworkRequestDelegate.kt:210-215 | for the echoing server, the decoded success says whether the request carried `Authorization` |
| Delegate.ProfileAloneIsAnonymous | BlabsNetwork/src/main/java/com/blabs/blabsnetwork/delegate/NetworkRequestDelegate.kt:121-221 | a profile call made alone is answered as anonymous |
| Delegate.SharedBuilderLeaksHeaders | BlabsNetwork/src/main/java/com/blabs/blabsnetwork/delegate/NetworkRequestDelegate.kt:67 | through the shared builder, a profile call made after a login call is answered as carrying `Authorization` |
| Delegate.FreshBuilderKeepsCallsApart | BlabsNetwork/src/main/java/com/blabs/blabsnetwork/delegate/NetworkRequestDelegate.kt:67 | with a builder per call, the same profile call is answered as anonymous |

## Left out

- HttpUrl parsing and encoding: OkHttp's URL parsing, percent-encoding and the splitting of the path by `addPathSegments` are not modelled. Whether the base URL parses is a parameter of the builder, and the path is kept as the trimmed endpoint text.
- OkHttp's checks inside `build`: `Request.Builder.method` rejects a body on GET and a missing body on POST, PUT and PATCH, and `addHeader` rejects header names and values with illegal characters. Each of these would throw inside `build`; the model's `build` always succeeds once the URL is set.
- Gson: `toJson` is a symbolic value of the field map, and both `fromJson` calls are decoders given as parameters that return a value or a `JsonSyntaxException`. Gson returning `null` for empty input is not modelled.
- Other exceptions: only `JsonSyntaxException` is caught by the code. Any other exception thrown by a decoder or by the client is not modelled.
- File contents and `asRequestBody`: a file is reduced to its name, and a file part keeps only its key and filename.
- Concurrency: coroutines, `enqueue`, the `Dispatchers.IO` launch in `onResponse` and cancellation with `invokeOnCancellation` (`NetworkRequestDelegate.kt:227`) are not modelled. The call is sequential, and the client is a function from the request to its outcome. Concurrent calls racing on the shared builder are not modelled.
- Logging with `android.util.Log` is a side effect and is left out.
- Lazy initialisation: the lazily created `requestBuilder` is modelled as created with the delegate. The lazily created `okHttpClient` and `gson` are not objects of the model: the client is a parameter of each call, Gson's `toJson` is a symbolic value, and its two `fromJson` calls are decoders passed in as parameters. The client configuration in `utils/HttpClient.kt` (timeouts, interceptors, authenticator, cookie jar) is not part of this model.
- The demo app (`MainActivity.kt`, `AppModule.kt`, `ErrorModel.kt`) has no library logic and is not part of this model.
- Integer width: status codes and `Int` body values are unbounded integers. Kotlin's 32-bit `Int` does not matter for any property stated here.

## Findings

| source | as written | input that shows it | evidently intended | confidence | as-written member | corrected member |
|---|---|---|---|---|---|---|
| BlabsNetwork/src/main/java/com/blabs/blabsnetwork/delegate/NetworkRequestDelegate.kt:67 | one lazily created `RequestBuilder` serves every call, and `headers` only ever adds to its `headersMap` (`request/RequestBuilder.kt:84`), so each request carries every header of every earlier call | a POST to `/login` with a JSON body field and `Authorization: Bearer t`, then a GET to `/profile` with no headers and no body: the second request still carries `Authorization` | each request carries only its own headers plus the two defaults, as an independent request per call | not executed | Delegate.SharedBuilderLeaksHeaders | Delegate.NetworkRequestDelegate.ExecuteRequestFresh |
