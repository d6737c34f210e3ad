/** The request builder: a mutable object that accumulates the URL, method,
    headers and body of the next request and assembles it on `build`. */
module Requests {
  import opened Jvm
  import opened LinkedMaps
  import opened HttpEnums
  import opened BodyExtensions

  /** An OkHttp `HttpUrl` as the builder makes it: the parsed base URL, the
      path given to `addPathSegments`, and the query parameters in the order
      they were added. */
  datatype HttpUrl = HttpUrl(base: string, pathSegments: string, query: seq<(string, string)>)

  /** An OkHttp `Request`: URL, method name, optional body, and its header
      lines in the order they were added. */
  datatype Request = Request(url: HttpUrl, methodName: string, body: Option<RequestBody>, headers: seq<(string, string)>)

  const INVALID_URL := "Invalid URL"
  const URL_NOT_INITIALIZED := "lateinit property url has not been initialized"

  /** `String.trimStart(c)`: `s` without its leading run of `c`. */
  function TrimStart(s: string, c: char): (r: string)
    ensures r == [] || r[0] != c
    decreases |s|
  {
    if s != [] && s[0] == c then TrimStart(s[1..], c) else s
  }

  /** What is trimmed is a prefix made only of `c`: the result is a suffix of
      `s`. */
  lemma {:induction false} TrimStartSuffix(s: string, c: char)
    ensures var r := TrimStart(s, c);
      && |r| <= |s| && r == s[|s| - |r|..]
      && forall i :: 0 <= i < |s| - |r| ==> s[i] == c
    decreases |s|
  {
    if s != [] && s[0] == c {
      TrimStartSuffix(s[1..], c);
    }
  }

  /** Trimming twice trims nothing more. */
  lemma TrimStartIdempotent(s: string, c: char)
    ensures TrimStart(TrimStart(s, c), c) == TrimStart(s, c)
  {
    var r := TrimStart(s, c);
    assert r == [] || r[0] != c;
  }

  /** Leading `c`s do not change what is left after trimming. */
  lemma TrimStartSkipsLeading(s: string, c: char)
    ensures TrimStart([c] + s, c) == TrimStart(s, c)
  {
    var cs := [c] + s;
    assert cs[0] == c && cs[1..] == s;
  }

  /** The body `body(contentType, body, files)` selects. */
  function ChooseBody(contentType: ContentType, body: LinkedMap<string, Value>, files: LinkedMap<string, File>): Option<RequestBody> {
    if body != [] && files != [] then Some(MultipartBody(MULTIPART_FORM, CombinedParts(files, body)))
    else if files != [] then Some(MultipartBody(MULTIPART_FORM, FileParts(files)))
    else if body != [] then Some(ToJsonRequestBody(body, contentType))
    else None
  }

  /** The selection goes by priority: both maps non-empty gives the combined
      multipart body; files only, the files multipart body; fields only, the
      JSON body; neither, no body. Files always make the body multipart, and a
      JSON body only ever comes from fields alone. */
  lemma BodyPriority(contentType: ContentType, body: LinkedMap<string, Value>, files: LinkedMap<string, File>)
    ensures var r := ChooseBody(contentType, body, files);
      && (r == None <==> body == [] && files == [])
      && (r.Some? && r.value.JsonBody? <==> body != [] && files == [])
      && (r.Some? && r.value.JsonBody? ==> r.value == ToJsonRequestBody(body, contentType))
      && (r.Some? && r.value.MultipartBody? <==> files != [])
      && (r.Some? && r.value.MultipartBody? ==> r.value.formType == MULTIPART_FORM)
      && (files != [] && body != [] ==> r == Some(MultipartBody(MULTIPART_FORM, CombinedParts(files, body))))
      && (files != [] && body == [] ==> r == Some(MultipartBody(MULTIPART_FORM, FileParts(files))))
  {
  }

  /** `mutableMapOf<String, String>().apply { putAll(m) }`: a fresh map holding
      a copy of `m`, in `m`'s order. */
  function CopyOf(m: LinkedMap<string, string>): (r: seq<(string, string)>)
    ensures r == m
  {
    CopyKeepsOrder(m);
    PutAll([], m)
  }

  class RequestBuilder {
    const baseUrl: string
    /** Whether `baseUrl.toHttpUrlOrNull()` parses. The base URL never
        changes, so neither does this. */
    const baseUrlParses: bool

    /** The `method` field. */
    var httpMethod: HttpMethod
    /** `lateinit var url`: `None` until `Url` first succeeds. */
    var url: Option<HttpUrl>
    var requestBody: Option<RequestBody>
    var headersMap: LinkedMap<string, string>

    constructor (baseUrl: string, baseUrlParses: bool)
      ensures this.baseUrl == baseUrl && this.baseUrlParses == baseUrlParses
      ensures httpMethod == GET && url == None && requestBody == None && headersMap == []
    {
      this.baseUrl := baseUrl;
      this.baseUrlParses := baseUrlParses;
      httpMethod := GET;
      url := None;
      requestBody := None;
      headersMap := [];
    }

    /** Sets the URL to the base URL, then the endpoint without its leading
        `/`s, then the query parameters in map order; throws when the base URL
        does not parse, leaving the URL as it was. */
    method Url(endPoint: string, queryParams: LinkedMap<string, string>) returns (r: Try<()>)
      modifies this`url
      ensures baseUrlParses ==> r == Returned(()) && url == Some(HttpUrl(baseUrl, TrimStart(endPoint, '/'), queryParams))
      ensures !baseUrlParses ==> r == Threw(IllegalArgumentException(INVALID_URL)) && url == old(url)
    {
      var queryParamsMap := CopyOf(queryParams);
      if !baseUrlParses {
        return Threw(IllegalArgumentException(INVALID_URL));
      }
      var query: seq<(string, string)> := [];
      for i := 0 to |queryParamsMap|
        invariant query == queryParamsMap[..i]
      {
        query := query + [queryParamsMap[i]];
      }
      assert query == queryParams by {
        assert queryParamsMap[..|queryParamsMap|] == queryParamsMap;
      }
      var path := TrimStart(endPoint, '/');
      url := Some(HttpUrl(baseUrl, path, query));
      r := Returned(());
    }

    /** Replaces the method and nothing else. */
    method Method(m: HttpMethod)
      modifies this`httpMethod
      ensures httpMethod == m
    {
      httpMethod := m;
    }

    /** Merges `headers` into the headers map with `putAll`: the dictionary
        becomes the old one overridden by `headers`, and existing entries keep
        their place. */
    method Headers(headers: LinkedMap<string, string>)
      modifies this`headersMap
      ensures headersMap == PutAll(old(headersMap), headers)
    {
      headersMap := PutAll(headersMap, headers);
    }

    /** Replaces the body by the one the priority rule selects. */
    method Body(contentType: ContentType, body: LinkedMap<string, Value>, files: LinkedMap<string, File>)
      modifies this`requestBody
      ensures requestBody == ChooseBody(contentType, body, files)
    {
      if body != [] && files != [] {
        var b := CombineFilesAndBody(files, body);
        requestBody := Some(b);
      } else if files != [] {
        var b := ToMultipartRequestBody(files);
        requestBody := Some(b);
      } else if body != [] {
        requestBody := Some(ToJsonRequestBody(body, contentType));
      } else {
        requestBody := None;
      }
    }

    /** The request under construction, once the URL is set. */
    function Current(): (r: Request)
      reads this
      requires url.Some?
    {
      Request(url.value, MethodName(httpMethod), requestBody, headersMap)
    }

    /** Assembles the request from the current fields, adding one header line
        per entry of the headers map, in its order. */
    method Assemble() returns (r: Request)
      requires url.Some?
      ensures r == Current()
      ensures ToMap(r.headers) == ToMap(headersMap) && DistinctKeys(r.headers)
    {
      var headers: seq<(string, string)> := [];
      for i := 0 to |headersMap|
        invariant headers == headersMap[..i]
      {
        headers := headers + [headersMap[i]];
      }
      r := Request(url.value, MethodName(httpMethod), requestBody, headers);
    }

    /** `build`: throws when the URL was never set; otherwise the request made
        of the current method, URL, body and headers. */
    method Build() returns (r: Try<Request>)
      ensures url.None? ==> r == Threw(UninitializedPropertyAccessException(URL_NOT_INITIALIZED))
      ensures url.Some? ==> r == Returned(Current())
    {
      if url.None? {
        r := Threw(UninitializedPropertyAccessException(URL_NOT_INITIALIZED));
      } else {
        var request := Assemble();
        r := Returned(request);
      }
    }
  }
}
