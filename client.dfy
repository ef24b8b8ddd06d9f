/**
 * The HTTP client of the speech-to-text API: base-URL normalisation, the
 * authentication option, query-string building and the mapping of HTTP
 * responses to bodies. Guzzle, the network and the filesystem are outside
 * the model and reached through the `Transport` the client is built with.
 */
module SpeechToText {
  import opened Wrappers
  import opened Php

  /** The status codes whose body the client passes on. */
  const SUCCESS_CODE: seq<int> := [200, 201, 202]

  /** The audio types the client claims to support; no operation consults this list. */
  const ALLOWED_CONTENT_TYPE: seq<string> := ["audio/flac", "audio/mp3", "audio/mpeg"]

  /** An HTTP response as the client sees it. */
  datatype Response = Response(statusCode: int, body: string)

  /** The options handed to Guzzle along with a request. */
  datatype RequestOptions =
    | AuthOptions(options: PhpArray)                              // `['auth' => ['apikey', key]]`
    | StreamOptions(contentType: string, auth: Value, bodyFile: string)  // headers, auth and a stream over a file

  /** A request: HTTP method, URI relative to the base URI, and options. */
  datatype Request = Request(verb: string, uri: string, options: RequestOptions)

  /**
   * The outside world: `send` performs a request against a base URI,
   * `mimeContentType` inspects a file.
   */
  datatype Transport = Transport(send: (string, Request) -> Response, mimeContentType: string -> string)

  /** Guzzle's client: a base URI and the transport it sends through. */
  datatype HttpClient = HttpClient(baseUri: string, transport: Transport)

  predicate EndsWithSlash(s: string)
  {
    |s| > 0 && s[|s| - 1] == '/'
  }

  /**
   * The base URI built from the URL given to the constructor: a slash is
   * appended unless the URL already ends with one. For the empty URL, PHP
   * reads the offset -1 as "" (with a warning), so the base URI is "/".
   */
  function NormaliseUrl(url: string): (base: string)
    ensures EndsWithSlash(base)
    ensures url <= base && |base| <= |url| + 1
    ensures base == url <==> EndsWithSlash(url)
  {
    if url == [] || url[|url| - 1] != '/' then url + "/" else url
  }

  /** Normalising twice is normalising once. */
  lemma NormaliseUrlIdempotent(url: string)
    ensures NormaliseUrl(NormaliseUrl(url)) == NormaliseUrl(url)
  {
  }

  /** The authentication option: basic auth with user "apikey" and the key as password. */
  function AuthOption(apiKey: string): (option: PhpArray)
    ensures Keys(option) == {StrKey("auth")}
    ensures Lookup(option, StrKey("auth")) == Some(Array([(IntKey(0), Str("apikey")), (IntKey(1), Str(apiKey))]))
  {
    var option := [(StrKey("auth"), Array([(IntKey(0), Str("apikey")), (IntKey(1), Str(apiKey))]))];
    assert option[0].0 == StrKey("auth");
    option
  }

  /**
   * `buildQueryParams`: nothing for no parameters, otherwise "?" followed
   * by `http_build_query`'s encoding, which the model does not interpret.
   */
  function BuildQueryParams(params: PhpArray, httpBuildQuery: PhpArray -> string): (query: string)
    ensures query == "" <==> params == []
    ensures params != [] ==> query[0] == '?' && query[1..] == httpBuildQuery(params)
  {
    if params != [] then "?" + httpBuildQuery(params) else ""
  }

  /** `handleResponse`: the body of a response whose status is a success code, "" otherwise. */
  function HandleResponse(response: Response): (body: string)
    ensures response.statusCode in SUCCESS_CODE ==> body == response.body
    ensures response.statusCode !in SUCCESS_CODE ==> body == ""
  {
    if response.statusCode in SUCCESS_CODE then response.body else ""
  }

  /**
   * The body passed on is either the response's own body or "", and a
   * non-empty one proves the status was 200, 201 or 202.
   */
  lemma NonEmptyBodyMeansSuccess(response: Response)
    ensures HandleResponse(response) == response.body || HandleResponse(response) == ""
    ensures HandleResponse(response) != "" ==> response.statusCode in {200, 201, 202}
  {
  }

  /**
   * A failed request and a successful one with an empty body yield the
   * same result: callers cannot tell them apart.
   */
  lemma FailureIndistinguishableFromEmptyBody(failed: Response, empty: Response)
    requires failed.statusCode !in SUCCESS_CODE
    requires empty.statusCode in SUCCESS_CODE && empty.body == ""
    ensures HandleResponse(failed) == HandleResponse(empty) == ""
  {
  }

  class Client {
    const apiKey: string
    /** The URL as given, before normalisation. */
    const url: string
    /** Set from the key when the client is built. */
    const authOption: PhpArray := AuthOption(apiKey)
    const httpClient: HttpClient
    /** PHP's `http_build_query`, which the model does not interpret. */
    const httpBuildQuery: PhpArray -> string

    constructor (apiKey: string, url: string, transport: Transport, httpBuildQuery: PhpArray -> string)
      ensures this.apiKey == apiKey && this.url == url
      ensures authOption == AuthOption(apiKey)
      ensures httpClient == HttpClient(NormaliseUrl(url), transport)
      ensures this.httpBuildQuery == httpBuildQuery
    {
      this.apiKey := apiKey;
      this.url := url;
      this.httpClient := HttpClient(NormaliseUrl(url), transport);
      this.httpBuildQuery := httpBuildQuery;
    }

    /** The request `get` or `post` sends: the URI followed by the query string. */
    function PlainRequest(verb: string, uri: string, params: PhpArray): (request: Request)
      ensures request.verb == verb && request.options == AuthOptions(authOption)
      ensures params == [] ==> request.uri == uri
      ensures params != [] ==> request.uri == uri + "?" + httpBuildQuery(params)
    {
      Request(verb, uri + BuildQueryParams(params, httpBuildQuery), AuthOptions(authOption))
    }

    /** The request `postWithStream` sends: the file as body, with its detected content type. */
    function StreamRequest(uri: string, fileName: string, params: PhpArray): (request: Request)
      ensures request.verb == "POST"
      ensures request.uri == uri + BuildQueryParams(params, httpBuildQuery)
      ensures request.options.StreamOptions? && request.options.bodyFile == fileName
      ensures request.options.contentType == httpClient.transport.mimeContentType(fileName)
      ensures request.options.auth == Array([(IntKey(0), Str("apikey")), (IntKey(1), Str(apiKey))])
    {
      var auth := Lookup(authOption, StrKey("auth")).GetOr(Null);
      Request("POST", uri + BuildQueryParams(params, httpBuildQuery),
              StreamOptions(httpClient.transport.mimeContentType(fileName), auth, fileName))
    }

    /** The body the client returns for a request: sent against the base URI, then filtered by status. */
    function Exchange(request: Request): string
    {
      HandleResponse(httpClient.transport.send(httpClient.baseUri, request))
    }

    method Get(uri: string, params: PhpArray) returns (body: string)
      ensures body == Exchange(PlainRequest("GET", uri, params))
    {
      var request := Request("GET", uri + BuildQueryParams(params, httpBuildQuery), AuthOptions(authOption));
      var response := httpClient.transport.send(httpClient.baseUri, request);
      body := HandleResponse(response);
    }

    method Post(uri: string, params: PhpArray) returns (body: string)
      ensures body == Exchange(PlainRequest("POST", uri, params))
    {
      var request := Request("POST", uri + BuildQueryParams(params, httpBuildQuery), AuthOptions(authOption));
      var response := httpClient.transport.send(httpClient.baseUri, request);
      body := HandleResponse(response);
    }

    method PostWithStream(uri: string, fileName: string, params: PhpArray) returns (body: string)
      ensures body == Exchange(StreamRequest(uri, fileName, params))
    {
      var contentType := httpClient.transport.mimeContentType(fileName);
      var request := Request("POST", uri + BuildQueryParams(params, httpBuildQuery),
                             StreamOptions(contentType, Lookup(authOption, StrKey("auth")).GetOr(Null), fileName));
      var response := httpClient.transport.send(httpClient.baseUri, request);
      body := HandleResponse(response);
    }
  }
}
