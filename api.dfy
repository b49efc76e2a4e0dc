/** The transport of the cloud.ca API client (pkg/cloudca/api/api.go): the
    client value, URL construction and the half of `Do` that runs before and
    around the network call. */
module ApiClient {
  import opened Json
  import opened ApiResponse

  /** An API request. `body` and `options` are nil-able in Go. */
  datatype Request = Request(
    httpMethod: string,
    endpoint: string,
    body: Option<seq<byte>>,
    options: Option<map<string, string>>)

  /** `url.Values`: each query key with the values added for it, in order. */
  type Values = map<string, seq<string>>

  /** `CcaClient`; its `*http.Client` is the network, which is not modelled. */
  datatype CcaClient = CcaClient(apiURL: string, apiKey: string)
  {
    function GetAPIKey(): string { apiKey }
    function GetAPIURL(): string { apiURL }
  }

  /** `NewClient`: the getters give back what the client was built with. */
  function NewClient(apiURL: string, apiKey: string): (c: CcaClient)
    ensures c.GetAPIURL() == apiURL && c.GetAPIKey() == apiKey
  {
    CcaClient(apiURL, apiKey)
  }

  // ---------------------------------------------------------------------------
  // strings.Trim(endpoint, "/")

  /** `strings.TrimLeft(s, "/")`: the suffix left after every leading '/'. */
  function TrimLeftSlash(s: string): (r: string)
    ensures |r| <= |s| && r == s[|s| - |r|..]
    ensures forall k :: 0 <= k < |s| - |r| ==> s[k] == '/'
    ensures r == [] || r[0] != '/'
  {
    if |s| > 0 && s[0] == '/' then TrimLeftSlash(s[1..]) else s
  }

  /** `strings.TrimRight(s, "/")`: the prefix left before every trailing '/'. */
  function TrimRightSlash(s: string): (r: string)
    ensures |r| <= |s| && r == s[..|r|]
    ensures forall k :: |r| <= k < |s| ==> s[k] == '/'
    ensures r == [] || r[|r| - 1] != '/'
  {
    if |s| > 0 && s[|s| - 1] == '/' then TrimRightSlash(s[..|s| - 1]) else s
  }

  /** `strings.Trim(s, "/")`: no longer than the endpoint, and no '/' left at
      either end. */
  function Trim(s: string): (r: string)
    ensures |r| <= |s|
    ensures r == [] || (r[0] != '/' && r[|r| - 1] != '/')
  {
    TrimRightSlash(TrimLeftSlash(s))
  }

  /** Where the trimmed endpoint starts inside the original one. */
  function TrimStart(s: string): nat
    ensures TrimStart(s) <= |s|
  {
    |s| - |TrimLeftSlash(s)|
  }

  /** The trimmed endpoint is one contiguous piece of the original, everything
      around it is '/', and it neither starts nor ends with '/'. */
  lemma TrimShape(s: string)
    ensures TrimStart(s) + |Trim(s)| <= |s|
    ensures Trim(s) == s[TrimStart(s)..TrimStart(s) + |Trim(s)|]
    ensures forall k :: 0 <= k < TrimStart(s) ==> s[k] == '/'
    ensures forall k :: TrimStart(s) + |Trim(s)| <= k < |s| ==> s[k] == '/'
    ensures Trim(s) == [] || (Trim(s)[0] != '/' && Trim(s)[|Trim(s)| - 1] != '/')
  {
    var t := TrimLeftSlash(s);
    var r := TrimRightSlash(t);
    assert t == s[TrimStart(s)..];
    assert r == t[..|r|];
    forall k | TrimStart(s) + |r| <= k < |s| ensures s[k] == '/' {
      assert s[k] == t[k - TrimStart(s)];
    }
  }

  /** A string with no '/' at either end is left alone. */
  lemma TrimUnslashed(s: string)
    requires s == [] || (s[0] != '/' && s[|s| - 1] != '/')
    ensures Trim(s) == s
  {
    assert TrimLeftSlash(s) == s;
    assert TrimRightSlash(s) == s;
  }

  /** Trimming twice is trimming once. */
  lemma TrimIdempotent(s: string)
    ensures Trim(Trim(s)) == Trim(s)
  {
    TrimShape(s);
    TrimUnslashed(Trim(s));
  }

  // ---------------------------------------------------------------------------
  // buildURL

  /** `query.Add(k, v)`: appends `v` to the values of `k`. */
  function Add(query: Values, k: string, v: string): Values
  {
    query[k := (if k in query then query[k] else []) + [v]]
  }

  /** The query that the loop of buildURL builds: each option once. */
  function QueryOf(options: Option<map<string, string>>): Values
  {
    match options
    case None => map[]
    case Some(m) => map k | k in m :: [m[k]]
  }

  /** A nil or empty options map gives an empty query, and every option is
      added under its key with its value. */
  lemma QueryOfOptions(options: Option<map<string, string>>)
    ensures options.None? || options.value == map[] ==> QueryOf(options) == map[]
    ensures options.Some? ==> QueryOf(options).Keys == options.value.Keys
    ensures options.Some? ==> forall k :: k in options.value ==> QueryOf(options)[k] == [options.value[k]]
  {
  }

  /** The URL text handed to `url.Parse`: base URL, '/', trimmed endpoint, '?'
      and the encoded query, always in that order. */
  function URLText(c: CcaClient, endpoint: string, query: Values, encode: Values -> string): string
  {
    c.apiURL + "/" + Trim(endpoint) + "?" + encode(query)
  }

  /** `buildURL`, up to the `url.Parse`/`String` round trip of the standard
      library. `encode` is `url.Values.Encode`. */
  method BuildURL(c: CcaClient, endpoint: string, options: Option<map<string, string>>, encode: Values -> string)
    returns (u: string)
    ensures u == URLText(c, endpoint, QueryOf(options), encode)
  {
    var query: Values := map[];
    if options.Some? {
      var opts := options.value;
      var pending := opts.Keys;
      while pending != {}
        invariant pending <= opts.Keys
        invariant query == map k | k in opts.Keys - pending :: [opts[k]]
        decreases |pending|
      {
        var k :| k in pending;
        ghost var done := opts.Keys - pending;
        assert k !in query;
        assert [] + [opts[k]] == [opts[k]];
        query := Add(query, k, opts[k]);
        assert query.Keys == done + {k};
        assert forall j :: j in query ==> query[j] == [opts[j]];
        pending := pending - {k};
        assert opts.Keys - pending == done + {k};
        assert query == map j | j in done + {k} :: [opts[j]];
      }
      assert opts.Keys - pending == opts.Keys;
    }
    u := c.apiURL + "/" + Trim(endpoint) + "?" + encode(query);
  }

  /** With an encoder that writes nothing for an empty query, a nil or empty
      options map yields a URL that ends with the bare '?'. */
  lemma EmptyOptionsURL(c: CcaClient, endpoint: string, options: Option<map<string, string>>, encode: Values -> string)
    requires options.None? || options.value == map[]
    requires encode(map[]) == ""
    ensures URLText(c, endpoint, QueryOf(options), encode) == c.apiURL + "/" + Trim(endpoint) + "?"
  {
    QueryOfOptions(options);
  }

  // ---------------------------------------------------------------------------
  // Do

  /** The arguments Do hands to `http.NewRequest` (method, URL, optional body
      reader) and the headers it then adds, in the order they were added. */
  datatype HttpRequest = HttpRequest(
    httpMethod: string,
    url: string,
    body: Option<seq<byte>>,
    header: seq<(string, string)>)

  /** The HTTP response once its body has been read and parsed. */
  datatype HttpResponse = HttpResponse(statusCode: int, body: Body)

  /** `CcaClient.Do`. The network is a parameter: `newRequestError` is what
      `http.NewRequest` reports, and `roundTrip` is what `httpClient.Do`
      returns for the request that was built. */
  method Do(c: CcaClient, request: Request, encode: Values -> string,
            newRequestError: Option<Failure>, roundTrip: Result<HttpResponse>)
    returns (sent: Option<HttpRequest>, result: Result<Response>)
    requires roundTrip.Ok? ==> KnownKeysNonNull(roundTrip.value.body)
    ensures newRequestError.Some? ==> sent.None? && result == Err(newRequestError.value)
    ensures newRequestError.None? ==> sent.Some?
    ensures sent.Some? ==>
      && sent.value.httpMethod == request.httpMethod
      && sent.value.url == URLText(c, request.endpoint, QueryOf(request.options), encode)
      && sent.value.body == request.body
      && sent.value.header == [("MC-Api-Key", c.apiKey), ("Content-Type", "application/json")]
    ensures sent.Some? && roundTrip.Err? ==> result == Err(roundTrip.error)
    ensures sent.Some? && roundTrip.Ok? ==>
      result == DecodeResponse(roundTrip.value.statusCode, roundTrip.value.body)
  {
    var bodyBuffer: Option<seq<byte>> := None;
    if request.body.Some? {
      bodyBuffer := Some(request.body.value);
    }
    var httpMethod := request.httpMethod;
    if httpMethod == "" {
      httpMethod := "GET";
    }
    // http.NewRequest receives request.httpMethod as it is, not the defaulted copy;
    // net/http itself sends an empty method as GET.
    var u := BuildURL(c, request.endpoint, request.options, encode);
    if newRequestError.Some? {
      return None, Err(newRequestError.value);
    }
    var req := HttpRequest(request.httpMethod, u, bodyBuffer, []);
    req := req.(header := req.header + [("MC-Api-Key", c.apiKey)]);
    req := req.(header := req.header + [("Content-Type", "application/json")]);
    sent := Some(req);
    if roundTrip.Err? {
      return sent, Err(roundTrip.error);
    }
    result := NewResponse(roundTrip.value.statusCode, roundTrip.value.body);
  }
}
