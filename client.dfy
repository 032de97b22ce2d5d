/**
 * The HTTP client (client.go): request assembly, the send, the
 * classification of the response, the three verbs built on them, the code
 * that applies options to a client (client_opt.go) and New.
 */
module HttpClient {
  import opened Wrappers
  import Http
  import Decimal
  import opened Errors
  import ClientOpt

  /** url.Parse("https://api.form3.tech"). */
  const DefaultBaseUrl := Http.Url("https", "api.form3.tech", "", map[])
  const ClientVersion := "0.1.0"
  const UserAgent := "form3-http-go/" + ClientVersion
  /** The API's vendor media type, sent as Accept and as Content-Type. */
  const VendorJson := "application/vnd.api+json"

  /** A Date header value: the clock read and formatted with Go's time.RFC850 layout, never empty. */
  type HttpDate = s: string | |s| > 0 witness "Monday, 02-Jan-06 15:04:05 UTC"

  /** A request body, known through what json.Encoder makes of it: the bytes, or the encoder's error. */
  type EncodedBody = Result<Http.Bytes, string>

  /** A decode target, known through what json.Decoder makes of a body for it: the value, or the decoder's error. */
  type Target<T> = Http.Bytes -> Result<T, string>

  /**
   * What the client takes from libraries and the clock: reference resolution
   * against the base URL (url.URL.Parse), the current date, and the JSON
   * decoding of an error body into an apiError.
   */
  datatype Env = Env(
    resolve: (Http.Url, string) -> Result<Http.Url, string>,
    date: HttpDate,
    decodeError: Http.Bytes -> Result<ApiError, string>)

  /** A successful call: the response and, when the body was decoded into the target, the value. */
  datatype Reply<T> = Reply(response: Http.Response, decoded: Option<T>)

  predicate HasPrefix(s: string, prefix: string) {
    |prefix| <= |s| && s[..|prefix|] == prefix
  }

  // ----- request assembly -----

  /** The path NewRequest resolves: a "/" is put in front when it does not start with one. */
  function NormalizePath(path: string): string {
    if HasPrefix(path, "/") then path else "/" + path
  }

  lemma NormalizePathProperties(path: string)
    ensures HasPrefix(NormalizePath(path), "/")
    ensures HasPrefix(path, "/") ==> NormalizePath(path) == path
    ensures !HasPrefix(path, "/") ==> NormalizePath(path) == "/" + path && NormalizePath(path)[1..] == path
    ensures NormalizePath(NormalizePath(path)) == NormalizePath(path)
  {
  }

  /**
   * The headers of a request, in the order NewRequest writes them, later
   * writes winning: Content-Type when there is a body, the four defaults,
   * then the client's own headers.
   */
  function RequestHeaders(hasBody: bool, host: string, date: HttpDate, custom: map<string, string>): map<string, string> {
    var contentType: map<string, string> := if hasBody then map["Content-Type" := VendorJson] else map[];
    contentType + map["Host" := host, "Date" := date, "Accept" := VendorJson, "User-Agent" := UserAgent] + custom
  }

  /**
   * NewRequest as a value: the normalised path resolved against the base URL,
   * the query pairs added to the URL's query, the body encoded, the headers set.
   * A failed resolution or encoding is the error, in that order.
   */
  function RequestFor(
    base: Http.Url, custom: map<string, string>, verb: string, path: string,
    query: map<string, string>, body: Option<EncodedBody>, env: Env): Result<Http.Request, Error>
  {
    match env.resolve(base, NormalizePath(path))
    case Err(m) => Err(Wrapped("parse url", Opaque(m)))
    case Ok(u) =>
      if body.Some? && body.value.Err? then Err(Wrapped("encode body", Opaque(body.value.error)))
      else
        var buf := if body.Some? then Some(body.value.value) else None;
        Ok(Http.Request(verb, u.(query := Http.AddAll(u.query, query)),
                        RequestHeaders(body.Some?, base.host, env.date, custom), buf))
  }

  /** Every request carries Host, a non-empty Date, Accept and User-Agent unless the client's headers replace them. */
  lemma DefaultHeadersPresent(hasBody: bool, host: string, date: HttpDate, custom: map<string, string>)
    ensures var h := RequestHeaders(hasBody, host, date, custom);
      && ("Host" !in custom ==> "Host" in h && h["Host"] == host)
      && ("Date" !in custom ==> "Date" in h && h["Date"] == date && h["Date"] != "")
      && ("Accept" !in custom ==> "Accept" in h && h["Accept"] == VendorJson)
      && ("User-Agent" !in custom ==> "User-Agent" in h && h["User-Agent"] == UserAgent)
  {
  }

  /** The client's own headers are written last, so each of them overrides a default of the same name. */
  lemma CustomHeadersOverride(hasBody: bool, host: string, date: HttpDate, custom: map<string, string>)
    ensures var h := RequestHeaders(hasBody, host, date, custom);
      forall k :: k in custom ==> k in h && h[k] == custom[k]
  {
  }

  /** Unless the client sets it itself, Content-Type is present iff there is a body, and is then the vendor type. */
  lemma ContentTypeIffBody(hasBody: bool, host: string, date: HttpDate, custom: map<string, string>)
    requires "Content-Type" !in custom
    ensures var h := RequestHeaders(hasBody, host, date, custom);
      ("Content-Type" in h <==> hasBody) && (hasBody ==> h["Content-Type"] == VendorJson)
  {
  }

  /** No other headers are set. */
  lemma HeaderKeys(hasBody: bool, host: string, date: HttpDate, custom: map<string, string>)
    ensures RequestHeaders(hasBody, host, date, custom).Keys
         == (if hasBody then {"Content-Type"} else {}) + {"Host", "Date", "Accept", "User-Agent"} + custom.Keys
  {
  }

  /** Request construction fails exactly when resolving the path fails or the body does not encode. */
  lemma RequestForFailure(base: Http.Url, custom: map<string, string>, verb: string, path: string,
                          query: map<string, string>, body: Option<EncodedBody>, env: Env)
    ensures RequestFor(base, custom, verb, path, query, body, env).Err?
       <==> env.resolve(base, NormalizePath(path)).Err? || (body.Some? && body.value.Err?)
  {
  }

  /**
   * A built request has the method, the URL resolved from the normalised path
   * with the query pairs added (and the query untouched when there are none),
   * and the body bytes exactly when a body was given.
   */
  lemma RequestForShape(base: Http.Url, custom: map<string, string>, verb: string, path: string,
                        query: map<string, string>, body: Option<EncodedBody>, env: Env)
    requires RequestFor(base, custom, verb, path, query, body, env).Ok?
    ensures var req := RequestFor(base, custom, verb, path, query, body, env).value;
      var u := env.resolve(base, NormalizePath(path)).value;
      && req.verb == verb
      && req.url == u.(query := Http.AddAll(u.query, query))
      && (query == map[] ==> req.url == u)
      && (forall k :: k in query ==> k in req.url.query && req.url.query[k] == Http.ValuesAt(u.query, k) + [query[k]])
      && (req.body.Some? <==> body.Some?)
      && (body.Some? ==> req.body == Some(body.value.value))
      && req.header == RequestHeaders(body.Some?, base.host, env.date, custom)
  {
    var u := env.resolve(base, NormalizePath(path)).value;
    Http.AddAllEmpty(u.query);
    Http.AddAllContains(u.query, query);
  }

  // ----- response classification -----

  /** The only success codes the API reports: 200 to 204 inclusive. */
  predicate IsSuccess(status: int) {
    200 <= status <= 204
  }

  /** The statuses whose responses carry a JSON error body: 400, 409 and 403. */
  predicate HasErrorBody(status: int) {
    status == Http.StatusBadRequest || status == Http.StatusConflict || status == Http.StatusForbidden
  }

  /** maybeDecodeAPIError: no error in the success band; otherwise an errorResponse, or the decoder's error. */
  function MaybeApiError(resp: Http.Response, decodeError: Http.Bytes -> Result<ApiError, string>): Option<Error> {
    var sc := resp.status;
    if IsSuccess(sc) then None
    else if HasErrorBody(sc) then
      match decodeError(resp.body)
      case Err(m) => Some(Wrapped("decode error response (HTTP status: " + Decimal.FromInt(sc) + ")", Opaque(m)))
      case Ok(e) => Some(Api(ErrorResponse(resp, Some(e))))
    else Some(Api(ErrorResponse(resp, None)))
  }

  /** Do after the send: the transport's outcome classified, and the body decoded into the target if there is one. */
  function Decide<T>(out: Http.Outcome, target: Option<Target<T>>,
                     decodeError: Http.Bytes -> Result<ApiError, string>): Result<Reply<T>, Error>
  {
    match out
    case Failed(cause) => Err(Wrapped("do request", Opaque(cause)))
    case Received(resp) =>
      match MaybeApiError(resp, decodeError)
      case Some(e) => Err(e)
      case None =>
        if target.Some? && resp.status != Http.StatusNoContent then
          match target.value(resp.body)
          case Err(m) => Err(Wrapped("decode response body", Opaque(m)))
          case Ok(v) => Ok(Reply(resp, Some(v)))
        else Ok(Reply(resp, None))
  }

  /** The only response the Delete verb keeps. */
  function ResponseOf<T>(r: Result<Reply<T>, Error>): Result<Http.Response, Error> {
    match r
    case Ok(reply) => Ok(reply.response)
    case Err(e) => Err(e)
  }

  /** 200 to 204 give no error; every other status, 199 and 205 included, gives one. */
  lemma SuccessBand(resp: Http.Response, decodeError: Http.Bytes -> Result<ApiError, string>)
    ensures MaybeApiError(resp, decodeError).None? <==> 200 <= resp.status <= 204
  {
  }

  /**
   * For 400, 409 and 403 the result is what decoding the error body gives:
   * an errorResponse holding the decoded body, or a decode error that is not
   * an errorResponse and names the status.
   */
  lemma ErrorBodyStatuses(resp: Http.Response, decodeError: Http.Bytes -> Result<ApiError, string>)
    requires HasErrorBody(resp.status)
    ensures decodeError(resp.body).Ok? ==>
      MaybeApiError(resp, decodeError) == Some(Api(ErrorResponse(resp, Some(decodeError(resp.body).value))))
    ensures decodeError(resp.body).Err? ==>
      && MaybeApiError(resp, decodeError).Some?
      && AsErrorResponse(MaybeApiError(resp, decodeError).value).None?
      && MaybeApiError(resp, decodeError).value
         == Wrapped("decode error response (HTTP status: " + Decimal.FromInt(resp.status) + ")", Opaque(decodeError(resp.body).error))
  {
  }

  /** Every other error status gives an errorResponse without an underlying error, whatever the decoder would say. */
  lemma OtherErrorStatuses(resp: Http.Response, decodeError: Http.Bytes -> Result<ApiError, string>)
    requires !IsSuccess(resp.status) && !HasErrorBody(resp.status)
    ensures MaybeApiError(resp, decodeError) == Some(Api(ErrorResponse(resp, None)))
  {
  }

  /** A transport error ends Do with no response, before any classification or decoding. */
  lemma DecideTransportFailure<T>(cause: string, target: Option<Target<T>>,
                                  decodeError: Http.Bytes -> Result<ApiError, string>)
    ensures Decide(Http.Failed(cause), target, decodeError) == Err(Wrapped("do request", Opaque(cause)))
  {
  }

  /**
   * Do succeeds iff the status is in the success band and, when the body is
   * to be decoded (a target, and not 204), it decodes. A success keeps the
   * response and holds a decoded value iff there is a target and the status
   * is not 204.
   */
  lemma DecideSuccess<T>(resp: Http.Response, target: Option<Target<T>>,
                         decodeError: Http.Bytes -> Result<ApiError, string>)
    ensures var r := Decide(Http.Received(resp), target, decodeError);
      && (r.Ok? <==> IsSuccess(resp.status) && (target.None? || resp.status == Http.StatusNoContent || target.value(resp.body).Ok?))
      && (r.Ok? ==> r.value.response == resp)
      && (r.Ok? ==> (r.value.decoded.Some? <==> target.Some? && resp.status != Http.StatusNoContent))
      && (r.Ok? && r.value.decoded.Some? ==> target.value(resp.body) == Ok(r.value.decoded.value))
  {
  }

  /**
   * Do's error is an errorResponse iff a response outside the success band
   * arrived and, for 400, 409 and 403, its body decoded; that errorResponse
   * holds the very response, so HTTPResponse gives back its status.
   */
  lemma DecideApiError<T>(out: Http.Outcome, target: Option<Target<T>>,
                          decodeError: Http.Bytes -> Result<ApiError, string>)
    ensures var r := Decide(out, target, decodeError);
      (r.Err? && AsErrorResponse(r.error).Some?)
      <==> (out.Received? && !IsSuccess(out.response.status)
            && (HasErrorBody(out.response.status) ==> decodeError(out.response.body).Ok?))
    ensures var r := Decide(out, target, decodeError);
      r.Err? && AsErrorResponse(r.error).Some? ==>
        HTTPResponse(AsErrorResponse(r.error).value) == out.response
        && HTTPResponse(AsErrorResponse(r.error).value).status == out.response.status
  {
  }

  /** Without a target (the Delete verb) nothing is ever decoded on success. */
  lemma DecideWithoutTarget<T>(out: Http.Outcome, decodeError: Http.Bytes -> Result<ApiError, string>)
    ensures var r := Decide<T>(out, None, decodeError); r.Ok? ==> r.value.decoded.None?
  {
  }

  /** One more key of m taken out of the keys still to process. */
  lemma MarkDone<K, V>(m: map<K, V>, remaining: set<K>, k: K)
    requires k in remaining && remaining <= m.Keys
    ensures (m - remaining)[k := m[k]] == m - (remaining - {k})
  {
  }

  /** The default writes of NewRequest, one Header.Set after another, give the defaults of RequestHeaders. */
  lemma DefaultHeaderWrites(hasBody: bool, host: string, date: HttpDate)
    ensures var header: map<string, string> := if hasBody then map["Content-Type" := VendorJson] else map[];
      header["Host" := host]["Date" := date]["Accept" := VendorJson]["User-Agent" := UserAgent]
      == RequestHeaders(hasBody, host, date, map[])
  {
  }

  lemma RequestHeadersSplit(hasBody: bool, host: string, date: HttpDate, custom: map<string, string>)
    ensures RequestHeaders(hasBody, host, date, custom) == RequestHeaders(hasBody, host, date, map[]) + custom
  {
  }

  /** The loop of NewRequest over the query pairs: q.Add(k, v) for each pair, in any order. */
  method AddQuery(q0: Http.Values, query: map<string, string>) returns (q: Http.Values)
    ensures q == Http.AddAll(q0, query)
  {
    q := q0;
    var remaining := query.Keys;
    assert query - remaining == map[];
    Http.AddAllEmpty(q0);
    while remaining != {}
      invariant remaining <= query.Keys
      invariant q == Http.AddAll(q0, query - remaining)
      decreases remaining
    {
      var k :| k in remaining;
      Http.AddAllStep(q0, query - remaining, k, query[k]);
      MarkDone(query, remaining, k);
      q := Http.Add(q, k, query[k]);
      remaining := remaining - {k};
    }
    assert query - {} == query;
  }

  /** The loop of NewRequest over the client's headers: Header.Set(k, v) for each, in any order. */
  method SetHeaders(header0: map<string, string>, custom: map<string, string>) returns (header: map<string, string>)
    ensures header == header0 + custom
  {
    header := header0;
    var remaining := custom.Keys;
    assert custom - remaining == map[];
    assert header0 + map[] == header0;
    while remaining != {}
      invariant remaining <= custom.Keys
      invariant header == header0 + (custom - remaining)
      decreases remaining
    {
      var k :| k in remaining;
      MarkDone(custom, remaining, k);
      header := header[k := custom[k]];
      remaining := remaining - {k};
    }
    assert custom - {} == custom;
  }

  /** The query step of NewRequest: the pairs added when there are any. */
  method WithQuery(u0: Http.Url, query: map<string, string>) returns (u: Http.Url)
    ensures u == u0.(query := Http.AddAll(u0.query, query))
  {
    u := u0;
    if |query| > 0 {
      var q := AddQuery(u.query, query);
      u := u.(query := q);
    } else {
      assert query == map[];
      Http.AddAllEmpty(u.query);
    }
  }

  /** The header writes of NewRequest: Content-Type for a body, the four defaults, then the client's headers. */
  method BuildHeaders(hasBody: bool, host: string, date: HttpDate, custom: map<string, string>)
    returns (header: map<string, string>)
    ensures header == RequestHeaders(hasBody, host, date, custom)
  {
    header := map[];
    if hasBody {
      header := header["Content-Type" := VendorJson];
    }
    header := header["Host" := host];
    header := header["Date" := date];
    header := header["Accept" := VendorJson];
    header := header["User-Agent" := UserAgent];
    DefaultHeaderWrites(hasBody, host, date);
    assert header == RequestHeaders(hasBody, host, date, map[]);
    if |custom| > 0 {
      header := SetHeaders(header, custom);
    } else {
      assert custom == map[];
      assert header + custom == header;
    }
    RequestHeadersSplit(hasBody, host, date, custom);
  }

  // ----- the client -----

  class Client {
    /** The underlying http.Client. */
    var transport: Http.Transport
    /** The base form3 endpoint; request paths are resolved against it. */
    var baseUrl: Http.Url
    /** Headers set on every request after the defaults. */
    var headers: map<string, string>

    /** The client New starts from, before any option. */
    constructor (network: Http.Transport)
      ensures transport == network && baseUrl == DefaultBaseUrl && headers == map[]
    {
      transport := network;
      baseUrl := DefaultBaseUrl;
      headers := map[];
    }

    function Config(): ClientOpt.Config
      reads this
    {
      ClientOpt.Config(transport, baseUrl, headers)
    }

    /** NewRequest: builds the request for a path, query pairs and an optional body. */
    method NewRequest(verb: string, path: string, query: map<string, string>, body: Option<EncodedBody>, env: Env)
      returns (r: Result<Http.Request, Error>)
      ensures r == RequestFor(baseUrl, headers, verb, path, query, body, env)
    {
      var p := path;
      if !HasPrefix(p, "/") {
        p := "/" + p;
      }
      assert p == NormalizePath(path);
      var parsed := env.resolve(baseUrl, p);
      if parsed.Err? {
        return Err(Wrapped("parse url", Opaque(parsed.error)));
      }
      var u := WithQuery(parsed.value, query);

      var buf: Option<Http.Bytes> := None;
      if body.Some? {
        if body.value.Err? {
          return Err(Wrapped("encode body", Opaque(body.value.error)));
        }
        buf := Some(body.value.value);
      }

      var header := BuildHeaders(body.Some?, baseUrl.host, env.date, headers);
      return Ok(Http.Request(verb, u, header, buf));
    }
    /** Do: one send, then the classification of what came back. */
    method Do<T>(req: Http.Request, target: Option<Target<T>>, env: Env) returns (r: Result<Reply<T>, Error>)
      modifies transport
      ensures transport.sent == old(transport.sent) + [req]
      ensures r == Decide(transport.respond(req), target, env.decodeError)
    {
      var out := transport.Send(req);
      r := Decide(out, target, env.decodeError);
    }

    /** Get: a GET request without a body, decoded into the target. */
    method Get<T>(path: string, query: map<string, string>, target: Option<Target<T>>, env: Env)
      returns (r: Result<Reply<T>, Error>)
      modifies transport
      ensures match RequestFor(baseUrl, headers, Http.MethodGet, path, query, None, env)
        case Err(e) => r == Err(Wrapped("create request", e)) && transport.sent == old(transport.sent)
        case Ok(req) =>
          transport.sent == old(transport.sent) + [req] && r == Decide(transport.respond(req), target, env.decodeError)
    {
      var built := NewRequest(Http.MethodGet, path, query, None, env);
      if built.Err? {
        return Err(Wrapped("create request", built.error));
      }
      r := Do(built.value, target, env);
    }

    /** Post: a POST request with an optional body and no query, decoded into the target. */
    method Post<T>(path: string, body: Option<EncodedBody>, target: Option<Target<T>>, env: Env)
      returns (r: Result<Reply<T>, Error>)
      modifies transport
      ensures match RequestFor(baseUrl, headers, Http.MethodPost, path, map[], body, env)
        case Err(e) => r == Err(Wrapped("create request", e)) && transport.sent == old(transport.sent)
        case Ok(req) =>
          transport.sent == old(transport.sent) + [req] && r == Decide(transport.respond(req), target, env.decodeError)
    {
      var built := NewRequest(Http.MethodPost, path, map[], body, env);
      if built.Err? {
        return Err(Wrapped("create request", built.error));
      }
      r := Do(built.value, target, env);
    }

    /** Delete: a DELETE request without a body; the response is never decoded. */
    method Delete(path: string, query: map<string, string>, env: Env) returns (r: Result<Http.Response, Error>)
      modifies transport
      ensures match RequestFor(baseUrl, headers, Http.MethodDelete, path, query, None, env)
        case Err(e) => r == Err(Wrapped("create request", e)) && transport.sent == old(transport.sent)
        case Ok(req) =>
          transport.sent == old(transport.sent) + [req]
          && r == ResponseOf(Decide<()>(transport.respond(req), None, env.decodeError))
    {
      var built := NewRequest(Http.MethodDelete, path, query, None, env);
      if built.Err? {
        return Err(Wrapped("create request", built.error));
      }
      var done := Do<()>(built.value, None, env);
      r := ResponseOf(done);
    }

    // ----- options (client_opt.go) -----

    /** WithHTTPClient applied: replaces the transport, never fails. */
    method ApplyHTTPClient(hc: Http.Transport) returns (err: Option<Error>)
      modifies this
      ensures err == None && Config() == old(Config()).(transport := hc)
    {
      transport := hc;
      err := None;
    }

    /** WithBaseURL applied: replaces the base URL, or reports the parse error and changes nothing. */
    method ApplyBaseURL(base: string, parse: ClientOpt.UrlParser) returns (err: Option<Error>)
      modifies this
      ensures match parse(base)
        case Ok(u) => err == None && Config() == old(Config()).(baseUrl := u)
        case Err(m) => err == Some(Wrapped("base url opt", Opaque(m))) && Config() == old(Config())
    {
      var u := parse(base);
      if u.Err? {
        return Some(Wrapped("base url opt", Opaque(u.error)));
      }
      baseUrl := u.value;
      err := None;
    }

    /** WithHTTPRequestHeaders applied: writes every given pair into the headers, never fails. */
    method ApplyHTTPRequestHeaders(h: map<string, string>) returns (err: Option<Error>)
      modifies this
      ensures err == None && Config() == old(Config()).(headers := old(headers) + h)
    {
      var remaining := h.Keys;
      while remaining != {}
        invariant remaining <= h.Keys
        invariant transport == old(transport) && baseUrl == old(baseUrl)
        invariant headers == old(headers) + (h - remaining)
        decreases remaining
      {
        var k :| k in remaining;
        MarkDone(h, remaining, k);
        headers := headers[k := h[k]];
        remaining := remaining - {k};
      }
      assert h - {} == h;
      err := None;
    }

    /** An option applied to this client, as ClientOpt.ApplyOpt describes it; a failing option changes nothing. */
    method Apply(opt: ClientOpt.Opt, parse: ClientOpt.UrlParser) returns (err: Option<Error>)
      modifies this
      ensures match ClientOpt.ApplyOpt(old(Config()), opt, parse)
        case Ok(c) => err == None && Config() == c
        case Err(e) => err == Some(e) && Config() == old(Config())
    {
      match opt
      case WithHTTPClient(t) => err := ApplyHTTPClient(t);
      case WithBaseURL(base) => err := ApplyBaseURL(base, parse);
      case WithHTTPRequestHeaders(h) => err := ApplyHTTPRequestHeaders(h);
    }
  }

  /**
   * New: a client on the default base URL with no extra headers, the options
   * applied in order; the first failing option aborts and no client is returned.
   */
  method New(network: Http.Transport, opts: seq<ClientOpt.Opt>, parse: ClientOpt.UrlParser)
    returns (r: Result<Client, Error>)
    ensures match ClientOpt.ApplyAll(ClientOpt.Config(network, DefaultBaseUrl, map[]), opts, parse)
      case Ok(cfg) => r.Ok? && fresh(r.value) && r.value.Config() == cfg
      case Err(e) => r == Err(Wrapped("apply options", e))
  {
    var c := new Client(network);
    ghost var init := c.Config();
    var i := 0;
    while i < |opts|
      invariant 0 <= i <= |opts|
      invariant fresh(c)
      invariant ClientOpt.ApplyAll(init, opts[..i], parse) == Ok(c.Config())
    {
      var err := c.Apply(opts[i], parse);
      ClientOpt.ApplyAllSnoc(init, opts[..i], opts[i], parse);
      assert opts[..i + 1] == opts[..i] + [opts[i]];
      if err.Some? {
        ClientOpt.ApplyAllAppend(init, opts[..i + 1], opts[i + 1..], parse);
        assert opts[..i + 1] + opts[i + 1..] == opts;
        return Err(Wrapped("apply options", err.value));
      }
      i := i + 1;
    }
    assert opts[..|opts|] == opts;
    return Ok(c);
  }
}
