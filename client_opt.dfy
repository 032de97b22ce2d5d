/**
 * The configuration options of the HTTP client (client_opt.go), as values:
 * what each option does to the client's configuration, and applying a list
 * of options in order with the first failure aborting (the loop in New).
 */
module ClientOpt {
  import opened Wrappers
  import Http
  import Errors

  /** The three fields of a Client that options set. */
  datatype Config = Config(transport: Http.Transport, baseUrl: Http.Url, headers: map<string, string>)

  /** url.Parse, which the client calls but does not implement. */
  type UrlParser = string -> Result<Http.Url, string>

  /** The options the package offers. */
  datatype Opt =
    | WithHTTPClient(client: Http.Transport)
    | WithBaseURL(base: string)
    | WithHTTPRequestHeaders(headers: map<string, string>)

  /** One option applied to a configuration: the new configuration, or the option's error. */
  function ApplyOpt(c: Config, opt: Opt, parse: UrlParser): Result<Config, Errors.Error> {
    match opt
    case WithHTTPClient(t) => Ok(c.(transport := t))
    case WithBaseURL(base) =>
      (match parse(base)
       case Ok(u) => Ok(c.(baseUrl := u))
       case Err(m) => Err(Errors.Wrapped("base url opt", Errors.Opaque(m))))
    case WithHTTPRequestHeaders(h) => Ok(c.(headers := c.headers + h))
  }

  /** The options applied left to right; the first one that fails ends the run with its error. */
  function ApplyAll(c: Config, opts: seq<Opt>, parse: UrlParser): Result<Config, Errors.Error>
    decreases |opts|
  {
    if opts == [] then Ok(c)
    else match ApplyOpt(c, opts[0], parse)
      case Err(e) => Err(e)
      case Ok(c') => ApplyAll(c', opts[1..], parse)
  }

  /** Applying xs + ys is applying xs, then ys to what that gave. */
  lemma {:induction false} ApplyAllAppend(c: Config, xs: seq<Opt>, ys: seq<Opt>, parse: UrlParser)
    ensures ApplyAll(c, xs + ys, parse) ==
      match ApplyAll(c, xs, parse)
      case Err(e) => Err(e)
      case Ok(c') => ApplyAll(c', ys, parse)
    decreases |xs|
  {
    if xs == [] {
      assert xs + ys == ys;
    } else {
      assert (xs + ys)[0] == xs[0];
      assert (xs + ys)[1..] == xs[1..] + ys;
      match ApplyOpt(c, xs[0], parse)
      case Err(e) =>
      case Ok(c') => ApplyAllAppend(c', xs[1..], ys, parse);
    }
  }

  /** The step the loop in New takes: one more option after a prefix. */
  lemma ApplyAllSnoc(c: Config, opts: seq<Opt>, opt: Opt, parse: UrlParser)
    ensures ApplyAll(c, opts + [opt], parse) ==
      match ApplyAll(c, opts, parse)
      case Err(e) => Err(e)
      case Ok(c') => ApplyOpt(c', opt, parse)
  {
    ApplyAllAppend(c, opts, [opt], parse);
    match ApplyAll(c, opts, parse)
    case Err(e) =>
    case Ok(c') => assert ApplyAll(c', [opt], parse) == ApplyOpt(c', opt, parse);
  }

  /** Option i is the first to fail: every option before it was applied in order. */
  ghost predicate FailsAt(c: Config, opts: seq<Opt>, i: int, parse: UrlParser)
    requires 0 <= i < |opts|
  {
    && ApplyAll(c, opts[..i], parse).Ok?
    && ApplyOpt(ApplyAll(c, opts[..i], parse).value, opts[i], parse).Err?
    && ApplyAll(c, opts, parse) == Err(ApplyOpt(ApplyAll(c, opts[..i], parse).value, opts[i], parse).error)
  }

  /** A failing run failed at some option, after applying all the ones before it, and carries that option's error. */
  lemma {:induction false} FirstFailureAborts(c: Config, opts: seq<Opt>, parse: UrlParser)
    requires ApplyAll(c, opts, parse).Err?
    ensures exists i :: 0 <= i < |opts| && FailsAt(c, opts, i, parse)
    decreases |opts|
  {
    assert opts != [];
    match ApplyOpt(c, opts[0], parse)
    case Err(e) =>
      assert opts[..0] == [];
      assert FailsAt(c, opts, 0, parse);
    case Ok(c') =>
      FirstFailureAborts(c', opts[1..], parse);
      var i :| 0 <= i < |opts[1..]| && FailsAt(c', opts[1..], i, parse);
      assert opts[..i + 1] == [opts[0]] + opts[1..][..i];
      ApplyAllAppend(c, [opts[0]], opts[1..][..i], parse);
      assert ApplyAll(c, [opts[0]], parse) == Ok(c') by {
        assert [opts[0]][1..] == [];
      }
      assert opts[i + 1] == opts[1..][i];
      assert FailsAt(c, opts, i + 1, parse);
  }

  /** Options other than WithBaseURL cannot fail. */
  ghost predicate Infallible(opt: Opt) {
    !opt.WithBaseURL?
  }

  lemma {:induction false} InfallibleOptionsSucceed(c: Config, opts: seq<Opt>, parse: UrlParser)
    requires forall i :: 0 <= i < |opts| ==> Infallible(opts[i])
    ensures ApplyAll(c, opts, parse).Ok?
    decreases |opts|
  {
    if opts != [] {
      assert Infallible(opts[0]);
      InfallibleOptionsSucceed(ApplyOpt(c, opts[0], parse).value, opts[1..], parse);
    }
  }

  /** WithHTTPRequestHeaders sets every given key and keeps every other key's value. */
  lemma HeadersOptionMerges(c: Config, h: map<string, string>, parse: UrlParser)
    ensures var r := ApplyOpt(c, WithHTTPRequestHeaders(h), parse);
      && r.Ok?
      && r.value.transport == c.transport && r.value.baseUrl == c.baseUrl
      && r.value.headers.Keys == c.headers.Keys + h.Keys
      && (forall k :: k in h ==> k in r.value.headers && r.value.headers[k] == h[k])
      && (forall k :: k in c.headers && k !in h ==> k in r.value.headers && r.value.headers[k] == c.headers[k])
  {
  }

  /** Two header options in a row: the later value wins wherever both set a key. */
  lemma LaterHeadersWin(c: Config, a: map<string, string>, b: map<string, string>, parse: UrlParser)
    ensures var r := ApplyAll(c, [WithHTTPRequestHeaders(a), WithHTTPRequestHeaders(b)], parse);
      && r.Ok?
      && (forall k :: k in b ==> k in r.value.headers && r.value.headers[k] == b[k])
      && (forall k :: k in a && k !in b ==> k in r.value.headers && r.value.headers[k] == a[k])
  {
    var opts := [WithHTTPRequestHeaders(a), WithHTTPRequestHeaders(b)];
    var c1 := c.(headers := c.headers + a);
    var c2 := c1.(headers := c1.headers + b);
    assert ApplyOpt(c, opts[0], parse) == Ok(c1);
    assert ApplyOpt(c1, opts[1..][0], parse) == Ok(c2);
    assert opts[1..][1..] == [];
    assert ApplyAll(c1, opts[1..], parse) == Ok(c2);
  }

  /** WithHTTPClient replaces only the transport. */
  lemma HTTPClientOptionReplacesTransport(c: Config, t: Http.Transport, parse: UrlParser)
    ensures ApplyOpt(c, WithHTTPClient(t), parse) == Ok(Config(t, c.baseUrl, c.headers))
  {
  }

  /** WithBaseURL fails exactly when parsing fails; otherwise it replaces only the base URL. */
  lemma BaseURLOption(c: Config, base: string, parse: UrlParser)
    ensures ApplyOpt(c, WithBaseURL(base), parse).Err? <==> parse(base).Err?
    ensures parse(base).Ok? ==> ApplyOpt(c, WithBaseURL(base), parse) == Ok(Config(c.transport, parse(base).value, c.headers))
  {
  }
}
