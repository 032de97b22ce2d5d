# form3-http-go, modelled in Dafny

This project models the core of form3-http-go, a Go client library for the
Form3 accounts API. It has two layers:

- **The HTTP client** (`pkg/client`):
  - It builds requests against a base URL. It puts a `/` in front of a relative path, adds the query pairs to the URL's query and JSON-encodes an optional body.
  - It sets the `Content-Type` header (only when there is a body), then `Host`, `Date`, `Accept` and `User-Agent`, then the client's own headers, which override the defaults.
  - It sends the request through an injectable HTTP client.
  - It classifies the response. Statuses 200 to 204 succeed. For 400, 409 and 403 the JSON error body is decoded into an `apiError`. Every other status gives an `errorResponse` that holds no underlying error.
  - It decodes a successful body into the caller's target, except on 204 and when there is no target.
  - It is configured by functional options (`WithHTTPClient`, `WithBaseURL`, `WithHTTPRequestHeaders`). `New` applies them in order, and the first failing option aborts construction.
- **The accounts client** (`pkg/account`):
  - The `Account` and `Attributes` entities, with their fluent `With…` setters.
  - `Create`, `Fetch` and `Delete` on `/v1/organisation/accounts/`. Each makes one call on a base client offering Get, Post and Delete, and wraps its error with the operation's name, except that `Create` of a nil account makes no call and returns an unwrapped error.

## Modules

| file | module | what it holds |
|---|---|---|
| `wrappers.dfy` | `Wrappers` | `Option` and `Result` |
| `decimal.dfy` | `Decimal` | `%d` formatting of integers and its inverse |
| `http.dfy` | `Http` | requests, responses, `url.Values.Add`, and the transport (the `httpClient` interface) as a class with a log of what was sent |
| `errors.dfy` | `Errors` | `apiError` and `errorResponse` with their `Error()` texts, the error chain built by `fmt.Errorf("…: %w")` and `errors.As` |
| `client_opt.dfy` | `ClientOpt` | the options as values, and applying a list of them |
| `client.dfy` | `HttpClient` | the `Client` class: `NewRequest`, `Do`, `Get`, `Post`, `Delete`, the options applied in place, and `New` |
| `account.dfy` | `Account` | the `Account` and `Attributes` classes with their setters, and the response and parameter types |
| `account_client.dfy` | `AccountClient` | the base-client interface as a class with a call log, and the accounts `Client` |

Whatever the client takes from libraries or the outside world is a parameter of the model:

- The JSON encoder is represented by the `EncodedBody` it produces: the bytes, or the encoder's error.
- The JSON decoders are functions from bytes to a value or an error: the `Target<T>` for the caller's target, and `Env.decodeError` for `apiError`.
- `url.URL.Parse` (resolving a reference against the base URL) is `Env.resolve`.
- `url.Parse` is the `UrlParser` given to the options.
- The clock reading, already formatted with Go's `time.RFC850` layout, is `Env.date`.
- The network is the transport's `respond` function.
- `uuid.NewString()` is the `generated` argument of `NewAccountWithID`.
- The accounts client's base client is `AccountClient.BaseClient`:
  - its `reply` function says what each call returns;
  - its `calls` log shows what was asked of it.

## Model

| member | source | states |
|---|---|---|
| Decimal.FromNat | pkg/client/errors.go:55-60 | the decimal text of a natural is non-empty, all digits, and has no leading zero unless the number is 0 |
| Decimal.FromInt | pkg/account/client/client.go:100-102 | `%d` of an integer is never empty |
| Decimal.NatRoundTrip | pkg/account/client/client.go:100-102 | reading back the decimal text of a natural gives the natural |
| Decimal.IntRoundTrip | pkg/account/client/client.go:100-102 | `%d` of any integer, negative ones included, parses back to that integer |
| Http.Add | pkg/client/client.go:152-155 | `url.Values.Add` appends the value to the key's list and leaves every other key as it was |
| Http.AddAllEmpty | pkg/client/client.go:151-158 | adding no pairs leaves the query as it was |
| Http.AddAllContains | pkg/client/client.go:151-158 | after adding the pairs, each pair's value comes after that key's earlier values, and keys not among the pairs keep their values |
| Http.AddAllStep | pkg/client/client.go:153-155 | one more `q.Add(k, v)` extends the query added so far by that pair, whatever order the map is walked in |
| Http.Transport.Send | pkg/client/client.go:202 | a send logs the request and returns the network's outcome for it |
| Errors.ApiErrorText | pkg/client/errors.go:19-42 | an `apiError` text is never empty |
| Errors.ApiErrorTextAllAbsent | pkg/client/errors.go:37-39 | with no field present the text is "unknown error" |
| Errors.ApiErrorTextMessageOnly | pkg/client/errors.go:20-23 | with only a non-empty message the text is exactly that message |
| Errors.ApiErrorTextAllPresent | pkg/client/errors.go:19-42 | with all four fields present the text is the message, then ": code: ", ": error: " and ": desc: " with their values, in that order |
| Errors.ApiErrorTextStartsWithMessage | pkg/client/errors.go:20-35 | a present non-empty message starts the text |
| Errors.ApiErrorTextStartsWithLabel | pkg/client/errors.go:25-35 | with no message or an empty one, the text starts with the label of the first field present |
| Errors.ApiErrorTextErrorAndDescription | pkg/client/errors.go:29-35 | the 403 shape (an error and a description, no message) reads ": error: x: desc: d" |
| Errors.HTTPResponse | pkg/client/errors.go:50-52 | no ensures; `HttpClient.DecideApiError` states that it gives back the very response that was classified |
| Errors.ErrorResponseText | pkg/client/errors.go:54-67 | no ensures; `ErrorResponseTextStartsWithStatusLine` and `ErrorResponseTextExtendsIffUnderlying` state it |
| Errors.AsErrorResponse | pkg/client/client_test.go:445-449 | no ensures; `WrapAllKeepsErrorResponse`, `OperationErrorUnwraps`, `ErrorBodyStatuses` and `DecideApiError` state what `errors.As` finds |
| Errors.ErrorResponseTextStartsWithStatusLine | pkg/client/errors.go:54-60 | an `errorResponse` text starts with "METHOD URL returned status CODE" |
| Errors.ErrorResponseTextExtendsIffUnderlying | pkg/client/errors.go:62-66 | text follows the status line iff there is an underlying error, and that text is ": " plus the underlying error's text |
| Errors.WrapAllKeepsErrorResponse | pkg/account/client/client.go:72-75 | any number of `%w` wrappings keep the `errorResponse` reachable by `errors.As` |
| Errors.WrapAllText | pkg/account/client/client.go:104-107 | a wrapped error's text is each context followed by ": ", then the cause's text, so it ends with the cause's text |
| ClientOpt.ApplyOpt | pkg/client/client_opt.go:18-48 | no ensures; `HTTPClientOptionReplacesTransport`, `BaseURLOption` and `HeadersOptionMerges` state the three options, and `HttpClient.Client.Apply` is proved against it |
| ClientOpt.ApplyAll | pkg/client/client.go:72-77 | no ensures; `ApplyAllAppend`, `ApplyAllSnoc`, `FirstFailureAborts`, `InfallibleOptionsSucceed` and `LaterHeadersWin` state it, and `HttpClient.New` is proved against it |
| ClientOpt.ApplyAllAppend | pkg/client/client.go:72-77 | applying xs + ys is applying xs, then ys to the result unless xs failed |
| ClientOpt.ApplyAllSnoc | pkg/client/client.go:72-77 | one more option after a prefix is applied to the prefix's result, unless the prefix already failed |
| ClientOpt.FirstFailureAborts | pkg/client/client.go:72-77 | a failing run stops at some option i: every option before i applied, i failed, and the run's error is i's error |
| ClientOpt.InfallibleOptionsSucceed | pkg/client/client_opt.go:18-48 | without `WithBaseURL` the options never fail |
| ClientOpt.HeadersOptionMerges | pkg/client/client_opt.go:41-48 | `WithHTTPRequestHeaders` sets every given key, keeps every other header, and touches only the headers |
| ClientOpt.LaterHeadersWin | pkg/client/client_opt.go:41-48 | of two header options, the later value wins for a key both set |
| ClientOpt.HTTPClientOptionReplacesTransport | pkg/client/client_opt.go:18-23 | `WithHTTPClient` replaces only the HTTP client and never fails |
| ClientOpt.BaseURLOption | pkg/client/client_opt.go:28-38 | `WithBaseURL` fails iff the URL does not parse; otherwise it replaces only the base URL |
| HttpClient.NormalizePathProperties | pkg/client/client.go:140-143 | the normalised path (before resolution against the base URL) always starts with "/", a path that already did is unchanged, and normalising is idempotent |
| HttpClient.DefaultHeadersPresent | pkg/client/client.go:179-183 | Host (the base URL's host), Date (non-empty), Accept (the vendor type) and User-Agent ("form3-http-go/0.1.0") are set unless the client's headers replace them |
| HttpClient.CustomHeadersOverride | pkg/client/client.go:185-190 | every client header is sent with its own value, overriding a default of the same name |
| HttpClient.ContentTypeIffBody | pkg/client/client.go:174-177 | unless the client's headers set Content-Type, it is sent iff there is a body, and its value is then the vendor type |
| HttpClient.HeaderKeys | pkg/client/client.go:174-190 | no headers are sent beyond Content-Type (only with a body), the four defaults and the client's own |
| HttpClient.RequestFor | pkg/client/client.go:133-193 | no ensures; `RequestForFailure`, `RequestForShape` and the header lemmas state it, and `HttpClient.Client.NewRequest` is proved against it |
| HttpClient.RequestForFailure | pkg/client/client.go:145-167 | building a request fails iff the path does not resolve or the body does not encode |
| HttpClient.RequestForShape | pkg/client/client.go:145-192 | a built request has the method, the resolved URL with each query pair appended (and the URL untouched without pairs), the encoded body exactly when one was given, and the headers above |
| HttpClient.MaybeApiError | pkg/client/client.go:226-252 | no ensures; `SuccessBand`, `ErrorBodyStatuses` and `OtherErrorStatuses` state it |
| HttpClient.Decide | pkg/client/client.go:202-220 | no ensures; `DecideTransportFailure`, `DecideSuccess`, `DecideApiError` and `DecideWithoutTarget` state it, and `HttpClient.Client.Do` is proved against it |
| HttpClient.SuccessBand | pkg/client/client.go:226-231 | no API error iff 200 <= status <= 204 |
| HttpClient.ErrorBodyStatuses | pkg/client/client.go:233-249 | for 400, 409 and 403 the result is an `errorResponse` holding the decoded body, or a decode error naming the status that `errors.As` does not see as an `errorResponse` |
| HttpClient.OtherErrorStatuses | pkg/client/client.go:233-251 | any other status outside the success band gives an `errorResponse` with no underlying error, and its body is not read |
| HttpClient.DecideTransportFailure | pkg/client/client.go:202-205 | a transport error gives a "do request" error and no response |
| HttpClient.DecideSuccess | pkg/client/client.go:207-220 | Do succeeds iff the status is a success and the body decodes where it is decoded; the body is decoded iff there is a target and the status is not 204; the response is returned unchanged |
| HttpClient.DecideApiError | pkg/client/client.go:208-211 | Do's error is an `errorResponse` iff a response outside the success band arrived and, for 400/409/403, its body decoded; `HTTPResponse` then gives back that response |
| HttpClient.DecideWithoutTarget | pkg/client/client.go:128 | with no target nothing is decoded |
| HttpClient.AddQuery | pkg/client/client.go:151-158 | the loop over the query pairs gives the query with every pair added |
| HttpClient.WithQuery | pkg/client/client.go:150-158 | the URL after the query step is the resolved URL with every pair added to its query, and is unchanged when there are no pairs |
| HttpClient.BuildHeaders | pkg/client/client.go:174-190 | the Header.Set calls of NewRequest, in order, give exactly the headers described above |
| HttpClient.SetHeaders | pkg/client/client.go:186-190 | the loop over the client's headers writes each over what was there |
| HttpClient.Client.constructor | pkg/client/client.go:61-70 | a fresh client has the given HTTP client, the default base URL `https://api.form3.tech` and no headers |
| HttpClient.Client.NewRequest | pkg/client/client.go:133-193 | the step-by-step construction equals the request described by the lemmas above, or the "parse url" or "encode body" error |
| HttpClient.Client.Do | pkg/client/client.go:201-221 | exactly one request is sent, and the result is the response classification above |
| HttpClient.Client.Get | pkg/client/client.go:85-97 | a GET without a body: it is sent once, or a "create request" error is returned and nothing is sent |
| HttpClient.Client.Post | pkg/client/client.go:103-115 | a POST with the body and no query: it is sent once, or a "create request" error is returned and nothing is sent |
| HttpClient.Client.Delete | pkg/client/client.go:118-129 | a DELETE without a body or a target: it is sent once, or a "create request" error is returned and nothing is sent |
| HttpClient.Client.ApplyHTTPClient | pkg/client/client_opt.go:18-23 | the HTTP client is replaced and nothing else changes |
| HttpClient.Client.ApplyBaseURL | pkg/client/client_opt.go:28-38 | the base URL is replaced, or the "base url opt" error is returned and the client is unchanged |
| HttpClient.Client.ApplyHTTPRequestHeaders | pkg/client/client_opt.go:41-48 | the loop writes each given header into the client's headers and nothing else changes |
| HttpClient.Client.Apply | pkg/client/client_opt.go:10 | applying an option in place matches `ClientOpt.ApplyOpt`, and a failing option leaves the client unchanged |
| HttpClient.New | pkg/client/client.go:60-80 | the client returned is configured as `ApplyAll` of the options on the defaults, or construction fails with "apply options" and the first failing option's error |
| Account.Attributes.NewAttributes | pkg/account/attributes.go:25-30 | base currency and country set, every other field empty or absent |
| Account.Attributes.WithAccountClassification | pkg/account/attributes.go:33-36 | the classification is set, the same object is returned, nothing else changes |
| Account.Attributes.WithAccountMatchingOptOut | pkg/account/attributes.go:39-42 | the opt-out is set, the same object is returned, nothing else changes |
| Account.Attributes.WithAccountNumber | pkg/account/attributes.go:45-48 | the account number is set, the same object is returned, nothing else changes |
| Account.Attributes.WithBankID | pkg/account/attributes.go:51-54 | the bank ID is set, the same object is returned, nothing else changes |
| Account.Attributes.WithBankIDCode | pkg/account/attributes.go:57-60 | the bank ID code is set, the same object is returned, nothing else changes |
| Account.Attributes.WithBaseCurrency | pkg/account/attributes.go:63-66 | the base currency is set, the same object is returned, nothing else changes |
| Account.Attributes.WithBic | pkg/account/attributes.go:69-72 | the BIC is set, the same object is returned, nothing else changes |
| Account.Attributes.WithCountry | pkg/account/attributes.go:75-78 | the country is set, the same object is returned, nothing else changes |
| Account.Attributes.WithIban | pkg/account/attributes.go:81-84 | the IBAN is set, the same object is returned, nothing else changes |
| Account.Attributes.WithJointAccount | pkg/account/attributes.go:87-90 | the joint-account flag is set, the same object is returned, nothing else changes |
| Account.Attributes.WithSecondaryIdentification | pkg/account/attributes.go:93-96 | the secondary identification is set, the same object is returned, nothing else changes |
| Account.Attributes.WithStatus | pkg/account/attributes.go:99-102 | the status is set, the same object is returned, nothing else changes |
| Account.Attributes.WithSwitched | pkg/account/attributes.go:105-108 | the switched flag is set, the same object is returned, nothing else changes |
| Account.Attributes.WithCustomerID | pkg/account/attributes.go:111-114 | the customer ID is set, the same object is returned, nothing else changes |
| Account.Attributes.WithName | pkg/account/attributes.go:117-120 | the name is appended after the earlier names, which keep their order; nothing else changes |
| Account.Account.New | pkg/account/account.go:36-41 | an account of type "accounts" with only the organisation ID set |
| Account.Account.NewAccountWithID | pkg/account/account.go:25-31 | the same, plus the generated ID, which is non-empty |
| Account.Account.WithID | pkg/account/account.go:44-47 | the ID is set, the same object is returned, nothing else changes |
| Account.Account.WithOrganisationID | pkg/account/account.go:50-53 | the organisation ID is set, the same object is returned, nothing else changes |
| Account.Account.WithAttributes | pkg/account/account.go:56-59 | the account points at the given attributes object, the same account is returned, nothing else changes |
| Account.BuildAccount | pkg/account/client/client_test.go:46-47 | a chained build gives an account with the ID, organisation, type "accounts" and the very attributes object built |
| AccountClient.BaseClient.Get | pkg/account/client/client.go:25-30 | a base Get is logged with its path and query, and returns the base client's reply |
| AccountClient.BaseClient.Post | pkg/account/client/client.go:31-36 | a base Post is logged with its path and body, and returns the base client's reply |
| AccountClient.BaseClient.Delete | pkg/account/client/client.go:37-41 | a base Delete is logged with its path and query, and returns the base client's reply |
| AccountClient.AccountPath | pkg/account/client/client.go:87 | an account's path is the collection path followed by the ID, and the ID can be read back from it |
| AccountClient.AccountPathInjective | pkg/account/client/client.go:104 | two IDs give the same path iff they are equal |
| AccountClient.DeleteQueryCarriesVersion | pkg/account/client/client.go:100-102 | the delete query has exactly the key "version", and its value parses back to the version |
| AccountClient.DeleteQueryInjective | pkg/account/client/client.go:100-102 | different versions give different delete queries |
| AccountClient.OperationErrorUnwraps | pkg/account/client/client.go:73-75 | an operation's wrapped error still unwraps to the same `errorResponse`, and its text is the operation's name, ": " and the cause's text |
| AccountClient.Client.New | pkg/account/client/client.go:56-58 | the client is bound to the given base client |
| AccountClient.Client.Create | pkg/account/client/client.go:61-78 | a nil account is refused with "account entity is nil" and no call; otherwise there is exactly one Post of the account to the collection path, and the result is the decoded response or "create account" wrapping the base error |
| AccountClient.Client.Fetch | pkg/account/client/client.go:81-93 | exactly one Get of the account's path with no query; the result is the decoded response or "fetch account" wrapping the base error |
| AccountClient.Client.Delete | pkg/account/client/client.go:96-110 | exactly one Delete of the account's path with the version query; the result is an empty delete response or "delete account" wrapping the base error |

## Left out

- JSON encoding and decoding. They appear only through their results (`EncodedBody`, `Target<T>`, `Env.decodeError`). Field tags, `omitempty` and partial decoding into a target are not modelled.
- `url.Parse` and `url.URL.Parse`. They are the parameters `UrlParser` and `Env.resolve`. The URL's `String()` form and the `RawQuery` encoding by `url.Values.Encode` are not modelled: the query is kept as `url.Values`.
- HttpClient.Client.NewRequest: does not model the checks of `http.NewRequestWithContext` (pkg/client/client.go:169-172). The model keeps any method as given and never fails on it, and does not model the context at all. net/http turns an empty method into GET, and fails on an invalid method or a nil context. Get, Post and Delete always pass a valid method. But they pass their context straight through, and the accounts client passes its own down to them. So with a nil context they, and the accounts operations above them, fail with a doubled "create request" error and send nothing. The model's Get, Post and Delete send whenever the request builds.
- The canonicalisation of header names by `http.Header.Set`. Headers are a map keyed by name as given, so a client header overrides a default only when spelled the same way.
- Http.Response: a response always carries a method and a URL, and nothing ties them to the request that was sent. In Go, `errorResponse.Error` (pkg/client/errors.go:57-58) reads them from `resp.Request` and panics when a transport returns a response without one, as the test doubles do. The network is a fixed function of the request (`Transport.respond`), so repeated sends of one request always get the same outcome.
- The request context, cancellation, and the response body's `Close`.
- The default `http.Client`, with its 3-second timeout and transport. It is the `network` parameter of `HttpClient.New`.
- The clock. `time.Now().UTC().Format(time.RFC850)` is the `Env.date` parameter.
- User-defined `Opt` functions. Only the three options the package defines are modelled.
- The accounts client is modelled against the Get, Post and Delete interface it declares (`AccountClient.BaseClient`), not composed with `HttpClient.Client`. The `form3` facade that wires the two together (pkg/form3/form3.go) is not part of this model.
- `Account` and `Attributes` hold strings and sequences by value. Go slices and pointers to strings and booleans can alias; that aliasing (for example a `Name` slice shared between two attributes objects) is not modelled.
- The test doubles (counterfeiter fakes) and the fixtures.
