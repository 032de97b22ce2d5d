/**
 * The error values of the client: the structured error body the API sends
 * (apiError), the error for a response outside the success band
 * (errorResponse), and Go's error chain built by wrapping with a context.
 */
module Errors {
  import opened Wrappers
  import Http
  import Decimal

  /** The error body of a 400, 403 or 409 response; every field may be missing. */
  datatype ApiError = ApiError(
    errorMessage: Option<string>,
    errorCode: Option<string>,
    err: Option<string>,
    errorDescription: Option<string>)

  /** `tag` followed by the field's value, or nothing when the field is missing. */
  function Labelled(tag: string, field: Option<string>): string {
    if field.Some? then tag + field.value else ""
  }

  /** The present fields after the message, in order, each with its label. */
  function LabelledRest(e: ApiError): string {
    Labelled(": code: ", e.errorCode) + Labelled(": error: ", e.err) + Labelled(": desc: ", e.errorDescription)
  }

  /** The present fields of an apiError in order, the message unlabelled; empty when none is present. */
  function FieldsText(e: ApiError): string {
    Labelled("", e.errorMessage) + LabelledRest(e)
  }

  /** apiError.Error: the fields' text, or "unknown error" when that comes out empty. */
  function ApiErrorText(e: ApiError): (s: string)
    ensures |s| > 0
  {
    var msg := FieldsText(e);
    if msg == "" then "unknown error" else msg
  }

  /** An errorResponse: the response that was classified, and its decoded error body if one was read. */
  datatype ErrorResponse = ErrorResponse(httpResponse: Http.Response, underlying: Option<ApiError>)

  /** errorResponse.HTTPResponse: the stored response, unchanged. */
  function HTTPResponse(e: ErrorResponse): Http.Response {
    e.httpResponse
  }

  /** The part of errorResponse.Error that every such error starts with. */
  function StatusLine(r: Http.Response): string {
    r.verb + " " + r.url + " returned status " + Decimal.FromInt(r.status)
  }

  /** What errorResponse.Error puts after the status line: ": " and the underlying error's text, if there is one. */
  function UnderlyingText(e: ErrorResponse): string {
    if e.underlying.Some? then ": " + ApiErrorText(e.underlying.value) else ""
  }

  /** errorResponse.Error. */
  function ErrorResponseText(e: ErrorResponse): string {
    StatusLine(e.httpResponse) + UnderlyingText(e)
  }

  /**
   * A Go error value as this client produces it: an error from a library
   * (opaque text), a plain fmt.Errorf without a cause, an errorResponse, or
   * fmt.Errorf("context: %w", cause).
   */
  datatype Error =
    | Opaque(message: string)
    | Plain(message: string)
    | Api(response: ErrorResponse)
    | Wrapped(context: string, cause: Error)

  /** Error() of the value; %w renders as "context: " and the cause's text. */
  function Text(e: Error): string {
    match e
    case Opaque(m) => m
    case Plain(m) => m
    case Api(r) => ErrorResponseText(r)
    case Wrapped(c, cause) => c + ": " + Text(cause)
  }

  /** errors.As for the errorResponse type: the first errorResponse along the chain. */
  function AsErrorResponse(e: Error): Option<ErrorResponse> {
    match e
    case Api(r) => Some(r)
    case Wrapped(_, cause) => AsErrorResponse(cause)
    case _ => None
  }

  /** Wraps e in the contexts, innermost last: WrapAll(["a", "b"], e) is "a: b: e". */
  function WrapAll(contexts: seq<string>, e: Error): Error {
    if contexts == [] then e else Wrapped(contexts[0], WrapAll(contexts[1..], e))
  }

  // ----- properties of apiError.Error -----

  lemma ApiErrorTextAllAbsent()
    ensures ApiErrorText(ApiError(None, None, None, None)) == "unknown error"
  {
  }

  /** With only a (non-empty) message, the text is exactly that message. */
  lemma ApiErrorTextMessageOnly(m: string)
    requires m != ""
    ensures ApiErrorText(ApiError(Some(m), None, None, None)) == m
  {
  }

  /** With every field present they appear in the fixed order, each with its label. */
  lemma ApiErrorTextAllPresent(m: string, c: string, x: string, d: string)
    ensures ApiErrorText(ApiError(Some(m), Some(c), Some(x), Some(d)))
         == m + ": code: " + c + ": error: " + x + ": desc: " + d
  {
  }

  /** A present, non-empty message always comes first. */
  lemma ApiErrorTextStartsWithMessage(e: ApiError)
    requires e.errorMessage.Some? && e.errorMessage.value != ""
    ensures var m := e.errorMessage.value; |m| <= |ApiErrorText(e)| && ApiErrorText(e)[..|m|] == m
  {
    var m := e.errorMessage.value;
    var rest := LabelledRest(e);
    assert Labelled("", e.errorMessage) == m by {
      assert "" + m == m;
    }
    assert FieldsText(e) == m + rest;
    assert ApiErrorText(e) == m + rest;
    assert (m + rest)[..|m|] == m;
  }

  /**
   * Without a message, or with an empty one, the text starts with the label of
   * the first present field: ": code: " when there is a code, else ": error: ",
   * else ": desc: ".
   */
  lemma ApiErrorTextStartsWithLabel(e: ApiError)
    requires e.errorMessage.None? || e.errorMessage.value == ""
    requires e.errorCode.Some? || e.err.Some? || e.errorDescription.Some?
    ensures var lead := if e.errorCode.Some? then ": code: " else if e.err.Some? then ": error: " else ": desc: ";
      |lead| <= |ApiErrorText(e)| && ApiErrorText(e)[..|lead|] == lead
  {
    var lead := if e.errorCode.Some? then ": code: " else if e.err.Some? then ": error: " else ": desc: ";
    assert Labelled("", e.errorMessage) == "";
    assert FieldsText(e) == LabelledRest(e);
    var t := LabelledRest(e);
    if e.errorCode.Some? {
      assert t == lead + e.errorCode.value + Labelled(": error: ", e.err) + Labelled(": desc: ", e.errorDescription);
    } else if e.err.Some? {
      assert t == lead + e.err.value + Labelled(": desc: ", e.errorDescription);
    } else {
      assert t == lead + e.errorDescription.value;
    }
    assert ApiErrorText(e) == t;
  }

  /**
   * The shape of the API's 403 body (an error token and a description, no
   * message): the text starts with the error's label, e.g.
   * ": error: invalid_grant: desc: Wrong email or password.".
   */
  lemma ApiErrorTextErrorAndDescription(x: string, d: string)
    ensures ApiErrorText(ApiError(None, None, Some(x), Some(d))) == ": error: " + x + ": desc: " + d
  {
  }

  // ----- properties of errorResponse.Error -----

  /** Every errorResponse text begins "<METHOD> <URL> returned status <code>". */
  lemma ErrorResponseTextStartsWithStatusLine(e: ErrorResponse)
    ensures var line := StatusLine(e.httpResponse);
      |line| <= |ErrorResponseText(e)| && ErrorResponseText(e)[..|line|] == line
  {
    var line := StatusLine(e.httpResponse);
    assert (line + UnderlyingText(e))[..|line|] == line;
  }

  /** Something follows the status line iff there is an underlying error, and then it is ": " and its text. */
  lemma ErrorResponseTextExtendsIffUnderlying(e: ErrorResponse)
    ensures |ErrorResponseText(e)| > |StatusLine(e.httpResponse)| <==> e.underlying.Some?
    ensures e.underlying.Some? ==>
      ErrorResponseText(e)[|StatusLine(e.httpResponse)|..] == ": " + ApiErrorText(e.underlying.value)
  {
    var line := StatusLine(e.httpResponse);
    assert (line + UnderlyingText(e))[|line|..] == UnderlyingText(e);
  }

  // ----- the error chain -----

  /** Wrapping with any number of contexts keeps the errorResponse reachable by errors.As. */
  lemma {:induction false} WrapAllKeepsErrorResponse(contexts: seq<string>, e: Error)
    ensures AsErrorResponse(WrapAll(contexts, e)) == AsErrorResponse(e)
    decreases |contexts|
  {
    if contexts != [] {
      WrapAllKeepsErrorResponse(contexts[1..], e);
    }
  }

  /** The contexts as %w renders them in front of the cause: each followed by ": ". */
  function ContextsText(contexts: seq<string>): string
    decreases |contexts|
  {
    if contexts == [] then "" else contexts[0] + ": " + ContextsText(contexts[1..])
  }

  /** The wrapped text is the contexts, each followed by ": ", then the cause's text; so it ends with the cause's text. */
  lemma {:induction false} WrapAllText(contexts: seq<string>, e: Error)
    ensures Text(WrapAll(contexts, e)) == ContextsText(contexts) + Text(e)
    ensures |Text(e)| <= |Text(WrapAll(contexts, e))|
    ensures var t := Text(WrapAll(contexts, e)); t[|t| - |Text(e)|..] == Text(e)
    decreases |contexts|
  {
    if contexts != [] {
      WrapAllText(contexts[1..], e);
      var inner := Text(WrapAll(contexts[1..], e));
      assert Text(WrapAll(contexts, e)) == contexts[0] + ": " + inner;
      assert inner == ContextsText(contexts[1..]) + Text(e);
      assert contexts[0] + ": " + (ContextsText(contexts[1..]) + Text(e))
          == (contexts[0] + ": " + ContextsText(contexts[1..])) + Text(e);
    }
    var t := Text(WrapAll(contexts, e));
    assert t == ContextsText(contexts) + Text(e);
    assert t[|t| - |Text(e)|..] == Text(e);
  }
}
