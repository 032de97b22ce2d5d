/**
 * The accounts client: create, fetch and delete against
 * /v1/organisation/accounts/, over any base client offering Get, Post and
 * Delete. Each operation makes at most one base call and wraps its error
 * with the operation's name.
 */
module AccountClient {
  import opened Wrappers
  import Decimal
  import opened Errors
  import opened Account

  const AccountsBasePath := "/v1/organisation/accounts/"

  /** The JSON envelope Create posts: the account under "data". */
  datatype CreationRequest = CreationRequest(data: Account?)

  /** One call on the base client, with every argument it was given. */
  datatype BaseCall =
    | GetCall(path: string, query: Option<map<string, string>>)
    | PostCall(path: string, body: CreationRequest)
    | DeleteCall(path: string, query: Option<map<string, string>>)

  /**
   * What a base call came back with: success, with what was decoded into the
   * target (None when nothing was, as for a 204), or the error it returned.
   */
  datatype BaseReply =
    | Succeeded(decoded: Option<Response>)
    | Failed(error: Error)

  /**
   * The baseClient interface. Its behaviour is the reply function; calls
   * records every call made, in order.
   */
  class BaseClient {
    const reply: BaseCall -> BaseReply
    var calls: seq<BaseCall>

    constructor(reply: BaseCall -> BaseReply)
      ensures this.reply == reply && calls == []
    {
      this.reply := reply;
      calls := [];
    }

    method Get(path: string, query: Option<map<string, string>>) returns (r: BaseReply)
      modifies this
      ensures calls == old(calls) + [GetCall(path, query)]
      ensures r == reply(GetCall(path, query))
    {
      calls := calls + [GetCall(path, query)];
      r := reply(GetCall(path, query));
    }

    method Post(path: string, body: CreationRequest) returns (r: BaseReply)
      modifies this
      ensures calls == old(calls) + [PostCall(path, body)]
      ensures r == reply(PostCall(path, body))
    {
      calls := calls + [PostCall(path, body)];
      r := reply(PostCall(path, body));
    }

    method Delete(path: string, query: Option<map<string, string>>) returns (r: BaseReply)
      modifies this
      ensures calls == old(calls) + [DeleteCall(path, query)]
      ensures r == reply(DeleteCall(path, query))
    {
      calls := calls + [DeleteCall(path, query)];
      r := reply(DeleteCall(path, query));
    }
  }

  /** The resource path of one account. */
  function AccountPath(id: string): (p: string)
    ensures |p| == |AccountsBasePath| + |id|
    ensures p[..|AccountsBasePath|] == AccountsBasePath && p[|AccountsBasePath|..] == id
  {
    AccountsBasePath + id
  }

  /** Distinct account IDs address distinct resources. */
  lemma AccountPathInjective(id1: string, id2: string)
    ensures AccountPath(id1) == AccountPath(id2) <==> id1 == id2
  {
    if AccountPath(id1) == AccountPath(id2) {
      assert id1 == AccountPath(id1)[|AccountsBasePath|..];
    }
  }

  /** The query of a delete: the version, in decimal as %d prints it. */
  function DeleteQuery(version: int64): map<string, string> {
    map["version" := Decimal.FromInt(version as int)]
  }

  /** The delete query carries exactly one parameter, and it reads back as the version. */
  lemma DeleteQueryCarriesVersion(version: int64)
    ensures DeleteQuery(version).Keys == {"version"}
    ensures Decimal.ToInt(DeleteQuery(version)["version"]) == Some(version as int)
  {
    Decimal.IntRoundTrip(version as int);
  }

  /** Different versions give different delete queries. */
  lemma DeleteQueryInjective(v1: int64, v2: int64)
    ensures DeleteQuery(v1) == DeleteQuery(v2) <==> v1 == v2
  {
    if DeleteQuery(v1) == DeleteQuery(v2) {
      DeleteQueryCarriesVersion(v1);
      DeleteQueryCarriesVersion(v2);
    }
  }

  /**
   * Wrapping an error with an operation's name keeps the HTTP error response
   * inside it reachable, so callers can still unwrap to the status and body.
   */
  lemma OperationErrorUnwraps(op: string, e: Error)
    ensures AsErrorResponse(Wrapped(op, e)) == AsErrorResponse(e)
    ensures Text(Wrapped(op, e)) == op + ": " + Text(e)
  {
  }

  /** The accounts client, bound to one base client. */
  class Client {
    const base: BaseClient

    constructor New(base: BaseClient)
      ensures this.base == base
    {
      this.base := base;
    }

    /**
     * Create: a nil account is refused before any call; otherwise one Post of
     * the account to the collection path, and the decoded response.
     */
    method Create(acc: Account?) returns (r: Result<Response, Error>)
      modifies base
      ensures acc == null ==> r == Err(Plain("account entity is nil")) && base.calls == old(base.calls)
      ensures acc != null ==>
        var call := PostCall(AccountsBasePath, CreationRequest(acc));
        && base.calls == old(base.calls) + [call]
        && match base.reply(call)
           case Failed(e) => r == Err(Wrapped("create account", e))
           case Succeeded(d) => r == Ok(d.GetOr(EmptyResponse))
    {
      if acc == null {
        return Err(Plain("account entity is nil"));
      }
      var reply := base.Post(AccountsBasePath, CreationRequest(acc));
      if reply.Failed? {
        return Err(Wrapped("create account", reply.error));
      }
      return Ok(reply.decoded.GetOr(EmptyResponse));
    }

    /** Fetch: one Get of the account's path with no query, and the decoded response. */
    method Fetch(params: FetchAccountParams) returns (r: Result<Response, Error>)
      modifies base
      ensures
        var call := GetCall(AccountPath(params.id), None);
        && base.calls == old(base.calls) + [call]
        && match base.reply(call)
           case Failed(e) => r == Err(Wrapped("fetch account", e))
           case Succeeded(d) => r == Ok(d.GetOr(EmptyResponse))
    {
      var reply := base.Get(AccountPath(params.id), None);
      if reply.Failed? {
        return Err(Wrapped("fetch account", reply.error));
      }
      return Ok(reply.decoded.GetOr(EmptyResponse));
    }

    /** Delete: one Delete of the account's path with the version as query. */
    method Delete(params: DeleteAccountParams) returns (r: Result<DeleteResponse, Error>)
      modifies base
      ensures
        var call := DeleteCall(AccountPath(params.id), Some(DeleteQuery(params.version)));
        && base.calls == old(base.calls) + [call]
        && match base.reply(call)
           case Failed(e) => r == Err(Wrapped("delete account", e))
           case Succeeded(_) => r == Ok(DeleteResponse)
    {
      var reply := base.Delete(AccountPath(params.id), Some(DeleteQuery(params.version)));
      if reply.Failed? {
        return Err(Wrapped("delete account", reply.error));
      }
      return Ok(DeleteResponse);
    }
  }
}
