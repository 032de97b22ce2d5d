/**
 * The parts of Go's net/http and net/url that the client reads and writes:
 * URLs with their parsed query, requests, responses, the status codes the
 * client names (section 15 of RFC 9110) and the transport the client sends
 * through.
 */
module Http {
  import opened Wrappers

  newtype byte = x: int | 0 <= x < 256
  type Bytes = seq<byte>

  const MethodGet := "GET"
  const MethodPost := "POST"
  const MethodDelete := "DELETE"

  /** 204, "No Content" (section 15.3.5 of RFC 9110). */
  const StatusNoContent := 204
  const StatusBadRequest := 400
  const StatusForbidden := 403
  const StatusConflict := 409

  /** url.Values: each query key with its list of values, in the order they were added. */
  type Values = map<string, seq<string>>

  /** The parts of a url.URL the client uses; the query is kept parsed, as url.Values. */
  datatype Url = Url(scheme: string, host: string, path: string, query: Values)

  /** A request as http.NewRequestWithContext leaves it once the client has set its headers. */
  datatype Request = Request(verb: string, url: Url, header: map<string, string>, body: Option<Bytes>)

  /**
   * A response: its status, the method (verb) and rendered URL of the request that
   * produced it (Response.Request, which the transport fills in) and its body.
   */
  datatype Response = Response(status: int, verb: string, url: string, body: Bytes)

  /** What a single send gives back: a response, or a transport-level error. */
  datatype Outcome = Received(response: Response) | Failed(cause: string)

  /** The values stored under key k (none when k is absent). */
  function ValuesAt(q: Values, k: string): seq<string> {
    if k in q then q[k] else []
  }

  /** url.Values.Add: appends v to the values of k. */
  function Add(q: Values, k: string, v: string): (r: Values)
    ensures r.Keys == q.Keys + {k}
    ensures ValuesAt(r, k) == ValuesAt(q, k) + [v]
    ensures forall j :: j in q && j != k ==> r[j] == q[j]
  {
    q[k := ValuesAt(q, k) + [v]]
  }

  /**
   * The values after every pair of `pairs` has been added once, in any order:
   * each key of `pairs` gains its value at the end, every other key keeps its list.
   */
  function AddAll(q: Values, pairs: map<string, string>): Values {
    map k | k in q.Keys + pairs.Keys :: ValuesAt(q, k) + (if k in pairs then [pairs[k]] else [])
  }

  lemma AddAllEmpty(q: Values)
    ensures AddAll(q, map[]) == q
  {
    var r := AddAll(q, map[]);
    assert r.Keys == q.Keys;
    assert forall k :: k in r ==> r[k] == q[k];
  }

  /** Every given pair is present, as the last value of its key; other keys are untouched. */
  lemma AddAllContains(q: Values, pairs: map<string, string>)
    ensures forall k :: k in pairs ==> k in AddAll(q, pairs) && AddAll(q, pairs)[k] == ValuesAt(q, k) + [pairs[k]]
    ensures forall k :: k !in pairs ==> ValuesAt(AddAll(q, pairs), k) == ValuesAt(q, k)
  {
  }

  /** Adding one more key that is not yet among the pairs extends AddAll by one Add. */
  lemma AddAllStep(q: Values, pairs: map<string, string>, k: string, v: string)
    requires k !in pairs
    ensures Add(AddAll(q, pairs), k, v) == AddAll(q, pairs[k := v])
  {
    var lhs := Add(AddAll(q, pairs), k, v);
    var rhs := AddAll(q, pairs[k := v]);
    assert lhs.Keys == rhs.Keys;
    forall j | j in lhs.Keys
      ensures lhs[j] == rhs[j]
    {
      if j != k {
        assert lhs[j] == AddAll(q, pairs)[j];
      }
    }
  }

  /**
   * The http.Client the client sends through. Its answers come from a fixed
   * function of the request; every request handed to it is recorded in order.
   */
  class Transport {
    const respond: Request -> Outcome
    var sent: seq<Request>

    constructor (respond: Request -> Outcome)
      ensures this.respond == respond && sent == []
    {
      this.respond := respond;
      sent := [];
    }

    /** http.Client.Do: one round trip. */
    method Send(req: Request) returns (out: Outcome)
      modifies this
      ensures sent == old(sent) + [req]
      ensures out == respond(req)
    {
      sent := sent + [req];
      out := respond(req);
    }
  }
}
