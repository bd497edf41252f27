/**
 * The injected HTTP collaborator. Transport, authentication and the Atlas
 * wire format are outside the model: the collaborator is an oracle that
 * answers the n-th request with a parsed JSON value or a transport error,
 * and it records every request it is sent.
 */
module Http {
  import opened Json

  datatype Verb = Get | Post | Put | Delete

  /** One call `client.<verb>(url, params=..., data=...)`; absent params are {} and absent data is None. */
  datatype Request = Request(verb: Verb, url: string, params: map<string, Value>, body: Value)

  class Client {
    /** `client.base_url`. */
    const baseUrl: string
    /** `client.version`, the server version tuple. */
    const version: seq<int>
    /** The answer to the n-th request sent. */
    const respond: (nat, Request) -> Result<Value>
    /** Every request sent so far, in order. */
    var sent: seq<Request>

    constructor(baseUrl: string, version: seq<int>, respond: (nat, Request) -> Result<Value>)
      ensures this.baseUrl == baseUrl && this.version == version && this.respond == respond
      ensures sent == []
    {
      this.baseUrl := baseUrl;
      this.version := version;
      this.respond := respond;
      sent := [];
    }

    /** Issue one request and return the collaborator's answer to it. */
    method Send(req: Request) returns (r: Result<Value>)
      modifies this`sent
      ensures sent == old(sent) + [req]
      ensures r == respond(|old(sent)|, req)
    {
      r := respond(|sent|, req);
      sent := sent + [req];
    }
  }
}
