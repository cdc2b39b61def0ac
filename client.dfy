/**
 * The client object. Its three fields are fixed by the constructor; the only
 * state that changes is the log of requests handed to the transport, which
 * stands for the HTTP call `doRequest` makes.
 */
module Client {
  import opened Wrappers
  import opened Requests
  import Ascii
  import Routes
  import Endpoints

  class ZApi {
    const instanceId: string
    const tokenId: string
    const baseUrl: string
    /** Every request sent so far, oldest first. */
    var sent: seq<Request>

    constructor(instanceId: string, tokenId: string)
      ensures this.instanceId == instanceId && this.tokenId == tokenId
      ensures baseUrl == BaseUrl(instanceId, tokenId)
      ensures sent == []
    {
      this.instanceId := instanceId;
      this.tokenId := tokenId;
      this.baseUrl := BaseUrl(instanceId, tokenId);
      sent := [];
    }

    /**
     * Upper-cases the verb, refuses it unless it is on the whitelist, and only
     * then sends the request: on an error nothing is sent.
     */
    method DoRequest(verb: string, path: string, body: Body) returns (r: Result<Request, Error>)
      modifies this`sent
      ensures r.Ok? <==> exists w :: w in AllowedHttpVerbs && Ascii.CaseVariant(verb, w)
      ensures r.Ok? ==> r.value == Request(Ascii.ToUpper(verb), path, body) && r.value.verb in AllowedHttpVerbs
      ensures r.Ok? ==> sent == old(sent) + [r.value]
      ensures r.Err? ==> r.error == InvalidArgument(Ascii.ToUpper(verb)) && sent == old(sent)
    {
      var checked := CheckVerb(verb);
      match checked {
        case Err(e) =>
          return Err(e);
        case Ok(v) =>
          var request := Request(v, path, body);
          sent := sent + [request];
          return Ok(request);
      }
    }

    /**
     * One public endpoint method: builds its request, throwing first on an
     * extension off the whitelist, and hands it to `DoRequest`, which sends
     * it as built.
     */
    method Invoke(op: Routes.Operation) returns (r: Result<Request, Error>)
      modifies this`sent
      ensures r == Endpoints.Build(op)
      ensures r.Ok? ==> sent == old(sent) + [r.value]
      ensures r.Err? ==> sent == old(sent)
    {
      var built := Endpoints.Build(op);
      if built.Err? {
        return built;
      }
      Endpoints.BuiltVerbIsAccepted(op);
      Ascii.ToUpperOfNoLower(built.value.verb);
      r := DoRequest(built.value.verb, built.value.path, built.value.body);
    }
  }
}
