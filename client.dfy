/** The shared HTTP client: header building, the request URL, and the
    classification of a response into a payload or a thrown error, with the
    token entry removed on 401. */
module Client {
  import opened Common
  import opened Types
  import opened Http

  const ApiBase: string := "https://elevideo.onrender.com"
  const SessionExpiredMessage: string := "Sesión expirada. Por favor inicia sesión de nuevo"
  /** The message of the SyntaxError `response.json()` rejects with. */
  const InvalidJson: string := "Unexpected token in JSON"

  /** What a successful request resolves to. */
  datatype Payload = Null | Parsed(json: Json) | Text(text: string)

  /** The `RequestInit` a caller passes to `request`. */
  datatype RequestInit = RequestInit(verb: Method, headers: Headers, body: RequestBody)

  /** A call through one of the four wrappers `get`, `post`, `put`, `delete`. */
  datatype Call =
    | GetCall(endpoint: string)
    | PostCall(endpoint: string, dto: Dto)
    | PutCall(endpoint: string, dto: Dto)
    | DeleteCall(endpoint: string)

  /** The `RequestInit` each wrapper hands to `request`: GET and DELETE send
      no body, POST and PUT send the serialised DTO; none adds headers. */
  function InitOf(call: Call): (init: RequestInit)
    ensures init.headers == map[]
    ensures init.body == NoBody <==> call.GetCall? || call.DeleteCall?
    ensures call.PostCall? || call.PutCall? ==> init.body == JsonOf(call.dto)
    ensures init.verb == match call
                         case GetCall(_) => GET
                         case PostCall(_, _) => POST
                         case PutCall(_, _) => PUT
                         case DeleteCall(_) => DELETE
  {
    match call
    case GetCall(_) => RequestInit(GET, map[], NoBody)
    case PostCall(_, dto) => RequestInit(POST, map[], JsonOf(dto))
    case PutCall(_, dto) => RequestInit(PUT, map[], JsonOf(dto))
    case DeleteCall(_) => RequestInit(DELETE, map[], NoBody)
  }

  /** Default headers: always the JSON content type, and a bearer
      authorisation exactly when the stored token is a non-empty string. */
  function AuthHeaders(token: Option<string>): (h: Headers)
    ensures "Content-Type" in h && h["Content-Type"] == "application/json"
    ensures "Authorization" in h <==> HasToken(token)
    ensures HasToken(token) ==> h["Authorization"] == "Bearer " + token.value
    ensures h.Keys <= {"Content-Type", "Authorization"}
  {
    var base := map["Content-Type" := "application/json"];
    if HasToken(token) then base["Authorization" := "Bearer " + token.value] else base
  }

  /** `{...defaults, ...given}`: the caller's headers win on a shared key. */
  function MergeHeaders(defaults: Headers, given: Headers): (h: Headers)
    ensures h.Keys == defaults.Keys + given.Keys
    ensures forall k :: k in given ==> h[k] == given[k]
    ensures forall k :: k in defaults && k !in given ==> h[k] == defaults[k]
  {
    defaults + given
  }

  /** The request `request(endpoint, init)` hands to fetch. */
  function BuildRequest(baseUrl: string, endpoint: string, init: RequestInit, token: Option<string>): Request {
    Request(baseUrl + endpoint, init.verb, MergeHeaders(AuthHeaders(token), init.headers), init.body)
  }

  /** `response.headers.get("content-type")` is present and includes
      "application/json". */
  predicate IsJsonContent(resp: Response) {
    resp.contentType.Some? && Contains(resp.contentType.value, "application/json")
  }

  predicate IsNoContent(resp: Response) {
    resp.status == 204 || resp.contentLength == Some("0")
  }

  /** How `request` turns a response into a result. */
  function Classify(resp: Response): (r: Result<Payload, Thrown>)
    // 401 first, whatever the body
    ensures resp.status == 401 ==> r == Err(ApiError(401, SessionExpiredMessage, None))
    // every other non-2xx: that status, the body's message or "Error: <statusText>", no field errors
    ensures !IsOk(resp.status) && resp.status != 401 ==>
      r == Err(ApiError(resp.status,
                        if resp.json.Some? && resp.json.value.message != "" then resp.json.value.message
                        else "Error: " + resp.statusText,
                        None))
    ensures IsOk(resp.status) && IsNoContent(resp) ==> r == Ok(Null)
    ensures IsOk(resp.status) && !IsNoContent(resp) && IsJsonContent(resp) ==>
      r == if resp.json.Some? then Ok(Parsed(resp.json.value)) else Err(ErrorInstance(InvalidJson))
    ensures IsOk(resp.status) && !IsNoContent(resp) && !IsJsonContent(resp) ==>
      r == Ok(if resp.text == "" then Null else Text(resp.text))
  {
    if resp.status == 401 then
      Err(ApiError(401, SessionExpiredMessage, None))
    else if !IsOk(resp.status) then
      var errorData := resp.json.GetOr(EmptyObject);
      Err(ApiError(resp.status, if errorData.message != "" then errorData.message else "Error: " + resp.statusText, None))
    else if IsNoContent(resp) then
      Ok(Null)
    else if IsJsonContent(resp) then
      match resp.json
      case Some(j) => Ok(Parsed(j))
      case None => Err(ErrorInstance(InvalidJson))
    else
      Ok(if resp.text != "" then Text(resp.text) else Null)
  }

  /** A request's result: a network failure rejects with fetch's TypeError. */
  function Outcome(reply: Reply): Result<Payload, Thrown> {
    match reply
    case NetworkFailure => Err(ErrorInstance(FailedToFetch))
    case Received(resp) => Classify(resp)
  }

  predicate Unauthorized(reply: Reply) {
    reply.Received? && reply.response.status == 401
  }

  /** `request` as a function of the world: one request sent, the token
      entry removed on 401, the result classified. */
  function RequestSpec(baseUrl: string, endpoint: string, init: RequestInit, w: World, server: Server): Step<Result<Payload, Thrown>> {
    var st := Send(w, server, BuildRequest(baseUrl, endpoint, init, w.token));
    Step(if Unauthorized(st.result) then st.world.(token := None) else st.world, Outcome(st.result))
  }

  function CallSpec(baseUrl: string, call: Call, w: World, server: Server): Step<Result<Payload, Thrown>> {
    RequestSpec(baseUrl, call.endpoint, InitOf(call), w, server)
  }

  // ---------------------------------------------------------------------
  // Properties of a request

  /** Client errors carry the response status and never a field-error map;
      a thrown value with a status always comes from a non-2xx response. */
  lemma ErrorsCarryStatus(resp: Response)
    ensures Classify(resp).Err? && Classify(resp).error.ApiError? <==> !IsOk(resp.status)
    ensures Classify(resp).Err? && Classify(resp).error.ApiError? ==>
      Classify(resp).error.status == resp.status && Classify(resp).error.fieldErrors.None? &&
      Classify(resp).error.message != ""
  {
  }

  /** A request sends exactly one request, to `baseUrl + endpoint`, with the
      default headers overridden by the caller's; it leaves the UI events alone
      and changes the token entry only by removing it on a 401. */
  lemma RequestEffect(baseUrl: string, endpoint: string, init: RequestInit, w: World, server: Server)
    ensures var st := RequestSpec(baseUrl, endpoint, init, w, server);
      && |st.world.sent| == |w.sent| + 1
      && st.world.sent[..|w.sent|] == w.sent
      && st.world.sent[|w.sent|].url == baseUrl + endpoint
      && st.world.sent[|w.sent|].headers ==
           MergeHeaders(AuthHeaders(w.token), init.headers)
      && st.world.events == w.events
      && st.world.token == (if Unauthorized(server(|w.sent|, st.world.sent[|w.sent|])) then None else w.token)
  {
  }

  /** The four wrappers add no headers, so every call they make carries
      the JSON content type, and a bearer token exactly when one is stored. */
  lemma CallHeaders(baseUrl: string, call: Call, w: World, server: Server)
    ensures var h := CallSpec(baseUrl, call, w, server).world.sent[|w.sent|].headers;
      && h["Content-Type"] == "application/json"
      && ("Authorization" in h <==> HasToken(w.token))
      && (HasToken(w.token) ==> h["Authorization"] == "Bearer " + w.token.value)
  {
  }

  /** After a 401 reply the token entry is empty, whatever it held. */
  lemma UnauthorizedClearsToken(baseUrl: string, endpoint: string, init: RequestInit, w: World, server: Server)
    requires Unauthorized(server(|w.sent|, BuildRequest(baseUrl, endpoint, init, w.token)))
    ensures RequestSpec(baseUrl, endpoint, init, w, server).world.token == None
    ensures RequestSpec(baseUrl, endpoint, init, w, server).result ==
      Err(ApiError(401, SessionExpiredMessage, None))
  {
  }

  class ApiClient {
    const baseUrl: string
    const host: Browser

    constructor (host: Browser, baseUrl: string := ApiBase)
      ensures this.host == host && this.baseUrl == baseUrl
    {
      this.host := host;
      this.baseUrl := baseUrl;
    }

    method Request(endpoint: string, init: RequestInit) returns (r: Result<Payload, Thrown>)
      modifies host
      ensures Step(host.View(), r) == RequestSpec(baseUrl, endpoint, init, old(host.View()), host.server)
    {
      var req := BuildRequest(baseUrl, endpoint, init, host.token);
      var reply := host.Fetch(req);
      match reply {
        case NetworkFailure =>
          r := Err(ErrorInstance(FailedToFetch));
        case Received(resp) =>
          if resp.status == 401 {
            host.RemoveToken();
          }
          r := Classify(resp);
      }
    }

    /** `get`, `post`, `put` and `delete`. */
    method Perform(call: Call) returns (r: Result<Payload, Thrown>)
      modifies host
      ensures Step(host.View(), r) == CallSpec(baseUrl, call, old(host.View()), host.server)
    {
      r := Request(call.endpoint, InitOf(call));
    }
  }
}
