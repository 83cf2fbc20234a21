/** What the console exchanges with the browser and the remote service:
    requests, responses, thrown error values, notifications, and the
    `Browser` object that holds the token entry of localStorage, the log of
    requests handed to `fetch` and the log of toasts and navigations. */
module Http {
  import opened Common
  import opened Types

  datatype Method = GET | POST | PUT | DELETE

  type Headers = map<string, string>

  /** Values the console serialises with JSON.stringify. */
  datatype Dto =
    | ProjectBody(project: ProyectoDto)
    | TitleBody(title: string)
    | Credentials(email: string, password: string)
    | PasswordReset(token: string, newPassword: string)

  datatype FormPart = FilePart(name: string, file: VideoFile) | TextPart(name: string, value: string)

  datatype RequestBody = NoBody | JsonOf(dto: Dto) | Multipart(parts: seq<FormPart>)

  datatype Request = Request(url: string, verb: Method, headers: Headers, body: RequestBody)

  datatype FieldError = FieldError(field: string, msg: string)

  /** A parsed JSON body, seen through the paths the console reads:
      `message` (with "" for absent or empty), `fieldErrors` (entries in
      order), `data.token` ("" for absent), and the whole body read as a
      projects page or as a videos response when it has that shape. */
  datatype Json = Json(
    message: string,
    fieldErrors: Option<seq<FieldError>>,
    dataToken: string,
    asProjectPage: Option<PaginationResponse<ProyectoApi>>,
    asVideosResponse: Option<VideosResponse>)

  /** `{}` */
  const EmptyObject: Json := Json("", None, "", None, None)

  /** `data.message || fallback` */
  function MessageOr(data: Json, fallback: string): (m: string)
    ensures fallback != "" ==> m != ""
  {
    if data.message != "" then data.message else fallback
  }

  /** A response; `json` is the result of parsing the body text, `None`
      when it is not JSON. Header values are `None` when absent. */
  datatype Response = Response(
    status: int,
    statusText: string,
    contentType: Option<string>,
    contentLength: Option<string>,
    text: string,
    json: Option<Json>)

  predicate IsOk(status: int) {
    200 <= status <= 299
  }

  /** What `fetch` yields: a response, or a rejection (network failure). */
  datatype Reply = NetworkFailure | Received(response: Response)

  /** The remote service: the reply to the k-th request ever sent. */
  type Server = (nat, Request) -> Reply

  /** Values the code throws: plain `{status, message, fieldErrors?}` objects
      (not `instanceof Error`), or Error instances, which have no status. */
  datatype Thrown =
    | ApiError(status: int, message: string, fieldErrors: Option<seq<FieldError>>)
    | ErrorInstance(message: string)
  {
    predicate IsUnauthorized() {
      ApiError? && status == 401
    }
  }

  /** The message of the TypeError `fetch` rejects with. */
  const FailedToFetch: string := "Failed to fetch"

  datatype Toast = Toast(title: string, description: string, destructive: bool)

  datatype UiEvent = Notified(toast: Toast) | Navigated(path: string)

  /** The browser state the console reads and writes, as a value. */
  datatype World = World(token: Option<string>, sent: seq<Request>, events: seq<UiEvent>)

  /** A world after an exchange, and what the exchange produced. */
  datatype Step<T> = Step(world: World, result: T)

  /** Controller state and world after a command, and what it re-throws. */
  datatype Run<S> = Run(state: S, world: World, thrown: Option<Thrown>)

  /** The token entry counts as present when it is a non-empty string. */
  predicate HasToken(token: Option<string>) {
    token.Some? && token.value != ""
  }

  /** Hands `req` to the service: it joins the log, and the reply is the
      service's answer to the request at that position. */
  function Send(w: World, server: Server, req: Request): Step<Reply> {
    Step(w.(sent := w.sent + [req]), server(|w.sent|, req))
  }

  function WithToast(w: World, t: Toast): World {
    w.(events := w.events + [Notified(t)])
  }

  function WithNavigation(w: World, path: string): World {
    w.(events := w.events + [Navigated(path)])
  }

  class Browser {
    var token: Option<string>
    var sent: seq<Request>
    var events: seq<UiEvent>
    const server: Server

    constructor (server: Server, token: Option<string>)
      ensures this.server == server
      ensures View() == World(token, [], [])
    {
      this.server := server;
      this.token := token;
      sent := [];
      events := [];
    }

    function View(): World
      reads this
    {
      World(token, sent, events)
    }

    /** `fetch`: log the request and hand back the service's reply. */
    method Fetch(req: Request) returns (reply: Reply)
      modifies this
      ensures Step(View(), reply) == Send(old(View()), server, req)
    {
      reply := server(|sent|, req);
      sent := sent + [req];
    }

    /** localStorage.setItem("token", t) */
    method SetToken(t: string)
      modifies this
      ensures View() == old(View()).(token := Some(t))
    {
      token := Some(t);
    }

    /** localStorage.removeItem("token") */
    method RemoveToken()
      modifies this
      ensures View() == old(View()).(token := None)
    {
      token := None;
    }

    method Notify(t: Toast)
      modifies this
      ensures View() == WithToast(old(View()), t)
    {
      events := events + [Notified(t)];
    }

    method Navigate(path: string)
      modifies this
      ensures View() == WithNavigation(old(View()), path)
    {
      events := events + [Navigated(path)];
    }
  }
}
